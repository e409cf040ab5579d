/** The profile page (pages/ProfilePage.jsx): stay lengths, the count of
    upcoming bookings, the profile-update and venue-manager requests, the
    display rules, and the page's state as its requests complete. */
module ProfilePage {

  import opened Wrappers
  import opened Dates
  import opened Venues
  import opened Seqs

  // ---------------------------------------------------------------------------
  // Profiles as the service sends them
  // ---------------------------------------------------------------------------

  /** A JSON value as the page sees it; `Undefined` is a missing key. */
  datatype Value = Undefined | Null | Bool(b: bool) | Num(n: int) | Str(s: string) | Obj(fields: map<string, Value>)

  /** A profile object: `name`, `bio`, `avatar`, `venueManager`, ... */
  type Profile = map<string, Value>

  /** `obj[key]`, `undefined` when the key is missing. */
  function Get(obj: map<string, Value>, key: string): Value
  {
    if key in obj then obj[key] else Undefined
  }

  /** `v?.key`: `undefined` unless `v` is an object. */
  function Member(v: Value, key: string): Value
  {
    if v.Obj? then Get(v.fields, key) else Undefined
  }

  /** JavaScript truthiness. */
  predicate Truthy(v: Value)
  {
    match v
    case Undefined => false
    case Null => false
    case Bool(b) => b
    case Num(n) => n != 0
    case Str(s) => s != ""
    case Obj(_) => true
  }

  /** `a || b`. */
  function Or(a: Value, b: Value): Value
  {
    if Truthy(a) then a else b
  }

  // ---------------------------------------------------------------------------
  // calculateDays and the upcoming-bookings count
  // ---------------------------------------------------------------------------

  /** `calculateDays`: the started days between two instants, whichever
      comes first. */
  function CalculateDays(dateFrom: int, dateTo: int): (days: int)
    ensures (days - 1) * DayMs < Abs(dateTo - dateFrom) <= days * DayMs
  {
    CeilDiv(Abs(dateTo - dateFrom), DayMs)
  }

  /** The stay length ignores the order of its arguments, is never negative,
      and is zero exactly for equal instants. */
  lemma CalculateDaysProperties(a: int, b: int)
    ensures CalculateDays(a, b) == CalculateDays(b, a)
    ensures CalculateDays(a, b) >= 0
    ensures CalculateDays(a, b) == 0 <==> a == b
  {
    assert Abs(b - a) == Abs(a - b);
    CeilDivNonNegative(Abs(b - a), DayMs);
  }

  /** `k` whole days apart is a stay of `k` days. */
  lemma CalculateDaysWhole(a: int, k: nat)
    ensures CalculateDays(a, a + k * DayMs) == k
  {
    assert Abs(a + k * DayMs - a) == k * DayMs;
    CeilDivExact(k, DayMs);
  }

  /** The bookings that start strictly after `now`. */
  function CountUpcoming(bookings: seq<Booking>, now: int): (n: nat)
    ensures n <= |bookings|
  {
    if bookings == [] then 0
    else (if bookings[0].dateFrom > now then 1 else 0) + CountUpcoming(bookings[1..], now)
  }

  /** `venue.bookings?.filter((b) => new Date(b.dateFrom) > now).length`,
      `undefined` when the venue came without its bookings. */
  function UpcomingBookingsCount(bookings: Option<seq<Booking>>, now: int): (r: Option<nat>)
    ensures r.None? <==> bookings.None?
    ensures r.Some? ==> r.value <= |bookings.value|
  {
    if bookings.None? then None else Some(CountUpcoming(bookings.value, now))
  }

  lemma {:induction false} CountUpcomingAppend(xs: seq<Booking>, ys: seq<Booking>, now: int)
    ensures CountUpcoming(xs + ys, now) == CountUpcoming(xs, now) + CountUpcoming(ys, now)
    decreases |xs|
  {
    if xs != [] {
      CountUpcomingAppend(xs[1..], ys, now);
      assert (xs + ys)[0] == xs[0] && (xs + ys)[1..] == xs[1..] + ys;
    } else {
      assert xs + ys == ys;
    }
  }

  /** A booking that starts exactly now is not upcoming. */
  lemma StartingNowNotCounted(bookings: seq<Booking>, b: Booking, now: int)
    requires b.dateFrom == now
    ensures CountUpcoming(bookings + [b], now) == CountUpcoming(bookings, now)
  {
    CountUpcomingAppend(bookings, [b], now);
  }

  /** As time passes the count can only fall. */
  lemma {:induction false} CountUpcomingAntitone(bookings: seq<Booking>, earlier: int, later: int)
    requires earlier <= later
    ensures CountUpcoming(bookings, later) <= CountUpcoming(bookings, earlier)
    decreases |bookings|
  {
    if bookings != [] {
      CountUpcomingAntitone(bookings[1..], earlier, later);
    }
  }

  /** A booking that has already started, or starts exactly now, is never
      counted: when none starts after now the count is zero. */
  lemma {:induction false} PastNotCounted(bookings: seq<Booking>, now: int)
    requires forall i :: 0 <= i < |bookings| ==> bookings[i].dateFrom <= now
    ensures CountUpcoming(bookings, now) == 0
    decreases |bookings|
  {
    if bookings != [] {
      PastNotCounted(bookings[1..], now);
    }
  }

  /** The count is exactly the number of bookings that start after now: a
      past booking added to a list leaves its count, an upcoming one adds
      one. */
  lemma CountUpcomingCons(b: Booking, bookings: seq<Booking>, now: int)
    ensures CountUpcoming([b] + bookings, now) == CountUpcoming(bookings, now) + (if b.dateFrom > now then 1 else 0)
  {
    assert ([b] + bookings)[1..] == bookings;
  }

  /** When every booking starts after now, all of them are counted. */
  lemma {:induction false} AllUpcoming(bookings: seq<Booking>, now: int)
    requires forall i :: 0 <= i < |bookings| ==> bookings[i].dateFrom > now
    ensures CountUpcoming(bookings, now) == |bookings|
    decreases |bookings|
  {
    if bookings != [] {
      AllUpcoming(bookings[1..], now);
    }
  }

  // ---------------------------------------------------------------------------
  // The profile-update request
  // ---------------------------------------------------------------------------

  const AvatarAlt: string := "User avatar"

  /** `handleProfileUpdate`'s body: the avatar url and the bio each take the
      edited text when it is non-empty, else the current value when it is
      truthy, else `""`; the alt text is fixed. */
  function ProfileUpdatePayload(newBio: string, newAvatar: string, profile: Profile): (p: map<string, Value>)
    ensures p.Keys == {"avatar", "bio"}
    ensures Member(p["avatar"], "alt") == Str(AvatarAlt)
    ensures newBio != "" ==> p["bio"] == Str(newBio)
    ensures newBio == "" && Get(profile, "bio").Str? ==> p["bio"] == Get(profile, "bio")
    ensures newBio == "" && !Truthy(Get(profile, "bio")) ==> p["bio"] == Str("")
    ensures newAvatar != "" ==> Member(p["avatar"], "url") == Str(newAvatar)
    ensures var old_url := Member(Get(profile, "avatar"), "url");
      newAvatar == "" && old_url.Str? ==> Member(p["avatar"], "url") == old_url
    ensures var old_url := Member(Get(profile, "avatar"), "url");
      newAvatar == "" && !Truthy(old_url) ==> Member(p["avatar"], "url") == Str("")
  {
    map[
      "avatar" := Obj(map[
        "url" := Or(Or(Str(newAvatar), Member(Get(profile, "avatar"), "url")), Str("")),
        "alt" := Str(AvatarAlt)]),
      "bio" := Or(Or(Str(newBio), Get(profile, "bio")), Str(""))]
  }

  /** `{ ...prevProfile, ...response.data }`: the response's fields win and
      every other field of the profile stays. */
  function MergeProfile(prev: Profile, response: map<string, Value>): (r: Profile)
    ensures r.Keys == prev.Keys + response.Keys
    ensures forall k :: k in response ==> r[k] == response[k]
    ensures forall k :: k in prev && k !in response ==> r[k] == prev[k]
  {
    prev + response
  }

  // ---------------------------------------------------------------------------
  // Becoming or stopping being a venue manager
  // ---------------------------------------------------------------------------

  const DefaultAvatarUrl: string := "https://cdn.pixabay.com/photo/2015/10/05/22/37/blank-profile-picture-973460_1280.png"

  /** Either an alert that the user is not logged in, or the PUT with its
      body and bearer token. */
  datatype ManagerAction = NotLoggedIn | PutManager(payload: map<string, Value>, token: string)

  /** `handleBecomeVenueManager` (`makeManager` true) and
      `handleStopBeingVenueManager` (false): no request without a token;
      otherwise the flag asked for and an avatar whose url is the current
      one when truthy, else a default picture. */
  function SetVenueManager(profile: Profile, makeManager: bool, token: Option<string>): (r: ManagerAction)
    ensures r.NotLoggedIn? <==> token.None? || token.value == ""
    ensures r.PutManager? ==>
      && r.token == token.value
      && r.payload.Keys == {"venueManager", "avatar"}
      && r.payload["venueManager"] == Bool(makeManager)
      && Member(r.payload["avatar"], "alt") == Str(AvatarAlt)
      && Truthy(Member(r.payload["avatar"], "url"))
      && (Truthy(Member(Get(profile, "avatar"), "url")) ==>
            Member(r.payload["avatar"], "url") == Member(Get(profile, "avatar"), "url"))
  {
    var payload := map[
      "venueManager" := Bool(makeManager),
      "avatar" := Obj(map[
        "url" := Or(Member(Get(profile, "avatar"), "url"), Str(DefaultAvatarUrl)),
        "alt" := Str(AvatarAlt)])];
    if token.None? || token.value == "" then NotLoggedIn else PutManager(payload, token.value)
  }

  // ---------------------------------------------------------------------------
  // Display rules
  // ---------------------------------------------------------------------------

  /** `profile.name === loggedInUserName`, the stored name being `null` when
      nobody is logged in. */
  predicate IsOwnProfile(profile: Profile, loggedIn: Option<string>)
    ensures IsOwnProfile(profile, loggedIn) && loggedIn.Some? ==> Get(profile, "name") == Str(loggedIn.value)
    ensures Get(profile, "name").Str? && loggedIn.None? ==> !IsOwnProfile(profile, loggedIn)
  {
    Get(profile, "name") == (if loggedIn.Some? then Str(loggedIn.value) else Null)
  }

  lemma OwnProfileByName(profile: Profile, name: string, loggedIn: Option<string>)
    requires Get(profile, "name") == Str(name)
    ensures IsOwnProfile(profile, loggedIn) <==> loggedIn == Some(name)
  {
  }

  /** A booking as listed on a profile, with its venue when the service
      expanded it. */
  datatype ProfileBooking = ProfileBooking(id: string, dateFrom: int, dateTo: int, venue: Option<Venue>)

  /** The bookings that get a card: those that carry their venue. */
  function ShownBookings(bookings: seq<ProfileBooking>): (r: seq<ProfileBooking>)
    ensures forall b :: b in r ==> b in bookings && b.venue.Some?
    ensures forall b :: b in bookings && b.venue.Some? ==> b in r
  {
    if bookings == [] then []
    else
      var rest := ShownBookings(bookings[1..]);
      assert forall b :: b in bookings ==> b == bookings[0] || b in bookings[1..];
      if bookings[0].venue.Some? then [bookings[0]] + rest else rest
  }

  /** `bookings.map` renders the cards in list order: nothing is added,
      duplicated or reordered. */
  lemma {:induction false} ShownBookingsInOrder(bookings: seq<ProfileBooking>)
    ensures IsSubsequence(ShownBookings(bookings), bookings)
    decreases |bookings|
  {
    if bookings != [] {
      ShownBookingsInOrder(bookings[1..]);
      var r := ShownBookings(bookings);
      var rest := ShownBookings(bookings[1..]);
      if bookings[0].venue.Some? {
        assert r[0] == bookings[0] && r[1..] == rest;
      } else {
        assert r == rest;
      }
    }
  }

  /** One card per listed copy of a booking that carries its venue, and none
      for any other booking. */
  lemma {:induction false} ShownBookingsCounts(bookings: seq<ProfileBooking>, b: ProfileBooking)
    ensures multiset(ShownBookings(bookings))[b] ==
            if b.venue.Some? then multiset(bookings)[b] else 0
    decreases |bookings|
  {
    if bookings != [] {
      ShownBookingsCounts(bookings[1..], b);
      assert bookings == [bookings[0]] + bookings[1..];
    }
  }

  /** "day" for a stay of exactly one day, "days" otherwise. */
  function DayLabel(days: int): (word: string)
    ensures word == "day" <==> days == 1
    ensures word == "day" || word == "days"
  {
    if days == 1 then "day" else "days"
  }

  // ---------------------------------------------------------------------------
  // The page's state
  // ---------------------------------------------------------------------------

  /** The second request of the load: the manager's venues or the user's
      bookings (`data` and `data.bookings`, either possibly missing). */
  datatype Listing = ListFailed | Listed(venues: Option<seq<Venue>>, bookings: Option<seq<ProfileBooking>>)

  datatype LoadResult = ProfileFailed | ProfileLoaded(profile: Profile, listing: Listing)

  /** A field's text for an edit box: the string, or `""`. */
  function TextOf(v: Value): string
  {
    if v.Str? then v.s else ""
  }

  class ProfileView {
    var profile: Option<Profile>
    var venues: seq<Venue>
    var bookings: seq<ProfileBooking>
    var editing: bool
    var newBio: string
    var newAvatar: string
    var loading: bool
    var error: bool

    constructor ()
      ensures profile == None && venues == [] && bookings == []
      ensures !editing && newBio == "" && newAvatar == "" && loading && !error
    {
      profile, venues, bookings := None, [], [];
      editing, newBio, newAvatar := false, "", "";
      loading, error := true, false;
    }

    /** `fetchProfile`, run on the first visit and again whenever the
        profile id in the route changes. The profile is kept as soon as it
        arrives and seeds the edit boxes; a manager's venues or a user's
        bookings follow (an absent list reads as empty). A failure of either
        request sets the error flag; loading ends either way. */
    method Load(result: LoadResult)
      modifies this
      ensures !loading && editing == old(editing)
      ensures result.ProfileFailed? ==>
        && error && profile == old(profile) && venues == old(venues) && bookings == old(bookings)
        && newBio == old(newBio) && newAvatar == old(newAvatar)
      ensures result.ProfileLoaded? ==>
        && profile == Some(result.profile)
        && newBio == TextOf(Get(result.profile, "bio"))
        && newAvatar == TextOf(Member(Get(result.profile, "avatar"), "url"))
        && error == (old(error) || result.listing.ListFailed?)
      ensures result.ProfileLoaded? && result.listing.Listed? ==>
        if Truthy(Get(result.profile, "venueManager"))
        then venues == result.listing.venues.GetOr([]) && bookings == old(bookings)
        else bookings == result.listing.bookings.GetOr([]) && venues == old(venues)
      ensures result.ProfileLoaded? && result.listing.ListFailed? ==>
        venues == old(venues) && bookings == old(bookings)
    {
      match result {
        case ProfileFailed =>
          error := true;
        case ProfileLoaded(p, listing) =>
          profile := Some(p);
          newBio := TextOf(Get(p, "bio"));
          newAvatar := TextOf(Member(Get(p, "avatar"), "url"));
          match listing {
            case ListFailed =>
              error := true;
            case Listed(vs, bs) =>
              if Truthy(Get(p, "venueManager")) {
                venues := vs.GetOr([]);
              } else {
                bookings := bs.GetOr([]);
              }
          }
      }
      loading := false;
    }

    method StartEditing()
      modifies this`editing
      ensures editing
    {
      editing := true;
    }

    method CancelEditing()
      modifies this`editing
      ensures !editing
    {
      editing := false;
    }

    method SetNewBio(value: string)
      modifies this`newBio
      ensures newBio == value
    {
      newBio := value;
    }

    method SetNewAvatar(value: string)
      modifies this`newAvatar
      ensures newAvatar == value
    {
      newAvatar := value;
    }

    /** `handleProfileUpdate`: sends the payload; when the service answers
        with the updated fields they are merged into the profile and editing
        ends, and on failure nothing changes. */
    method SaveProfile(response: Option<map<string, Value>>) returns (payload: map<string, Value>)
      requires profile.Some?
      modifies this`profile, this`editing
      ensures payload == ProfileUpdatePayload(newBio, newAvatar, old(profile).value)
      ensures response.Some? ==> profile == Some(MergeProfile(old(profile).value, response.value)) && !editing
      ensures response.None? ==> profile == old(profile) && editing == old(editing)
    {
      payload := ProfileUpdatePayload(newBio, newAvatar, profile.value);
      if response.Some? {
        profile := Some(MergeProfile(profile.value, response.value));
        editing := false;
      }
    }

    /** The two venue-manager buttons: with a token the request goes out, and
        an ok response sets the flag (the page then reloads). */
    method ChangeVenueManager(makeManager: bool, token: Option<string>, ok: bool) returns (action: ManagerAction)
      requires profile.Some?
      modifies this`profile
      ensures action == SetVenueManager(old(profile).value, makeManager, token)
      ensures action.PutManager? && ok ==>
        profile == Some(MergeProfile(old(profile).value, map["venueManager" := Bool(makeManager)]))
      ensures action.NotLoggedIn? || !ok ==> profile == old(profile)
    {
      action := SetVenueManager(profile.value, makeManager, token);
      if action.PutManager? && ok {
        profile := Some(MergeProfile(profile.value, map["venueManager" := Bool(makeManager)]));
      }
    }
  }
}
