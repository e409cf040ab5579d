/** The home page (src/pages/HomePage.jsx): the venue search and filter
    engine, the newest-first ordering of the fetched list, and the page's
    state as the fetch and the filter controls change it. */
module HomePage {

  import opened Wrappers
  import opened Text
  import opened Seqs
  import opened Venues
  import opened FilterOverlay

  // ---------------------------------------------------------------------------
  // The five tests of applyFiltersAndSearch
  // ---------------------------------------------------------------------------

  /** `field?.toLowerCase().includes(query.toLowerCase())`: an absent field
      never matches. */
  predicate FieldIncludes(field: Option<string>, query: string)
  {
    field.Some? && Includes(Lower(field.value), Lower(query))
  }

  /** The free-text search: name, city or country. */
  predicate SearchMatch(v: Venue, search: string)
  {
    search == "" || FieldIncludes(v.name, search) || FieldIncludes(City(v), search) || FieldIncludes(Country(v), search)
  }

  /** The location criterion looks at the city only. */
  predicate MatchesLocation(v: Venue, location: string)
  {
    location == "" || FieldIncludes(City(v), location)
  }

  /** `venue.rating >= filters.rating`; `undefined >= n` is false. */
  predicate MatchesRating(v: Venue, rating: int)
  {
    rating == 0 || (v.rating.Some? && v.rating.value >= rating)
  }

  /** `venue.maxGuests >= parseInt(filters.guests)`; a comparison with NaN
      is false. */
  predicate MatchesGuests(v: Venue, guests: string)
  {
    guests == "" || (ParseInt(guests, 0).Some? && v.maxGuests >= ParseInt(guests, 0).value)
  }

  /** `venue.price <= parseInt(filters.price)`. */
  predicate MatchesPrice(v: Venue, price: string)
  {
    price == "" || (ParseInt(price, 0).Some? && v.price <= ParseInt(price, 0).value)
  }

  /** The predicate handed to `venues.filter`: all five tests. */
  predicate Keep(v: Venue, search: string, f: Filters)
  {
    SearchMatch(v, search) && MatchesLocation(v, f.location) && MatchesRating(v, f.rating) &&
    MatchesGuests(v, f.guests) && MatchesPrice(v, f.price)
  }

  /** `applyFiltersAndSearch`: the venues that pass every test, in their
      original order. */
  function ApplyFiltersAndSearch(venues: seq<Venue>, search: string, f: Filters): (r: seq<Venue>)
    ensures |r| <= |venues|
    ensures forall v :: v in r ==> v in venues && Keep(v, search, f)
    ensures forall v :: v in venues && Keep(v, search, f) ==> v in r
  {
    if venues == [] then []
    else
      var rest := ApplyFiltersAndSearch(venues[1..], search, f);
      assert forall v :: v in venues ==> v == venues[0] || v in venues[1..];
      if Keep(venues[0], search, f) then [venues[0]] + rest else rest
  }

  /** The result is drawn from the input in order: nothing is added,
      duplicated or reordered. */
  lemma {:induction false} FilterIsSubsequence(venues: seq<Venue>, search: string, f: Filters)
    ensures IsSubsequence(ApplyFiltersAndSearch(venues, search, f), venues)
    decreases |venues|
  {
    if venues != [] {
      FilterIsSubsequence(venues[1..], search, f);
      var r := ApplyFiltersAndSearch(venues, search, f);
      var rest := ApplyFiltersAndSearch(venues[1..], search, f);
      if Keep(venues[0], search, f) {
        assert r[0] == venues[0] && r[1..] == rest;
      } else {
        assert r == rest;
      }
    }
  }

  /** Every venue that passes is kept as often as the input holds it, and
      no other venue is kept: with the subsequence property this fixes the
      result exactly. */
  lemma {:induction false} FilterCounts(venues: seq<Venue>, search: string, f: Filters, v: Venue)
    ensures multiset(ApplyFiltersAndSearch(venues, search, f))[v] ==
            if Keep(v, search, f) then multiset(venues)[v] else 0
    decreases |venues|
  {
    if venues != [] {
      FilterCounts(venues[1..], search, f, v);
      assert venues == [venues[0]] + venues[1..];
    }
  }

  /** With an empty search and the initial criteria every venue passes. */
  lemma {:induction false} FilterIdentity(venues: seq<Venue>)
    ensures ApplyFiltersAndSearch(venues, "", EmptyFilters) == venues
    decreases |venues|
  {
    if venues != [] {
      FilterIdentity(venues[1..]);
      assert venues == [venues[0]] + venues[1..];
    }
  }

  /** Filtering the result again with the same criteria changes nothing. */
  lemma {:induction false} FilterIdempotent(venues: seq<Venue>, search: string, f: Filters)
    ensures var once := ApplyFiltersAndSearch(venues, search, f);
      ApplyFiltersAndSearch(once, search, f) == once
    decreases |venues|
  {
    if venues != [] {
      FilterIdempotent(venues[1..], search, f);
      var rest := ApplyFiltersAndSearch(venues[1..], search, f);
      if Keep(venues[0], search, f) {
        assert ([venues[0]] + rest)[1..] == rest;
      }
    }
  }

  /** Every kept venue meets each criterion that is set. */
  lemma KeptVenuesMeetCriteria(venues: seq<Venue>, search: string, f: Filters, v: Venue)
    requires v in ApplyFiltersAndSearch(venues, search, f)
    ensures f.rating != 0 ==> v.rating.Some? && v.rating.value >= f.rating
    ensures f.guests != "" ==> ParseInt(f.guests, 0).Some? && v.maxGuests >= ParseInt(f.guests, 0).value
    ensures f.price != "" ==> ParseInt(f.price, 0).Some? && v.price <= ParseInt(f.price, 0).value
    ensures f.location != "" ==> City(v).Some? && Includes(Lower(City(v).value), Lower(f.location))
  {
  }

  /** A guest criterion that is set but that `parseInt` cannot read turns
      every venue away, since a comparison with NaN is false. */
  lemma {:induction false} UnreadableGuestsKeepsNothing(venues: seq<Venue>, search: string, f: Filters)
    requires f.guests != "" && ParseInt(f.guests, 0).None?
    ensures ApplyFiltersAndSearch(venues, search, f) == []
    decreases |venues|
  {
    if venues != [] {
      UnreadableGuestsKeepsNothing(venues[1..], search, f);
      assert !MatchesGuests(venues[0], f.guests);
    }
  }

  /** ".5" is such a criterion: `parseInt` finds no digit before the dot. */
  lemma DotFiveGuestsKeepsNothing(venues: seq<Venue>, search: string, f: Filters)
    requires f.guests == ".5"
    ensures ApplyFiltersAndSearch(venues, search, f) == []
  {
    ParseDotFive();
    UnreadableGuestsKeepsNothing(venues, search, f);
  }

  lemma ParseDotFive()
    ensures ParseInt(".5", 0).None?
  {
    var s := ".5";
    assert s[0] == '.' && !IsSpace(s[0]) && !IsDigit(s[0], 10);
    assert TrimStart(s) == s;
    assert DigitPrefix(s, 10) == [];
    assert ParseUnsigned(s, 0).None?;
  }

  // ---------------------------------------------------------------------------
  // Worked examples
  // ---------------------------------------------------------------------------

  function Sample(name: string, city: string, rating: int, maxGuests: int, price: int): Venue
  {
    Venue(name, Some(name), Some(Location(None, Some(city), None)), Some(rating), maxGuests, price, 0, [], None)
  }

  /** Two venues, a guest criterion of "4": only the cabin for six stays. */
  lemma GuestsScenario()
    ensures var oslo := Sample("Oslo Loft", "Oslo", 4, 2, 80);
      var bergen := Sample("Bergen Cabin", "Bergen", 3, 6, 150);
      ApplyFiltersAndSearch([oslo, bergen], "", EmptyFilters.(guests := "4")) == [bergen]
  {
    var oslo := Sample("Oslo Loft", "Oslo", 4, 2, 80);
    var bergen := Sample("Bergen Cabin", "Bergen", 3, 6, 150);
    var f := EmptyFilters.(guests := "4");
    GuestsFour(oslo, f);
    GuestsFour(bergen, f);
    FilterPair(oslo, bergen, "", f);
  }

  /** Against the guest criterion "4" alone, a venue passes exactly when it
      takes at least four guests. */
  lemma GuestsFour(v: Venue, f: Filters)
    requires f == EmptyFilters.(guests := "4")
    ensures Keep(v, "", f) <==> v.maxGuests >= 4
  {
    ParseFour();
    assert MatchesGuests(v, f.guests) <==> v.maxGuests >= 4;
    assert SearchMatch(v, "") && MatchesLocation(v, f.location) && MatchesRating(v, f.rating) && MatchesPrice(v, f.price);
  }

  /** `parseInt("4")` is 4. */
  lemma ParseFour()
    ensures ParseInt("4", 0) == Some(4)
  {
    ParseDecimalString(4, 0);
    assert DecimalString(4) == "4";
  }

  lemma FilterPair(a: Venue, b: Venue, search: string, f: Filters)
    ensures ApplyFiltersAndSearch([a, b], search, f) ==
      (if Keep(a, search, f) then [a] else []) + (if Keep(b, search, f) then [b] else [])
  {
    assert [a, b][1..] == [b] && [b][1..] == [];
  }

  /** The search "cabin" matches a name regardless of case, and a city that
      contains it when the name does not. */
  lemma SearchScenario()
    ensures SearchMatch(Sample("Norwegian Cabin", "Oslo", 4, 2, 80), "cabin")
    ensures SearchMatch(Sample("Lakeside Hut", "Cabinville", 4, 2, 80), "cabin")
  {
    assert Lower("Norwegian Cabin")[10..15] == "cabin";
    assert OccursAt(Lower("Norwegian Cabin"), Lower("cabin"), 10);
    IncludesIffOccurs(Lower("Norwegian Cabin"), Lower("cabin"));
    assert Lower("Cabinville")[..5] == "cabin";
    assert OccursAt(Lower("Cabinville"), Lower("cabin"), 0);
    IncludesIffOccurs(Lower("Cabinville"), Lower("cabin"));
  }

  // ---------------------------------------------------------------------------
  // Newest first
  // ---------------------------------------------------------------------------

  /** Ordered by `created`, newest first. */
  ghost predicate NewestFirst(s: seq<Venue>)
  {
    forall k, l :: 0 <= k < l < |s| ==> s[k].created >= s[l].created
  }

  /** Exchanges two elements of the array. */
  method Swap(a: array<Venue>, i: nat, j: nat)
    requires i < a.Length && j < a.Length
    modifies a
    ensures a[..] == old(a[..])[i := old(a[j])][j := old(a[i])]
    ensures multiset(a[..]) == old(multiset(a[..]))
  {
    a[i], a[j] := a[j], a[i];
  }

  /** `data.data.sort((a, b) => new Date(b.created) - new Date(a.created))`,
      in place. */
  method SortNewestFirst(a: array<Venue>)
    modifies a
    ensures NewestFirst(a[..])
    ensures multiset(a[..]) == old(multiset(a[..]))
  {
    var i := 0;
    while i < a.Length
      invariant 0 <= i <= a.Length
      invariant NewestFirst(a[..i])
      invariant multiset(a[..]) == old(multiset(a[..]))
    {
      InsertStart(a[..], i);
      var j := i;
      while j > 0 && a[j - 1].created < a[j].created
        invariant 0 <= j <= i
        invariant Inserting(a[..], i, j)
        invariant multiset(a[..]) == old(multiset(a[..]))
      {
        ghost var s := a[..];
        Swap(a, j - 1, j);
        InsertSwap(s, i, j);
        j := j - 1;
      }
      InsertDone(a[..], i, j);
      i := i + 1;
    }
    assert a[..a.Length] == a[..];
  }

  /** Insertion of element `i` in progress, now at `j`: the first `i + 1`
      elements are newest first apart from position `j`, whose element is
      newer than everything after it. */
  ghost predicate Inserting(s: seq<Venue>, i: int, j: int)
  {
    0 <= j <= i < |s| &&
    (forall k, l :: 0 <= k < l <= i && k != j && l != j ==> s[k].created >= s[l].created) &&
    (forall l :: j < l <= i ==> s[j].created > s[l].created)
  }

  lemma InsertStart(s: seq<Venue>, i: int)
    requires 0 <= i < |s| && NewestFirst(s[..i])
    ensures Inserting(s, i, i)
  {
    forall k, l | 0 <= k < l <= i && k != i && l != i
      ensures s[k].created >= s[l].created
    {
      assert s[k] == s[..i][k] && s[l] == s[..i][l];
    }
  }

  lemma InsertSwap(s: seq<Venue>, i: int, j: int)
    requires 0 < j && Inserting(s, i, j) && s[j - 1].created < s[j].created
    ensures Inserting(s[j - 1 := s[j]][j := s[j - 1]], i, j - 1)
  {
  }

  lemma InsertDone(s: seq<Venue>, i: int, j: int)
    requires Inserting(s, i, j) && (j == 0 || s[j - 1].created >= s[j].created)
    ensures NewestFirst(s[..i + 1])
  {
  }

  // ---------------------------------------------------------------------------
  // The page's state
  // ---------------------------------------------------------------------------

  /** The `status` cell. */
  datatype Status = Idle | Loading | Success | Error

  /** What the venue request delivered: the list, or a failure (a network
      error or a response that is not ok). */
  datatype FetchResult = Fetched(data: seq<Venue>) | FetchFailed

  class HomeState {
    var venues: seq<Venue>
    var filteredVenues: seq<Venue>
    var filters: Filters
    var searchValue: string
    var status: Status
    var isFilterOpen: bool

    /** The full list is newest first, and what is shown is drawn from it in
        order. */
    ghost predicate Valid()
      reads this
    {
      NewestFirst(venues) && IsSubsequence(filteredVenues, venues)
    }

    constructor ()
      ensures Valid()
      ensures venues == [] && filteredVenues == [] && filters == EmptyFilters
      ensures searchValue == "" && status == Idle && !isFilterOpen
    {
      venues, filteredVenues := [], [];
      filters, searchValue := EmptyFilters, "";
      status, isFilterOpen := Idle, false;
    }

    /** `fetchVenues` begins: `setStatus("loading")`. */
    method StartFetch()
      requires Valid()
      modifies this
      ensures Valid() && status == Loading
      ensures venues == old(venues) && filteredVenues == old(filteredVenues)
      ensures filters == old(filters) && searchValue == old(searchValue) && isFilterOpen == old(isFilterOpen)
    {
      status := Loading;
    }

    /** `fetchVenues` ends. On success the list is sorted newest first and
        stored both as the full list and as the shown list (the current
        search and criteria are not applied to it), and the status becomes
        success; on failure only the status changes, to error. */
    method FinishFetch(result: FetchResult)
      requires Valid() && status == Loading
      modifies this
      ensures Valid()
      ensures result.Fetched? ==>
        && status == Success
        && multiset(venues) == multiset(result.data)
        && filteredVenues == venues
      ensures result.FetchFailed? ==>
        status == Error && venues == old(venues) && filteredVenues == old(filteredVenues)
      ensures filters == old(filters) && searchValue == old(searchValue) && isFilterOpen == old(isFilterOpen)
    {
      match result
      case Fetched(data) =>
        var a := new Venue[|data|](i requires 0 <= i < |data| => data[i]);
        assert a[..] == data;
        SortNewestFirst(a);
        venues := a[..];
        filteredVenues := venues;
        SubsequenceReflexive(venues);
        status := Success;
      case FetchFailed =>
        status := Error;
    }

    /** `applyFiltersAndSearch` on the current list, search and criteria. */
    method ApplyFilters()
      requires Valid()
      modifies this
      ensures Valid()
      ensures filteredVenues == ApplyFiltersAndSearch(venues, searchValue, filters)
      ensures venues == old(venues) && filters == old(filters) && searchValue == old(searchValue)
      ensures status == old(status) && isFilterOpen == old(isFilterOpen)
    {
      filteredVenues := ApplyFiltersAndSearch(venues, searchValue, filters);
      FilterIsSubsequence(venues, searchValue, filters);
    }

    /** Typing in the search box; the effect on `[searchValue, filters]`
        re-applies the filters. */
    method SetSearchValue(s: string)
      requires Valid()
      modifies this
      ensures Valid() && searchValue == s
      ensures filteredVenues == ApplyFiltersAndSearch(venues, s, filters)
      ensures venues == old(venues) && filters == old(filters)
      ensures status == old(status) && isFilterOpen == old(isFilterOpen)
    {
      searchValue := s;
      ApplyFilters();
    }

    /** `setFilters` from the overlay; the same effect re-applies them. */
    method SetFilters(f: Filters)
      requires Valid()
      modifies this
      ensures Valid() && filters == f
      ensures filteredVenues == ApplyFiltersAndSearch(venues, searchValue, f)
      ensures venues == old(venues) && searchValue == old(searchValue)
      ensures status == old(status) && isFilterOpen == old(isFilterOpen)
    {
      filters := f;
      ApplyFilters();
    }

    method OpenFilter()
      requires Valid()
      modifies this`isFilterOpen
      ensures Valid() && isFilterOpen
    {
      isFilterOpen := true;
    }

    /** `closeFilter`, also reached by a click outside the overlay. */
    method CloseFilter()
      requires Valid()
      modifies this`isFilterOpen
      ensures Valid() && !isFilterOpen
    {
      isFilterOpen := false;
    }

    /** Submitting the overlay's form: apply the filters, then close. */
    method SubmitFilters()
      requires Valid()
      modifies this
      ensures Valid() && !isFilterOpen
      ensures filteredVenues == ApplyFiltersAndSearch(venues, searchValue, filters)
      ensures venues == old(venues) && filters == old(filters) && searchValue == old(searchValue)
      ensures status == old(status)
    {
      ApplyFilters();
      CloseFilter();
    }
  }
}
