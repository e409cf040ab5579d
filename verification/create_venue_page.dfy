/** The create-venue form (src/pages/CreateVenuePage.jsx, and its copy
    src/components/CreateVenuePage.jsx, which differs only in showing no
    alert after the request): the list of image urls and what happens after
    the request. */
module CreateVenuePage {

  import opened Wrappers
  import opened Text
  import opened Seqs
  import opened VenueForm

  // ---------------------------------------------------------------------------
  // addImage
  // ---------------------------------------------------------------------------

  predicate HasHttpScheme(url: string)
  {
    StartsWith(url, "http://") || StartsWith(url, "https://")
  }

  /** What the list may hold: trimmed urls with an http or https scheme. */
  predicate WellFormedImage(url: string)
  {
    Trimmed(url) && HasHttpScheme(url)
  }

  /** `addImage` takes `url` when it is non-empty, not already in the list
      as typed, and has an http(s) scheme once trimmed. */
  predicate Accepts(images: seq<string>, url: string)
  {
    url != "" && url !in images && HasHttpScheme(Trim(url))
  }

  /** The list after `addImage(url)`: the old list, followed by the trimmed
      url when it is accepted. */
  function WithImage(images: seq<string>, url: string): (r: seq<string>)
    ensures images <= r && |r| <= |images| + 1
    ensures |r| == |images| + 1 <==> Accepts(images, url)
    ensures |r| == |images| + 1 ==> r[|images|] == Trim(url) && WellFormedImage(r[|images|])
  {
    if Accepts(images, url) then images + [Trim(url)] else images
  }

  /** Whatever is typed, the list keeps holding trimmed http(s) urls only. */
  lemma WithImageKeepsWellFormed(images: seq<string>, url: string)
    requires forall i :: 0 <= i < |images| ==> WellFormedImage(images[i])
    ensures var r := WithImage(images, url);
      forall i :: 0 <= i < |r| ==> WellFormedImage(r[i])
  {
  }

  /** A url typed without surrounding white space is never added twice. */
  lemma TrimmedInputStaysDistinct(images: seq<string>, url: string)
    requires Distinct(images) && Trimmed(url)
    ensures Distinct(WithImage(images, url))
  {
    if Accepts(images, url) {
      TrimOfTrimmed(url);
      var r := WithImage(images, url);
      forall i, j | 0 <= i < j < |r| ensures r[i] != r[j] {
        if j == |images| {
          assert r[i] == images[i];
        } else {
          assert r[i] == images[i] && r[j] == images[j];
        }
      }
    }
  }

  /** Leading white space does not change what `trim` gives. */
  lemma TrimLeadingSpace(c: char, s: string)
    requires IsSpace(c)
    ensures Trim([c] + s) == Trim(s)
  {
    assert ([c] + s)[1..] == s;
  }

  /** The duplicate check looks at the url as typed, the list holds it
      trimmed: typing a listed url with a space in front adds it a second
      time. */
  lemma PaddedInputAddsDuplicate(url: string)
    requires WellFormedImage(url)
    ensures WithImage([url], [' '] + url) == [url, url]
    ensures !Distinct(WithImage([url], [' '] + url))
  {
    PaddedInputAccepted(url);
    var r := WithImage([url], [' '] + url);
    assert r == [url, url];
    assert r[0] == r[1];
  }

  lemma PaddedInputAccepted(url: string)
    requires WellFormedImage(url)
    ensures Accepts([url], [' '] + url)
  {
    PaddedInputTrims(url);
    var padded := [' '] + url;
    assert padded != url by { assert |padded| != |url|; }
  }

  lemma PaddedInputTrims(url: string)
    requires Trimmed(url)
    ensures Trim([' '] + url) == url
  {
    TrimLeadingSpace(' ', url);
    TrimOfTrimmed(url);
  }

  lemma SampleUrlWellFormed(url: string)
    requires url == "http://a"
    ensures WellFormedImage(url)
  {
    assert "http://" <= url;
  }

  /** For instance " http://a" next to "http://a". */
  lemma PaddedSampleAddsDuplicate()
    ensures WithImage(["http://a"], " http://a") == ["http://a", "http://a"]
  {
    SampleUrlWellFormed("http://a");
    PaddedInputAddsDuplicate("http://a");
    assert " http://a" == [' '] + "http://a";
  }

  /** A url without an http(s) scheme, such as "www.x.no", is refused. */
  lemma NoSchemeRefused(images: seq<string>)
    ensures WithImage(images, "www.x.no") == images
  {
    var u := "www.x.no";
    assert Trimmed(u);
    TrimOfTrimmed(u);
    assert !StartsWith(u, "http://") && !StartsWith(u, "https://") by { assert u[0] != 'h'; }
  }

  // ---------------------------------------------------------------------------
  // The image list and the url field
  // ---------------------------------------------------------------------------

  class ImageList {
    /** `images`, initially empty. */
    var images: seq<string>
    /** The text in the image-url input, which the Add button passes to
        `addImage`. */
    var imageUrl: string

    ghost predicate Valid()
      reads this
    {
      forall i :: 0 <= i < |images| ==> WellFormedImage(images[i])
    }

    constructor ()
      ensures Valid() && images == [] && imageUrl == ""
    {
      images := [];
      imageUrl := "";
    }

    method TypeImageUrl(text: string)
      requires Valid()
      modifies this`imageUrl
      ensures Valid() && imageUrl == text
    {
      imageUrl := text;
    }

    /** `addImage(url)`: the list grows by the trimmed url, and the input is
        cleared, exactly when the url is accepted; the list stays
        well formed. */
    method AddImage(url: string)
      requires Valid()
      modifies this
      ensures Valid()
      ensures images == WithImage(old(images), url)
      ensures imageUrl == if Accepts(old(images), url) then "" else old(imageUrl)
    {
      if url != "" && url !in images {
        var trimmedUrl := Trim(url);
        if !StartsWith(trimmedUrl, "http://") && !StartsWith(trimmedUrl, "https://") {
          return;
        }
        WithImageKeepsWellFormed(images, url);
        images := images + [trimmedUrl];
        imageUrl := "";
      }
    }

    /** `removeImage(url)`: every copy of `url` goes, the rest stay in order. */
    method RemoveImage(url: string)
      requires Valid()
      modifies this`images
      ensures Valid()
      ensures images == RemoveAll(old(images), url)
    {
      images := RemoveAll(images, url);
      assert forall i :: 0 <= i < |images| ==> images[i] in old(images);
    }

    /** `onSubmit`'s body: every image it sends is a trimmed http(s) url. */
    method Submit(form: FormInput) returns (payload: VenuePayload)
      requires Valid() && Validate(form) == {}
      ensures payload == BuildPayload(form, images)
      ensures forall i :: 0 <= i < |payload.media| ==> WellFormedImage(payload.media[i].url)
    {
      payload := BuildPayload(form, images);
      assert forall i :: 0 <= i < |payload.media| ==> payload.media[i].url == MediaUrls(payload.media)[i];
    }
  }

  // ---------------------------------------------------------------------------
  // After the request
  // ---------------------------------------------------------------------------

  /** The two copies of the page. */
  datatype Copy = PagesCopy | ComponentsCopy

  /** The POST either answers with the new venue's id or fails. */
  datatype CreateOutcome = Created(id: string) | CreateFailed

  /** The page opens the new venue when it was created; only the pages copy
      tells the user, whichever way it went. */
  function AfterCreate(copy: Copy, outcome: CreateOutcome): (e: Effects)
    ensures e.navigateTo.Some? <==> outcome.Created?
    ensures outcome.Created? ==> e.navigateTo.value == "/venue/" + outcome.id
    ensures e.alert.Some? <==> copy == PagesCopy
    ensures copy == PagesCopy ==>
      e.alert.value == if outcome.Created? then "Venue created successfully." else "Failed to create venue."
  {
    var nav := if outcome.Created? then Some("/venue/" + outcome.id) else None;
    match copy
    case ComponentsCopy => Effects(nav, None)
    case PagesCopy =>
      Effects(nav, Some(if outcome.Created? then "Venue created successfully." else "Failed to create venue."))
  }
}
