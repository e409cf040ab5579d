/** The edit-venue form (pages/UpdateVenuePage.jsx): loading the venue into
    the form, the list of image urls, the update request and the
    confirm-gated delete. */
module UpdateVenuePage {

  import opened Wrappers
  import opened Seqs
  import opened Venues
  import opened VenueForm

  // ---------------------------------------------------------------------------
  // addImage
  // ---------------------------------------------------------------------------

  /** The list after `addImage(url)`: the url is appended as typed, with no
      trimming and no scheme check, unless it is empty or already listed. */
  function WithNewImage(images: seq<string>, url: string): (r: seq<string>)
    ensures images <= r && |r| <= |images| + 1
    ensures |r| == |images| + 1 <==> url != "" && url !in images
    ensures url in r || url == ""
  {
    if url != "" && url !in images then images + [url] else images
  }

  /** Adding never introduces a repeat. */
  lemma WithNewImageKeepsDistinct(images: seq<string>, url: string)
    requires Distinct(images)
    ensures Distinct(WithNewImage(images, url))
  {
    var r := WithNewImage(images, url);
    if r != images {
      forall i, j | 0 <= i < j < |r| ensures r[i] != r[j] {
        if j == |images| {
          assert r[i] == images[i];
        } else {
          assert r[i] == images[i] && r[j] == images[j];
        }
      }
    }
  }

  /** Adding what is already listed changes nothing, so adding is
      idempotent. */
  lemma WithNewImageIdempotent(images: seq<string>, url: string)
    ensures WithNewImage(WithNewImage(images, url), url) == WithNewImage(images, url)
  {
  }

  /** Unlike the create form, this form takes a url without a scheme. */
  lemma NoSchemeAccepted(images: seq<string>)
    requires "www.x.no" !in images
    ensures WithNewImage(images, "www.x.no") == images + ["www.x.no"]
  {
  }

  // ---------------------------------------------------------------------------
  // Loading the venue
  // ---------------------------------------------------------------------------

  /** The GET either returns the venue (and its description, which the
      listing record does not carry) or fails. */
  datatype LoadOutcome = Loaded(venue: Venue, description: string) | LoadFailed

  /** The values `reset` puts into the form. */
  datatype FormValues = FormValues(
    name: Option<string>,
    address: Option<string>,
    description: string,
    maxGuests: int,
    price: int)

  const LoadFailedAlert: string := "Failed to load venue details."

  class VenueEditor {
    const id: string
    var venue: Option<Venue>
    var formValues: Option<FormValues>
    var images: seq<string>
    var imageUrl: string
    var alert: Option<string>

    constructor (id: string)
      ensures this.id == id
      ensures venue == None && formValues == None && images == [] && imageUrl == "" && alert == None
    {
      this.id := id;
      venue := None;
      formValues := None;
      images := [];
      imageUrl := "";
      alert := None;
    }

    /** The effect that fetches the venue. The venue is stored first; a
        venue without a location makes reading its address throw, which
        lands in the same handler as a failed request: the alert shows and
        neither the form nor the images are filled. Otherwise the form gets
        the venue's values and the list its image urls. */
    method Load(outcome: LoadOutcome)
      modifies this
      ensures outcome.Loaded? ==> venue == Some(outcome.venue)
      ensures outcome.LoadFailed? ==> venue == old(venue)
      ensures outcome.Loaded? && outcome.venue.location.Some? ==>
        && formValues == Some(FormValues(outcome.venue.name, outcome.venue.location.value.address,
                                         outcome.description, outcome.venue.maxGuests, outcome.venue.price))
        && images == MediaUrls(outcome.venue.media)
        && alert == old(alert)
      ensures !(outcome.Loaded? && outcome.venue.location.Some?) ==>
        formValues == old(formValues) && images == old(images) && alert == Some(LoadFailedAlert)
      ensures imageUrl == old(imageUrl)
    {
      match outcome {
        case LoadFailed =>
          alert := Some(LoadFailedAlert);
        case Loaded(v, description) =>
          venue := Some(v);
          if v.location.None? {
            alert := Some(LoadFailedAlert);
          } else {
            formValues := Some(FormValues(v.name, v.location.value.address, description, v.maxGuests, v.price));
            images := MediaUrls(v.media);
          }
      }
    }

    method TypeImageUrl(text: string)
      modifies this`imageUrl
      ensures imageUrl == text
    {
      imageUrl := text;
    }

    /** `addImage(url)`: the input is cleared exactly when the url is
        added. */
    method AddImage(url: string)
      modifies this`images, this`imageUrl
      ensures images == WithNewImage(old(images), url)
      ensures imageUrl == if url != "" && url !in old(images) then "" else old(imageUrl)
    {
      if url != "" && url !in images {
        images := images + [url];
        imageUrl := "";
      }
    }

    /** `removeImage(url)`: every copy of `url` goes, the rest stay in order. */
    method RemoveImage(url: string)
      modifies this`images
      ensures images == RemoveAll(old(images), url)
      ensures url !in images
    {
      images := RemoveAll(images, url);
    }

    /** `onSubmit`'s body: the current list, each url once per listing, in
        order. */
    method Submit(form: FormInput) returns (payload: VenuePayload)
      requires Validate(form) == {}
      ensures payload == BuildPayload(form, images)
      ensures MediaUrls(payload.media) == images
    {
      payload := BuildPayload(form, images);
    }
  }

  /** Loading a venue whose images the form itself saved and submitting it
      unchanged sends back the same media. */
  lemma LoadThenSaveKeepsMedia(v: Venue, form: FormInput)
    requires Validate(form) == {}
    requires forall i :: 0 <= i < |v.media| ==> v.media[i].alt == ImageAlt
    ensures BuildPayload(form, MediaUrls(v.media)).media == v.media
  {
    ToMediaOfMediaUrls(v.media);
  }

  // ---------------------------------------------------------------------------
  // After the update request
  // ---------------------------------------------------------------------------

  /** A successful PUT alerts and opens the venue; a failed one only logs. */
  function AfterUpdate(id: string, ok: bool): (e: Effects)
    ensures e.navigateTo.Some? <==> ok
    ensures e.alert.Some? <==> ok
    ensures ok ==> e == Effects(Some("/venue/" + id), Some("Venue updated successfully."))
  {
    if ok then Effects(Some("/venue/" + id), Some("Venue updated successfully.")) else Effects(None, None)
  }

  // ---------------------------------------------------------------------------
  // handleDelete
  // ---------------------------------------------------------------------------

  /** The DELETE the page sends, if any, and what follows it. */
  datatype DeleteEffects = DeleteEffects(request: Option<string>, after: Effects)

  /** `handleDelete`: nothing at all unless the user confirms; a DELETE of
      `/holidaze/venues/<id>` after confirmation; the alert and the move to
      the profile only once it succeeded (a failure propagates out of the
      handler). */
  function HandleDelete(id: string, confirmed: bool, deleted: bool): (r: DeleteEffects)
    ensures r.request.Some? <==> confirmed
    ensures confirmed ==> r.request.value == "/holidaze/venues/" + id
    ensures r.after.navigateTo.Some? <==> confirmed && deleted
    ensures r.after.alert.Some? <==> confirmed && deleted
    ensures confirmed && deleted ==>
      r.after == Effects(Some("/profile"), Some("Venue deleted successfully."))
  {
    if !confirmed then DeleteEffects(None, Effects(None, None))
    else if !deleted then DeleteEffects(Some("/holidaze/venues/" + id), Effects(None, None))
    else DeleteEffects(Some("/holidaze/venues/" + id), Effects(Some("/profile"), Some("Venue deleted successfully.")))
  }

  /** Declining the confirmation never sends a request, whatever the
      service would have answered. */
  lemma DeclinedDeleteSendsNothing(id: string, deleted: bool)
    ensures HandleDelete(id, false, deleted) == DeleteEffects(None, Effects(None, None))
  {
  }
}
