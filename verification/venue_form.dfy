/** What the create and update forms share (src/pages/CreateVenuePage.jsx,
    src/components/CreateVenuePage.jsx and pages/UpdateVenuePage.jsx carry
    the same text): the form schema and the request body built on submit. */
module VenueForm {

  import opened Wrappers
  import opened Venues

  // ---------------------------------------------------------------------------
  // The form schema
  // ---------------------------------------------------------------------------

  /** The form's values once the schema has cast them: the numbers are
      `None` when the field is empty or not a number; `imageUrlIsUrl` is the
      verdict of the schema's url pattern on the image field, which passes
      an empty field. */
  datatype FormInput = FormInput(
    name: string,
    address: string,
    description: string,
    maxGuests: Option<int>,
    price: Option<int>,
    imageUrlIsUrl: bool)

  datatype FormField = NameField | AddressField | DescriptionField | MaxGuestsField | PriceField | ImageUrlField

  /** The schema's checks: the three texts must be non-empty, both numbers
      present and at least 1, and the image field empty or a url. The
      result is the set of fields shown with an error; `onSubmit` runs only
      when it is empty. */
  function Validate(form: FormInput): (errors: set<FormField>)
    ensures NameField in errors <==> form.name == ""
    ensures AddressField in errors <==> form.address == ""
    ensures DescriptionField in errors <==> form.description == ""
    ensures MaxGuestsField in errors <==> form.maxGuests.None? || form.maxGuests.value < 1
    ensures PriceField in errors <==> form.price.None? || form.price.value < 1
    ensures ImageUrlField in errors <==> !form.imageUrlIsUrl
  {
    (if form.name == "" then {NameField} else {}) +
    (if form.address == "" then {AddressField} else {}) +
    (if form.description == "" then {DescriptionField} else {}) +
    (if form.maxGuests.None? || form.maxGuests.value < 1 then {MaxGuestsField} else {}) +
    (if form.price.None? || form.price.value < 1 then {PriceField} else {}) +
    (if !form.imageUrlIsUrl then {ImageUrlField} else {})
  }

  // ---------------------------------------------------------------------------
  // The request body
  // ---------------------------------------------------------------------------

  const ImageAlt: string := "Venue Image"

  /** `images.map((url) => ({ url, alt: "Venue Image" }))`. */
  function ToMedia(images: seq<string>): (media: seq<Media>)
    ensures |media| == |images|
    ensures forall i :: 0 <= i < |images| ==> media[i] == Media(images[i], ImageAlt)
  {
    seq(|images|, i requires 0 <= i < |images| => Media(images[i], ImageAlt))
  }

  /** `media.map((item) => item.url)`. */
  function MediaUrls(media: seq<Media>): (urls: seq<string>)
    ensures |urls| == |media|
    ensures forall i :: 0 <= i < |media| ==> urls[i] == media[i].url
  {
    seq(|media|, i requires 0 <= i < |media| => media[i].url)
  }

  /** The body keeps every image url, in order. */
  lemma MediaUrlsOfToMedia(images: seq<string>)
    ensures MediaUrls(ToMedia(images)) == images
  {
  }

  /** Media the form itself sent come back unchanged through a load and a
      save. */
  lemma ToMediaOfMediaUrls(media: seq<Media>)
    requires forall i :: 0 <= i < |media| ==> media[i].alt == ImageAlt
    ensures ToMedia(MediaUrls(media)) == media
  {
  }

  datatype Meta = Meta(wifi: bool, parking: bool, breakfast: bool, pets: bool)

  /** Every venue the forms send has wifi and parking, and neither breakfast
      nor pets. */
  const FixedMeta: Meta := Meta(true, true, false, false)

  /** `location` carries the address only. */
  datatype LocationPayload = LocationPayload(address: string)

  datatype VenuePayload = VenuePayload(
    name: string,
    description: string,
    media: seq<Media>,
    price: int,
    maxGuests: int,
    meta: Meta,
    location: LocationPayload)

  /** `onSubmit`'s body, built only from a form the schema accepted. */
  function BuildPayload(form: FormInput, images: seq<string>): (p: VenuePayload)
    requires Validate(form) == {}
    ensures p.name == form.name && p.description == form.description
    ensures p.price == form.price.value && p.maxGuests == form.maxGuests.value
    ensures p.location == LocationPayload(form.address)
    ensures p.price >= 1 && p.maxGuests >= 1
    ensures p.name != "" && p.description != "" && p.location.address != ""
    ensures MediaUrls(p.media) == images
    ensures forall i :: 0 <= i < |p.media| ==> p.media[i].alt == ImageAlt
    ensures p.meta == FixedMeta
  {
    assert MaxGuestsField !in Validate(form) && PriceField !in Validate(form);
    assert NameField !in Validate(form) && AddressField !in Validate(form) && DescriptionField !in Validate(form);
    VenuePayload(form.name, form.description, ToMedia(images), form.price.value, form.maxGuests.value,
                 FixedMeta, LocationPayload(form.address))
  }

  /** What the page does once a request settles: where it navigates and
      what it alerts, each possibly nothing. */
  datatype Effects = Effects(navigateTo: Option<string>, alert: Option<string>)
}
