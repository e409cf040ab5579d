/** The records the remote service hands the pages. Optional fields are
    `Option`s: an absent field reads as `undefined` in the pages. Instants
    are milliseconds; ratings and prices are whole numbers. */
module Venues {

  import opened Wrappers

  datatype Location = Location(address: Option<string>, city: Option<string>, country: Option<string>)

  /** One image of a venue: `{ url, alt }`. */
  datatype Media = Media(url: string, alt: string)

  /** A booking on a venue: the stay runs from `dateFrom` to `dateTo`. */
  datatype Booking = Booking(id: string, dateFrom: int, dateTo: int, guests: int)

  datatype Venue = Venue(
    id: string,
    name: Option<string>,
    location: Option<Location>,
    rating: Option<int>,
    maxGuests: int,
    price: int,
    created: int,
    media: seq<Media>,
    bookings: Option<seq<Booking>>)

  /** `venue.location?.city`. */
  function City(v: Venue): Option<string>
  {
    if v.location.Some? then v.location.value.city else None
  }

  /** `venue.location?.country`. */
  function Country(v: Venue): Option<string>
  {
    if v.location.Some? then v.location.value.country else None
  }
}
