/** The filter overlay of the home page (components/FilterOverlay.jsx): the
    criteria record, its two change handlers and the five rating stars. */
module FilterOverlay {

  import opened Wrappers

  /** The criteria record `{ location, rating, guests, price }`. The three
      text inputs hold strings; `rating` is set only by the stars, to a
      number. It starts as `""`; here 0 stands for that initial value, which
      every use of the field treats alike (both are falsy, and `i < ""`
      compares with 0). */
  datatype Filters = Filters(location: string, rating: int, guests: string, price: string)

  const EmptyFilters: Filters := Filters("", 0, "", "")

  /** The `name` attributes of the overlay's three inputs. */
  datatype InputName = LocationInput | GuestsInput | PriceInput

  /** The criterion an input edits. */
  function Field(f: Filters, name: InputName): string
  {
    match name
    case LocationInput => f.location
    case GuestsInput => f.guests
    case PriceInput => f.price
  }

  /** `handleInputChange`: `{ ...prev, [name]: value }`. */
  function HandleInputChange(prev: Filters, name: InputName, value: string): (r: Filters)
    ensures Field(r, name) == value
    ensures forall other :: other != name ==> Field(r, other) == Field(prev, other)
    ensures r.rating == prev.rating
  {
    match name
    case LocationInput => prev.(location := value)
    case GuestsInput => prev.(guests := value)
    case PriceInput => prev.(price := value)
  }

  /** `handleRatingChange`: `{ ...prev, rating }`. */
  function HandleRatingChange(prev: Filters, rating: int): (r: Filters)
    ensures r.rating == rating
    ensures forall name :: Field(r, name) == Field(prev, name)
  {
    prev.(rating := rating)
  }

  const StarCount: nat := 5

  /** The rating a click on star `i` (counted from 0) chooses. */
  function StarValue(i: nat): (r: int)
    requires i < StarCount
    ensures 1 <= r <= StarCount
  {
    i + 1
  }

  /** Which stars are lit: star `i` is highlighted when `i < rating`. */
  function Stars(rating: int): (r: seq<bool>)
    ensures |r| == StarCount
  {
    seq(StarCount, i requires 0 <= i < StarCount => i < rating)
  }

  function CountLit(stars: seq<bool>): nat
  {
    if stars == [] then 0
    else CountLit(stars[..|stars| - 1]) + (if stars[|stars| - 1] then 1 else 0)
  }

  lemma {:induction false} CountLitPrefix(n: nat, rating: int)
    requires 0 <= rating
    ensures CountLit(seq(n, i requires 0 <= i < n => i < rating)) == if rating <= n then rating else n
  {
    var s := seq(n, i requires 0 <= i < n => i < rating);
    if n > 0 {
      var t := seq(n - 1, i requires 0 <= i < n - 1 => i < rating);
      assert s[..n - 1] == t;
      CountLitPrefix(n - 1, rating);
    }
  }

  /** The number of lit stars equals a rating in 0..5. */
  lemma LitStarsEqualRating(rating: int)
    requires 0 <= rating <= StarCount
    ensures CountLit(Stars(rating)) == rating
  {
    CountLitPrefix(StarCount, rating);
  }

  /** Clicking star `i` leaves exactly stars 0..i lit and keeps the text
      criteria. */
  lemma ClickStar(prev: Filters, i: nat)
    requires i < StarCount
    ensures var r := HandleRatingChange(prev, StarValue(i));
      && 1 <= r.rating <= StarCount
      && CountLit(Stars(r.rating)) == i + 1
      && r.location == prev.location && r.guests == prev.guests && r.price == prev.price
  {
    LitStarsEqualRating(i + 1);
    assert Field(HandleRatingChange(prev, StarValue(i)), GuestsInput) == prev.guests;
    assert Field(HandleRatingChange(prev, StarValue(i)), PriceInput) == prev.price;
    assert Field(HandleRatingChange(prev, StarValue(i)), LocationInput) == prev.location;
  }

  /** What the overlay renders: nothing while closed, otherwise the form
      with its five stars lit by the current rating. */
  function Render(isOpen: bool, filters: Filters): (view: Option<seq<bool>>)
    ensures view.None? <==> !isOpen
    ensures view.Some? ==> |view.value| == StarCount
    ensures view.Some? && 0 <= filters.rating <= StarCount ==> CountLit(view.value) == filters.rating
  {
    if isOpen then
      LitStarsEqualRating(if 0 <= filters.rating <= StarCount then filters.rating else 0);
      Some(Stars(filters.rating))
    else None
  }
}
