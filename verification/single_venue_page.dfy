/** The venue page (src/pages/SingleVenuePage.jsx): which calendar days are
    disabled, the total price of a selection, the booking request, and the
    booking panel's state. */
module SingleVenuePage {

  import opened Wrappers
  import opened Text
  import opened Dates
  import opened Venues

  // ---------------------------------------------------------------------------
  // isDateDisabled
  // ---------------------------------------------------------------------------

  /** A booking covers a day from its first to its last instant, both
      included. */
  predicate Covers(b: Booking, d: int)
  {
    b.dateFrom <= d <= b.dateTo
  }

  /** `isDateDisabled(date, bookings)`: `bookings.some(...)`. */
  function IsDateDisabled(d: int, bookings: seq<Booking>): (r: bool)
    ensures r <==> exists i :: 0 <= i < |bookings| && Covers(bookings[i], d)
  {
    if bookings == [] then false
    else
      var rest := IsDateDisabled(d, bookings[1..]);
      assert forall i :: 1 <= i < |bookings| ==> bookings[i] == bookings[1..][i - 1];
      assert rest ==> exists i :: 1 <= i < |bookings| && Covers(bookings[i], d);
      Covers(bookings[0], d) || rest
  }

  /** Both ends of a booking are disabled. */
  lemma EndpointsDisabled(bookings: seq<Booking>, i: nat)
    requires i < |bookings| && bookings[i].dateFrom <= bookings[i].dateTo
    ensures IsDateDisabled(bookings[i].dateFrom, bookings)
    ensures IsDateDisabled(bookings[i].dateTo, bookings)
  {
    assert Covers(bookings[i], bookings[i].dateFrom);
    assert Covers(bookings[i], bookings[i].dateTo);
  }

  /** No booking, no disabled day; more bookings never enable a day. */
  lemma NoBookingsNothingDisabled(d: int)
    ensures !IsDateDisabled(d, [])
  {
  }

  lemma MoreBookingsDisableMore(d: int, bookings: seq<Booking>, more: seq<Booking>)
    requires IsDateDisabled(d, bookings)
    ensures IsDateDisabled(d, bookings + more)
    ensures IsDateDisabled(d, more + bookings)
  {
    var i :| 0 <= i < |bookings| && Covers(bookings[i], d);
    assert (bookings + more)[i] == bookings[i];
    assert (more + bookings)[|more| + i] == bookings[i];
  }

  // ---------------------------------------------------------------------------
  // calculateTotalPrice
  // ---------------------------------------------------------------------------

  /** `selectedDates`: `[from, to]`, each `null` until chosen. */
  datatype Selection = Selection(from: Option<int>, to: Option<int>)

  const NoSelection: Selection := Selection(None, None)

  /** `Math.ceil((to - from) / (1000 * 60 * 60 * 24)) || 0`: the number of
      started days between the two instants. With whole milliseconds the
      quotient is never NaN, and `|| 0` changes nothing. */
  function Nights(from: int, to: int): (n: int)
    ensures (n - 1) * DayMs < to - from <= n * DayMs
  {
    CeilDiv(to - from, DayMs)
  }

  /** `calculateTotalPrice`: 0 while a date is missing or the price is absent
      or zero, otherwise nights times the nightly price. */
  function TotalPrice(sel: Selection, price: Option<int>): (total: int)
    ensures sel.from.None? || sel.to.None? || price.None? || price.value == 0 ==> total == 0
    ensures sel.from.Some? && sel.to.Some? && price.Some? ==>
      total == Nights(sel.from.value, sel.to.value) * price.value
  {
    if sel.from.None? || sel.to.None? || price.None? || price.value == 0 then 0
    else Nights(sel.from.value, sel.to.value) * price.value
  }

  /** The same instant twice costs nothing; an ordered selection at a
      non-negative price never costs less than zero. */
  lemma TotalPriceSameDay(d: int, price: Option<int>)
    ensures TotalPrice(Selection(Some(d), Some(d)), price) == 0
  {
    CeilDivNonNegative(0, DayMs);
  }

  lemma TotalPriceNonNegative(from: int, to: int, price: Option<int>)
    requires from <= to
    requires price.None? || price.value >= 0
    ensures TotalPrice(Selection(Some(from), Some(to)), price) >= 0
  {
    CeilDivNonNegative(to - from, DayMs);
  }

  /** `k` whole days from `from` cost `k` nights. */
  lemma TotalPriceWholeDays(from: int, k: int, price: int)
    ensures TotalPrice(Selection(Some(from), Some(from + k * DayMs)), Some(price)) == k * price
  {
    CeilDivExact(k, DayMs);
  }

  // ---------------------------------------------------------------------------
  // handleBooking
  // ---------------------------------------------------------------------------

  /** The body of the booking request. `guests` is `parseInt(guestCount, 10)`
      and is NaN (`None`) when the field cannot be read. */
  datatype BookingPayload = BookingPayload(dateFrom: int, dateTo: int, guests: Option<int>, venueId: string)

  /** Either the page refuses (an alert asks for a date range) or it posts
      the request. */
  datatype BookingAction = AskForDates | PostBooking(payload: BookingPayload)

  /** `handleBooking`: the only check is that both dates are chosen. */
  function HandleBooking(sel: Selection, guestCount: string, id: string): (r: BookingAction)
    ensures r.AskForDates? <==> sel.from.None? || sel.to.None?
    ensures r.PostBooking? ==>
      && r.payload.dateFrom == sel.from.value && r.payload.dateTo == sel.to.value
      && r.payload.guests == ParseInt(guestCount, 10)
      && r.payload.venueId == id
  {
    if sel.from.None? || sel.to.None? then AskForDates
    else PostBooking(BookingPayload(sel.from.value, sel.to.value, ParseInt(guestCount, 10), id))
  }

  /** The check does not look at the bookings or the capacity: a range
      spanning a disabled day, for any number of guests typed as a numeral,
      is still posted, and the count typed is the count sent. */
  lemma BookingIgnoresAvailability(from: int, d: int, to: int, n: nat, id: string, bookings: seq<Booking>)
    requires from <= d <= to && IsDateDisabled(d, bookings)
    ensures HandleBooking(Selection(Some(from), Some(to)), DecimalString(n), id)
            == PostBooking(BookingPayload(from, to, Some(n), id))
  {
    ParseDecimalString(n, 10);
  }

  /** A booking from the 10th to the 15th of a month (day numbers scaled to
      milliseconds, each instant the start of its day): the 12th is disabled
      but a 9th-to-13th request is still posted; the 16th is free and from
      the start of the 16th to the start of the 18th costs two nights. */
  lemma BookingScenario(price: int)
    ensures var b := Booking("b", 10 * DayMs, 15 * DayMs, 2);
      && IsDateDisabled(12 * DayMs, [b])
      && HandleBooking(Selection(Some(9 * DayMs), Some(13 * DayMs)), "1", "v").PostBooking?
      && !IsDateDisabled(16 * DayMs, [b])
      && TotalPrice(Selection(Some(16 * DayMs), Some(18 * DayMs)), Some(price)) == 2 * price
  {
    var b := Booking("b", 10 * DayMs, 15 * DayMs, 2);
    assert Covers([b][0], 12 * DayMs);
    TotalPriceWholeDays(16 * DayMs, 2, price);
  }

  /** The calendar hands back a range whose end is the last instant of the
      last chosen day, so choosing `k` days from the start of the first is
      charged `k` nights: the 16th to the 18th costs three. */
  lemma EndOfDayRangePrice(from: int, k: int, price: int)
    requires k >= 1
    ensures TotalPrice(Selection(Some(from), Some(from + k * DayMs - 1)), Some(price)) == k * price
  {
    CeilDivUnique(k * DayMs - 1, DayMs, k);
  }

  lemma EndOfDayScenario(price: int)
    ensures TotalPrice(Selection(Some(16 * DayMs), Some(19 * DayMs - 1)), Some(price)) == 3 * price
  {
    EndOfDayRangePrice(16 * DayMs, 3, price);
  }

  // ---------------------------------------------------------------------------
  // The booking panel's state
  // ---------------------------------------------------------------------------

  class BookingPanel {
    var selection: Selection
    var guestCount: string
    var isCalendarOpen: bool

    /** The two ends are chosen or cleared together, the calendar yielding an
        ordered range. */
    ghost predicate Valid()
      reads this
    {
      (selection.from.Some? <==> selection.to.Some?) &&
      (selection.from.Some? ==> selection.from.value <= selection.to.value)
    }

    /** `[null, null]`, one guest, the calendar closed. The guest count
      starts as the number 1, which `parseInt` reads through its text
      "1". */
    constructor ()
      ensures Valid()
      ensures selection == NoSelection && guestCount == "1" && !isCalendarOpen
    {
      selection := NoSelection;
      guestCount := "1";
      isCalendarOpen := false;
    }

    method OpenCalendar()
      requires Valid()
      modifies this`isCalendarOpen
      ensures Valid() && isCalendarOpen
    {
      isCalendarOpen := true;
    }

    /** The calendar's Apply button closes it and keeps the selection. */
    method CloseCalendar()
      requires Valid()
      modifies this`isCalendarOpen
      ensures Valid() && !isCalendarOpen
    {
      isCalendarOpen := false;
    }

    /** The calendar's `onChange` with a range. */
    method SelectRange(from: int, to: int)
      requires from <= to
      modifies this`selection
      ensures Valid() && selection == Selection(Some(from), Some(to))
    {
      selection := Selection(Some(from), Some(to));
    }

    /** Clear resets both ends together. */
    method Clear()
      modifies this`selection
      ensures Valid() && selection == NoSelection
    {
      selection := NoSelection;
    }

    /** The guest field keeps what was typed, as text. */
    method SetGuestCount(value: string)
      requires Valid()
      modifies this`guestCount
      ensures Valid() && guestCount == value
    {
      guestCount := value;
    }

    /** The total shown under the calendar; never negative for a venue whose
        price is not negative. */
    method Total(price: Option<int>) returns (total: int)
      requires Valid()
      requires price.None? || price.value >= 0
      ensures total == TotalPrice(selection, price)
      ensures total >= 0
    {
      total := TotalPrice(selection, price);
      if selection.from.Some? {
        TotalPriceNonNegative(selection.from.value, selection.to.value, price);
      }
    }
  }

  /** With the panel's defaults, "Book Now" only asks for dates; once a
      range is chosen it posts one guest. */
  lemma DefaultPanelBooking(id: string, from: int, to: int)
    ensures HandleBooking(NoSelection, "1", id) == AskForDates
    ensures HandleBooking(Selection(Some(from), Some(to)), "1", id)
            == PostBooking(BookingPayload(from, to, Some(1), id))
  {
    var sel := Selection(Some(from), Some(to));
    assert HandleBooking(sel, "1", id) == PostBooking(BookingPayload(from, to, ParseInt("1", 10), id));
    ParseOne();
  }

  /** `parseInt("1", 10)` is 1. */
  lemma ParseOne()
    ensures ParseInt("1", 10) == Some(1)
  {
    ParseDecimalString(1, 10);
    assert DecimalString(1) == "1";
  }
}
