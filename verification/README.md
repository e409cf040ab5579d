# Holidaze front end: a Dafny model of the page logic

Holidaze is a venue-booking web client written with React. This project
models the logic behind its pages and proves properties of it. The layout,
styling and the network are not part of the model.

- **Home page** (`src/pages/HomePage.jsx`): the page fetches the venue list and
  sorts it newest first. The search box and the filter criteria narrow what is
  shown. A status cell runs idle → loading → success or error.
- **Filter overlay** (`components/FilterOverlay.jsx`): the criteria record and
  the two change handlers. It has five rating stars: clicking star `i` chooses
  rating `i + 1`, and star `i` is lit while `i < rating`.
- **Venue page** (`src/pages/SingleVenuePage.jsx`):
  - a day is disabled when a booking covers it;
  - the total price is the number of started days times the nightly price;
  - the booking request checks only that both dates are chosen;
  - the booking panel keeps the selected dates, the guest field and whether
    the calendar is open.
- **Profile page** (`pages/ProfilePage.jsx`):
  - the stay length in days and the count of upcoming bookings;
  - the profile-update body and how the answer is merged into the profile;
  - the venue-manager requests, which need a token;
  - who sees the edit controls, which bookings get a card, and "day"/"days";
  - the page's state as its two requests complete.
- **Create form** (`src/pages/CreateVenuePage.jsx`, and its copy
  `src/components/CreateVenuePage.jsx`): the image list only takes trimmed
  http(s) urls. The duplicate check compares the url as typed. The copies share
  the schema and the request body. They differ in one thing: only the pages
  copy alerts after the request.
- **Edit form** (`pages/UpdateVenuePage.jsx`): the image list takes any
  non-empty url not yet listed. Loading a venue fills the form and the list.
  Deleting the venue asks for confirmation first.

The modules:

| module | file | contents |
|---|---|---|
| `Wrappers` | `wrappers.dfy` | `Option` |
| `Text` | `text.dfy` | `toLowerCase`, `includes`, `startsWith`, `trim` and `parseInt` on `seq<char>` |
| `Dates` | `dates.dfy` | the day length in milliseconds, `Math.ceil` of a quotient, `Math.abs` |
| `Seqs` | `seqs.dfy` | subsequences, the `filter((x) => x !== v)` used by both `removeImage`s, no repeats |
| `Venues` | `venues.dfy` | the venue, location, media and booking records |
| `FilterOverlay` | `filter_overlay.dfy` | the criteria, the handlers, the stars |
| `HomePage` | `home_page.dfy` | `applyFiltersAndSearch`, the sort, the page state (class `HomeState`) |
| `SingleVenuePage` | `single_venue_page.dfy` | `isDateDisabled`, `calculateTotalPrice`, `handleBooking`, the panel (class `BookingPanel`) |
| `ProfilePage` | `profile_page.dfy` | `calculateDays`, the upcoming count, the requests, display rules, the page state (class `ProfileView`) |
| `VenueForm` | `venue_form.dfy` | the schema and the request body shared by the two forms |
| `CreateVenuePage` | `create_venue_page.dfy` | `addImage`, `removeImage`, submit, after-submit (class `ImageList`) |
| `UpdateVenuePage` | `update_venue_page.dfy` | `addImage`, `removeImage`, loading, submit, `handleDelete` (class `VenueEditor`) |

How values are represented:

- Instants are whole milliseconds (`int`).
- Prices, ratings and guest counts are whole numbers.
- A NaN from `parseInt` is `None`.
- An absent field is `None`. The profile page treats the profile as a JSON
  map (`ProfilePage.Value`), because its fallbacks (`a || b`) depend on
  JavaScript truthiness.
- State that a component updates (`useState` cells) lives in the fields of a
  class. Each event handler is a method that says the whole new state.
- Pure helpers are functions, each with an `ensures` or lemmas that relate
  it to its partner: an inverse, an invariant, or a reference definition.

## Model

| member | source | states |
|---|---|---|
| Text.Lower | src/pages/HomePage.jsx:63-72 | `toLowerCase` keeps the length and lower-cases each character |
| Text.LowerIdempotent | src/pages/HomePage.jsx:63-72 | lower-casing twice is lower-casing once |
| Text.IncludesIffOccurs | src/pages/HomePage.jsx:64-72 | `includes` holds exactly when the needle occurs at some offset of the haystack (both directions) |
| Text.Includes | src/pages/HomePage.jsx:64-72 | a needle that is a prefix is included, and an included needle is never longer than the haystack |
| Text.IncludesEmpty | src/pages/HomePage.jsx:63-67 | the empty string is included in every string |
| Text.TrimStart | src/pages/CreateVenuePage.jsx:63 | the result is a suffix, starts with no white space, and only white space was dropped |
| Text.TrimEnd | src/pages/CreateVenuePage.jsx:63 | the result is a prefix, ends with no white space, and only white space was dropped |
| Text.Trim | src/pages/CreateVenuePage.jsx:63 | `trim` gives a slice of its input with no white space at either end, and everything dropped before and after that slice is white space |
| Text.TrimKeepsNonSpace | src/pages/CreateVenuePage.jsx:63 | a character that is not white space is never dropped: it lies inside the kept slice |
| Text.TrimIdempotent | src/pages/CreateVenuePage.jsx:63 | trimming twice is trimming once |
| Text.DigitPrefix | src/pages/HomePage.jsx:78 | `parseInt` reads the longest run of digits: every character taken is a digit, the next one is not |
| Text.ParseUnsigned | src/pages/HomePage.jsx:78 | without a `0x` prefix the value is that of the longest digit run in the radix; NaN exactly when there is no digit to read, after the prefix when it applies |
| Text.HexPrefixSkipped | src/pages/HomePage.jsx:78 | with radix 16 or none, `0x` and `0X` are skipped alike and the rest is read in hexadecimal |
| Text.NoRadixReadsDecimal | src/pages/HomePage.jsx:78 | with no `0x` prefix, an omitted radix reads decimal |
| Text.HexSample | src/pages/HomePage.jsx:78 | "0x1F" reads as 31 when the radix is omitted |
| Text.ParseInt | src/pages/HomePage.jsx:78 | a radix other than 0 and 2 to 36 gives NaN; otherwise leading white space is skipped before the sign is read |
| Text.ParseSigned | src/pages/HomePage.jsx:78 | a leading `-` negates the digits read after it and a leading `+` keeps them; a bad radix gives NaN |
| Text.ParseIntSkipsSpace | src/pages/HomePage.jsx:78 | a white-space character in front does not change what `parseInt` reads |
| Text.ParseNegativeDecimalString | src/pages/SingleVenuePage.jsx:92 | `-` followed by the numeral of `n` reads as `-n` with radix 10 or no radix |
| Text.DecimalStringValue | src/pages/SingleVenuePage.jsx:92 | the decimal numeral of `n` consists of digits whose value is `n` |
| Text.ParseDecimalString | src/pages/SingleVenuePage.jsx:92 | `parseInt` with radix 10 or no radix reads back the numeral of any natural number |
| Dates.CeilDiv | src/pages/SingleVenuePage.jsx:32-37 | `Math.ceil(a / b)` is the least `r` with `a <= r * b` |
| Dates.CeilDivUnique | src/pages/SingleVenuePage.jsx:32-37 | `r` is the ceiling of `a / b` whenever `(r - 1) * b < a <= r * b` |
| Dates.CeilDivNonNegative | pages/ProfilePage.jsx:24-25 | the ceiling of a non-negative quotient is non-negative, and zero only for zero |
| Dates.CeilDivExact | pages/ProfilePage.jsx:24-25 | a whole number of days divides to exactly that number |
| Seqs.SubsequenceMultiset | src/pages/HomePage.jsx:62 | a subsequence holds each value at most as often as the sequence |
| Seqs.RemoveAll | src/pages/CreateVenuePage.jsx:75-77 | `filter((image) => image !== url)`: the url is gone, and every other value keeps its count |
| Seqs.RemoveAllSubsequence | src/pages/CreateVenuePage.jsx:75-77 | removal keeps the other images in their order |
| Seqs.RemoveAllAbsent | pages/UpdateVenuePage.jsx:107-109 | removing an unlisted url changes nothing |
| Seqs.RemoveAllDistinct | pages/UpdateVenuePage.jsx:107-109 | removal never introduces a repeat |
| FilterOverlay.HandleInputChange | components/FilterOverlay.jsx:18-21 | the named criterion takes the typed value; the other criteria and the rating are unchanged |
| FilterOverlay.HandleRatingChange | components/FilterOverlay.jsx:23-25 | the rating is set and the three text criteria are unchanged |
| FilterOverlay.StarValue | components/FilterOverlay.jsx:76 | a star click chooses a rating from 1 to 5 |
| FilterOverlay.Stars | components/FilterOverlay.jsx:70-75 | there are always five stars |
| FilterOverlay.CountLitPrefix | components/FilterOverlay.jsx:74 | with the rule `i < rating`, the first `min(rating, n)` of `n` stars are lit |
| FilterOverlay.LitStarsEqualRating | components/FilterOverlay.jsx:70-75 | the number of lit stars is the rating, for a rating from 0 to 5 |
| FilterOverlay.ClickStar | components/FilterOverlay.jsx:70-77 | after a click on star `i`, exactly `i + 1` stars are lit and the text criteria are kept |
| FilterOverlay.Render | components/FilterOverlay.jsx:16 | a closed overlay renders nothing; an open one renders five stars, as many lit as the rating |
| HomePage.ApplyFiltersAndSearch | src/pages/HomePage.jsx:61-87 | a venue is in the result if and only if it is in the list and passes the search and every criterion that is set |
| HomePage.FilterIsSubsequence | src/pages/HomePage.jsx:62-85 | the result is a subsequence of the list: nothing is added or reordered |
| HomePage.FilterCounts | src/pages/HomePage.jsx:62-85 | a passing venue is kept as often as the list holds it, and a failing one never |
| HomePage.FilterIdentity | src/pages/HomePage.jsx:10-16 | with an empty search and the initial criteria every venue is shown |
| HomePage.FilterIdempotent | src/pages/HomePage.jsx:61-87 | applying the same search and criteria to the result changes nothing |
| HomePage.KeptVenuesMeetCriteria | src/pages/HomePage.jsx:69-82 | every shown venue meets each set criterion: city, minimum rating, guests, maximum price |
| HomePage.UnreadableGuestsKeepsNothing | src/pages/HomePage.jsx:77-79 | a guest criterion that `parseInt` reads as NaN leaves no venue |
| HomePage.DotFiveGuestsKeepsNothing | src/pages/HomePage.jsx:77-79 | the guest criterion ".5" leaves no venue |
| HomePage.GuestsScenario | src/pages/HomePage.jsx:77-79 | guest criterion "4": a venue for 2 is dropped and a venue for 6 is kept |
| HomePage.GuestsFour | src/pages/HomePage.jsx:77-79 | with the guest criterion "4" and nothing else set, a venue is kept exactly when it takes at least 4 guests |
| HomePage.FilterPair | src/pages/HomePage.jsx:61-84 | filtering two venues keeps each one that passes, in order |
| HomePage.SearchScenario | src/pages/HomePage.jsx:63-67 | the search "cabin" matches a name regardless of case, or else a city |
| HomePage.SortNewestFirst | src/pages/HomePage.jsx:45-47 | the sort leaves the array newest first and a permutation of what it held |
| HomePage.HomeState.constructor | src/pages/HomePage.jsx:7-17 | the initial state: no venues, empty criteria and search, idle, overlay closed |
| HomePage.HomeState.StartFetch | src/pages/HomePage.jsx:38 | the status becomes loading and nothing else changes |
| HomePage.HomeState.FinishFetch | src/pages/HomePage.jsx:37-55 | on success both lists become the sorted data and the status becomes success; on failure only the status changes, to error |
| HomePage.HomeState.ApplyFilters | src/pages/HomePage.jsx:61-87 | the shown list becomes the filtered list; the full list stays newest first |
| HomePage.HomeState.SetSearchValue | src/pages/HomePage.jsx:89-91 | a new search re-applies the filters |
| HomePage.HomeState.SetFilters | src/pages/HomePage.jsx:89-91 | new criteria re-apply the filters |
| HomePage.HomeState.OpenFilter | src/pages/HomePage.jsx:19 | the overlay opens |
| HomePage.HomeState.CloseFilter | src/pages/HomePage.jsx:20 | the overlay closes |
| HomePage.HomeState.SubmitFilters | components/FilterOverlay.jsx:44-48 | submitting applies the filters, then closes the overlay |
| SingleVenuePage.IsDateDisabled | src/pages/SingleVenuePage.jsx:41-47 | a day is disabled if and only if some booking covers it, both ends included |
| SingleVenuePage.NoBookingsNothingDisabled | src/pages/SingleVenuePage.jsx:41-47 | a venue without bookings disables no day |
| SingleVenuePage.EndpointsDisabled | src/pages/SingleVenuePage.jsx:45 | the first and the last day of a booking are disabled |
| SingleVenuePage.MoreBookingsDisableMore | src/pages/SingleVenuePage.jsx:41-47 | more bookings never enable a disabled day |
| SingleVenuePage.Nights | src/pages/SingleVenuePage.jsx:32-37 | the number of started days between the two instants |
| SingleVenuePage.TotalPrice | src/pages/SingleVenuePage.jsx:30-39 | 0 while a date or the price is missing (or the price is 0), else nights times price |
| SingleVenuePage.TotalPriceSameDay | src/pages/SingleVenuePage.jsx:30-39 | the same instant twice costs nothing |
| SingleVenuePage.TotalPriceNonNegative | src/pages/SingleVenuePage.jsx:30-39 | an ordered selection at a non-negative price never costs less than 0 |
| SingleVenuePage.TotalPriceWholeDays | src/pages/SingleVenuePage.jsx:30-39 | `k` whole days cost `k` times the price |
| SingleVenuePage.HandleBooking | src/pages/SingleVenuePage.jsx:83-94 | it asks for dates if and only if a date is missing; otherwise it posts the two dates, `parseInt(guestCount, 10)` and the venue id |
| SingleVenuePage.BookingIgnoresAvailability | src/pages/SingleVenuePage.jsx:83-94 | a range spanning a disabled day is still posted, with the typed guest count |
| SingleVenuePage.BookingScenario | src/pages/SingleVenuePage.jsx:30-47 | around a booking of the 10th to the 15th: the 12th is disabled, the 16th free, and two nights, from the start of one day to the start of another, cost twice the price |
| SingleVenuePage.EndOfDayRangePrice | src/pages/SingleVenuePage.jsx:30-39 | a range from an instant to the last millisecond `k` days later costs `k` times the price, the started day counting in full |
| SingleVenuePage.EndOfDayScenario | src/pages/SingleVenuePage.jsx:30-39 | from the start of the 16th to the end of the 18th costs three times the price |
| SingleVenuePage.BookingPanel.constructor | src/pages/SingleVenuePage.jsx:20-22 | no dates, one guest, the calendar closed |
| SingleVenuePage.BookingPanel.OpenCalendar | src/pages/SingleVenuePage.jsx:27 | the calendar opens |
| SingleVenuePage.BookingPanel.CloseCalendar | src/pages/SingleVenuePage.jsx:28 | the calendar closes; the dates stay |
| SingleVenuePage.BookingPanel.SelectRange | src/pages/SingleVenuePage.jsx:213-214 | a chosen range sets both ends |
| SingleVenuePage.BookingPanel.Clear | src/pages/SingleVenuePage.jsx:229 | Clear resets both ends together |
| SingleVenuePage.BookingPanel.SetGuestCount | src/pages/SingleVenuePage.jsx:254 | the guest field keeps the typed text |
| SingleVenuePage.BookingPanel.Total | src/pages/SingleVenuePage.jsx:225 | the total shown is `calculateTotalPrice` and never negative |
| SingleVenuePage.DefaultPanelBooking | src/pages/SingleVenuePage.jsx:83-94 | with the defaults, "Book Now" asks for dates; once a range is chosen it posts one guest |
| ProfilePage.CalculateDays | pages/ProfilePage.jsx:21-27 | the number of started days between the two instants, in either order |
| ProfilePage.CalculateDaysProperties | pages/ProfilePage.jsx:21-27 | symmetric, never negative, and zero exactly for equal instants |
| ProfilePage.CalculateDaysWhole | pages/ProfilePage.jsx:21-27 | `k` whole days apart is a stay of `k` days |
| ProfilePage.CountUpcoming | pages/ProfilePage.jsx:279-281 | the count of bookings that start after now is at most the number of bookings |
| ProfilePage.UpcomingBookingsCount | pages/ProfilePage.jsx:279-281 | undefined exactly when the venue came without bookings, otherwise at most their number |
| ProfilePage.CountUpcomingAppend | pages/ProfilePage.jsx:279-281 | the count over two lists joined is the sum of the counts |
| ProfilePage.StartingNowNotCounted | pages/ProfilePage.jsx:280 | a booking that starts exactly now is not upcoming |
| ProfilePage.CountUpcomingAntitone | pages/ProfilePage.jsx:279-281 | as time passes the count can only fall |
| ProfilePage.PastNotCounted | pages/ProfilePage.jsx:279-281 | when no booking starts after now, the count is 0 |
| ProfilePage.CountUpcomingCons | pages/ProfilePage.jsx:279-281 | a booking in front adds one to the count exactly when it starts after now |
| ProfilePage.AllUpcoming | pages/ProfilePage.jsx:279-281 | when every booking starts after now, all are counted |
| ProfilePage.ProfileUpdatePayload | pages/ProfilePage.jsx:61-67 | the bio and the avatar url each take the edit when non-empty, else the profile's value, else ""; the alt text is fixed |
| ProfilePage.MergeProfile | pages/ProfilePage.jsx:73 | the answer's fields win and every other field of the profile stays |
| ProfilePage.SetVenueManager | pages/ProfilePage.jsx:84-97 | no request without a token; otherwise the requested flag, the token, and an avatar url that is never empty and keeps the profile's own |
| ProfilePage.IsOwnProfile | pages/ProfilePage.jsx:193 | one's own profile carries the logged-in name; a named profile is nobody's own when nobody is logged in |
| ProfilePage.OwnProfileByName | pages/ProfilePage.jsx:193 | a profile is one's own exactly when the logged-in name is its name |
| ProfilePage.ShownBookings | pages/ProfilePage.jsx:327-328 | a booking gets a card if and only if it carries its venue |
| ProfilePage.ShownBookingsInOrder | pages/ProfilePage.jsx:327-328 | the cards follow the list's order: nothing is added or reordered |
| ProfilePage.ShownBookingsCounts | pages/ProfilePage.jsx:327-328 | a booking with its venue gets one card per listed copy, any other booking none |
| ProfilePage.DayLabel | pages/ProfilePage.jsx:347-348 | "day" exactly for a one-day stay, "days" otherwise |
| ProfilePage.ProfileView.constructor | pages/ProfilePage.jsx:10-17 | no profile, empty lists, not editing, empty edit boxes, loading, no error |
| ProfilePage.ProfileView.Load | pages/ProfilePage.jsx:29-57 | run again whenever the route's profile id changes: the profile seeds the edit boxes; a manager's venues or a user's bookings follow; a failure to fetch the profile sets the error and keeps the edit boxes, lists and profile; loading ends |
| ProfilePage.ProfileView.StartEditing | pages/ProfilePage.jsx:243 | editing starts |
| ProfilePage.ProfileView.CancelEditing | pages/ProfilePage.jsx:229 | editing ends |
| ProfilePage.ProfileView.SetNewBio | pages/ProfilePage.jsx:210 | the bio box keeps the typed text |
| ProfilePage.ProfileView.SetNewAvatar | pages/ProfilePage.jsx:217 | the avatar box keeps the typed text |
| ProfilePage.ProfileView.SaveProfile | pages/ProfilePage.jsx:59-80 | sends the update body; an answer is merged and ends editing; a failure changes nothing |
| ProfilePage.ProfileView.ChangeVenueManager | pages/ProfilePage.jsx:114-119 | an ok answer to the request sets the flag in the profile; otherwise the profile stays |
| VenueForm.Validate | src/pages/CreateVenuePage.jsx:8-19 | a field is in error exactly when its text is empty, its number is missing or below 1, or the image field is not a url |
| VenueForm.ToMedia | src/pages/CreateVenuePage.jsx:37 | one media entry per url, in order, each with alt "Venue Image" |
| VenueForm.MediaUrls | pages/UpdateVenuePage.jsx:62 | one url per media entry, in order |
| VenueForm.MediaUrlsOfToMedia | pages/UpdateVenuePage.jsx:62 | the urls of the media sent are the image list |
| VenueForm.ToMediaOfMediaUrls | pages/UpdateVenuePage.jsx:77 | media with the form's alt text survive a load and a save unchanged |
| VenueForm.BuildPayload | src/pages/CreateVenuePage.jsx:33-49 | a valid form gives a body whose name, description, price, guest count and address are the form's values (non-empty texts, price and guests at least 1), with the image list as media and the fixed amenities |
| CreateVenuePage.WithImage | src/pages/CreateVenuePage.jsx:61-73 | the list grows by one, the trimmed url, if and only if the url is non-empty, not listed as typed, and has an http(s) scheme once trimmed; otherwise it is unchanged |
| CreateVenuePage.WithImageKeepsWellFormed | src/pages/CreateVenuePage.jsx:61-73 | the list only ever holds trimmed http(s) urls |
| CreateVenuePage.TrimmedInputStaysDistinct | src/pages/CreateVenuePage.jsx:62-70 | a url typed without surrounding space is never listed twice |
| CreateVenuePage.PaddedInputAddsDuplicate | src/pages/CreateVenuePage.jsx:62-70 | a listed url typed again with a space in front is listed a second time |
| CreateVenuePage.PaddedSampleAddsDuplicate | src/pages/CreateVenuePage.jsx:62-70 | " http://a" next to "http://a" gives the list twice "http://a" |
| CreateVenuePage.NoSchemeRefused | src/pages/CreateVenuePage.jsx:64-69 | "www.x.no" is refused |
| CreateVenuePage.ImageList.constructor | src/pages/CreateVenuePage.jsx:22 | the list starts empty |
| CreateVenuePage.ImageList.TypeImageUrl | src/pages/CreateVenuePage.jsx:180 | the image field keeps the typed text |
| CreateVenuePage.ImageList.AddImage | src/pages/CreateVenuePage.jsx:61-73 | the list becomes `WithImage`; the field is cleared exactly when the url is taken; the list stays well formed |
| CreateVenuePage.ImageList.RemoveImage | src/pages/CreateVenuePage.jsx:75-77 | every copy of the url goes, and the list stays well formed |
| CreateVenuePage.ImageList.Submit | src/pages/CreateVenuePage.jsx:33-49 | the body sent carries only trimmed http(s) urls |
| CreateVenuePage.AfterCreate | src/pages/CreateVenuePage.jsx:50-58 | a created venue is opened, a failure stays on the page; only the pages copy alerts, with the success or failure text, and the components copy (src/components/CreateVenuePage.jsx, lines 52-58) alerts nothing |
| UpdateVenuePage.WithNewImage | pages/UpdateVenuePage.jsx:100-105 | the url is appended as typed, without trimming and whatever its scheme, if and only if it is non-empty and not listed |
| UpdateVenuePage.WithNewImageKeepsDistinct | pages/UpdateVenuePage.jsx:100-105 | adding never introduces a repeat |
| UpdateVenuePage.WithNewImageIdempotent | pages/UpdateVenuePage.jsx:101 | adding the same url twice is adding it once |
| UpdateVenuePage.NoSchemeAccepted | pages/UpdateVenuePage.jsx:100-105 | a url without a scheme, "www.x.no", is appended to the list |
| UpdateVenuePage.VenueEditor.constructor | pages/UpdateVenuePage.jsx:22-24 | no venue, no form values, no images |
| UpdateVenuePage.VenueEditor.Load | pages/UpdateVenuePage.jsx:48-71 | a loaded venue is stored and fills the form and the image list; a failure only alerts; a venue without a location is stored, then alerts |
| UpdateVenuePage.VenueEditor.TypeImageUrl | pages/UpdateVenuePage.jsx:189 | the image field keeps the typed text |
| UpdateVenuePage.VenueEditor.AddImage | pages/UpdateVenuePage.jsx:100-105 | the list becomes `WithNewImage`; the field is cleared exactly when the url is taken |
| UpdateVenuePage.VenueEditor.RemoveImage | pages/UpdateVenuePage.jsx:107-109 | every copy of the url goes, the rest stay in order |
| UpdateVenuePage.VenueEditor.Submit | pages/UpdateVenuePage.jsx:73-89 | the body sent carries the current image list, in order |
| UpdateVenuePage.LoadThenSaveKeepsMedia | pages/UpdateVenuePage.jsx:62-77 | saving a freshly loaded venue sends back the media it had |
| UpdateVenuePage.AfterUpdate | pages/UpdateVenuePage.jsx:90-97 | a successful update alerts and opens the venue; a failed one does neither |
| UpdateVenuePage.HandleDelete | pages/UpdateVenuePage.jsx:36-46 | no request unless confirmed; a confirmed delete sends the DELETE, then alerts and opens the profile only if it succeeded |
| UpdateVenuePage.DeclinedDeleteSendsNothing | pages/UpdateVenuePage.jsx:37-40 | declining sends nothing, whatever the service would answer |

## Left out

- I/O: the network, `alert`, `console`, `localStorage`, `window.confirm` and
  `window.location.reload`. Their results are parameters (a fetch outcome, a
  token, a confirmation, an ok flag) or fields of a returned record (the
  path navigated to, the alert text).
- Rendering, styling, the parallax scroll handler and the outside-click hook.
  Only the decisions the markup makes are modelled: which stars are lit,
  which bookings get a card, "day"/"days", whether the profile is one's own.
- The calendar widget. It disables the days `isDateDisabled` reports and
  hands back ranges. The model takes a range as two instants and does not
  model that the widget returns the end of the last chosen day.
- `toLowerCase` is modelled for the ASCII letters only. Other letters are
  left unchanged.
- Dates are whole milliseconds. Time zones, `toISOString` and date parsing
  are left out. `Math.ceil(...) || 0` cannot meet NaN with whole
  milliseconds.
- Floating-point prices, ratings and guest counts. The form schema's numbers
  are taken as whole numbers after casting.
- HomePage.SortNewestFirst: promises the order and a permutation, not that
  venues created at the same instant keep their relative order, which the
  stable `Array.prototype.sort` would guarantee.
- The schema's url pattern for the image field is a verdict carried in the
  form input (`imageUrlIsUrl`); the pattern itself is not modelled. The
  error messages shown under the fields are not modelled either.
- ProfilePage.ProfileView.Load: the edit boxes get the profile's bio and
  avatar url when they are strings and `""` otherwise. A non-string truthy
  value, which the page would put in the box as is, is not modelled.
- ProfilePage.ProfileView.ChangeVenueManager: the reload after success and
  the error text drawn from the service's answer are left out.
- Unreadable criteria: one would expect a guest or price criterion that
  `parseInt` reads as NaN to be ignored, like an unset one. The code compares
  with NaN instead, the comparison is false, and every venue fails
  (`HomePage.UnreadableGuestsKeepsNothing`). The model follows the code.
- The booking check: one would expect a request that overlaps a booking or
  exceeds the venue's capacity to be refused before it is sent.
  `handleBooking` checks only that both dates are chosen
  (`SingleVenuePage.BookingIgnoresAvailability`). The model follows the
  code.
- `src/components/CreateVenuePage.jsx` repeats the pages copy except for the
  alerts. It is modelled by the same members; `CreateVenuePage.AfterCreate`
  takes the copy as a parameter.
