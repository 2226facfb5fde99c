# RentNGo booking logic in Dafny

RentNGo is a single-page vehicle-rental mock: a visitor browses a catalogue
of cars and bikes, signs in, opens a vehicle, fills in KYC details and a
pickup/dropoff window, pays (a simulated delay), and sees the booking on a
profile page split into current and past trips. Everything lives in
`src/App.js` as React state. This project lifts the booking logic out of the
components and proves what it does:

- `Text` — ASCII lower-casing and `String.prototype.includes`, with
  `includes` proved equal to "the needle occurs at some position".
- `Seqs` — `Array.prototype.filter` on sequences, an independent reference
  definition (the increasing list of kept positions), and the facts that a
  filter is an order-preserving sub-list and that two complementary filters
  split a list.
- `Catalog` — vehicle records, the listing filters, and the listing filter
  (location or ALL, type or ALL, case-insensitive name search).
- `Checkout` — rental duration as the ceiling of the millisecond window in
  hours, the estimated price, the deposit and the amount due, the KYC form,
  its single-field updates and the completeness check that gates the proceed
  button.
- `Trips` — bookings and the profile page's current/past split.
- `Payment` — the payment modal's INIT → PROCESSING → SUCCESS step machine,
  as a transition function with lemmas and as a class with a `step` field.
- `RentApp` — the `App` component as a class whose fields are the React
  state (`view`, `user`, `bookings`, `filters`, `selectedVehicle`,
  `showPayment`, `activeBookingDetails`, `kycData`) and whose methods are the
  event handlers; `Valid()` is the invariant every handler keeps. The
  mounted payment modal is the field `modal`, present exactly while
  `showPayment` holds, so completing or cancelling a payment is offered
  only on the modal screen (SUCCESS or INIT) that shows its button.

Times are integer milliseconds; a time that is `None` is an empty
datetime field. The wall clock (`now`) and the object URL made for an
uploaded file are parameters.

## Model

| member | source | states |
|---|---|---|
| Text.Lower | src/App.js:345 | lower-casing keeps the length, turns each capital into the letter 32 code points later (its lower-case form), keeps every other character and leaves no capital |
| Text.Includes | src/App.js:345 | `includes` finds a needle at the start of the string and never finds one longer than the string |
| Text.IncludesIffOccurs | src/App.js:345 | the `includes` scan holds exactly when the needle occurs at some position of the string |
| Seqs.Filter | src/App.js:342-347 | a filter keeps only elements of the list that pass the test, and keeps every one that does |
| Seqs.FilterSelects | src/App.js:342-347 | the k-th kept element is the element at the k-th passing position (increasing): filtering is an order-preserving sub-list |
| Seqs.FilterPartition | src/App.js:139-140 | two filters with complementary tests split a list: lengths and multisets add up to the list's |
| Catalog.Matches | src/App.js:343-346 | a vehicle passes exactly when its city is the selected one or ALL, its type is the selected one or ALL, and the lower-cased search text occurs in its lower-cased name |
| Catalog.Filtered | src/App.js:341-348 | every shown vehicle is in the catalogue and passes the test; every catalogue vehicle passing it is shown |
| Catalog.FilteredInOrder | src/App.js:342-347 | the listing is the passing vehicles in catalogue order |
| Catalog.SearchIgnoresCase | src/App.js:345 | two search texts that agree letter by letter once lower-cased give the same listing |
| Catalog.TeslaInEitherCase | src/App.js:345 | searching "TESLA" shows what searching "tesla" shows |
| Catalog.InitialFiltersShowAll | src/App.js:534 | the initial filters (ALL, empty search, ALL) show the whole catalogue |
| Catalog.InitialBikes | src/App.js:28-85 | with type BIKE the initial catalogue shows the Royal Enfield and the KTM, in that order |
| Checkout.HoursCovering | src/App.js:416-418 | for a positive window the hour count is at least 1 and the least whole number of hours covering it |
| Checkout.HoursCoveringUnique | src/App.js:418 | no other whole number of hours satisfies the covering bounds |
| Checkout.Duration | src/App.js:412-419 | duration is 0 exactly when a time is missing or the dropoff is not after the pickup; otherwise it is the covering hour count |
| Checkout.DurationMonotone | src/App.js:412-419 | moving the dropoff later never shortens the duration |
| Checkout.RentalPrice | src/App.js:421 | the estimated price is 0 exactly for no hours or a free vehicle, and at least one hour's rate for a positive duration |
| Checkout.AmountDue | src/App.js:302 | the amount due less the 2500 deposit is the rental price (duration × hourly rate) |
| Checkout.RentalPriceMonotone | src/App.js:421 | a longer rental never has a lower estimated price |
| Checkout.WithText | src/App.js:473-490 | typing into a KYC text input sets that field and changes no other field |
| Checkout.WithUpload | src/App.js:542 | with a file, exactly the chosen document takes its URL; without one the form is unchanged |
| Checkout.FormComplete | src/App.js:422 | the form is complete exactly when every text field is filled in, every document except the licence back is uploaded and the duration is positive |
| Checkout.FillingInCompletesForm | src/App.js:422 | the empty form is incomplete; typing the three text fields and uploading both fronts completes it for any positive duration |
| Checkout.LicenseBackOptional | src/App.js:422 | uploading the licence back never changes whether the form is complete |
| Checkout.CompleteFormHasWindow | src/App.js:422 | a complete form implies both times are set and the dropoff is after the pickup |
| Trips.CurrentTrips | src/App.js:139 | current trips are bookings whose dropoff is after now, and every such booking is one |
| Trips.PastTrips | src/App.js:140 | past trips are bookings whose dropoff is at or before now, and every such booking is one |
| Trips.TripsPartition | src/App.js:139-140 | when every dropoff parses, each booking lands in exactly one list, in the current one iff its dropoff is after now; lengths and multisets add up |
| Trips.TripsInOrder | src/App.js:139-140 | both lists keep the bookings' order |
| Trips.UnparsedDropoffInNeither | src/App.js:139-140 | a booking whose dropoff does not parse is in neither list |
| Trips.PrependedCurrentFirst | src/App.js:560 | a prepended booking that is still running heads the current trips |
| Payment.Next | src/App.js:276-281 | every possible transition moves exactly one step forward |
| Payment.RunAdvances | src/App.js:274-281 | along any possible run the step advances by one per event, never backward |
| Payment.RunsFromInit | src/App.js:274-281 | from INIT the only possible histories are none, Pay, and Pay then the timer, ending in INIT, PROCESSING, SUCCESS |
| Payment.PaymentModal.constructor | src/App.js:274 | a new modal starts at INIT |
| Payment.PaymentModal.HandlePay | src/App.js:276-277 | Pay moves INIT to PROCESSING |
| Payment.PaymentModal.TimerFires | src/App.js:278-280 | the timer moves PROCESSING to SUCCESS |
| RentApp.NewBooking | src/App.js:550-559 | the recorded booking is PAID for the given vehicle, window, phone and time; the amount charged is its total plus exactly the deposit; a checkout from the details page gives a well-formed booking |
| RentApp.App.constructor | src/App.js:530-538 | the app starts on HOME, signed out, with no bookings, initial filters, no selection, no modal mounted and an empty KYC form |
| RentApp.App.HandleLogin | src/App.js:540 | signing in sets the mock user and the HOME view and changes nothing else |
| RentApp.App.HandleBookNow | src/App.js:541 | signed out: LOGIN view, selection unchanged; signed in: the vehicle is selected and the DETAILS view opens |
| RentApp.App.HandleFileUpload | src/App.js:542 | the KYC form changes only by the single-field upload, and only when a file is present |
| RentApp.App.EditKycText | src/App.js:473-490 | a KYC text input changes only that field of the form |
| RentApp.App.SetFilters | src/App.js:356-380 | the listing filters are replaced and nothing else changes |
| RentApp.App.StartPayment | src/App.js:544-547 | the checkout is recorded and the payment modal is shown, mounted afresh at INIT if it was not shown; nothing else changes |
| RentApp.App.PaymentTotal | src/App.js:302 | the total the modal charges is the booking that will be recorded's total plus exactly the deposit |
| RentApp.App.Pay | src/App.js:307 | Pay, offered only on the INIT screen, moves the shown modal to PROCESSING |
| RentApp.App.PaymentTimerFires | src/App.js:278-280 | the processing delay moves the shown modal to SUCCESS |
| RentApp.App.OnPaymentComplete | src/App.js:549-563 | offered only at SUCCESS: bookings grow by one, the new PAID booking first and the old ones after it unchanged; the modal closes and the PROFILE view opens |
| RentApp.App.CancelPayment | src/App.js:310 | offered only at INIT: cancelling only hides the payment modal |
| RentApp.App.ShownVehicles | src/App.js:570 | the listing page shows exactly the catalogue vehicles that pass the current filters |
| RentApp.App.ProfileTrips | src/App.js:137-140 | for every reachable state the current and past trips split the bookings |
| RentApp.BookingFlow | src/App.js:540-563 | login, Book Now, KYC, a 90-minute window, Pay, the delay and View in Profile leave one PAID two-hour booking, listed as a current trip |

## Left out

- JSX rendering, styling, icons, the `COLORS` and `LOCATIONS` constants and
  the navigation bar, including its `setView` buttons (HOME, LISTING,
  PROFILE, LOGIN) and the details page's close button: they only set `view`.
- `formatCurrency`: locale formatting through `Intl.NumberFormat`.
- Parsing `datetime-local` strings with `new Date(...)` and reading the
  clock: times and `now` are integer-millisecond parameters, and a time that
  cannot be parsed is treated like an empty one (both give duration 0).
- Checkout.Duration: computes the exact ceiling of the integer millisecond
  window in hours, not the floating-point division and `Math.ceil` of the
  source; the two agree for every realistic window.
- The 2500 ms `setTimeout` of the payment step: modelled as a separate
  `TimerFires` transition, without time or concurrency.
- `URL.createObjectURL`: the object URL is an opaque string parameter.
- Logout through `window.location.reload`: browser I/O.
- Text.Lower: lower-cases ASCII letters only, not the full Unicode mapping
  of `toLowerCase`.
- The vehicles' `rating` and `image` fields and the user's `avatar`: they
  take part in no logic.
- The details page's local `bookingMeta` state: the pickup and dropoff it
  holds are the arguments of `StartPayment`.
