# Rentify: dashboard aggregation, catalog filters and review form

A Dafny model of three parts of the Rentify car-rental web client:

- **The admin dashboard's aggregation** (`AdminDashboard.jsx`). Once the
  users, cars, bookings and payments have been fetched, it computes:
  - the four summary tiles;
  - the six-month revenue, registration and booking series;
  - the booking-status and car-type counts;
  - the top-ten utilization and popularity rankings;
  - revenue by car type;
  - the weekday and hour histograms;
  - the top-ten customer lifetime values;
  - the key performance indicators.
- **The catalog page's filter logic** (`Cars.jsx`):
  - the five-field filter state and its change, clear and brand-reset
    transitions;
  - the query parameters and endpoint of the car search;
  - the brand, type and model option lists;
  - the sign-in gate on "view details".
- **The review form** (`ReviewModal.jsx`):
  - the rating, comment, error and hover state;
  - the star click and hover transitions;
  - the lit-star rule;
  - the validation in `handleSubmit`.

Modules:

- `Records`: the fetched entities. A timestamp is its calendar fields, and an
  absent timestamp or amount is `None`.
- `Folds`: `filter`, `reduce`, `find`, `Set` de-duplication and the
  count-by-key fold, each with its properties.
- `Ranking`: the stable descending sort and the `slice(0, 10)` that follows it.
- `StringOrder`: the default string sort.
- `Months`: the six-month window and its series.
- `Dashboard`: every dashboard generator and the pipeline.
- `CarCatalog`: the filter form, modelled as the `CatalogPage` class.
- `ReviewModal`: the review form, modelled as the `ReviewForm` class.

Design choices:

- The loops that build a value step by step are methods proved against a
  specification function. These are the `for` loop of the monthly series,
  the `forEach` over bookings and the seeding loops of the histograms.
- The `map`/`filter`/`sort`/`slice` pipelines are functions.
- The current month is a parameter, `now`.
- The dashboard's key performance indicators are computed as `real`,
  before any rounding.

Where the code and its documentation disagree, the model follows the code:

- The brand-change effect (`Rentify/src/pages/Cars.jsx:112-120`) resets the
  model only when the brand becomes empty. Switching to another non-empty
  brand keeps the chosen model.

## Model

| member | source | states |
|---|---|---|
| Months.MonthsBack | Rentify/src/pages/admin/AdminDashboard.jsx:166 | `new Date(y, m - i, 1)` is exactly `i` months before `now`, rolling back across years |
| Months.LastSixMonths | Rentify/src/pages/admin/AdminDashboard.jsx:165-179 | exactly six entries, the last one the current month, each the calendar month after the one before, each carrying its month's value |
| Months.Series | Rentify/src/pages/admin/AdminDashboard.jsx:162-180 | the `for (i = 5; i >= 0; i--)` push loop builds exactly the six-entry series |
| Months.SixMonthsCoverWindow | Rentify/src/pages/admin/AdminDashboard.jsx:169-176 | a record counts in a month only when both month and year match, and never when it has no timestamp; so the six month totals add up to the total over the records dated in the window |
| Months.SeriesTotalIsWindowTotal | Rentify/src/pages/admin/AdminDashboard.jsx:165-179 | a series of month totals adds up to the weight of the records dated in its six months |
| Months.SeriesCountIsWindowCount | Rentify/src/pages/admin/AdminDashboard.jsx:187-200 | a series of month counts adds up to the number of records dated in its six months |
| Dashboard.TotalRevenue | Rentify/src/pages/admin/AdminDashboard.jsx:89 | the revenue tile, each payment's amount added with a missing amount as 0: 0 for no payments, and not negative when no amount is |
| Dashboard.SummaryStats | Rentify/src/pages/admin/AdminDashboard.jsx:85-90 | the four tiles: the numbers of users, cars and bookings, and the revenue total, which is not negative when no amount is |
| Dashboard.TotalRevenueBounds | Rentify/src/pages/admin/AdminDashboard.jsx:89 | a payment without an amount adds 0 to the revenue tile; with no negative amount the tile is not negative |
| Dashboard.GenerateMonthlyRevenue | Rentify/src/pages/admin/AdminDashboard.jsx:161-181 | the six-month series of payment amounts, missing amounts as 0; its total is the revenue of the payments made in the window |
| Dashboard.GenerateMonthlyUserRegistrations | Rentify/src/pages/admin/AdminDashboard.jsx:183-202 | the six-month series of users created per month; its total is the number of users created in the window |
| Dashboard.GenerateMonthlyBookings | Rentify/src/pages/admin/AdminDashboard.jsx:204-223 | the six-month series of bookings created per month; its total is the number of bookings created in the window |
| Dashboard.MonthlyRevenueWithinTotal | Rentify/src/pages/admin/AdminDashboard.jsx:89 | with no negative amount, the six months of revenue never exceed the total revenue tile |
| Folds.TallyBy | Rentify/src/pages/admin/AdminDashboard.jsx:107-110 | `(acc[k] \|\| 0) + 1` folded over the list: the keys are exactly the values that occur, and each holds the number of records with that value (at least 1) |
| Folds.TallyTotal | Rentify/src/pages/admin/AdminDashboard.jsx:107-116 | the counts of a count-by-key map add up to the length of the list |
| Dashboard.BookingsByStatusTotal | Rentify/src/pages/admin/AdminDashboard.jsx:107-110 | the status counts add up to the number of bookings; a status is a key exactly when some booking has it |
| Dashboard.CarsByTypeTotal | Rentify/src/pages/admin/AdminDashboard.jsx:113-116 | the type counts add up to the number of cars; a type is a key exactly when some car has it |
| Dashboard.UtilizationScore | Rentify/src/pages/admin/AdminDashboard.jsx:227-229 | ten points per booking capped at 100: always in 0..100, 0 exactly for no bookings, 100 exactly from 10 bookings up |
| Dashboard.UtilizationExamples | Rentify/src/pages/admin/AdminDashboard.jsx:229 | 12 bookings give 100, 3 give 30, none gives 0 |
| Ranking.SortDesc | Rentify/src/pages/admin/AdminDashboard.jsx:234 | `sort((a, b) => key(b) - key(a))` is a non-increasing permutation that keeps equal keys in their input order, as the stable `Array.prototype.sort` does |
| Ranking.TopByKey | Rentify/src/pages/admin/AdminDashboard.jsx:234 | sort, then `slice(0, n)`: `min(n, length)` entries, non-increasing, drawn from the input, none below an entry left out, and equal keys in input order |
| Ranking.TopByKeyMembers | Rentify/src/pages/admin/AdminDashboard.jsx:336-337 | every entry kept is an input entry; an input entry left out means the list is full and the entry ranks no higher than any kept |
| Ranking.TopByKeyFull | Rentify/src/pages/admin/AdminDashboard.jsx:336-337 | an input entry left out, counting copies, means `slice(0, n)` kept `n` entries |
| Dashboard.GenerateCarUtilization | Rentify/src/pages/admin/AdminDashboard.jsx:225-235 | `min(10, cars)` bars in non-increasing order, each in 0..100 and each a car's own score, drawn from the cars' bars as a sub-multiset; every bar left out, counting copies, scores no higher than any bar shown; bars with equal scores keep the cars' order |
| Dashboard.UtilizationRanked | Rentify/src/pages/admin/AdminDashboard.jsx:226-234 | every bar is the score and name of one of the cars |
| Dashboard.UtilizationLeftOut | Rentify/src/pages/admin/AdminDashboard.jsx:234 | a car not shown scores no higher than any car shown, and so does every bar left out counting copies (two cars with identical bars) |
| Dashboard.GeneratePopularCars | Rentify/src/pages/admin/AdminDashboard.jsx:342-353 | `min(10, cars)` entries ordered by booking count, most first, each a car with its own count, drawn from the cars' entries as a sub-multiset; every entry left out, counting copies, has no more bookings than any entry shown; entries with equal counts keep the cars' order |
| Dashboard.PopularityRanked | Rentify/src/pages/admin/AdminDashboard.jsx:343-350 | each entry is one of the cars together with its name and its number of bookings |
| Dashboard.PopularityLeftOut | Rentify/src/pages/admin/AdminDashboard.jsx:350 | a car not shown has no more bookings than any car shown, and so does every entry left out counting copies |
| Dashboard.BookingCountCountsTheCarsBookings | Rentify/src/pages/admin/AdminDashboard.jsx:344-347 | the counted bookings are exactly the bookings whose `carId` is the car's id; the count is 0 exactly when none is |
| Folds.FindSpec | Rentify/src/pages/admin/AdminDashboard.jsx:241-242 | `find` gives nothing exactly when no element matches, and otherwise the first matching element |
| Dashboard.RevenueByType | Rentify/src/pages/admin/AdminDashboard.jsx:240-247 | the dictionary the `forEach` builds, booking by booking in order; what it holds is stated by `RevenueByTypeKeys`, `RevenueByTypeValue` and `RevenueByTypeTotal` |
| Dashboard.RevenueByTypeKeys | Rentify/src/pages/admin/AdminDashboard.jsx:240-247 | a car type is a key exactly when some booking has both a car of that type and a payment |
| Dashboard.RevenueByTypeValue | Rentify/src/pages/admin/AdminDashboard.jsx:240-247 | each type holds the sum, over its bookings with a payment, of the first payment's amount (missing amounts as 0) |
| Dashboard.GenerateRevenueByCarType | Rentify/src/pages/admin/AdminDashboard.jsx:237-250 | the `forEach` loop that updates the dictionary builds exactly the by-type revenue map |
| Dashboard.RevenueByTypeTotal | Rentify/src/pages/admin/AdminDashboard.jsx:240-247 | the slices add up to the first-payment amounts of the bookings that have both a car and a payment |
| Dashboard.UnpaidBookingAddsNothing | Rentify/src/pages/admin/AdminDashboard.jsx:242-244 | a booking with no payment leaves the map unchanged |
| Dashboard.DaysDistinct | Rentify/src/pages/admin/AdminDashboard.jsx:253 | the seven day names are pairwise distinct, so they are seven keys |
| Dashboard.ZeroDays | Rentify/src/pages/admin/AdminDashboard.jsx:256-258 | the seeding loop leaves exactly the seven day names as keys, each at 0 |
| Dashboard.DayCountsStart | Rentify/src/pages/admin/AdminDashboard.jsx:254-258 | the seeded map is the exact histogram of no bookings |
| Dashboard.DayCountsStep | Rentify/src/pages/admin/AdminDashboard.jsx:261-265 | incrementing the weekday's name for a booking with a creation time keeps the histogram exact |
| Dashboard.DayCountsSkip | Rentify/src/pages/admin/AdminDashboard.jsx:261 | a booking without a creation time leaves the histogram exact as it is |
| Dashboard.CountDay | Rentify/src/pages/admin/AdminDashboard.jsx:260-266 | the `forEach` callback keeps the histogram exact, and leaves it unchanged for a booking without a creation time |
| Dashboard.GenerateBookingsByDayOfWeek | Rentify/src/pages/admin/AdminDashboard.jsx:252-269 | keys exactly the seven day names; each counts the bookings created on that weekday; the counts add up to the number of bookings with a creation time |
| Dashboard.ZeroHours | Rentify/src/pages/admin/AdminDashboard.jsx:274-276 | the seeding loop leaves exactly the keys 0..23, each at 0 |
| Dashboard.HourCountsStart | Rentify/src/pages/admin/AdminDashboard.jsx:272-276 | the seeded map is the exact histogram of no bookings |
| Dashboard.HourCountsStep | Rentify/src/pages/admin/AdminDashboard.jsx:279-283 | incrementing the booking's hour keeps the histogram exact |
| Dashboard.HourCountsSkip | Rentify/src/pages/admin/AdminDashboard.jsx:279 | a booking without a creation time leaves the histogram exact as it is |
| Dashboard.CountHour | Rentify/src/pages/admin/AdminDashboard.jsx:278-284 | the `forEach` callback keeps the histogram exact, and leaves it unchanged for a booking without a creation time |
| Dashboard.GenerateBookingsByHour | Rentify/src/pages/admin/AdminDashboard.jsx:271-287 | keys exactly 0..23; each counts the bookings created in that hour; the counts add up to the number of bookings with a creation time |
| Dashboard.ValueOf | Rentify/src/pages/admin/AdminDashboard.jsx:323-334 | one user's row: the user's name, the number of bookings with the user's id, and a revenue of 0 when there are none |
| Dashboard.RevenueNeedsBooking | Rentify/src/pages/admin/AdminDashboard.jsx:325-333 | a customer with positive revenue has at least one booking, since a sum over no bookings is 0 |
| Dashboard.GenerateCustomerLifetimeValue | Rentify/src/pages/admin/AdminDashboard.jsx:322-340 | `min(10, paying users)` rows, no more than the users, by revenue, highest first; each a user's own figures with revenue > 0 and at least one booking, drawn from the paying users' rows as a sub-multiset; a paying row left out, counting copies, means the list is full and it brought in no more than any row listed; rows with equal revenue keep the users' order |
| Dashboard.LifetimeValueRanked | Rentify/src/pages/admin/AdminDashboard.jsx:323-337 | the listed rows are users' own figures with positive revenue and a booking; a paying user left out ranks no higher than any listed |
| Dashboard.LifetimeValueLeftOut | Rentify/src/pages/admin/AdminDashboard.jsx:336-337 | a paying row left out, counting copies (two users with identical rows), means ten rows are listed and none of them brought in less |
| Dashboard.AveragePerBooking | Rentify/src/pages/admin/AdminDashboard.jsx:926 | the per-booking average of a listed row times its booking count gives back its revenue; the division is never by zero |
| Dashboard.SuccessRate | Rentify/src/pages/admin/AdminDashboard.jsx:943 | 0 with no bookings; otherwise the paid count (0 when absent) over the bookings, as a percentage |
| Dashboard.SuccessRateIsPercentage | Rentify/src/pages/admin/AdminDashboard.jsx:943 | with the status counts tallied from the bookings, the success rate lies between 0 and 100 |
| Dashboard.Ratio | Rentify/src/pages/admin/AdminDashboard.jsx:949-955 | "Average Revenue per Booking" and "Bookings per Car": 0 when the denominator (bookings, cars) is 0; otherwise the quotient, which times the denominator gives back the numerator |
| Dashboard.RevenuePerBooking | Rentify/src/pages/admin/AdminDashboard.jsx:949 | "Average Revenue per Booking": 0 with no bookings, otherwise the share that, times the bookings, gives back the revenue tile |
| Dashboard.BookingsPerCar | Rentify/src/pages/admin/AdminDashboard.jsx:955 | "Bookings per Car": 0 with no cars, otherwise a non-negative share that, times the cars, gives back the bookings tile |
| Dashboard.PrepareChartData | Rentify/src/pages/admin/AdminDashboard.jsx:102-159 | each chart structure is the one its generator specifies, and the status and type counts add up to the bookings and the cars |
| Dashboard.FetchStats | Rentify/src/pages/admin/AdminDashboard.jsx:80-93 | the tiles count the users, cars and bookings and total the revenue; the chart is as specified; the status counts add up to the bookings tile and the type counts to the cars tile; the success rate is a percentage |
| Folds.FilterMembers | Rentify/src/pages/Cars.jsx:64-67 | `filter` keeps exactly the elements that satisfy the predicate |
| Folds.Distinct | Rentify/src/pages/Cars.jsx:37 | `[...new Set(values)]` has no duplicates and exactly the values of the input |
| StringOrder.SortStrings | Rentify/src/pages/Cars.jsx:37 | the default `sort` orders the strings ascending, character by character, and is a permutation; distinct input gives strictly ascending output |
| CarCatalog.Filters.With | Rentify/src/pages/Cars.jsx:124 | `{ ...filters, [name]: value }` sets the named field and keeps the other four |
| CarCatalog.ParamNamesDistinct | Rentify/src/pages/Cars.jsx:89-93 | the five parameter keys are distinct |
| CarCatalog.BuildParams | Rentify/src/pages/Cars.jsx:88-93 | a parameter is present exactly when its field is non-empty, and carries the field's value unchanged; there are no other keys; no parameter at all exactly when every field is empty |
| CarCatalog.ChooseRequest | Rentify/src/pages/Cars.jsx:95-97 | the search endpoint exactly when some parameter is present, otherwise the plain list without parameters |
| CarCatalog.CarsRequest | Rentify/src/pages/Cars.jsx:85-97 | the search endpoint exactly when some filter field is non-empty, with exactly those fields as its parameters and no other key |
| CarCatalog.UniqueSorted | Rentify/src/pages/Cars.jsx:37-38 | strictly ascending (so no duplicates), holding exactly the non-empty input values |
| CarCatalog.Brands | Rentify/src/pages/Cars.jsx:37 | the brand options: strictly ascending, exactly the non-empty brands of the fetched cars |
| CarCatalog.Types | Rentify/src/pages/Cars.jsx:38 | the type options: strictly ascending, exactly the non-empty types of the fetched cars |
| CarCatalog.ModelsOf | Rentify/src/pages/Cars.jsx:64-66 | exactly the models of the cars of that brand |
| CarCatalog.SortedDistinctMembers | Rentify/src/pages/Cars.jsx:68 | de-duplicating and sorting keeps exactly the values |
| CarCatalog.ModelsForBrand | Rentify/src/pages/Cars.jsx:55-68 | no models for an empty brand; otherwise strictly ascending, exactly the non-empty models of the cars of exactly that brand, and empty when no car has it |
| CarCatalog.ViewDetails | Rentify/src/pages/Cars.jsx:144-151 | to `/login` with the sign-in toast exactly when nobody is signed in; otherwise to `/cars/<id>` |
| CarCatalog.Decimal | Rentify/src/pages/Cars.jsx:149 | the template literal's text for the id: one or more decimal digits, with no leading zero (a lone `0` only for 0) |
| CarCatalog.DecimalRoundTrip | Rentify/src/pages/Cars.jsx:149 | reading the digits back gives the id |
| CarCatalog.DetailPagesDistinct | Rentify/src/pages/Cars.jsx:149 | distinct cars have distinct detail pages |
| CarCatalog.CatalogPage.constructor | Rentify/src/pages/Cars.jsx:10-22 | all five fields empty and no options |
| CarCatalog.CatalogPage.Enabled | Rentify/src/pages/Cars.jsx:228 | the model selector is disabled while no brand is chosen; `CatalogPage.Change` proves that a model is then only ever chosen with a brand |
| CarCatalog.CatalogPage.HandleChange | Rentify/src/pages/Cars.jsx:122-125 | only the named field changes |
| CarCatalog.CatalogPage.ClearFilters | Rentify/src/pages/Cars.jsx:132-139 | all five fields become empty, nothing else changes |
| CarCatalog.CatalogPage.BrandEffect | Rentify/src/pages/Cars.jsx:112-120 | with the brand empty, the model list is emptied and the model reset, the other fields untouched; with a brand nothing it models changes |
| CarCatalog.CatalogPage.ApplyFilterOptions | Rentify/src/pages/Cars.jsx:33-46 | the brand and type options from the fetched cars, and the models of the selected brand when there is one |
| CarCatalog.CatalogPage.Change | Rentify/src/pages/Cars.jsx:112-125 | a change event, then the brand effect: clearing the brand also clears the model, choosing another non-empty brand keeps it, other fields change alone; "a model only with a brand" is kept |
| CarCatalog.CatalogPage.Clear | Rentify/src/pages/Cars.jsx:112-139 | the clear button: every field empty, and the model list emptied when a brand had been chosen |
| ReviewModal.TrimStart | Rentify/src/components/ReviewModal.jsx:15 | drops exactly the leading whitespace of the comment |
| ReviewModal.TrimEnd | Rentify/src/components/ReviewModal.jsx:15 | drops exactly the trailing whitespace of the comment |
| ReviewModal.Trim | Rentify/src/components/ReviewModal.jsx:15 | `comment.trim()`: a part of the comment with only whitespace before and after it, itself neither starting nor ending with whitespace |
| ReviewModal.TrimEmptyIffBlank | Rentify/src/components/ReviewModal.jsx:15 | `!comment.trim()` holds exactly for a comment that is empty or all whitespace |
| ReviewModal.SubmitError | Rentify/src/components/ReviewModal.jsx:15-23 | "Comment is required." exactly for a blank comment; "Rating must be between 1 and 5." exactly for a non-blank comment with a rating outside 1..5; no error otherwise |
| ReviewModal.StarLit | Rentify/src/components/ReviewModal.jsx:35 | the lit-star rule `star <= (hoveredRating \|\| rating)`; what it lights is stated by `LitCountIsShown` |
| ReviewModal.LitCountIsShown | Rentify/src/components/ReviewModal.jsx:30-35 | the lit stars are exactly the first `shown` of the five, where `shown` is the hover value when non-zero and the rating otherwise |
| ReviewModal.ReviewForm.constructor | Rentify/src/components/ReviewModal.jsx:6-9 | rating 5, empty comment, no error, hover 0, nothing submitted |
| ReviewModal.ReviewForm.ClickStar | Rentify/src/components/ReviewModal.jsx:39 | the rating becomes the clicked star and stays in 1..5; nothing else changes |
| ReviewModal.ReviewForm.HoverStar | Rentify/src/components/ReviewModal.jsx:37 | the hover value becomes the star and exactly the stars up to it are lit; the rating is unchanged |
| ReviewModal.ReviewForm.LeaveStar | Rentify/src/components/ReviewModal.jsx:38 | the hover value returns to 0 and exactly the stars up to the rating are lit; the rating is unchanged |
| ReviewModal.ReviewForm.EditComment | Rentify/src/components/ReviewModal.jsx:89 | the comment becomes the typed text; nothing else changes |
| ReviewModal.ReviewForm.Submit | Rentify/src/components/ReviewModal.jsx:13-25 | the error is the validation result; an accepted review clears the error and calls `onSubmit` once with the rating and the untrimmed comment; a rejected one calls nothing |

## Left out

- Network I/O and asynchrony are not modelled:
  - `api.get`, `Promise.all` and `async`/`await`;
  - the `/users/me` profile fetch;
  - the failure paths of the fetches.

  The fetched collections are parameters instead.
- The `loading` flags are not modelled. On the dashboard the `finally` at
  `Rentify/src/pages/admin/AdminDashboard.jsx:97-98` clears `loading` even
  when a fetch fails.
- The brand-filtered request branch of `updateModelsForBrand`
  (`Rentify/src/pages/Cars.jsx:70-77`) is not modelled. Its result arrives
  asynchronously from the server. `CatalogPage.BrandEffect` therefore leaves
  the model list as it was when a brand is chosen.
- The `setTimeout` re-fetch after clearing the filters is not modelled.
- `fetchFilterOptions` runs once, on mount. It reads the `filters` of its
  first render, whose brand is empty.
  - `CatalogPage.ApplyFilterOptions` takes the brand from the state it is
    called in.
- JavaScript `Date` parsing and time zones are not modelled:
  - A timestamp is given by its local calendar fields: year, month 0..11,
    weekday 0..6 and hour 0..23.
  - "now" is a calendar month passed in.
  - The `toLocaleDateString` month labels are the `(year, month)` pair they
    name.
- The average booking duration (`Rentify/src/pages/admin/AdminDashboard.jsx:289-320`)
  is not modelled, and neither is the KPI that shows it
  (`Rentify/src/pages/admin/AdminDashboard.jsx:961-962`). They compute
  floating-point day differences from millisecond timestamps.
  `Dashboard.ChartData` has no field for that series.
- Number formatting is not modelled: `toFixed`, `Math.round` and
  `toLocaleString`.
  - Dashboard.SuccessRate, Dashboard.Ratio, Dashboard.RevenuePerBooking,
    Dashboard.BookingsPerCar and Dashboard.AveragePerBooking are exact
    `real` quotients, before rounding.
- Amounts are integers, either present or `null`. An `undefined` amount
  and `NaN` arithmetic are not modelled.
  - In the lifetime value, `sum + payment.amount` with a `null` amount adds
    0, as JavaScript's coercion does; the model does the same.
- JavaScript object key order is not modelled. The by-key counts and the
  histograms are unordered maps, and the hour keys are numbers rather than
  property-name strings.
- Folds.TallyBy, Dashboard.BookingsByStatusTotal, Dashboard.CarsByTypeTotal,
  Dashboard.RevenueByType and Dashboard.RevenueByTypeKeys treat every
  status and car type as an ordinary map key. The source accumulates into
  plain `{}` objects (`Rentify/src/pages/admin/AdminDashboard.jsx:107-116`,
  `238-245`), which inherit from `Object.prototype`. For a key such as
  `__proto__` or `constructor`, `acc[key] || 0` reads the inherited member,
  so the source stores a string or no key at all where the model counts a
  number. Inherited property names as keys are not modelled.
- CarCatalog.Decimal, CarCatalog.DecimalRoundTrip and
  CarCatalog.DetailPagesDistinct take a car id as an unbounded natural
  number. In the source the id is a JavaScript number
  (`Rentify/src/pages/Cars.jsx:149`): ids of 10^21 and above print in
  exponent form, and ids above 2^53 are not all representable, so distinct
  ids can print alike. Ids outside the safe-integer range are not modelled.
- ReviewForm.Submit models `handleSubmit` as called. The textarea is
  `required` (`Rentify/src/components/ReviewModal.jsx:91`) and the form has
  no `noValidate`, so the browser's own form validation stops an empty
  comment before `handleSubmit` runs. On the page, "Comment is required."
  therefore appears only for a comment of whitespace alone. The browser's
  validation is not modelled.
- Each monthly generator reads the clock itself, with its own `new Date()`
  (`Rentify/src/pages/admin/AdminDashboard.jsx:163`, `185`, `206`).
  Dashboard.PrepareChartData passes one shared `now` to all three. The
  model does not capture the three series straddling a change of month.
- CatalogPage.Enabled leaves out the `loadingFilters` flag, which also
  disables the model selector while the options load
  (`Rentify/src/pages/Cars.jsx:228`). Loading flags are not modelled.
- Chart.js options and datasets, JSX markup, framer-motion animations,
  toast messages and the React render cycle are not modelled. `ReviewForm`
  does not model the `open` flag or `onClose`.
- StringOrder.SortStrings compares strings by code point.
  `Array.prototype.sort` compares UTF-16 code units. The two orders differ
  only for characters outside the Basic Multilingual Plane.
