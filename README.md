# GO-RENT booking logic in Dafny

A model of the booking logic of GO-RENT, a small car-rental web application. The application exists in two variants that duplicate the logic:

- the **local** variant (`pages/`, `utils/auth.ts`) keeps a mock session and the bookings in the browser's localStorage;
- the **hosted** variant (`nextjs-app/`) keeps both in a hosted database.

The model covers five pieces:

- **the quote**: the rental days between two dates and the total price for them;
- **booking creation**: the validation guards, the Pending record, and its append (local) or insert (hosted);
- **the status lifecycle**: the user's Pending→Cancelled, and the admin's Pending→Confirmed and Pending→Cancelled;
- **the dashboards**: status counts, revenue, the status filter and the recent-orders slice;
- **the mock session store**.

Representation:

- Money is integer cents. A total is the string `"$" + amount with two decimals`. The source reads totals and day rates back by deleting the first `"$"` (and the first `"/day"`) and calling `parseFloat`. `Money.ParseMoney` and `Money.ParseDayRate` model that read-back, and the model proves that it inverts the formatting.
- Dates are the text of the form field plus the millisecond instant it denotes.
- Statuses are strings, as in the source. Unknown statuses therefore reach the colour function's default and leave the admin counters alone.
- localStorage is a class `Storage.LocalStorage` with one field per key (`user`, `bookings`, `adminUser`). A `null` store means "not in a browser".
- The hosted table is a class `Remote.RemoteBookings` whose insert and update can fail.
- Each page whose state the source updates in place is a class:
  - `MyBookingsPage.MyBookings` for `pages/bookings.tsx`;
  - `HostedAdminPage.AdminDashboard` for `nextjs-app/pages/admin.tsx`;
  - `LocalAdminPage.LocalAdminDashboard` for `pages/admin.tsx`.
  Their methods state the whole new state and the invariant the counters keep.

The central invariant concerns the hosted admin page. It adjusts its `pending`/`confirmed` counters step by step instead of recomputing them. `Bookings.CountersAfterOfferedAction` proves that the adjustment matches a recomputation whenever the transition is one the page offers (on a Pending booking) and ids are unique. `HostedAdminPage.AdminDashboard.UpdateBookingStatus` carries that result as its last postcondition.

Where the variants differ, the model keeps both behaviours:

- The local form checks dates and car, then always appends; it has no sign-in check and no failure path.
- The hosted form also requires a signed-in user, and its insert can fail.
- Local records carry no user id or car id; hosted rows carry both.
- The local admin page names its confirmed counter `accepted`.

Further facts about the code that shape the model:

- The hosted admin page adjusts its counters incrementally; the other pages recompute theirs from the list.
- `updateBookingStatus` applies any status. Only the buttons restrict it to Pending bookings.
- Only the hosted submission can fail; the local one always appends.
- No code performs Confirmed→Completed, so the model has no such transition.

## Model

| member | source | states |
|---|---|---|
| `Money.Digits` | nextjs-app/pages/booking.tsx:39 | the integer part written by `toFixed` is a non-empty digit string without a leading zero, one digit exactly below 10 |
| `Money.ParseWholeOfDigits` | nextjs-app/pages/booking.tsx:36-39 | reading back the digits of a number gives the number |
| `Money.Amount` | nextjs-app/pages/booking.tsx:39 | the amount is a whole part that reads back as `cents / 100`, a point, and exactly two digits that read back as `cents % 100` (no leading zero: see `Money.AmountIsDecimal`) |
| `Money.AmountIsDecimal` | nextjs-app/pages/booking.tsx:39 | the amount contains no `"$"` or `"/"`, its first point ends the whole part, and a whole part of more than one digit does not start with `0`, as `toFixed(2)` writes it |
| `Money.FormatMoney` | nextjs-app/pages/booking.tsx:43 | a total is `"$"`, an amount without another `"$"` or a leading zero, a point and exactly two digits, and that amount parses back to the cents |
| `Money.ParseMoney` | pages/bookings.tsx:45 | a total starting with `"$"` is read from the next character on |
| `Money.ParseMoneyWithoutDollar` | pages/bookings.tsx:45 | a total without `"$"` is read as it stands |
| `Money.ParseDayRate` | nextjs-app/pages/booking.tsx:36-38 | a price starting with `"$"` is read from the next character on, after its first `"/day"` is deleted |
| `Money.RemoveFirst` | pages/bookings.tsx:45 | `replace(pat, "")` either leaves the string alone or removes exactly `|pat|` characters |
| `Money.RemoveFirstDeletesFirstOccurrence` | pages/bookings.tsx:45 | `replace` deletes the first occurrence of the pattern and keeps what is before and after it |
| `Money.RemoveFirstWithoutOccurrence` | nextjs-app/pages/admin.tsx:66 | a string without the pattern is returned unchanged |
| `Money.RemoveFirstAfter` | nextjs-app/pages/booking.tsx:37 | `"/day"` after an amount without `/` is found at the end and removed, leaving the amount |
| `Money.ParseAmount` | nextjs-app/pages/booking.tsx:36-38 | a parsed amount starts with a digit; anything unreadable is NaN (`None`) |
| `Money.ParseAmountOfAmount` | nextjs-app/pages/booking.tsx:39 | the two-decimal amount of `c` cents parses back to `c` |
| `Money.ParseMoneyOfFormatMoney` | pages/bookings.tsx:44-47 | a total written as `"$" + toFixed(2)` reads back, with `$` stripped, as the cents it was made from |
| `Money.NotANumberMoneyIsNotParsed` | nextjs-app/pages/booking.tsx:36-43 | the `"$NaN"` total of an unparsable price reads back as NaN |
| `Money.ParseDayRateOfLabel` | nextjs-app/pages/booking.tsx:36-38 | stripping `$` and `/day` from `"$<amount>/day"` leaves exactly the amount to parse |
| `Money.ParseDayRateOfWholeDollars` | pages/booking.tsx:38-40 | `"$150/day"` is a day rate of 15000 cents, for every whole-dollar price |
| `Money.ParseDayRateOfAmount` | pages/booking.tsx:38-40 | a price `"$<two-decimal amount>/day"` is a day rate of exactly that amount |
| `Catalog.FindCar` | pages/booking.tsx:18-19 | the result is the first car with the id, and nothing exactly when no car has it |
| `Pricing.RentalDays` | nextjs-app/pages/booking.tsx:33-34 | the days are the ceiling of the absolute span over one day; zero exactly when the dates are equal |
| `Pricing.RentalDaysSymmetric` | pages/booking.tsx:36-37 | swapping the dates gives the same days; distinct dates give at least one day |
| `Pricing.TotalFor` | nextjs-app/pages/booking.tsx:36-43 | the total is `"$"` and day rate × days with two decimals, which reads back as that product; it is `"$NaN"`, which reads as NaN, when the rate did not parse |
| `Pricing.CalculateTotal` | nextjs-app/pages/booking.tsx:28-45 | no quote exactly when a date is empty or there is no car; otherwise the rental days and the total `"$"` + day rate × days with two decimals (or `"$NaN"`), which reads back as that product |
| `Pricing.DurationLabel` | nextjs-app/pages/booking.tsx:72 | the stored duration ends in `" Days"` and what precedes it reads back as the number of days, without a leading zero |
| `Pricing.QuoteForWholeDollarPrice` | nextjs-app/pages/booking.tsx:33-44 | a car at `"$<d>/day"` is quoted the span's days and the total `d × days` dollars with two decimals (3 days at `"$150/day"` is `"$450.00"`) |
| `Bookings.CountStatus` | pages/admin.tsx:35-40 | a status count never exceeds the number of bookings |
| `Bookings.ActiveCount` | pages/bookings.tsx:38-40 | the active count is at most the length, zero exactly when no booking is Pending or Confirmed, the length exactly when all are |
| `Bookings.ActiveIsPendingPlusConfirmed` | pages/bookings.tsx:38-40 | the active count is the Pending count plus the Confirmed count |
| `Bookings.Revenue` | pages/bookings.tsx:44-47 | the total spent / revenue is never negative |
| `Bookings.RevenueIsSumOfTotals` | nextjs-app/pages/admin.tsx:65-68 | revenue is the sum of every booking's stripped total, over all statuses; an empty list gives 0 |
| `Bookings.RevenueOfFormattedTotals` | pages/admin.tsx:41-44 | over totals the forms wrote, revenue is exactly the sum of their cents |
| `Bookings.RevenueIsNaNExactlyWithUnreadableTotal` | pages/bookings.tsx:44-47 | the total spent / revenue is NaN exactly when some booking's total does not read as a number, whatever its status |
| `Bookings.RevenueAppend` | pages/bookings.tsx:44-47 | the revenue of two lists joined is the sum of their revenues |
| `Bookings.Select` | pages/bookings.tsx:81 | exactly the bookings with the status are kept, as many as the status count |
| `Bookings.SelectAppend` | pages/bookings.tsx:78-81 | selection keeps relative order: it distributes over concatenation |
| `Bookings.FilterBookings` | nextjs-app/pages/admin.tsx:121-124 | `"All"` gives the list unchanged; any other choice gives exactly the bookings with that status |
| `Bookings.SetStatus` | pages/bookings.tsx:55-57 | bookings with the id get the status and keep every other field; all others, the length and the order are unchanged |
| `Bookings.SetStatusIdempotent` | pages/bookings.tsx:54-57 | cancelling (any transition) twice gives the list cancelling once gives |
| `Bookings.RevenueAfterSetStatus` | nextjs-app/pages/admin.tsx:92-103 | a status change leaves the revenue unchanged |
| `Bookings.CountAfterTransition` | nextjs-app/pages/admin.tsx:92-95 | with unique ids, moving one booking takes one from its old status's count, adds one to the new status's, and leaves every other count |
| `Bookings.StatusColor` | pages/bookings.tsx:63-76 | Completed and Cancelled share a colour; Pending and Confirmed have their own; unknown statuses get the default |
| `Bookings.AdminActions` | nextjs-app/pages/admin.tsx:283-298 | actions are offered exactly on Pending bookings, where both Confirm and Cancel are offered, and nothing else is ever offered |
| `Bookings.CancelOffered` | pages/bookings.tsx:252 | the user page offers to cancel only active, non-completed bookings, and exactly those on which the admin page offers its actions |
| `Bookings.CountersAfterOfferedAction` | nextjs-app/pages/admin.tsx:98-103 | for an offered action with unique ids, recomputed pending drops by one and confirmed rises by one only for Confirm, as the incremental update does; length and revenue stay |
| `Bookings.CancelOfferedCounts` | pages/bookings.tsx:252-260 | cancelling a booking the page offers to cancel lowers the active count by one and leaves the completed count and the amount spent |
| `Auth.IsLoggedIn` | utils/auth.ts:2-7 | signed in exactly when in a browser with a stored user; never outside a browser |
| `Auth.GetUser` | utils/auth.ts:9-15 | no user exactly when not signed in; otherwise the stored record |
| `Auth.Login` | utils/auth.ts:17-25 | succeeds exactly when email and password are non-empty, then stores a user with that email and is signed in; a failure changes nothing |
| `Auth.Logout` | utils/auth.ts:27-32 | afterwards nobody is signed in; the other keys are untouched |
| `Auth.Signup` | utils/auth.ts:34-42 | succeeds exactly when name, email and password are non-empty, storing all three identity fields; a failure changes nothing |
| `BookingForm.Destination` | nextjs-app/pages/booking.tsx:82-89 | the form goes on to the bookings page exactly after a successful submission |
| `BookingForm.BookingRecord` | pages/booking.tsx:43-52 | the record carries the given id, user id and car id and is Pending; built from the quote for its car and dates, it is a new booking in the sense of `IsNewBooking` |
| `BookingForm.IsNewBooking` | nextjs-app/pages/booking.tsx:66-76 | a new booking is Pending, has both dates filled in, a duration that reads back as the rental days, and a total that reads back as day rate × days |
| `LocalBookingPage.HandleSubmit` | pages/booking.tsx:26-60 | a missing date or car stores nothing; otherwise exactly one Pending booking with the quote's duration and total and the car's price, and with no user id and no car id, is appended and earlier bookings stay |
| `HostedBookingPage.HandleSubmit` | nextjs-app/pages/booking.tsx:47-90 | missing input, then a missing user, then a failed insert each leave the table unchanged; otherwise exactly one Pending row for the user and car with the quote's duration and total is inserted |
| `Remote.RemoteBookings.Insert` | nextjs-app/pages/booking.tsx:78-80 | a successful insert adds the row; a failed one changes nothing |
| `Remote.RemoteBookings.Update` | nextjs-app/pages/admin.tsx:81-84 | a successful update sets the status of the rows with the id; a failed one changes nothing |
| `MyBookingsPage.MyBookings.constructor` | pages/bookings.tsx:20-24 | the page starts empty, filtered by "All", with zero counters |
| `MyBookingsPage.MyBookings.Open` | pages/bookings.tsx:26-35 | a signed-out visitor is sent to the login page and nothing else changes; otherwise the stored list is shown with counters that agree with it |
| `MyBookingsPage.MyBookings.UpdateStats` | pages/bookings.tsx:37-52 | active counts Pending and Confirmed, completed counts Completed, total spent is the revenue of the list |
| `MyBookingsPage.MyBookings.CancelBooking` | pages/bookings.tsx:54-61 | the list becomes the list with that id cancelled, the stored list equals it, the stats agree with it, and the amount spent is unchanged |
| `MyBookingsPage.MyBookings.SelectStatus` | pages/bookings.tsx:121-130 | a filter button sets the chosen status |
| `MyBookingsPage.MyBookings.FilteredBookings` | pages/bookings.tsx:78-81 | the visible list is the whole list for "All", else exactly the bookings with the chosen status |
| `HostedAdminPage.AdminDashboard.constructor` | nextjs-app/pages/admin.tsx:24-30 | the dashboard starts loading, with no bookings and zero counters |
| `HostedAdminPage.AdminDashboard.FetchBookings` | nextjs-app/pages/admin.tsx:41-75 | a failed fetch only ends loading; a successful one shows the list with total, pending, confirmed and revenue recomputed from it |
| `HostedAdminPage.AdminDashboard.UpdateBookingStatus` | nextjs-app/pages/admin.tsx:80-104 | a failed update changes nothing; otherwise the id's bookings take the status, Confirmed moves one from pending to confirmed, Cancelled takes one from pending, total and revenue never move, and an offered transition keeps the counters in agreement with the list |
| `HostedAdminPage.AdminDashboard.FilteredBookings` | nextjs-app/pages/admin.tsx:121-124 | the visible list is the whole list for "All", else exactly the bookings with the chosen status |
| `HostedAdminPage.Mount` | nextjs-app/pages/admin.tsx:31-78 | as written: whatever the table holds, the mounted page has an empty list and every counter at 0, so it shows "No bookings found."; its `loading` state, which the page never reads, stays true (see Findings) |
| `HostedAdminPage.MountOnIsClient` | nextjs-app/pages/admin.tsx:34-78 | with the fetch effect depending on `isClient`: loading ends, a failed fetch leaves an empty list and zero counters, a successful one shows the list with counters that agree with it |
| `HostedAdminPage.StaleIsClientExample` | nextjs-app/pages/admin.tsx:38-39 | for a table holding one booking, the page as written shows no orders and its unread `loading` state stays true, while the intended mount shows that booking and one order |
| `LocalAdminPage.AdminSignedIn` | pages/admin.tsx:25-26 | a missing admin key and an empty one both count as signed out; any non-empty value counts as signed in |
| `LocalAdminPage.RecentOrders` | pages/admin.tsx:223 | at most five orders, the first ones in stored order |
| `LocalAdminPage.LocalAdminDashboard.constructor` | pages/admin.tsx:18-22 | the dashboard starts with no bookings and zero counters |
| `LocalAdminPage.LocalAdminDashboard.Open` | pages/admin.tsx:24-50 | without a non-empty admin key the page redirects and loads nothing; otherwise total, pending, accepted and revenue are computed from the stored list |
| `LocalAdminPage.LocalAdminDashboard.LogoutAdmin` | pages/admin.tsx:52-55 | the admin key is removed and, by its frame, nothing else in the store changes |

## Findings

| source | as written | input that shows it | evidently intended | confidence | as-written member | corrected member |
|---|---|---|---|---|---|---|
| nextjs-app/pages/admin.tsx:38-78 | the fetch effect has no dependencies, so it runs once with the first render's `isClient`, which is `false`, and returns before fetching | a table holding one booking `b`: the page shows zero counters and "No bookings found." for good; its unread `loading` state stays true | the effect depends on `isClient`, runs again once it is set, fetches, and shows the list with counters that agree with it | high (not executed) | `HostedAdminPage.Mount` | `HostedAdminPage.MountOnIsClient` |

`HostedAdminPage.StaleIsClientExample` puts the two side by side on the booking `b`.

## Left out

- Floating point. Money is exact integer cents. Day rates are assumed to have at most two decimals. The rounding of `toFixed(2)` on a float product is not modelled, and revenue is an exact sum rather than a float sum.
- `Money.ParseAmount`: weaker than `parseFloat`. It reads only `digits[.d[d]]`. `parseFloat` also reads a leading prefix of a longer string (`"12abc"` is 12, `"1,500"` is 1), signs, exponents and more decimals; the model reads all of these as NaN.
- Date parsing (`new Date`). Each date field carries the instant it denotes. Invalid dates (NaN spans) are not modelled.
- JSON (de)serialisation of localStorage. A missing `"bookings"` key is the empty list, as every reader treats it.
- `parseInt` of the query id and the `if (id)` check before the lookup. `Catalog.FindCar` takes the parsed id.
- The hosted car lookup `getCarById` and every other remote query. Their results (the car, the signed-in user, the fetched list, whether an insert or update fails, the new row's id) are parameters.
- The server side of the hosted table: ordering by `created_at`, the `profiles` join, the `created_at` column. Rows are a list, and an insert appends.
- `Date.now()` identifiers. They are the `now` parameter.
- Alerts, `console.error`, JSX, styling, and navigation beyond the recorded redirect target. `auth.logout`'s `window.location` change is not modelled.
- React's asynchronous state updates. Each handler runs as one sequential step.
- `Auth.Login`, `Auth.Signup`: take a store that exists. These two write localStorage without the browser check the other `auth` functions make, so outside a browser they would throw on the success path (with every field non-empty); with an empty field they return `false` before touching storage, as the model does.
- The identical `getStatusColor` of `nextjs-app/pages/admin.tsx:106-119`. It is `Bookings.StatusColor`, modelled once.
- `MyBookingsPage.MyBookings.SelectStatus`: accepts any string. The page's buttons offer only "All" and the four statuses.
- The AI chat endpoint, the login, signup and admin-login pages, both navigation bars, and the browse and index pages are not part of this model.
- Confirmed→Completed: no code performs it.
