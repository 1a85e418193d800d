# CarWashApp core in Dafny

CarWashApp is an Ionic/Angular front end for a car-wash business. Customers choose a
vehicle size and services, book a time slot and pay. Administrators see a dashboard,
browse appointments by customer, page through service rates and manage customer
records. This project models the logic those screens run on top of the backend's data:

- `Dashboard` (`dashboard.dfy`): the date buckets, revenue sums and distinct-customer
  count of the dashboard statistics, the upcoming-appointments list, the growth
  percentage, the relative-time ladder, and the activity icons and messages.
- `DashboardActivity` (`activity.dfy`): the recent-activity feed, both as the
  specification function `RecentActivities` and as the imperative
  `GenerateRecentActivities` that pushes entries in loops, sorts, truncates and adds
  the default entry.
- `Booking` (`booking.dfy`): the booking wizard (`ServiceDetailComponent`) as a class.
  It covers the step navigation, the vehicle filter, the selected-service toggling and
  its total, the available slots, the payment outcome and the reset, plus the
  12-hour to 24-hour `formatDateTime`.
- `Register` (`register.dfy`): the strong-password validator, the strength meter, the
  password error message and the password-match validator.
- `ServiceListing` (`service_list.dfy`): the admin service list (`ServiceListComponent`)
  with its ten-per-page pagination and the in-place replacement after an edit.
- `AppointmentList` (`appointment_list.dfy`): the admin appointment browser. It covers
  distinct customers by email, search, initials, per-customer counts and each
  customer's appointments, newest first.
- `VehicleFilter` (`services_page.dfy`): the customer service catalogue with its
  `"ALL"` or one-size filter.
- `CustomerStore` (`customer_store.dfy`): `CustomerService`. It covers the response
  normalisation, the cached list kept in step with create, update and delete, the
  weekly new-customer count, and the HTTP error messages.
- Shared pieces:
  - `Catalog` (`catalog.dfy`): service rates.
  - `Seqs` (`seqs.dfy`): `filter`, `findIndex`, `map`, `slice(0, n)`.
  - `Sorting` (`sorting.dfy`): `sort` with a timestamp-difference comparator; a NaN
    difference counts as 0.
  - `Strings` (`strings.dfy`): ASCII case mapping, `split`/`join`, `includes`,
    `parseInt`, `toString`, `padStart`.
  - `Wrappers` (`wrappers.dfy`): `Option`.

Conventions:

- Times are milliseconds since the epoch. An unparsable date is `None`: an invalid
  `Date` compares false with everything, so it drops out of every range filter.
- The clock (`now`) and the local midnight (`today`) are parameters.
- Prices are integers; the backend's decimal strings are not modelled.
- HTTP calls, observables and browser storage are left out. Each `next` handler
  becomes a method that receives the data.

## Model

| member | source | states |
|---|---|---|
| Dashboard.Todays | src/app/services/dashboard.service.ts:171-179 | exactly the appointments dated in [today, today + 24 h) |
| Dashboard.Yesterdays | src/app/services/dashboard.service.ts:181-188 | exactly the appointments dated in [today − 1 day, today) |
| Dashboard.ThisWeeks | src/app/services/dashboard.service.ts:190-197 | exactly the appointments dated in [today − 7 days, today) |
| Dashboard.BucketsNest | src/app/services/dashboard.service.ts:163-197 | today and yesterday are disjoint; every yesterday appointment is in the week bucket and no today appointment is; yesterday ≤ week; today + yesterday and today + week are each at most the number of appointments |
| Dashboard.BucketRevenue | src/app/services/dashboard.service.ts:199-213 | with no negative prices each bucket's revenue lies between 0 and the revenue of all appointments |
| Dashboard.Revenue | src/app/services/dashboard.service.ts:200-203 | with no negative prices the sum is non-negative |
| Dashboard.RevenueAppend | src/app/services/dashboard.service.ts:200-203 | the revenue `reduce` is additive over concatenation |
| Dashboard.CustomerIds | src/app/services/dashboard.service.ts:216-220 | an id is in the set iff some appointment carries it as a non-null customerID; the set is no larger than the list |
| Dashboard.CalculateDashboardStats | src/app/services/dashboard.service.ts:158-235 | the counts are the bucket sizes; yesterday ≤ weekly; today + weekly ≤ all; weekly customers = the number of distinct non-null ids in the week, and ≤ weekly bookings; totalCustomers is 0 and totalServices the number of services; each revenue is the `Revenue` sum of its bucket, non-negative when prices are |
| Dashboard.PercentageChange | src/app/services/dashboard.service.ts:527-530 | a zero baseline gives 100 for growth and 0 otherwise; else the result is (current − previous)/previous·100 rounded half up, stated as a two-sided bound |
| Dashboard.PercentageChangeExamples | src/app/services/dashboard.service.ts:527-530 | (10,5)→100, (5,10)→−50, (5,0)→100, (0,0)→0, (1,3)→−67, (1,8)→−87 |
| Dashboard.PercentageChangeMonotone | src/app/services/dashboard.service.ts:529 | against a positive baseline the percentage never decreases as the current value grows |
| Dashboard.UpcomingAppointments | src/app/services/dashboard.service.ts:238-262 | at most five results, and exactly min(5, number of candidates); each is an appointment dated in [now, now + 7 days] that is neither cancelled nor completed; the results are a sub-multiset of the candidates, in ascending date order |
| Dashboard.UpcomingAreEarliest | src/app/services/dashboard.service.ts:242-262 | a candidate left out because of the limit of five is dated no earlier than any kept one |
| Dashboard.RungOf | src/app/services/dashboard.service.ts:505-514 | under a minute is "just now" and a week or more is the calendar date; otherwise exactly one of minutes, hours or days, chosen by range, with the floored count |
| Dashboard.AgoText | src/app/services/dashboard.service.ts:511-513 | the text ends in " ago" and has the plural "s" exactly when the count is not 1 |
| Dashboard.RelativeTime | src/app/services/dashboard.service.ts:501-518 | an invalid date gives "Invalid Date"; under a minute gives "Just now"; a week or more gives the locale date; otherwise the count-and-unit text |
| Dashboard.CapitalizeFirst | src/app/services/dashboard.service.ts:521-524 | same length; first character upper-cased; every other character lower-cased |
| Dashboard.CapitalizeFirstIdempotent | src/app/services/dashboard.service.ts:521-524 | applying it twice equals applying it once, and it ignores the input's prior case |
| Dashboard.AppointmentMessage | src/app/services/dashboard.service.ts:458-474 | the message is longer than the customer and service names together and ends with the service name |
| Dashboard.ActivityIcon | src/app/services/dashboard.service.ts:476-498 | a booking gets the check-mark, cross or calendar icon; every icon is an "-outline" icon |
| Dashboard.IconAgreesWithMessage | src/app/services/dashboard.service.ts:458-498 | the booking icon is the check mark iff the message says completed, the cross iff cancelled, the calendar otherwise; each message prefix appears iff the lower-cased status matches; an unknown kind gets the information icon |
| DashboardActivity.CreatedRecently | src/app/services/dashboard.service.ts:337-343 | exactly the appointments created within the last day, each with a timestamp |
| DashboardActivity.RecentAppointments | src/app/services/dashboard.service.ts:336-351 | min(4, number created in the last day) appointments, a sub-multiset of those, newest first |
| DashboardActivity.RecentAppointmentsAreNewest | src/app/services/dashboard.service.ts:344-351 | a recent appointment left out by the limit of four was created no later than any kept one |
| DashboardActivity.PaidRecently | src/app/services/dashboard.service.ts:366-373 | exactly the payments created within the last day, each with a timestamp |
| DashboardActivity.RecentPayments | src/app/services/dashboard.service.ts:365-381 | min(3, number paid in the last day) payments, a sub-multiset of those, newest first |
| DashboardActivity.RecentPaymentsAreNewest | src/app/services/dashboard.service.ts:374-381 | a recent payment left out by the limit of three was created no later than any kept one |
| DashboardActivity.CustomerRank | src/app/services/dashboard.service.ts:407-408 | the `findIndex` of a customerID: the first position carrying it, or the length when none does |
| DashboardActivity.FirstAppearances | src/app/services/dashboard.service.ts:406-409 | each kept element is the first with its customerID; every such first element is kept; kept elements run in order of their customer's first position |
| DashboardActivity.FirstAppearancesInOrder | src/app/services/dashboard.service.ts:406-409 | the kept elements are an ordered selection of the input, with pairwise distinct customerIDs |
| DashboardActivity.NewCustomerAppointments | src/app/services/dashboard.service.ts:397-410 | the first min(2, number of distinct customers) of the first appearances among the last day's appointments; distinct customerIDs |
| DashboardActivity.NewCustomersAreFirst | src/app/services/dashboard.service.ts:397-410 | a customer of the last day left without an entry first appeared after every customer given one |
| DashboardActivity.IdTextInjective | src/app/services/dashboard.service.ts:414 | different customerIDs, including a missing one shown as "undefined", give different activity ids |
| DashboardActivity.PushEach | src/app/services/dashboard.service.ts:353-362 | the forEach/push loop appends the mapped entries in order |
| DashboardActivity.GenerateRecentActivities | src/app/services/dashboard.service.ts:331-441 | the imperative feed equals the specification function `RecentActivities` |
| DashboardActivity.EntriesKeyed | src/app/services/dashboard.service.ts:353-421 | every pushed entry carries a timestamp |
| DashboardActivity.AllEntries | src/app/services/dashboard.service.ts:353-421 | at most nine pushed entries, and none exactly when nothing was booked or paid in the last day |
| DashboardActivity.RecentActivities | src/app/services/dashboard.service.ts:331-441 | one to six entries; the default entry alone when nothing was booked or paid in the last day |
| DashboardActivity.Newest | src/app/services/dashboard.service.ts:423-437 | the default entry alone for no entries; otherwise min(6, n) entries drawn from them; newest first when every entry has a timestamp |
| DashboardActivity.NewestDropped | src/app/services/dashboard.service.ts:423-426 | an entry the limit of six leaves out is no newer than any entry kept |
| DashboardActivity.RecentActivitiesShape | src/app/services/dashboard.service.ts:423-440 | one to six entries, newest first, min(6, n) of the n pushed entries as a sub-multiset; the default entry appears exactly when there is no real entry |
| DashboardActivity.RecentActivitiesAreNewest | src/app/services/dashboard.service.ts:423-426 | a pushed entry left out of the feed is no newer than any entry shown |
| DashboardActivity.RecentActivitiesCustomers | src/app/services/dashboard.service.ts:396-426 | at most two customer entries survive, with pairwise distinct ids |
| Catalog.BySize | src/app/customer/booking/service-detail/service-detail.component.ts:156-158 | exactly the rates with the chosen vehicle size code |
| Catalog.BySizeIsOrderedSelection | src/app/customer/booking/service-detail/service-detail.component.ts:157 | the filter keeps the input order and each match's multiplicity |
| Catalog.FindById | src/app/customer/booking/service-detail/service-detail.component.ts:123 | the first rate with that id, or none iff no rate has it |
| Catalog.PriceOf | src/app/customer/booking/service-detail/service-detail.component.ts:129-130 | 0 for an id with no rate; non-negative for non-negative prices; any other value is the price of a rate with that id |
| Booking.Toggled | src/app/customer/booking/service-detail/service-detail.component.ts:160-166 | the id is selected afterwards iff it was not before; no other id changes |
| Booking.ToggledFlipsOnlyThatId | src/app/customer/booking/service-detail/service-detail.component.ts:160-166 | toggling flips membership of that id only and keeps the selection free of duplicates |
| Booking.ToggleTwice | src/app/customer/booking/service-detail/service-detail.component.ts:160-166 | toggling twice restores the set, and the exact list when the id was absent |
| Booking.Total | src/app/customer/booking/service-detail/service-detail.component.ts:127-131 | non-negative with non-negative prices; 0 when no selected id has a rate |
| Booking.TotalAppend | src/app/customer/booking/service-detail/service-detail.component.ts:127-131 | adding an id adds its price; an unknown id adds nothing |
| Booking.TotalRemove | src/app/customer/booking/service-detail/service-detail.component.ts:127-131 | removing a selected id subtracts its price |
| Booking.ToggleTotal | src/app/customer/booking/service-detail/service-detail.component.ts:127-166 | a toggle changes the total by exactly plus or minus that service's price |
| Booking.DatePrefix | src/app/customer/booking/service-detail/service-detail.component.ts:178 | the prefix before the first 'T' |
| Booking.SlotsLeft | src/app/customer/booking/service-detail/service-detail.component.ts:180 | a slot is available iff it is a slot of the day and not booked; order kept |
| Booking.Hour24IsBijective | src/app/customer/booking/service-detail/service-detail.component.ts:432-434 | hours 1–12 with AM/PM map one-to-one onto 0–23, with AM exactly below 12 |
| Booking.TwoDigits | src/app/customer/booking/service-detail/service-detail.component.ts:435 | two decimal digits that read back as the hour |
| Booking.PaddedHour | src/app/customer/booking/service-detail/service-detail.component.ts:435 | `h.toString().padStart(2, '0')` is those two digits |
| Booking.FormatDateTime | src/app/customer/booking/service-detail/service-detail.component.ts:425-436 | "" when the date or the time is empty; otherwise it fails exactly when the time has no ':', and a result starts with the date part and a space |
| Booking.FormatSlot | src/app/customer/booking/service-detail/service-detail.component.ts:425-436 | a slot "hh:mm AM/PM" on a date formats as "date HH:mm:00" with the 24-hour hour |
| Booking.ServiceDetailComponent.constructor | src/app/customer/booking/service-detail/service-detail.component.ts:40-66 | the initial wizard state, the demo booked slots and the ten day slots |
| Booking.ServiceDetailComponent.GoToStep | src/app/customer/booking/service-detail/service-detail.component.ts:101-103 | the step is set as given |
| Booking.ServiceDetailComponent.NextStep | src/app/customer/booking/service-detail/service-detail.component.ts:105-107 | advances only below the last step; stays within 1..5 |
| Booking.ServiceDetailComponent.PrevStep | src/app/customer/booking/service-detail/service-detail.component.ts:109-111 | goes back only above step 1; stays within 1..5 |
| Booking.ServiceDetailComponent.LoadServices | src/app/customer/booking/service-detail/service-detail.component.ts:144-149 | stores the rates and re-applies the size filter |
| Booking.ServiceDetailComponent.SelectVehicle | src/app/customer/booking/service-detail/service-detail.component.ts:151-154 | sets the code and filters by it |
| Booking.ServiceDetailComponent.FilterServices | src/app/customer/booking/service-detail/service-detail.component.ts:156-158 | the shown rates are those of the selected size |
| Booking.ServiceDetailComponent.ToggleService | src/app/customer/booking/service-detail/service-detail.component.ts:160-170 | `isSelected` flips for that service only; the selection stays duplicate-free |
| Booking.ServiceDetailComponent.IsSelected | src/app/customer/booking/service-detail/service-detail.component.ts:168-170 | selected iff the id occurs in the selection, and then exactly once while the selection is duplicate-free |
| Booking.ServiceDetailComponent.CalculateTotal | src/app/customer/booking/service-detail/service-detail.component.ts:127-131 | non-negative with non-negative prices, and 0 for an empty selection |
| Booking.ServiceDetailComponent.GetServiceNameById | src/app/customer/booking/service-detail/service-detail.component.ts:122-125 | the first matching rate's type name, or "" when none matches |
| Booking.ServiceDetailComponent.FetchAvailableSlots | src/app/customer/booking/service-detail/service-detail.component.ts:173-182 | no date clears the slots and keeps the time; with a date the slots are those left, and the time survives only if still available |
| Booking.ServiceDetailComponent.SelectTime | src/app/customer/booking/service-detail/service-detail.component.ts:184-186 | sets the time |
| Booking.ServiceDetailComponent.HandlePaymentSuccess | src/app/customer/booking/service-detail/service-detail.component.ts:304-312 | stops checking and jumps to the confirmation step |
| Booking.ServiceDetailComponent.HandlePaymentCancel | src/app/customer/booking/service-detail/service-detail.component.ts:314-321 | stops checking and leaves the step alone |
| Booking.ServiceDetailComponent.FinishBooking | src/app/customer/booking/service-detail/service-detail.component.ts:413-422 | back to step 1 with an empty selection and cleared date, time and payment fields |
| Register.PasswordErrors | src/app/customer/register/register.component.ts:63-98 | each error key is present iff its rule fails; minlength carries 8 and the actual length; the others are `true` |
| Register.IsPasswordValid | src/app/customer/register/register.component.ts:213-223 | valid exactly when all six reported rules hold; a valid password has at least 8 characters |
| Register.StrongPasswordValidator | src/app/customer/register/register.component.ts:56-101 | an empty value gives null; otherwise null iff the password is valid, and the errors object is non-empty when returned |
| Register.NoErrorsIffValid | src/app/customer/register/register.component.ts:78-100 | no errors exactly when `isPasswordValid` holds |
| Register.Score | src/app/customer/register/register.component.ts:197-204 | at most 5, and 5 exactly for a valid password |
| Register.PasswordStrength | src/app/customer/register/register.component.ts:192-210 | "" for an empty password; otherwise the label of the score; "very-strong" iff valid |
| Register.ScoreCountsFailures | src/app/customer/register/register.component.ts:197-204 | the strength score plus the number of validator errors is always 5 |
| Register.PasswordErrorMessage | src/app/customer/register/register.component.ts:159-179 | "required" is reported first; the message is "" exactly when no reported key is present |
| Register.PasswordErrorMessageReportsFirstFailure | src/app/customer/register/register.component.ts:159-179 | the message names the first broken rule in the order required, length, upper, lower, digit, special; it is empty iff the password is valid |
| Register.PasswordMatchValidator | src/app/customer/register/register.component.ts:104-112 | returns null; marks the confirmation with passwordMismatch only when both controls exist and differ; values untouched |
| ServiceListing.Project | src/app/admin-services/service-list/service-list.component.ts:33-38 | same length, four fields copied per entry |
| ServiceListing.PageCount | src/app/admin-services/service-list/service-list.component.ts:40 | the ceiling of n/10 |
| ServiceListing.SliceIndex | src/app/admin-services/service-list/service-list.component.ts:54 | the index is clipped to the list as `slice` does |
| ServiceListing.PageIsContiguousRun | src/app/admin-services/service-list/service-list.component.ts:51-55 | page p is the clipped run starting at (p−1)·10, of at most 10 entries, empty iff p is past the last page |
| ServiceListing.PagesCoverServices | src/app/admin-services/service-list/service-list.component.ts:40-55 | pages 1..totalPages concatenated give back the whole list |
| ServiceListing.PagesFrom | src/app/admin-services/service-list/service-list.component.ts:51-55 | the pages from p on concatenate to the suffix starting at (p−1)·10 |
| ServiceListing.ServiceListComponent.constructor | src/app/admin-services/service-list/service-list.component.ts:16-20 | empty lists, page 1 of 1 |
| ServiceListing.ServiceListComponent.LoadServices | src/app/admin-services/service-list/service-list.component.ts:28-42 | stores the projected rates and the page count, keeps the page and refreshes it |
| ServiceListing.ServiceListComponent.UpdateDisplayedServices | src/app/admin-services/service-list/service-list.component.ts:51-55 | the displayed rows are the current page |
| ServiceListing.ServiceListComponent.ChangePage | src/app/admin-services/service-list/service-list.component.ts:57-64 | forward only below totalPages, back only above 1; the page stays in bounds; at most 10 rows shown |
| ServiceListing.ServiceListComponent.ApplyEdit | src/app/admin-services/service-list/service-list.component.ts:74-81 | a returned record replaces the first entry with its id; nothing else changes |
| Seqs.ReplaceFirst | src/app/admin-services/service-list/service-list.component.ts:76-79 | only the first match is replaced; length unchanged; no match leaves the list as it was |
| AppointmentList.UniqueCustomers | src/app/admin/admin-appointments/appointment-list/appointment-list.component.ts:63-75 | no more customers than appointments, each the customer of some appointment |
| AppointmentList.UniqueCustomersSelects | src/app/admin/admin-appointments/appointment-list/appointment-list.component.ts:63-75 | the customers are an ordered selection of the appointments' customers |
| AppointmentList.UniqueCustomersDistinct | src/app/admin/admin-appointments/appointment-list/appointment-list.component.ts:64-71 | no email is listed twice |
| AppointmentList.UniqueCustomersCover | src/app/admin/admin-appointments/appointment-list/appointment-list.component.ts:64-71 | every appointment's email is listed |
| AppointmentList.UniqueCustomersFirst | src/app/admin/admin-appointments/appointment-list/appointment-list.component.ts:64-71 | each listed customer comes from the first appointment with that email |
| AppointmentList.UniqueCustomersInFirstAppearanceOrder | src/app/admin/admin-appointments/appointment-list/appointment-list.component.ts:63-75 | the customers are listed in the order in which their emails first appear |
| AppointmentList.AppointmentCount | src/app/admin/admin-appointments/appointment-list/appointment-list.component.ts:115-119 | at most the number of appointments, and positive exactly when some appointment has that email |
| AppointmentList.CustomerAppointments | src/app/admin/admin-appointments/appointment-list/appointment-list.component.ts:122-128 | a permutation of that customer's appointments; their count is `getAppointmentCount`; newest first when every date parses |
| AppointmentList.CountsAddUp | src/app/admin/admin-appointments/appointment-list/appointment-list.component.ts:115-119 | the per-customer appointment counts sum to the number of appointments |
| AppointmentList.MatchingCustomers | src/app/admin/admin-appointments/appointment-list/appointment-list.component.ts:84-91 | an empty term keeps everyone; otherwise exactly the customers whose lower-cased name or email contains the term, in order |
| AppointmentList.Initials | src/app/admin/admin-appointments/appointment-list/appointment-list.component.ts:105-112 | at most two characters, none lower-case, a prefix of the upper-cased first letters |
| AppointmentList.InitialsOfTwoWords | src/app/admin/admin-appointments/appointment-list/appointment-list.component.ts:105-112 | "first second …" gives the two upper-cased first letters |
| AppointmentList.AppointmentListComponent.constructor | src/app/admin/admin-appointments/appointment-list/appointment-list.component.ts:38-41 | empty state |
| AppointmentList.AppointmentListComponent.Customers | src/app/admin/admin-appointments/appointment-list/appointment-list.component.ts:63-75 | the reduce loop computes `UniqueCustomers` |
| AppointmentList.AppointmentListComponent.LoadAppointments | src/app/admin/admin-appointments/appointment-list/appointment-list.component.ts:50-55 | stores the appointments and lists their distinct customers |
| AppointmentList.AppointmentListComponent.LoadCustomers | src/app/admin/admin-appointments/appointment-list/appointment-list.component.ts:77-79 | lists the distinct customers |
| AppointmentList.AppointmentListComponent.FilterCustomers | src/app/admin/admin-appointments/appointment-list/appointment-list.component.ts:82-92 | the shown customers match the lower-cased term |
| AppointmentList.AppointmentListComponent.SelectCustomer | src/app/admin/admin-appointments/appointment-list/appointment-list.component.ts:95-97 | selects the customer; appointments untouched |
| AppointmentList.AppointmentListComponent.GoBack | src/app/admin/admin-appointments/appointment-list/appointment-list.component.ts:100-102 | clears the selection; appointments untouched |
| VehicleFilter.Shown | src/app/customer/services/services.page.ts:65-71 | "ALL" shows every rate; another size shows exactly the matching rates, in order |
| VehicleFilter.ShownCounts | src/app/customer/services/services.page.ts:68-70 | each matching rate appears as often as it was loaded, others never |
| VehicleFilter.ServicesPage.constructor | src/app/customer/services/services.page.ts:21-24 | empty lists, size "ALL", consistent |
| VehicleFilter.ServicesPage.LoadServices | src/app/customer/services/services.page.ts:37-41 | stores the rates and keeps the shown list consistent with the size |
| VehicleFilter.ServicesPage.LoadVehicleSizes | src/app/customer/services/services.page.ts:49-53 | stores the sizes |
| VehicleFilter.ServicesPage.SelectSize | src/app/customer/services/services.page.ts:60-63 | sets the size; the shown list is consistent with it |
| VehicleFilter.ServicesPage.FilterServices | src/app/customer/services/services.page.ts:65-71 | the shown list is consistent with the size |
| CustomerStore.OrElse | src/app/services/customer.service.ts:162-164 | `x \|\| fallback` on a number: absent or 0 falls back |
| CustomerStore.Normalise | src/app/services/customer.service.ts:148-182 | a bare array gives its length and the arguments; `{data:[…]}` takes truthy total/page/limit or the fallbacks; any other object is a singleton with total 1; anything else is empty with total 0 |
| CustomerStore.NormaliseIdempotent | src/app/services/customer.service.ts:158-165 | a normalised response read again with the same arguments gives itself back |
| CustomerStore.NormaliseTotal | src/app/services/customer.service.ts:150-181 | the total is the list's length unless a non-zero total was supplied alongside a data array |
| CustomerStore.NewCustomersThisWeek | src/app/services/customer.service.ts:224-233 | the number of customers created in [now − 7 days, now], at most the number of customers |
| CustomerStore.NewCustomersAreRecent | src/app/services/customer.service.ts:224-233 | the counted customers are exactly those with a creation date in the window; with no dates the count is 0 |
| CustomerStore.Stats | src/app/services/customer.service.ts:203-240 | totals as the response says; an object without a data array counts as no customers; new this week is `NewCustomersThisWeek` of the customers read |
| CustomerStore.CustomerList | src/app/services/customer.service.ts:207-218 | the same list `getCustomers` normalises whenever the body carries one; empty for other bodies |
| CustomerStore.ErrorMessage | src/app/services/customer.service.ts:405-428 | client errors are prefixed; 400/401/403/404/500 have fixed texts; any other status gives "Server Error: <status> - <message>" |
| CustomerStore.FixedMessagesDistinct | src/app/services/customer.service.ts:410-425 | the five fixed statuses get five different messages |
| CustomerStore.ServerMessageInjective | src/app/services/customer.service.ts:426-427 | the default message determines both the status and the server's message |
| CustomerStore.ServerMessageNotFixed | src/app/services/customer.service.ts:410-427 | a default message never equals a fixed one |
| CustomerStore.CustomerService.constructor | src/app/services/customer.service.ts:39-43 | empty cache, not loading |
| CustomerStore.CustomerService.GetCustomers | src/app/services/customer.service.ts:134-190 | returns the normalised response and publishes its list; loading ends |
| CustomerStore.CustomerService.CreateCustomer | src/app/services/customer.service.ts:276-289 | appends: one longer, old prefix unchanged, new customer last |
| CustomerStore.CustomerService.UpdateCustomer | src/app/services/customer.service.ts:294-311 | replaces only the first entry with that id; an unknown id changes nothing |
| CustomerStore.CustomerService.DeleteCustomer | src/app/services/customer.service.ts:316-328 | exactly the entries with other ids remain |
| CustomerStore.CustomerService.ClearCustomers | src/app/services/customer.service.ts:393-395 | the cache is empty |
| CustomerStore.CustomerService.HandleError | src/app/services/customer.service.ts:400-433 | loading ends and the message is `ErrorMessage` |
| CustomerStore.DeleteKeepsOthers | src/app/services/customer.service.ts:322-323 | deletion keeps the other entries in order and with their multiplicities |

## Left out

- HTTP requests, observables, subscriptions, `console` output, alerts, toasts, modals,
  routing and the payment interval timer: each handler is modelled from the moment its
  data arrives.
- localStorage, JWT decoding and the login/session code in `auth.service.ts` and the
  `getCurrentUser…`/`setCurrentUser`/`clearCurrentUser` helpers of
  `customer.service.ts`: browser storage and foreign calls.
- The PayMongo checkout, payment creation and payment status polling of the booking
  wizard: network calls and timers. Only the success, cancel and finish outcomes are
  modelled.
- Floating point: prices and amounts are integers. `PercentageChange` computes
  `Math.round` exactly on integers, with no binary rounding error.
- `toLocaleDateString` and the `en-PH` amount format: a date older than a week becomes
  `LocaleDate(ms)` and the payment message becomes `PaymentReceived(amount)`.
- Calendar arithmetic: days are fixed 24-hour spans, so daylight-saving shifts of
  `setDate` are not modelled.
- Case mapping is ASCII-only, and string lengths count characters, not UTF-16 units.
- Strings.IsSpace: only ASCII whitespace is skipped by `trim` and `parseInt`. JavaScript also
  skips the no-break space, U+FEFF and the Unicode line and space separators.
- Sorting with a NaN comparator is engine-defined. The model uses a stable insertion
  sort, and the order is proved only where every key parses.
- The `apt.appointmentID || apt.id` fallback and the `service_rate?.price || apt.price`
  fallback are resolved before the data enters the model.
- `null` and `undefined` customerIDs are both `None`, and `new Date(null)` (the epoch)
  is treated as an unparsable date.
- DashboardActivity.IdText: because of that merge, a `null` customerID gets the activity id
  `new_customer_undefined`, where the code writes `new_customer_null`.
- Dashboard.UpcomingAppointments: returns the raw records; `formatAppointmentForDisplay`
  and `formatVehicleType` are not modelled.
- `getGrowthIndicators`, `getAppointmentActivityType`, `getDashboardDataSafe` and the
  request helpers of `dashboard.service.ts`: not part of this model.
- The payments `Array.isArray` guard: payments are always a list here.
- `getCustomerById`, `searchCustomers`, `getCustomersWithAppointments` and
  `refreshCustomers`: not part of this model.
- The name, email, phone and confirmation error messages of the registration form, and
  the Angular built-in validators: not part of this model.
- Booking.ServiceDetailComponent.FetchAvailableSlots: with an empty date the chosen
  time is kept, as the code does. So "the time is empty or an available slot" is proved
  only for a non-empty date.
- `ngOnInit`'s preselection of a service passed in: route data, not modelled.
- ServiceListing.ServiceListComponent.LoadServices: a reload keeps the current page.
  So staying within the page bounds is proved only when the reload happens on page 1.
- ServiceListing.ServiceListComponent.ApplyEdit: the edit dialog returns an arbitrary
  object; the model stores it as a `ServiceRow`.
- Booking.FormatSlot: proved for the "hh:mm AM/PM" shape the slots have. Other inputs
  follow `FormatDateTime`, which returns `None` where the code would throw on a time
  without ':'.
- CustomerStore.NewCustomersThisWeek: `weekAgo` is `now` minus seven fixed days, and
  both are one clock reading.
