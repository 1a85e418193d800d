/** The admin dashboard's pure aggregation (`DashboardService`): day and week buckets
    over appointment times, revenue sums, distinct customers, the upcoming list, the
    growth percentage, the relative-time ladder and the activity texts.

    Times are milliseconds since the epoch; `today` is the local midnight that the source
    computes from the clock and `now` the clock itself, both passed in. An appointment
    date that does not parse is `None`: an invalid `Date` compares false, so it drops out
    of every range. */
module Dashboard {
  import opened Wrappers
  import opened Seqs
  import opened Sorting
  import opened Strings
  import opened Catalog

  const Minute: int := 60_000
  const Hour: int := 3_600_000
  const Day: int := 86_400_000
  const Week: int := 7 * Day

  /** An appointment record as the `/appointments` endpoint returns it. Absent texts are
      "". `customerName` is `customer?.name` and `bookedName` the record's own
      `customerName`; `serviceTypeName` is `service_type?.serviceTypeName` and
      `bookedService` the record's `serviceName`; `price` is the resolved price in
      centavos (0 when it does not parse). */
  datatype Appointment = Appointment(
    appointmentID: int,
    customerID: Option<int>,
    dateTime: Option<int>,
    createdAt: Option<int>,
    status: string,
    customerName: string,
    bookedName: string,
    serviceTypeName: string,
    bookedService: string,
    price: int)

  // ---- Date buckets ----

  /** `t` parses and lies in the half-open interval `[lo, hi)`. */
  predicate InRange(t: Option<int>, lo: int, hi: int) {
    t.Some? && lo <= t.value < hi
  }

  /** Appointments dated today: `[today, today + 24h)`. */
  function Todays(appointments: seq<Appointment>, today: int): (r: seq<Appointment>)
    ensures forall a :: a in r <==> a in appointments && InRange(a.dateTime, today, today + Day)
    ensures |r| <= |appointments|
  {
    Filter(appointments, (a: Appointment) => InRange(a.dateTime, today, today + Day))
  }

  /** Appointments dated yesterday: `[today - 1 day, today)`. */
  function Yesterdays(appointments: seq<Appointment>, today: int): (r: seq<Appointment>)
    ensures forall a :: a in r <==> a in appointments && InRange(a.dateTime, today - Day, today)
    ensures |r| <= |appointments|
  {
    Filter(appointments, (a: Appointment) => InRange(a.dateTime, today - Day, today))
  }

  /** Appointments of the past week: `[today - 7 days, today)`. */
  function ThisWeeks(appointments: seq<Appointment>, today: int): (r: seq<Appointment>)
    ensures forall a :: a in r <==> a in appointments && InRange(a.dateTime, today - Week, today)
    ensures |r| <= |appointments|
  {
    Filter(appointments, (a: Appointment) => InRange(a.dateTime, today - Week, today))
  }

  /** The today and yesterday buckets share no appointment, and the week bucket holds
      every yesterday appointment and no today appointment; so the yesterday count never
      exceeds the weekly count and the today and weekly counts fit in the input. */
  lemma {:induction false} BucketsNest(appointments: seq<Appointment>, today: int)
    ensures forall a :: a in Todays(appointments, today) ==> a !in Yesterdays(appointments, today)
    ensures forall a :: a in Yesterdays(appointments, today) ==> a in ThisWeeks(appointments, today)
    ensures forall a :: a in ThisWeeks(appointments, today) ==> a !in Todays(appointments, today)
    ensures |Yesterdays(appointments, today)| <= |ThisWeeks(appointments, today)|
    ensures |Todays(appointments, today)| + |Yesterdays(appointments, today)| <= |appointments|
    ensures |Todays(appointments, today)| + |ThisWeeks(appointments, today)| <= |appointments|
  {
    var isToday := (a: Appointment) => InRange(a.dateTime, today, today + Day);
    var isYesterday := (a: Appointment) => InRange(a.dateTime, today - Day, today);
    var isThisWeek := (a: Appointment) => InRange(a.dateTime, today - Week, today);
    FilterMonotone(appointments, isYesterday, isThisWeek);
    FilterDisjoint(appointments, isToday, isYesterday);
    FilterDisjoint(appointments, isToday, isThisWeek);
  }

  /** `reduce((sum, apt) => sum + price, 0)`. */
  function Revenue(appointments: seq<Appointment>): (r: int)
    ensures (forall a :: a in appointments ==> a.price >= 0) ==> r >= 0
    decreases |appointments|
  {
    if appointments == [] then 0 else appointments[0].price + Revenue(appointments[1..])
  }

  /** Revenue adds up over a concatenation. */
  lemma {:induction false} RevenueAppend(a: seq<Appointment>, b: seq<Appointment>)
    ensures Revenue(a + b) == Revenue(a) + Revenue(b)
    decreases |a|
  {
    if a != [] {
      assert (a + b)[1..] == a[1..] + b;
      RevenueAppend(a[1..], b);
    } else {
      assert a + b == b;
    }
  }

  /** With no negative prices, a filter never adds revenue. */
  lemma {:induction false} RevenueOfFilter(s: seq<Appointment>, p: Appointment -> bool)
    requires forall a :: a in s ==> a.price >= 0
    ensures 0 <= Revenue(Filter(s, p)) <= Revenue(s)
    decreases |s|
  {
    if s != [] {
      RevenueOfFilter(s[1..], p);
      var head := if p(s[0]) then [s[0]] else [];
      RevenueAppend(head, Filter(s[1..], p));
    }
  }

  /** With no negative prices, each bucket's revenue lies between 0 and the total. */
  lemma BucketRevenue(appointments: seq<Appointment>, today: int)
    ensures (forall a :: a in appointments ==> a.price >= 0) ==>
              0 <= Revenue(Todays(appointments, today)) <= Revenue(appointments) &&
              0 <= Revenue(Yesterdays(appointments, today)) <= Revenue(appointments) &&
              0 <= Revenue(ThisWeeks(appointments, today)) <= Revenue(appointments)
  {
    if forall a :: a in appointments ==> a.price >= 0 {
      RevenueOfFilter(appointments, (a: Appointment) => InRange(a.dateTime, today, today + Day));
      RevenueOfFilter(appointments, (a: Appointment) => InRange(a.dateTime, today - Day, today));
      RevenueOfFilter(appointments, (a: Appointment) => InRange(a.dateTime, today - Week, today));
    }
  }

  /** `new Set(appts.map(a => a.customerID).filter(id => id != null))`. */
  function CustomerIds(appointments: seq<Appointment>): (ids: set<int>)
    ensures forall id :: id in ids <==> Some(id) in CustomerIdList(appointments)
    ensures |ids| <= |appointments|
    decreases |appointments|
  {
    if appointments == [] then {}
    else
      var rest := CustomerIds(appointments[1..]);
      assert CustomerIdList(appointments) == [appointments[0].customerID] + CustomerIdList(appointments[1..]);
      match appointments[0].customerID
      case Some(id) => (LemmaCardAdd(rest, id); {id} + rest)
      case None => rest
  }

  /** The `customerID` of each appointment, in order. */
  function CustomerIdList(appointments: seq<Appointment>): (r: seq<Option<int>>)
    ensures |r| == |appointments| && forall i :: 0 <= i < |r| ==> r[i] == appointments[i].customerID
  {
    seq(|appointments|, i requires 0 <= i < |appointments| => appointments[i].customerID)
  }

  lemma LemmaCardAdd(s: set<int>, x: int)
    ensures |{x} + s| <= |s| + 1
  {
    if x !in s {
      assert {x} + s == s + {x};
    } else {
      assert {x} + s == s;
    }
  }

  datatype WeeklyStats = WeeklyStats(bookings: nat, revenue: int, customers: nat)

  /** `totalCustomers` is always 0 here; the customer store fills it in later. */
  datatype DashboardStats = DashboardStats(
    todaysBookings: nat,
    todaysRevenue: int,
    totalCustomers: nat,
    totalServices: nat,
    yesterdaysBookings: nat,
    yesterdaysRevenue: int,
    weeklyStats: WeeklyStats)

  /** `calculateDashboardStats(appointments, services, payments)` with the clock read as
      `today` (local midnight). */
  function CalculateDashboardStats(appointments: seq<Appointment>, services: seq<ServiceRate>, today: int): (r: DashboardStats)
    ensures r.todaysBookings == |Todays(appointments, today)|
    ensures r.yesterdaysBookings == |Yesterdays(appointments, today)|
    ensures r.weeklyStats.bookings == |ThisWeeks(appointments, today)|
    ensures r.yesterdaysBookings <= r.weeklyStats.bookings
    ensures r.todaysBookings + r.weeklyStats.bookings <= |appointments|
    ensures r.weeklyStats.customers <= r.weeklyStats.bookings
    ensures r.weeklyStats.customers == |set a | a in ThisWeeks(appointments, today) && a.customerID.Some? :: a.customerID.value|
    ensures r.totalCustomers == 0 && r.totalServices == |services|
    ensures r.todaysRevenue == Revenue(Todays(appointments, today))
    ensures r.yesterdaysRevenue == Revenue(Yesterdays(appointments, today))
    ensures r.weeklyStats.revenue == Revenue(ThisWeeks(appointments, today))
    ensures (forall a :: a in appointments ==> a.price >= 0) ==>
              0 <= r.todaysRevenue && 0 <= r.yesterdaysRevenue && 0 <= r.weeklyStats.revenue
  {
    var todays := Todays(appointments, today);
    var yesterdays := Yesterdays(appointments, today);
    var week := ThisWeeks(appointments, today);
    BucketsNest(appointments, today);
    var ids := CustomerIds(week);
    assert ids == set a | a in week && a.customerID.Some? :: a.customerID.value by {
      forall id ensures id in ids <==> exists a :: a in week && a.customerID == Some(id) {
        if id in ids {
          var i :| 0 <= i < |week| && CustomerIdList(week)[i] == Some(id);
          assert week[i] in week;
        }
      }
    }
    BucketRevenue(appointments, today);
    DashboardStats(
      |todays|, Revenue(todays), 0, |services|,
      |yesterdays|, Revenue(yesterdays),
      WeeklyStats(|week|, Revenue(week), |ids|))
  }

  // ---- Growth percentage ----

  function Abs(x: int): nat {
    if x < 0 then -x else x
  }

  /** `calculatePercentageChange(current, previous)`: 100 or 0 against a zero baseline,
      otherwise `Math.round(((current - previous) / previous) * 100)`, where `Math.round`
      rounds halves upwards. The rounded value is computed exactly, as
      `floor((2n + q) / 2q)` for the change `n / q` with `q = |previous|`. */
  function PercentageChange(current: int, previous: int): (r: int)
    ensures previous == 0 ==> r == (if current > 0 then 100 else 0)
    ensures previous != 0 ==>
              var change := 200 * (current - previous) * (if previous < 0 then -1 else 1);
              (2 * r - 1) * Abs(previous) <= change < (2 * r + 1) * Abs(previous)
  {
    if previous == 0 then (if current > 0 then 100 else 0)
    else
      var q := Abs(previous);
      var n := 100 * (current - previous) * (if previous < 0 then -1 else 1);
      var r := (2 * n + q) / (2 * q);
      assert 2 * q * r <= 2 * n + q < 2 * q * r + 2 * q;
      r
  }

  /** The rounding of the growth rule on the examples a reader checks first. */
  lemma PercentageChangeExamples()
    ensures PercentageChange(10, 5) == 100
    ensures PercentageChange(5, 10) == -50
    ensures PercentageChange(5, 0) == 100
    ensures PercentageChange(0, 0) == 0
    ensures PercentageChange(1, 3) == -67
    ensures PercentageChange(1, 8) == -87
  {
  }

  /** Against the same positive baseline more current activity never shows less growth. */
  lemma PercentageChangeMonotone(c1: int, c2: int, previous: int)
    requires previous > 0 && c1 <= c2
    ensures PercentageChange(c1, previous) <= PercentageChange(c2, previous)
  {
    var r1, r2 := PercentageChange(c1, previous), PercentageChange(c2, previous);
    if r1 > r2 {
      assert (2 * r2 + 1) * previous <= (2 * r1 - 1) * previous by {
        assert 2 * r2 + 1 <= 2 * r1 - 1;
        MulLeq(2 * r2 + 1, 2 * r1 - 1, previous);
      }
    }
  }

  lemma MulLeq(a: int, b: int, c: nat)
    requires a <= b
    ensures a * c <= b * c
  {
  }

  // ---- Upcoming appointments ----

  /** Dated within `[now, now + 7 days]` and neither cancelled nor completed. */
  predicate IsUpcoming(a: Appointment, now: int) {
    a.dateTime.Some? && now <= a.dateTime.value <= now + Week &&
    a.status != "cancelled" && a.status != "completed"
  }

  function DateKey(a: Appointment): Option<int> {
    a.dateTime
  }

  /** `getUpcomingAppointments`: filter, sort by date ascending, first five. The display
      formatting each item then goes through is not modelled, so the records themselves
      are returned. */
  function UpcomingAppointments(appointments: seq<Appointment>, now: int): (r: seq<Appointment>)
    ensures |r| <= 5
    ensures |r| == if |Filter(appointments, a => IsUpcoming(a, now))| < 5 then |Filter(appointments, a => IsUpcoming(a, now))| else 5
    ensures forall a :: a in r ==> a in appointments && IsUpcoming(a, now)
    ensures multiset(r) <= multiset(Filter(appointments, a => IsUpcoming(a, now)))
    ensures AllKeyed(r, DateKey) && Ordered(r, DateKey, false)
  {
    var candidates := Filter(appointments, a => IsUpcoming(a, now));
    var sorted := SortBy(candidates, DateKey, false);
    SortByOrdered(candidates, DateKey, false);
    SortByMembers(candidates, DateKey, false);
    TakeParts(sorted, 5);
    PrefixOrdered(sorted, Take(sorted, 5), DateKey, false);
    Take(sorted, 5)
  }

  /** No upcoming appointment left out of the five comes before one that was kept. */
  lemma UpcomingAreEarliest(appointments: seq<Appointment>, now: int, kept: Appointment, dropped: Appointment)
    requires kept in UpcomingAppointments(appointments, now)
    requires multiset(UpcomingAppointments(appointments, now))[dropped] <
             multiset(Filter(appointments, a => IsUpcoming(a, now)))[dropped]
    ensures IsUpcoming(dropped, now)
    ensures kept.dateTime.value <= dropped.dateTime.value
  {
    var candidates := Filter(appointments, a => IsUpcoming(a, now));
    var sorted := SortBy(candidates, DateKey, false);
    SortByOrdered(candidates, DateKey, false);
    SortByMembers(candidates, DateKey, false);
    var n := if 5 < |sorted| then 5 else |sorted|;
    assert UpcomingAppointments(appointments, now) == sorted[..n];
    DroppedNotBefore(sorted, n, kept, dropped, DateKey, false);
  }

  // ---- Relative time ----

  datatype TimeUnit = MinuteUnit | HourUnit | DayUnit

  /** Which rung of `getRelativeTime`'s ladder a difference `now - date` lands on. */
  datatype Rung = JustNow | Ago(count: int, unit: TimeUnit) | Calendar

  /** The ladder on floor minutes, hours and days of a difference. */
  function RungOf(diff: int): (r: Rung)
    ensures r == JustNow <==> diff < Minute
    ensures r == Calendar <==> diff >= Week
    ensures r.Ago? ==> r.count >= 1
    ensures r.Ago? && r.unit == MinuteUnit <==> Minute <= diff < Hour
    ensures r.Ago? && r.unit == HourUnit <==> Hour <= diff < Day
    ensures r.Ago? && r.unit == DayUnit <==> Day <= diff < Week
    ensures r.Ago? && r.unit == MinuteUnit ==> r.count * Minute <= diff < (r.count + 1) * Minute
    ensures r.Ago? && r.unit == HourUnit ==> r.count * Hour <= diff < (r.count + 1) * Hour
    ensures r.Ago? && r.unit == DayUnit ==> r.count * Day <= diff < (r.count + 1) * Day
  {
    var minutes, hours, days := diff / Minute, diff / Hour, diff / Day;
    if minutes < 1 then JustNow
    else if minutes < 60 then Ago(minutes, MinuteUnit)
    else if hours < 24 then Ago(hours, HourUnit)
    else if days < 7 then Ago(days, DayUnit)
    else Calendar
  }

  function UnitName(u: TimeUnit): (name: string)
    ensures |name| >= 1 && name[|name| - 1] != 's'
  {
    match u
    case MinuteUnit => "minute"
    case HourUnit => "hour"
    case DayUnit => "day"
  }

  /** `${n} ${unit}${n !== 1 ? 's' : ''} ago`. */
  function AgoText(n: int, u: TimeUnit): (s: string)
    ensures |s| >= 6 && s[|s| - 4..] == " ago"
    ensures s[|s| - 5] == 's' <==> n != 1
  {
    IntToString(n) + " " + UnitName(u) + (if n != 1 then "s" else "") + " ago"
  }

  /** A label: a fixed text, or the host's `toLocaleDateString()` of a date. */
  datatype TimeLabel = Text(text: string) | LocaleDate(ms: int)

  /** `getRelativeTime(dateString)` with the clock read as `now`. An unparsable date makes
      every comparison false and ends on `toLocaleDateString()` of an invalid date, which
      prints "Invalid Date". */
  function RelativeTime(date: Option<int>, now: int): (r: TimeLabel)
    ensures date.None? ==> r == Text("Invalid Date")
    ensures date.Some? && now - date.value < Minute ==> r == Text("Just now")
    ensures date.Some? && now - date.value >= Week ==> r == LocaleDate(date.value)
    ensures date.Some? && Minute <= now - date.value < Week ==>
              var rung := RungOf(now - date.value);
              rung.Ago? && r == Text(AgoText(rung.count, rung.unit))
  {
    match date
    case None => Text("Invalid Date")
    case Some(t) =>
      match RungOf(now - t)
      case JustNow => Text("Just now")
      case Ago(n, u) => Text(AgoText(n, u))
      case Calendar => LocaleDate(t)
  }

  // ---- Texts ----

  /** `capitalizeFirst(str)`: upper-case first character, the rest lower-cased. */
  function CapitalizeFirst(s: string): (r: string)
    ensures |r| == |s|
    ensures s != [] ==> r[0] == UpperChar(s[0])
    ensures forall i :: 1 <= i < |s| ==> r[i] == LowerChar(s[i])
  {
    if s == [] then "" else [UpperChar(s[0])] + Lower(s[1..])
  }

  /** Capitalising twice changes nothing, and the input's own case does not matter. */
  lemma CapitalizeFirstIdempotent(s: string)
    ensures CapitalizeFirst(CapitalizeFirst(s)) == CapitalizeFirst(s)
    ensures CapitalizeFirst(Lower(s)) == CapitalizeFirst(s)
    ensures CapitalizeFirst(Upper(s)) == CapitalizeFirst(s)
  {
    var c := CapitalizeFirst(s);
    if s != [] {
      assert CapitalizeFirst(c)[0] == c[0];
      assert CapitalizeFirst(Lower(s))[0] == c[0];
      assert CapitalizeFirst(Upper(s))[0] == c[0];
    }
  }

  /** `customer?.name || customerName || 'Unknown Customer'`. */
  function DisplayCustomer(a: Appointment): string {
    if a.customerName != "" then a.customerName
    else if a.bookedName != "" then a.bookedName
    else "Unknown Customer"
  }

  /** `service_type?.serviceTypeName || serviceName || 'service'`. */
  function DisplayService(a: Appointment): string {
    if a.serviceTypeName != "" then a.serviceTypeName
    else if a.bookedService != "" then a.bookedService
    else "service"
  }

  /** The cases `switch (status?.toLowerCase())` distinguishes. */
  datatype StatusKind = Confirmed | Completed | Cancelled | OtherStatus

  function StatusKindOf(status: string): StatusKind {
    var s := Lower(status);
    if s == "confirmed" then Confirmed
    else if s == "completed" then Completed
    else if s == "cancelled" then Cancelled
    else OtherStatus
  }

  /** `generateAppointmentMessage(appointment)`. */
  function AppointmentMessage(a: Appointment): (r: string)
    ensures |r| > |DisplayCustomer(a)| + |DisplayService(a)|
    ensures r[|r| - |DisplayService(a)|..] == DisplayService(a)
  {
    var name, service := DisplayCustomer(a), DisplayService(a);
    match StatusKindOf(a.status)
    case Confirmed => "Booking confirmed for " + name + " - " + service
    case Completed => "Service completed for " + name + " - " + service
    case Cancelled => "Booking cancelled for " + name + " - " + service
    case OtherStatus => "New booking from " + name + " for " + service
  }

  /** `getActivityIcon(type, status)`. */
  function ActivityIcon(kind: string, status: string): (r: string)
    ensures kind == "booking" ==> r in {"checkmark-circle-outline", "close-circle-outline", "calendar-outline"}
    ensures |r| > 8 && r[|r| - 8..] == "-outline"
  {
    match kind
    case "booking" =>
      (match StatusKindOf(status)
       case Completed => "checkmark-circle-outline"
       case Cancelled => "close-circle-outline"
       case _ => "calendar-outline")
    case "payment" => "cash-outline"
    case "customer" => "person-add-outline"
    case _ => "information-circle-outline"
  }

  /** A booking activity's icon and message tell the same story: the check mark exactly
      for a completed service, the cross exactly for a cancelled booking, the calendar
      otherwise; the message's opening words are fixed by the lower-cased status alone.
      An unknown activity type gets the information icon. */
  lemma {:induction false} IconAgreesWithMessage(a: Appointment)
    ensures ActivityIcon("booking", a.status) == "checkmark-circle-outline" <==>
              "Service completed for " <= AppointmentMessage(a)
    ensures ActivityIcon("booking", a.status) == "close-circle-outline" <==>
              "Booking cancelled for " <= AppointmentMessage(a)
    ensures ActivityIcon("booking", a.status) == "calendar-outline" <==>
              ("Booking confirmed for " <= AppointmentMessage(a) || "New booking from " <= AppointmentMessage(a))
    ensures "Service completed for " <= AppointmentMessage(a) <==> Lower(a.status) == "completed"
    ensures "Booking cancelled for " <= AppointmentMessage(a) <==> Lower(a.status) == "cancelled"
    ensures "Booking confirmed for " <= AppointmentMessage(a) <==> Lower(a.status) == "confirmed"
    ensures forall k :: k != "booking" && k != "payment" && k != "customer" ==>
              ActivityIcon(k, a.status) == "information-circle-outline"
  {
    var m := AppointmentMessage(a);
    match StatusKindOf(a.status)
    case Completed =>
      assert "Service completed for " <= m;
      assert m[0] == 'S';
    case Cancelled =>
      assert "Booking cancelled for " <= m;
      assert m[8] == 'c' && m[9] == 'a';
    case Confirmed =>
      assert "Booking confirmed for " <= m;
      assert m[8] == 'c' && m[9] == 'o';
    case OtherStatus =>
      assert "New booking from " <= m;
      assert m[0] == 'N';
  }
}
