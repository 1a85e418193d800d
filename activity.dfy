/** `generateRecentActivities`: the dashboard's activity feed, built by pushing entries for
    recent bookings, recent payments and first-time customers into one list, then sorting
    it newest first, keeping six, and adding a default entry when nothing is left. */
module DashboardActivity {
  import opened Wrappers
  import opened Seqs
  import opened Sorting
  import opened Strings
  import opened Dashboard

  /** A payment record; `amount` is in centavos. */
  datatype Payment = Payment(id: int, amount: int, createdAt: Option<int>)

  /** An activity text. The payment text is `Payment received - ₱` followed by the amount in
      the host's `en-PH` number format, so it is kept as the amount. */
  datatype Message = Plain(text: string) | PaymentReceived(amount: int)

  /** One feed entry; `timestamp` is `new Date(created_at).getTime()` (`None` for NaN). */
  datatype Activity = Activity(
    id: string,
    kind: string,
    icon: string,
    message: Message,
    time: TimeLabel,
    timestamp: Option<int>)

  /** Created no earlier than one day before `now`. */
  predicate IsRecent(t: Option<int>, now: int) {
    t.Some? && t.value >= now - Day
  }

  function CreatedKey(a: Appointment): Option<int> {
    a.createdAt
  }

  function PaidKey(p: Payment): Option<int> {
    p.createdAt
  }

  function Stamp(x: Activity): Option<int> {
    x.timestamp
  }

  /** The appointments created in the last day, in input order. */
  function CreatedRecently(appointments: seq<Appointment>, now: int): (r: seq<Appointment>)
    ensures forall a :: a in r <==> a in appointments && IsRecent(a.createdAt, now)
    ensures AllKeyed(r, CreatedKey)
  {
    Filter(appointments, (a: Appointment) => IsRecent(a.createdAt, now))
  }

  /** The payments created in the last day, in input order. */
  function PaidRecently(payments: seq<Payment>, now: int): (r: seq<Payment>)
    ensures forall p :: p in r <==> p in payments && IsRecent(p.createdAt, now)
    ensures AllKeyed(r, PaidKey)
  {
    Filter(payments, (p: Payment) => IsRecent(p.createdAt, now))
  }

  /** The four most recently created appointments of the last day, newest first. */
  function RecentAppointments(appointments: seq<Appointment>, now: int): (r: seq<Appointment>)
    ensures |r| == if 4 < |CreatedRecently(appointments, now)| then 4 else |CreatedRecently(appointments, now)|
    ensures multiset(r) <= multiset(CreatedRecently(appointments, now))
    ensures forall a :: a in r ==> a in appointments && IsRecent(a.createdAt, now)
    ensures AllKeyed(r, CreatedKey) && Ordered(r, CreatedKey, true)
  {
    var recent := CreatedRecently(appointments, now);
    TakeSorted(recent, CreatedKey, true, 4);
    Take(SortBy(recent, CreatedKey, true), 4)
  }

  /** A recent appointment left out by the limit of four was created no later than any
      kept one. */
  lemma RecentAppointmentsAreNewest(appointments: seq<Appointment>, now: int, kept: Appointment, dropped: Appointment)
    requires kept in RecentAppointments(appointments, now)
    requires multiset(RecentAppointments(appointments, now))[dropped] <
             multiset(CreatedRecently(appointments, now))[dropped]
    ensures dropped in appointments && IsRecent(dropped.createdAt, now)
    ensures dropped.createdAt.value <= kept.createdAt.value
  {
    TakeSortedDropped(CreatedRecently(appointments, now), CreatedKey, true, 4, kept, dropped);
  }

  /** The three most recent payments of the last day, newest first. */
  function RecentPayments(payments: seq<Payment>, now: int): (r: seq<Payment>)
    ensures |r| == if 3 < |PaidRecently(payments, now)| then 3 else |PaidRecently(payments, now)|
    ensures multiset(r) <= multiset(PaidRecently(payments, now))
    ensures forall p :: p in r ==> p in payments && IsRecent(p.createdAt, now)
    ensures AllKeyed(r, PaidKey) && Ordered(r, PaidKey, true)
  {
    var recent := PaidRecently(payments, now);
    TakeSorted(recent, PaidKey, true, 3);
    Take(SortBy(recent, PaidKey, true), 3)
  }

  /** A recent payment left out by the limit of three was created no later than any kept
      one. */
  lemma RecentPaymentsAreNewest(payments: seq<Payment>, now: int, kept: Payment, dropped: Payment)
    requires kept in RecentPayments(payments, now)
    requires multiset(RecentPayments(payments, now))[dropped] < multiset(PaidRecently(payments, now))[dropped]
    ensures dropped in payments && IsRecent(dropped.createdAt, now)
    ensures dropped.createdAt.value <= kept.createdAt.value
  {
    TakeSortedDropped(PaidRecently(payments, now), PaidKey, true, 3, kept, dropped);
  }

  /** `a => a.customerID === id`. */
  function WithCustomer(id: Option<int>): Appointment -> bool {
    (a: Appointment) => a.customerID == id
  }

  /** Where a customer first appears in `arr` (`findIndex`), or `|arr|` when nowhere. */
  function CustomerRank(arr: seq<Appointment>, id: Option<int>): (r: nat)
    ensures r <= |arr|
    ensures r < |arr| ==> arr[r].customerID == id && forall j :: 0 <= j < r ==> arr[j].customerID != id
    ensures r == |arr| ==> forall j :: 0 <= j < |arr| ==> arr[j].customerID != id
  {
    match FirstIndex(arr, WithCustomer(id))
    case Some(k) => k
    case None => |arr|
  }

  /** `arr.findIndex(a => a.customerID === arr[m].customerID) === m`. */
  predicate IsFirstOfCustomer(arr: seq<Appointment>, m: nat)
    requires m < |arr|
  {
    CustomerRank(arr, arr[m].customerID) == m
  }

  /** `arr.filter((apt, index, arr) => IsFirstOfCustomer(arr, index))`, from position `k` on:
      one appointment per customer, the first of each, in the order the customers first
      appear. */
  function FirstAppearances(arr: seq<Appointment>, k: nat): (r: seq<Appointment>)
    requires k <= |arr|
    ensures |r| <= |arr| - k
    ensures forall i :: 0 <= i < |r| ==>
              k <= CustomerRank(arr, r[i].customerID) < |arr| && arr[CustomerRank(arr, r[i].customerID)] == r[i]
    ensures forall i, j :: 0 <= i < j < |r| ==> CustomerRank(arr, r[i].customerID) < CustomerRank(arr, r[j].customerID)
    ensures forall m :: k <= m < |arr| && IsFirstOfCustomer(arr, m) ==> arr[m] in r
    decreases |arr| - k
  {
    if k == |arr| then []
    else
      var rest := FirstAppearances(arr, k + 1);
      if IsFirstOfCustomer(arr, k) then
        var r := [arr[k]] + rest;
        assert forall i :: 1 <= i < |r| ==> r[i] == rest[i - 1];
        r
      else rest
  }

  /** The kept appointments stay in input order, each customer is kept once, and every
      kept appointment lies in `arr[k..]`. */
  lemma {:induction false} FirstAppearancesInOrder(arr: seq<Appointment>, k: nat)
    requires k <= |arr|
    ensures IsSubseq(FirstAppearances(arr, k), arr[k..])
    ensures forall x :: x in FirstAppearances(arr, k) ==> x in arr[k..]
    ensures var r := FirstAppearances(arr, k);
      forall i, j :: 0 <= i < j < |r| ==> r[i].customerID != r[j].customerID
    decreases |arr| - k
  {
    var r := FirstAppearances(arr, k);
    if k < |arr| {
      FirstAppearancesInOrder(arr, k + 1);
      var rest := FirstAppearances(arr, k + 1);
      assert arr[k..][0] == arr[k] && arr[k..][1..] == arr[k + 1..];
      if IsFirstOfCustomer(arr, k) {
        assert r[1..] == rest;
      }
      forall x | x in r ensures x in arr[k..] {
        var i :| 0 <= i < |r| && r[i] == x;
        var m := CustomerRank(arr, x.customerID);
        assert arr[k..][m - k] == x;
      }
    }
  }

  /** The first two appointments, one per customer, among those created in the last day. */
  function NewCustomerAppointments(appointments: seq<Appointment>, now: int): (r: seq<Appointment>)
    ensures r <= FirstAppearances(CreatedRecently(appointments, now), 0)
    ensures |r| == if 2 < |FirstAppearances(CreatedRecently(appointments, now), 0)| then 2
                   else |FirstAppearances(CreatedRecently(appointments, now), 0)|
    ensures forall a :: a in r ==> a in appointments && IsRecent(a.createdAt, now)
    ensures forall i, j :: 0 <= i < j < |r| ==> r[i].customerID != r[j].customerID
  {
    var recent := CreatedRecently(appointments, now);
    var firsts := FirstAppearances(recent, 0);
    TakeFirstAppearances(recent, 2);
    Take(firsts, 2)
  }

  /** A prefix of the first appearances keeps their facts. */
  lemma TakeFirstAppearances(arr: seq<Appointment>, n: nat)
    ensures var r := Take(FirstAppearances(arr, 0), n);
      (forall x :: x in r ==> x in arr) &&
      forall i, j :: 0 <= i < j < |r| ==> r[i].customerID != r[j].customerID
  {
    var firsts := FirstAppearances(arr, 0);
    var r := Take(firsts, n);
    FirstAppearancesInOrder(arr, 0);
    assert arr[0..] == arr;
    forall x | x in r ensures x in arr {
      var i :| 0 <= i < |r| && r[i] == x;
      assert firsts[i] == x;
    }
    forall i, j | 0 <= i < j < |r| ensures r[i].customerID != r[j].customerID {
      assert r[i] == firsts[i] && r[j] == firsts[j];
    }
  }

  /** A customer of the last day who gets no entry first appeared after every customer
      who got one. */
  lemma NewCustomersAreFirst(appointments: seq<Appointment>, now: int, kept: Appointment, other: Appointment)
    requires kept in NewCustomerAppointments(appointments, now)
    requires other in CreatedRecently(appointments, now)
    requires forall x :: x in NewCustomerAppointments(appointments, now) ==> x.customerID != other.customerID
    ensures CustomerRank(CreatedRecently(appointments, now), kept.customerID) <
            CustomerRank(CreatedRecently(appointments, now), other.customerID)
  {
    var recent := CreatedRecently(appointments, now);
    var firsts := FirstAppearances(recent, 0);
    var r := NewCustomerAppointments(appointments, now);
    var m := CustomerRank(recent, other.customerID);
    var i :| 0 <= i < |recent| && recent[i] == other;
    assert m <= i < |recent|;
    assert IsFirstOfCustomer(recent, m);
    assert recent[m] in firsts;
    var p :| 0 <= p < |firsts| && firsts[p] == recent[m];
    var q :| 0 <= q < |r| && r[q] == kept;
    assert firsts[q] == kept;
  }

  /** `${id}` of a customer id; a missing id prints as "undefined". */
  function IdText(id: Option<int>): (s: string)
    ensures |s| >= 1 && (s[0] == 'u' <==> id.None?)
  {
    match id
    case None => "undefined"
    case Some(n) => IntToString(n)
  }

  lemma IdTextInjective(a: Option<int>, b: Option<int>)
    requires IdText(a) == IdText(b)
    ensures a == b
  {
    if a.Some? && b.Some? {
      IntToStringInjective(a.value, b.value);
    }
  }

  function BookingEntry(a: Appointment, now: int): Activity {
    Activity("apt_" + IntToString(a.appointmentID), "booking", ActivityIcon("booking", a.status),
             Plain(AppointmentMessage(a)), RelativeTime(a.createdAt, now), a.createdAt)
  }

  function PaymentEntry(p: Payment, now: int): Activity {
    Activity("pay_" + IntToString(p.id), "payment", "cash-outline",
             PaymentReceived(p.amount), RelativeTime(p.createdAt, now), p.createdAt)
  }

  function CustomerEntry(a: Appointment, now: int): Activity {
    Activity("new_customer_" + IdText(a.customerID), "customer", "person-add-outline",
             Plain("New customer registered: " + (if a.customerName != "" then a.customerName else "Unknown Customer")),
             RelativeTime(a.createdAt, now), a.createdAt)
  }

  /** The entry the feed shows when it would otherwise be empty. */
  function DefaultActivity(now: int): Activity {
    Activity("default_1", "system", "information-circle-outline",
             Plain("Dashboard initialized successfully"), Text("Just now"), Some(now))
  }

  function BookingEntryAt(now: int): Appointment -> Activity {
    (x: Appointment) => BookingEntry(x, now)
  }

  function PaymentEntryAt(now: int): Payment -> Activity {
    (x: Payment) => PaymentEntry(x, now)
  }

  function CustomerEntryAt(now: int): Appointment -> Activity {
    (x: Appointment) => CustomerEntry(x, now)
  }

  /** Every entry pushed before sorting, in push order: at most four bookings, three
      payments and two new customers, and none at all exactly when nothing was
      booked or paid in the last day. */
  function AllEntries(appointments: seq<Appointment>, payments: seq<Payment>, now: int): (r: seq<Activity>)
    ensures |r| <= 9
    ensures r == [] <==> CreatedRecently(appointments, now) == [] && PaidRecently(payments, now) == []
  {
    var b := Map(RecentAppointments(appointments, now), BookingEntryAt(now));
    var p := Map(RecentPayments(payments, now), PaymentEntryAt(now));
    var c := Map(NewCustomerAppointments(appointments, now), CustomerEntryAt(now));
    assert CreatedRecently(appointments, now) == [] ==> c == [] by {
      TakeFirstAppearances(CreatedRecently(appointments, now), 2);
      if c != [] {
        assert NewCustomerAppointments(appointments, now)[0] in CreatedRecently(appointments, now);
      }
    }
    b + p + c
  }

  /** The feed `generateRecentActivities` returns, with the clock read as `now`: never
      empty, never more than six entries, and the default entry alone when nothing was
      booked or paid in the last day. */
  function RecentActivities(appointments: seq<Appointment>, payments: seq<Payment>, now: int): (r: seq<Activity>)
    ensures 1 <= |r| <= 6
    ensures CreatedRecently(appointments, now) == [] && PaidRecently(payments, now) == [] ==>
              r == [DefaultActivity(now)]
  {
    Newest(AllEntries(appointments, payments, now), now)
  }

  /** Newest first, at most six, or the default entry alone. */
  function Newest(entries: seq<Activity>, now: int): (r: seq<Activity>)
    ensures entries == [] ==> r == [DefaultActivity(now)]
    ensures entries != [] ==>
              |r| == (if 6 < |entries| then 6 else |entries|) && multiset(r) <= multiset(entries)
    ensures AllKeyed(entries, Stamp) ==> AllKeyed(r, Stamp) && Ordered(r, Stamp, true)
  {
    TakeSorted(entries, Stamp, true, 6);
    var newest := Take(SortBy(entries, Stamp, true), 6);
    if newest == [] then [DefaultActivity(now)] else newest
  }

  /** An entry the limit of six leaves out is no newer than any entry in the feed. */
  lemma NewestDropped(entries: seq<Activity>, now: int, kept: Activity, dropped: Activity)
    requires AllKeyed(entries, Stamp)
    requires kept in Newest(entries, now)
    requires multiset(Newest(entries, now))[dropped] < multiset(entries)[dropped]
    ensures dropped in entries && kept.timestamp.Some? && dropped.timestamp.Some?
    ensures dropped.timestamp.value <= kept.timestamp.value
  {
    assert dropped in multiset(entries);
    TakeSorted(entries, Stamp, true, 6);
    TakeSortedDropped(entries, Stamp, true, 6, kept, dropped);
  }

  /** `items.forEach(x => activities.push(entry(x)))`. */
  method PushEach<A>(activities: seq<Activity>, items: seq<A>, entry: A -> Activity) returns (r: seq<Activity>)
    ensures r == activities + Map(items, entry)
  {
    r := activities;
    var i := 0;
    while i < |items|
      invariant 0 <= i <= |items|
      invariant r == activities + Map(items[..i], entry)
    {
      assert Map(items[..i + 1], entry) == Map(items[..i], entry) + [entry(items[i])];
      r := r + [entry(items[i])];
      i := i + 1;
    }
    assert items[..i] == items;
  }

  /** The source's own steps: the three `forEach` pushes into `activities`, then the
      sort, the slice and the default push. */
  method GenerateRecentActivities(appointments: seq<Appointment>, payments: seq<Payment>, now: int)
    returns (feed: seq<Activity>)
    ensures feed == RecentActivities(appointments, payments, now)
  {
    var activities: seq<Activity> := [];
    var recentAppointments := RecentAppointments(appointments, now);
    activities := PushEach(activities, recentAppointments, BookingEntryAt(now));
    ghost var b := Map(recentAppointments, BookingEntryAt(now));
    assert activities == b by {
      assert [] + b == b;
    }
    var recentPayments := RecentPayments(payments, now);
    activities := PushEach(activities, recentPayments, PaymentEntryAt(now));
    var newCustomers := NewCustomerAppointments(appointments, now);
    activities := PushEach(activities, newCustomers, CustomerEntryAt(now));
    assert activities == AllEntries(appointments, payments, now);
    feed := Take(SortBy(activities, Stamp, true), 6);
    if |feed| == 0 {
      feed := feed + [DefaultActivity(now)];
    }
  }

  predicate IsCustomerEntry(x: Activity) {
    x.kind == "customer"
  }

  /** The feed is never empty, holds at most six entries drawn from those pushed, runs
      newest first, and shows the default entry exactly when there was nothing to push. */
  lemma RecentActivitiesShape(appointments: seq<Appointment>, payments: seq<Payment>, now: int)
    ensures var r := RecentActivities(appointments, payments, now);
      var all := AllEntries(appointments, payments, now);
      1 <= |r| <= 6 && AllKeyed(r, Stamp) && Ordered(r, Stamp, true) &&
      (all != [] ==> |r| == (if 6 < |all| then 6 else |all|) && multiset(r) <= multiset(all)) &&
      (r == [DefaultActivity(now)] <==> all == [])
  {
    var all := AllEntries(appointments, payments, now);
    EntriesKeyed(appointments, payments, now);
    var r := Newest(all, now);
    if all != [] {
      assert r[0] in multiset(all);
      NoSystemEntries(appointments, payments, now);
    }
  }

  /** An entry pushed but left out of the feed is no newer than any entry shown. */
  lemma RecentActivitiesAreNewest(appointments: seq<Appointment>, payments: seq<Payment>, now: int,
                                  kept: Activity, dropped: Activity)
    requires kept in RecentActivities(appointments, payments, now)
    requires multiset(RecentActivities(appointments, payments, now))[dropped] <
             multiset(AllEntries(appointments, payments, now))[dropped]
    ensures dropped in AllEntries(appointments, payments, now)
    ensures kept.timestamp.Some? && dropped.timestamp.Some? && dropped.timestamp.value <= kept.timestamp.value
  {
    EntriesKeyed(appointments, payments, now);
    NewestDropped(AllEntries(appointments, payments, now), now, kept, dropped);
  }

  /** Only the default entry is a system entry. */
  lemma NoSystemEntries(appointments: seq<Appointment>, payments: seq<Payment>, now: int)
    ensures forall x :: x in AllEntries(appointments, payments, now) ==> x.kind != "system"
  {
    PushedKinds(RecentAppointments(appointments, now), RecentPayments(payments, now),
                NewCustomerAppointments(appointments, now), now);
  }

  lemma PushedKinds(booked: seq<Appointment>, paid: seq<Payment>, joined: seq<Appointment>, now: int)
    ensures forall x ::
      x in Map(booked, BookingEntryAt(now)) + Map(paid, PaymentEntryAt(now)) + Map(joined, CustomerEntryAt(now)) ==>
      x.kind != "system"
  {
    var b, p, c := Map(booked, BookingEntryAt(now)), Map(paid, PaymentEntryAt(now)), Map(joined, CustomerEntryAt(now));
    forall x: Activity | x in b + p + c ensures x.kind != "system" {
      if x in b {
        var k :| 0 <= k < |b| && b[k] == x;
      } else if x in p {
        var k :| 0 <= k < |p| && p[k] == x;
      } else {
        var k :| 0 <= k < |c| && c[k] == x;
      }
    }
  }

  lemma EntriesKeyed(appointments: seq<Appointment>, payments: seq<Payment>, now: int)
    ensures AllKeyed(AllEntries(appointments, payments, now), Stamp)
  {
    var b := Map(RecentAppointments(appointments, now), BookingEntryAt(now));
    var p := Map(RecentPayments(payments, now), PaymentEntryAt(now));
    var c := Map(NewCustomerAppointments(appointments, now), CustomerEntryAt(now));
    BookingEntriesKeyed(RecentAppointments(appointments, now), now);
    PaymentEntriesKeyed(RecentPayments(payments, now), now);
    CustomerEntriesKeyed(NewCustomerAppointments(appointments, now), now);
    assert AllEntries(appointments, payments, now) == b + p + c;
  }

  lemma BookingEntriesKeyed(s: seq<Appointment>, now: int)
    requires forall a :: a in s ==> IsRecent(a.createdAt, now)
    ensures AllKeyed(Map(s, BookingEntryAt(now)), Stamp)
  {
    var b := Map(s, BookingEntryAt(now));
    forall x | x in b ensures x.timestamp.Some? {
      var k :| 0 <= k < |b| && b[k] == x;
      assert s[k] in s;
    }
  }

  lemma PaymentEntriesKeyed(s: seq<Payment>, now: int)
    requires forall a :: a in s ==> IsRecent(a.createdAt, now)
    ensures AllKeyed(Map(s, PaymentEntryAt(now)), Stamp)
  {
    var b := Map(s, PaymentEntryAt(now));
    forall x | x in b ensures x.timestamp.Some? {
      var k :| 0 <= k < |b| && b[k] == x;
      assert s[k] in s;
    }
  }

  lemma CustomerEntriesKeyed(s: seq<Appointment>, now: int)
    requires forall a :: a in s ==> IsRecent(a.createdAt, now)
    ensures AllKeyed(Map(s, CustomerEntryAt(now)), Stamp)
  {
    var b := Map(s, CustomerEntryAt(now));
    forall x | x in b ensures x.timestamp.Some? {
      var k :| 0 <= k < |b| && b[k] == x;
      assert s[k] in s;
    }
  }

  /** At most two new-customer entries survive, and no customer appears twice. */
  lemma RecentActivitiesCustomers(appointments: seq<Appointment>, payments: seq<Payment>, now: int)
    ensures var r := RecentActivities(appointments, payments, now);
      |Filter(r, IsCustomerEntry)| <= 2 &&
      forall i, j :: 0 <= i < j < |r| && IsCustomerEntry(r[i]) && IsCustomerEntry(r[j]) ==> r[i].id != r[j].id
  {
    var r := RecentActivities(appointments, payments, now);
    var b := Map(RecentAppointments(appointments, now), BookingEntryAt(now));
    var p := Map(RecentPayments(payments, now), PaymentEntryAt(now));
    var c := Map(NewCustomerAppointments(appointments, now), CustomerEntryAt(now));
    var all := AllEntries(appointments, payments, now);
    assert all == b + p + c;
    EntryKinds(appointments, payments, now);
    OnlyCustomersCount(b, p, c, IsCustomerEntry);
    NewestFilterBound(all, now, IsCustomerEntry);
    forall i, j | 0 <= i < j < |r| && IsCustomerEntry(r[i]) && IsCustomerEntry(r[j])
      ensures r[i].id != r[j].id
    {
      if r[i].id == r[j].id {
        var id := r[i].id;
        var sameCustomer := (x: Activity) => IsCustomerEntry(x) && x.id == id;
        FilterTwoPositions(r, sameCustomer, i, j);
        NewestFilterBound(all, now, sameCustomer);
        OnlyCustomersCount(b, p, c, sameCustomer);
        CustomerIdsDistinct(NewCustomerAppointments(appointments, now), now);
        FilterAtMostOne(c, sameCustomer);
        assert false;
      }
    }
  }

  lemma EntryKinds(appointments: seq<Appointment>, payments: seq<Payment>, now: int)
    ensures forall x :: x in Map(RecentAppointments(appointments, now), BookingEntryAt(now)) ==> x.kind == "booking"
    ensures forall x :: x in Map(RecentPayments(payments, now), PaymentEntryAt(now)) ==> x.kind == "payment"
  {
  }

  /** Keeping the newest entries never adds an entry the default cannot be mistaken for. */
  lemma NewestFilterBound(entries: seq<Activity>, now: int, q: Activity -> bool)
    requires !q(DefaultActivity(now))
    ensures |Filter(Newest(entries, now), q)| <= |Filter(entries, q)|
  {
    var sorted := SortBy(entries, Stamp, true);
    var newest := Take(sorted, 6);
    if newest == [] {
      assert Filter([DefaultActivity(now)], q) == [];
    } else {
      assert sorted == newest + sorted[|newest|..];
      assert multiset(sorted) == multiset(newest) + multiset(sorted[|newest|..]);
      SubMultisetFilterBound(newest, entries, q);
    }
  }

  /** Booking and payment entries never pass a predicate implying the customer kind. */
  lemma OnlyCustomersCount(b: seq<Activity>, p: seq<Activity>, c: seq<Activity>, q: Activity -> bool)
    requires forall x :: x in b ==> x.kind == "booking"
    requires forall x :: x in p ==> x.kind == "payment"
    requires forall x :: q(x) ==> x.kind == "customer"
    ensures |Filter(b + p + c, q)| == |Filter(c, q)| <= |c|
  {
    FilterConcat(b + p, c, q);
    FilterConcat(b, p, q);
    FilterNone(b, q);
    FilterNone(p, q);
  }

  /** New-customer entries of distinct customers have distinct ids. */
  lemma CustomerIdsDistinct(s: seq<Appointment>, now: int)
    requires forall i, j :: 0 <= i < j < |s| ==> s[i].customerID != s[j].customerID
    ensures var c := Map(s, CustomerEntryAt(now));
      forall i, j :: 0 <= i < j < |c| ==> c[i].id != c[j].id
  {
    var c := Map(s, CustomerEntryAt(now));
    forall i, j | 0 <= i < j < |c| ensures c[i].id != c[j].id {
      if c[i].id == c[j].id {
        var prefix := "new_customer_";
        assert c[i].id == prefix + IdText(s[i].customerID);
        assert c[j].id == prefix + IdText(s[j].customerID);
        assert IdText(s[i].customerID) == c[i].id[|prefix|..];
        assert IdText(s[j].customerID) == c[j].id[|prefix|..];
        IdTextInjective(s[i].customerID, s[j].customerID);
      }
    }
  }
}
