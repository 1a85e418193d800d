/** The customer booking wizard (`ServiceDetailComponent`): a five-step wizard in which
    the customer picks a vehicle size, toggles services, chooses a date and a time slot,
    pays, and sees a confirmation. */
module Booking {
  import opened Wrappers
  import opened Seqs
  import opened Strings
  import opened Catalog

  /** The wizard's step titles; `steps.length` bounds the step counter. */
  const Steps: seq<string> := ["Vehicle Type", "Services", "Schedule", "Payment", "Confirmation"]

  /** Every bookable time of day. */
  const DaySlots: seq<string> := [
    "08:00 AM", "09:00 AM", "10:00 AM", "11:00 AM",
    "12:00 PM", "01:00 PM", "02:00 PM", "03:00 PM",
    "04:00 PM", "05:00 PM"]

  /** The demonstration table of slots already booked, by date. */
  const DemoBookedSlots: map<string, seq<string>> := map["2025-08-28" := ["09:00 AM"], "2025-08-29" := []]

  ghost predicate NoDuplicates<T>(s: seq<T>) {
    forall i, j :: 0 <= i < j < |s| ==> s[i] != s[j]
  }

  // ---- Selected services: a JavaScript Set of ids, iterated in insertion order ----

  /** `set.has(id) ? set.delete(id) : set.add(id)` on the insertion-ordered set. */
  function Toggled(selected: seq<int>, id: int): (r: seq<int>)
    ensures id in r <==> id !in selected
    ensures forall x :: x != id ==> (x in r <==> x in selected)
  {
    if id in selected then Filter(selected, (x: int) => x != id) else selected + [id]
  }

  /** Toggling flips the membership of that one id and of no other, and keeps the set a set. */
  lemma ToggledFlipsOnlyThatId(selected: seq<int>, id: int)
    requires NoDuplicates(selected)
    ensures NoDuplicates(Toggled(selected, id))
    ensures id in Toggled(selected, id) <==> id !in selected
    ensures forall x :: x != id ==> (x in Toggled(selected, id) <==> x in selected)
  {
    if id in selected {
      FilterKeepsNoDuplicates(selected, (x: int) => x != id);
    }
  }

  lemma {:induction false} FilterKeepsNoDuplicates<T(!new)>(s: seq<T>, p: T -> bool)
    requires NoDuplicates(s)
    ensures NoDuplicates(Filter(s, p))
    decreases |s|
  {
    if s != [] {
      FilterKeepsNoDuplicates(s[1..], p);
      var rest := Filter(s[1..], p);
      if p(s[0]) {
        assert s[0] !in s[1..];
        var r := Filter(s, p);
        assert r == [s[0]] + rest;
        forall i, j | 0 <= i < j < |r| ensures r[i] != r[j] {
          if i == 0 {
            assert r[j] == rest[j - 1] && rest[j - 1] in rest;
          } else {
            assert r[i] == rest[i - 1] && r[j] == rest[j - 1];
          }
        }
      }
    }
  }

  /** In a sequence without duplicates an element occurs once or not at all. */
  lemma {:induction false} OccursOnce<T>(s: seq<T>, x: T)
    ensures x in s <==> multiset(s)[x] > 0
    ensures NoDuplicates(s) ==> multiset(s)[x] <= 1
    decreases |s|
  {
    if s != [] {
      OccursOnce(s[1..], x);
      assert s == [s[0]] + s[1..];
      if NoDuplicates(s) {
        assert NoDuplicates(s[1..]) by {
          forall i, j | 0 <= i < j < |s[1..]| ensures s[1..][i] != s[1..][j] {
            assert s[1..][i] == s[i + 1] && s[1..][j] == s[j + 1];
          }
        }
        if s[0] == x {
          forall k | 0 <= k < |s[1..]| ensures s[1..][k] != x {
            assert s[1..][k] == s[k + 1];
          }
        }
      }
    }
  }

  /** Toggling the same service twice leaves the same set of ids selected; when the id was
      not selected, even the insertion order is restored. */
  lemma ToggleTwice(selected: seq<int>, id: int)
    requires NoDuplicates(selected)
    ensures forall x :: x in Toggled(Toggled(selected, id), id) <==> x in selected
    ensures id !in selected ==> Toggled(Toggled(selected, id), id) == selected
  {
    ToggledFlipsOnlyThatId(selected, id);
    ToggledFlipsOnlyThatId(Toggled(selected, id), id);
    if id !in selected {
      FilterDropsAbsent(selected, id);
      FilterConcat(selected, [id], (x: int) => x != id);
    }
  }

  lemma {:induction false} FilterDropsAbsent(s: seq<int>, id: int)
    requires id !in s
    ensures Filter(s, (x: int) => x != id) == s
    decreases |s|
  {
    if s != [] {
      FilterDropsAbsent(s[1..], id);
      assert s == [s[0]] + s[1..];
    }
  }

  // ---- calculateTotal ----

  /** `Array.from(selected).reduce((t, id) => svc ? t + Number(svc.price) : t, 0)`, where
      `svc` is the first rate with that id. */
  function Total(ids: seq<int>, services: seq<ServiceRate>): (r: int)
    ensures (forall s :: s in services ==> s.price >= 0) ==> r >= 0
    ensures (forall id, s :: id in ids && s in services ==> s.serviceRateID != id) ==> r == 0
    decreases |ids|
  {
    if ids == [] then 0
    else
      assert ids[0] in ids && forall x :: x in ids[1..] ==> x in ids;
      PriceOf(services, ids[0]) + Total(ids[1..], services)
  }

  /** An id added at the end adds its price (nothing when no rate has that id). */
  lemma {:induction false} TotalAppend(ids: seq<int>, id: int, services: seq<ServiceRate>)
    ensures Total(ids + [id], services) == Total(ids, services) + PriceOf(services, id)
    ensures (forall s :: s in services ==> s.serviceRateID != id) ==>
              Total(ids + [id], services) == Total(ids, services)
    decreases |ids|
  {
    if ids != [] {
      assert (ids + [id])[1..] == ids[1..] + [id];
      TotalAppend(ids[1..], id, services);
    }
  }

  /** Removing every occurrence of an id that occurs once takes its price off. */
  lemma {:induction false} TotalRemove(ids: seq<int>, id: int, services: seq<ServiceRate>)
    requires NoDuplicates(ids)
    ensures Total(Filter(ids, (x: int) => x != id), services) ==
              Total(ids, services) - (if id in ids then PriceOf(services, id) else 0)
    decreases |ids|
  {
    if ids != [] {
      assert ids[0] !in ids[1..];
      assert NoDuplicates(ids[1..]);
      TotalRemove(ids[1..], id, services);
      var f := Filter(ids[1..], (x: int) => x != id);
      if ids[0] != id {
        assert Filter(ids, (x: int) => x != id) == [ids[0]] + f;
        assert ([ids[0]] + f)[1..] == f;
      } else {
        assert Filter(ids, (x: int) => x != id) == f;
      }
    }
  }

  /** Toggling a service changes the total by exactly that service's price. */
  lemma ToggleTotal(selected: seq<int>, id: int, services: seq<ServiceRate>)
    requires NoDuplicates(selected)
    ensures Total(Toggled(selected, id), services) ==
              if id in selected then Total(selected, services) - PriceOf(services, id)
              else Total(selected, services) + PriceOf(services, id)
  {
    if id in selected {
      TotalRemove(selected, id, services);
    } else {
      TotalAppend(selected, id, services);
    }
  }

  // ---- Scheduling ----

  /** `date.split('T')[0]`: the calendar-date part of an ISO date-time string. */
  function DatePrefix(date: string): (r: string)
    ensures r <= date && 'T' !in r
    ensures |r| < |date| ==> date[|r|] == 'T'
  {
    SplitHead(date, 'T');
    Split(date, 'T')[0]
  }

  /** `bookedSlots[DatePrefix(date)] || []`. */
  function BookedOn(booked: map<string, seq<string>>, date: string): seq<string> {
    var day := DatePrefix(date);
    if day in booked then booked[day] else []
  }

  /** `allSlots.filter(slot => !booked.includes(slot))`. */
  function SlotsLeft(all: seq<string>, booked: seq<string>): (r: seq<string>)
    ensures forall slot :: slot in r <==> slot in all && slot !in booked
    ensures IsSubseq(r, all)
  {
    FilterIsSubseq(all, (slot: string) => slot !in booked);
    Filter(all, (slot: string) => slot !in booked)
  }

  // ---- formatDateTime: "YYYY-MM-DD" and "hh:mm AM" -> "YYYY-MM-DD HH:mm:00" ----

  /** The 12-hour to 24-hour rule on a parsed hour (NaN stays NaN). */
  function To24(h: Option<int>, period: string): Option<int> {
    match h
    case None => None
    case Some(v) =>
      if period == "PM" && v != 12 then Some(v + 12)
      else if period == "AM" && v == 12 then Some(0)
      else Some(v)
  }

  /** `h.toString()`, where NaN prints as "NaN". */
  function HourText(h: Option<int>): string {
    match h
    case None => "NaN"
    case Some(v) => IntToString(v)
  }

  /** `minutesPart.substring(0, 2)`. */
  function MinutesOf(minutesPart: string): string {
    minutesPart[..if |minutesPart| < 2 then |minutesPart| else 2]
  }

  /** `minutesPart.slice(-2).trim()`. */
  function PeriodOf(minutesPart: string): string {
    Trim(minutesPart[if |minutesPart| < 2 then 0 else |minutesPart| - 2..])
  }

  /** `formatDateTime(date, time)`. `None` stands for the TypeError the source raises when
      `time` holds no ':' (its `minutesPart` is then undefined). */
  function FormatDateTime(date: string, time: string): (r: Option<string>)
    ensures date == "" || time == "" ==> r == Some("")
    ensures date != "" && time != "" ==> (r.None? <==> ':' !in time)
    ensures r.Some? && r.value != "" ==> DatePrefix(date) + " " <= r.value
  {
    SplitParts(time, ':');
    if date == "" || time == "" then Some("")
    else
      var parts := Split(time, ':');
      if |parts| < 2 then None
      else
        var h := To24(ParseInt(parts[0]), PeriodOf(parts[1]));
        Some(DatePrefix(date) + " " + PadStart2(HourText(h)) + ":" + MinutesOf(parts[1]) + ":00")
  }

  /** The 24-hour value of hour `h` (1 to 12) of the given half-day. */
  function Hour24(h: int, period: string): int {
    if period == "PM" && h != 12 then h + 12 else if period == "AM" && h == 12 then 0 else h
  }

  /** 12 AM is hour 0, 12 PM is hour 12, other PM hours move up by 12 and other AM hours
      stay; so every clock reading names a different hour of the day, and AM hours are
      exactly those before noon. */
  lemma Hour24IsBijective(h: int, p: string, h': int, p': string)
    requires 1 <= h <= 12 && 1 <= h' <= 12
    requires p in {"AM", "PM"} && p' in {"AM", "PM"}
    ensures 0 <= Hour24(h, p) <= 23
    ensures Hour24(h, p) < 12 <==> p == "AM"
    ensures Hour24(h, p) == Hour24(h', p') ==> h == h' && p == p'
  {
  }

  /** Two decimal digits for an hour of the day. */
  function TwoDigits(n: nat): (r: string)
    requires n < 100
    ensures |r| == 2 && IsDigit(r[0]) && IsDigit(r[1])
    ensures DigitsValue(r) == n
  {
    var r := [DigitChar(n / 10), DigitChar(n % 10)];
    assert r[..1] == [r[0]] && r[..1][..0] == [];
    assert DigitsValue(r[..1]) == n / 10;
    r
  }

  lemma PaddedHour(n: nat)
    requires n < 24
    ensures PadStart2(IntToString(n)) == TwoDigits(n)
  {
    if n >= 10 {
      assert NatToString(n / 10) == [DigitChar(n / 10)];
    }
  }

  /** A slot written "hh:mm AM" or "hh:mm PM" becomes the date part, a space, the two-digit
      24-hour hour, the minutes and ":00". */
  lemma FormatSlot(date: string, h1: char, h2: char, m1: char, m2: char, period: string)
    requires date != ""
    requires IsDigit(h1) && IsDigit(h2) && IsDigit(m1) && IsDigit(m2)
    requires 1 <= DigitsValue([h1, h2]) <= 12
    requires period == "AM" || period == "PM"
    ensures FormatDateTime(date, [h1, h2, ':', m1, m2, ' '] + period) ==
              Some(DatePrefix(date) + " " + TwoDigits(Hour24(DigitsValue([h1, h2]), period)) + ":" + [m1, m2] + ":00")
  {
    var minutesPart := [m1, m2, ' '] + period;
    var time := [h1, h2, ':', m1, m2, ' '] + period;
    assert time == [h1, h2, ':'] + minutesPart;
    SplitSlot(h1, h2, minutesPart);
    SlotParts(m1, m2, period);
    ParseTwoDigits(h1, h2);
    PaddedHour(Hour24(DigitsValue([h1, h2]), period));
  }

  lemma SplitSlot(h1: char, h2: char, minutesPart: string)
    requires h1 != ':' && h2 != ':' && ':' !in minutesPart
    ensures Split([h1, h2, ':'] + minutesPart, ':') == [[h1, h2], minutesPart]
  {
    var time := [h1, h2, ':'] + minutesPart;
    SplitAt(time, 2, ':');
    assert time[..2] == [h1, h2] && time[3..] == minutesPart;
    NoSeparator(minutesPart, ':');
  }

  lemma SlotParts(m1: char, m2: char, period: string)
    requires period == "AM" || period == "PM"
    ensures MinutesOf([m1, m2, ' '] + period) == [m1, m2]
    ensures PeriodOf([m1, m2, ' '] + period) == period
  {
    var minutesPart := [m1, m2, ' '] + period;
    assert minutesPart[..2] == [m1, m2];
    assert minutesPart[|minutesPart| - 2..] == period;
    assert TrimStart(period) == period;
    assert TrimEnd(period) == period;
  }

  lemma ParseTwoDigits(h1: char, h2: char)
    requires IsDigit(h1) && IsDigit(h2)
    ensures ParseInt([h1, h2]) == Some(DigitsValue([h1, h2]) as int)
  {
    assert TrimStart([h1, h2]) == [h1, h2];
    assert LeadingDigits([h2]) == [h2];
    assert LeadingDigits([h1, h2]) == [h1, h2];
  }

  /** The component: its fields are the wizard's state. Prices, HTTP payloads, the
      payment redirect and the status polling are outside this class. */
  class ServiceDetailComponent {
    var currentStep: int
    var selectedVehicleCode: string
    var allServices: seq<ServiceRate>
    var filteredServices: seq<ServiceRate>
    var selectedServices: seq<int>
    var appointmentDate: string
    var appointmentTime: string
    var availableSlots: seq<string>
    var bookedSlots: map<string, seq<string>>
    var allSlots: seq<string>
    var referenceID: string
    var paymentId: int
    var checkoutUrl: string
    var isCheckingPayment: bool

    /** The selected ids form a set. */
    ghost predicate Valid()
      reads this
    {
      NoDuplicates(selectedServices)
    }

    constructor ()
      ensures Valid()
      ensures currentStep == 1 && selectedVehicleCode == "" && allServices == [] && filteredServices == []
      ensures selectedServices == [] && appointmentDate == "" && appointmentTime == "" && availableSlots == []
      ensures bookedSlots == DemoBookedSlots && allSlots == DaySlots
      ensures referenceID == "" && paymentId == 0 && checkoutUrl == "" && !isCheckingPayment
    {
      currentStep := 1;
      selectedVehicleCode := "";
      allServices := [];
      filteredServices := [];
      selectedServices := [];
      appointmentDate := "";
      appointmentTime := "";
      availableSlots := [];
      bookedSlots := DemoBookedSlots;
      allSlots := DaySlots;
      referenceID := "";
      paymentId := 0;
      checkoutUrl := "";
      isCheckingPayment := false;
    }

    // ---- Wizard navigation ----

    method GoToStep(step: int)
      modifies this`currentStep
      ensures currentStep == step
    {
      currentStep := step;
    }

    method NextStep()
      modifies this`currentStep
      ensures currentStep == if old(currentStep) < |Steps| then old(currentStep) + 1 else old(currentStep)
      ensures currentStep <= |Steps| || currentStep == old(currentStep)
      ensures 1 <= old(currentStep) <= |Steps| ==> 1 <= currentStep <= |Steps|
    {
      if currentStep < |Steps| {
        currentStep := currentStep + 1;
      }
    }

    method PrevStep()
      modifies this`currentStep
      ensures currentStep == if old(currentStep) > 1 then old(currentStep) - 1 else old(currentStep)
      ensures currentStep >= 1 || currentStep == old(currentStep)
      ensures 1 <= old(currentStep) <= |Steps| ==> 1 <= currentStep <= |Steps|
    {
      if currentStep > 1 {
        currentStep := currentStep - 1;
      }
    }

    // ---- Vehicle and service selection ----

    method LoadServices(data: seq<ServiceRate>)
      modifies this`allServices, this`filteredServices
      ensures allServices == data
      ensures filteredServices == BySize(data, selectedVehicleCode)
    {
      allServices := data;
      FilterServices();
    }

    method SelectVehicle(code: string)
      modifies this`selectedVehicleCode, this`filteredServices
      ensures selectedVehicleCode == code
      ensures filteredServices == BySize(allServices, code)
    {
      selectedVehicleCode := code;
      FilterServices();
    }

    method FilterServices()
      modifies this`filteredServices
      ensures filteredServices == BySize(allServices, selectedVehicleCode)
    {
      filteredServices := BySize(allServices, selectedVehicleCode);
    }

    method ToggleService(service: ServiceRate)
      requires Valid()
      modifies this`selectedServices
      ensures Valid()
      ensures selectedServices == Toggled(old(selectedServices), service.serviceRateID)
      ensures IsSelected(service) == !old(IsSelected(service))
      ensures forall id :: id != service.serviceRateID ==> (id in selectedServices <==> id in old(selectedServices))
    {
      ToggledFlipsOnlyThatId(selectedServices, service.serviceRateID);
      if service.serviceRateID in selectedServices {
        selectedServices := Filter(selectedServices, (x: int) => x != service.serviceRateID);
      } else {
        selectedServices := selectedServices + [service.serviceRateID];
      }
    }

    predicate IsSelected(service: ServiceRate): (b: bool)
      reads this
      ensures b <==> multiset(selectedServices)[service.serviceRateID] > 0
      ensures NoDuplicates(selectedServices) ==> (b <==> multiset(selectedServices)[service.serviceRateID] == 1)
    {
      OccursOnce(selectedServices, service.serviceRateID);
      service.serviceRateID in selectedServices
    }

    /** `calculateTotal()`. */
    function CalculateTotal(): (r: int)
      reads this
      ensures (forall s :: s in allServices ==> s.price >= 0) ==> r >= 0
      ensures selectedServices == [] ==> r == 0
    {
      Total(selectedServices, allServices)
    }

    /** `getServiceNameById(id)`: the type name of the first rate with that id, or "". */
    function GetServiceNameById(id: int): (name: string)
      reads this
      ensures (forall s :: s in allServices ==> s.serviceRateID != id) ==> name == ""
      ensures forall k :: 0 <= k < |allServices| && allServices[k].serviceRateID == id &&
                          (forall j :: 0 <= j < k ==> allServices[j].serviceRateID != id) ==>
                            name == allServices[k].serviceTypeName
    {
      match FindById(allServices, id)
      case Some(s) => s.serviceTypeName
      case None => ""
    }

    // ---- Scheduling ----

    method FetchAvailableSlots()
      modifies this`availableSlots, this`appointmentTime
      ensures appointmentDate == "" ==> availableSlots == [] && appointmentTime == old(appointmentTime)
      ensures appointmentDate != "" ==>
                availableSlots == SlotsLeft(allSlots, BookedOn(bookedSlots, appointmentDate)) &&
                appointmentTime == if old(appointmentTime) in availableSlots then old(appointmentTime) else ""
      ensures appointmentDate != "" ==> appointmentTime == "" || appointmentTime in availableSlots
    {
      if appointmentDate == "" {
        availableSlots := [];
        return;
      }
      var booked := BookedOn(bookedSlots, appointmentDate);
      availableSlots := SlotsLeft(allSlots, booked);
      if appointmentTime !in availableSlots {
        appointmentTime := "";
      }
    }

    method SelectTime(time: string)
      modifies this`appointmentTime
      ensures appointmentTime == time
    {
      appointmentTime := time;
    }

    // ---- Payment outcome and reset ----

    method HandlePaymentSuccess()
      modifies this`isCheckingPayment, this`currentStep
      ensures !isCheckingPayment && currentStep == |Steps|
    {
      isCheckingPayment := false;
      currentStep := |Steps|;
    }

    method HandlePaymentCancel()
      modifies this`isCheckingPayment
      ensures !isCheckingPayment
    {
      isCheckingPayment := false;
    }

    method FinishBooking()
      modifies this`currentStep, this`selectedServices, this`appointmentDate, this`appointmentTime
      modifies this`checkoutUrl, this`paymentId, this`referenceID
      ensures Valid()
      ensures currentStep == 1 && selectedServices == [] && appointmentDate == "" && appointmentTime == ""
      ensures checkoutUrl == "" && paymentId == 0 && referenceID == ""
    {
      currentStep := 1;
      selectedServices := [];
      appointmentDate := "";
      appointmentTime := "";
      checkoutUrl := "";
      paymentId := 0;
      referenceID := "";
    }
  }
}
