/** The admin appointment browser (`AppointmentListComponent`): the distinct customers of
    the loaded appointments, a search over them, and each customer's appointments. */
module AppointmentList {
  import opened Wrappers
  import opened Seqs
  import opened Sorting
  import opened Strings

  datatype Customer = Customer(name: string, email: string)

  /** An appointment as this page reads it; `dateTime` is `None` when it does not parse. */
  datatype ListedAppointment = ListedAppointment(
    customer: Customer,
    serviceTypeName: string,
    vehicleSize: string,
    price: int,
    dateTime: Option<int>,
    status: string,
    notes: string)

  /** Some customer in `cs` has this email (`acc.find(c => c.email === email)`). */
  predicate HasEmail(cs: seq<Customer>, email: string) {
    exists c :: c in cs && c.email == email
  }

  /** The `customers` getter: `reduce` over the appointments, pushing a customer whose
      email the accumulator does not hold yet. */
  function UniqueCustomers(appointments: seq<ListedAppointment>): (r: seq<Customer>)
    ensures |r| <= |appointments|
    ensures forall c :: c in r ==> exists a :: a in appointments && a.customer == c
    decreases |appointments|
  {
    if appointments == [] then []
    else
      var acc := UniqueCustomers(appointments[..|appointments| - 1]);
      var c := appointments[|appointments| - 1].customer;
      if HasEmail(acc, c.email) then acc else acc + [Customer(c.name, c.email)]
  }

  function CustomersOf(appointments: seq<ListedAppointment>): seq<Customer> {
    Map(appointments, (a: ListedAppointment) => a.customer)
  }

  /** No email occurs twice. */
  ghost predicate DistinctEmails(cs: seq<Customer>) {
    forall i, j :: 0 <= i < j < |cs| ==> cs[i].email != cs[j].email
  }

  /** `c` is the customer of the first appointment booked with its email. */
  ghost predicate FirstWithEmail(c: Customer, appointments: seq<ListedAppointment>) {
    exists k :: 0 <= k < |appointments| && appointments[k].customer == c &&
      forall j :: 0 <= j < k ==> appointments[j].customer.email != c.email
  }

  /** The distinct customers are an ordered selection of the appointments' customers. */
  lemma {:induction false} UniqueCustomersSelects(appointments: seq<ListedAppointment>)
    ensures IsSubseq(UniqueCustomers(appointments), CustomersOf(appointments))
    decreases |appointments|
  {
    if appointments != [] {
      var n := |appointments|;
      var front := appointments[..n - 1];
      var last := appointments[n - 1];
      UniqueCustomersSelects(front);
      assert appointments == front + [last];
      assert CustomersOf(appointments) == CustomersOf(front) + [last.customer];
      var acc := UniqueCustomers(front);
      if HasEmail(acc, last.customer.email) {
        IsSubseqSnocRight(acc, CustomersOf(front), last.customer);
      } else {
        IsSubseqSnoc(acc, CustomersOf(front), last.customer);
      }
    }
  }

  /** No email is listed twice. */
  lemma {:induction false} UniqueCustomersDistinct(appointments: seq<ListedAppointment>)
    ensures DistinctEmails(UniqueCustomers(appointments))
    decreases |appointments|
  {
    if appointments != [] {
      var n := |appointments|;
      var front := appointments[..n - 1];
      var last := appointments[n - 1];
      UniqueCustomersDistinct(front);
      var acc := UniqueCustomers(front);
      var r := UniqueCustomers(appointments);
      if !HasEmail(acc, last.customer.email) {
        forall i, j | 0 <= i < j < |r| ensures r[i].email != r[j].email {
          if j == |r| - 1 {
            assert r[i] == acc[i];
            assert acc[i] in acc;
          } else {
            assert r[i] == acc[i] && r[j] == acc[j];
          }
        }
      }
    }
  }

  /** Every appointment's email is listed. */
  lemma {:induction false} UniqueCustomersCover(appointments: seq<ListedAppointment>)
    ensures forall a :: a in appointments ==> HasEmail(UniqueCustomers(appointments), a.customer.email)
    decreases |appointments|
  {
    if appointments != [] {
      var n := |appointments|;
      var front := appointments[..n - 1];
      var last := appointments[n - 1];
      UniqueCustomersCover(front);
      assert appointments == front + [last];
      var acc := UniqueCustomers(front);
      var r := UniqueCustomers(appointments);
      forall a | a in appointments ensures HasEmail(r, a.customer.email) {
        if a in front {
          var c :| c in acc && c.email == a.customer.email;
          assert c in r;
        } else if !HasEmail(acc, last.customer.email) {
          assert r[|r| - 1] in r;
        }
      }
    }
  }

  /** Each listed customer is the one from the first appointment with that email. */
  lemma {:induction false} UniqueCustomersFirst(appointments: seq<ListedAppointment>)
    ensures forall c :: c in UniqueCustomers(appointments) ==> FirstWithEmail(c, appointments)
    decreases |appointments|
  {
    if appointments != [] {
      var n := |appointments|;
      var front := appointments[..n - 1];
      var last := appointments[n - 1];
      UniqueCustomersFirst(front);
      var acc := UniqueCustomers(front);
      var r := UniqueCustomers(appointments);
      forall c | c in r ensures FirstWithEmail(c, appointments) {
        if c in acc {
          assert FirstWithEmail(c, front);
          var k :| 0 <= k < n - 1 && front[k].customer == c &&
            forall j :: 0 <= j < k ==> front[j].customer.email != c.email;
          assert appointments[k] == front[k];
          assert forall j :: 0 <= j < k ==> appointments[j] == front[j];
        } else {
          assert c == last.customer;
          UniqueCustomersCover(front);
          forall j | 0 <= j < n - 1 ensures appointments[j].customer.email != c.email {
            assert appointments[j] == front[j] && front[j] in front;
          }
          assert appointments[n - 1].customer == c;
        }
      }
    }
  }

  /** `a => a.customer.email === email`. */
  function EmailIs(email: string): ListedAppointment -> bool {
    (a: ListedAppointment) => a.customer.email == email
  }

  /** The position of the first appointment booked with `email`, or `|appointments|`. */
  function EmailRank(appointments: seq<ListedAppointment>, email: string): nat {
    match FirstIndex(appointments, EmailIs(email))
    case Some(k) => k
    case None => |appointments|
  }

  /** Each customer's email occurs in `appointments`, and the customers follow the
      order in which their emails first occur. */
  ghost predicate ListedInFirstOrder(cs: seq<Customer>, appointments: seq<ListedAppointment>) {
    (forall i :: 0 <= i < |cs| ==> EmailRank(appointments, cs[i].email) < |appointments|) &&
    forall i, j :: 0 <= i < j < |cs| ==> EmailRank(appointments, cs[i].email) < EmailRank(appointments, cs[j].email)
  }

  /** The customers are listed in the order their emails first appear. */
  lemma {:induction false} UniqueCustomersInFirstAppearanceOrder(appointments: seq<ListedAppointment>)
    ensures ListedInFirstOrder(UniqueCustomers(appointments), appointments)
    decreases |appointments|
  {
    if appointments != [] {
      var n := |appointments|;
      var front := appointments[..n - 1];
      var last := appointments[n - 1];
      assert appointments == front + [last];
      UniqueCustomersInFirstAppearanceOrder(front);
      var acc := UniqueCustomers(front);
      RanksKept(acc, front, last);
      if !HasEmail(acc, last.customer.email) {
        UniqueCustomersCover(front);
        NewEmailLast(acc, front, last);
      }
    }
  }

  /** Appending an appointment changes no rank of an email already present. */
  lemma RanksKept(cs: seq<Customer>, front: seq<ListedAppointment>, last: ListedAppointment)
    requires ListedInFirstOrder(cs, front)
    ensures ListedInFirstOrder(cs, front + [last])
  {
    forall i | 0 <= i < |cs|
      ensures EmailRank(front + [last], cs[i].email) == EmailRank(front, cs[i].email)
    {
      FirstIndexSnoc(front, last, EmailIs(cs[i].email));
    }
  }

  /** An email met for the first time at the end ranks after every listed one. */
  lemma NewEmailLast(cs: seq<Customer>, front: seq<ListedAppointment>, last: ListedAppointment)
    requires ListedInFirstOrder(cs, front + [last])
    requires forall i :: 0 <= i < |cs| ==> EmailRank(front, cs[i].email) < |front|
    requires forall a :: a in front ==> a.customer.email != last.customer.email
    ensures ListedInFirstOrder(cs + [Customer(last.customer.name, last.customer.email)], front + [last])
  {
    var e := last.customer.email;
    FirstIndexSnoc(front, last, EmailIs(e));
    assert EmailRank(front + [last], e) == |front|;
    forall i | 0 <= i < |cs| ensures EmailRank(front + [last], cs[i].email) < |front| {
      FirstIndexSnoc(front, last, EmailIs(cs[i].email));
    }
    var r := cs + [Customer(last.customer.name, e)];
    assert forall i :: 0 <= i < |cs| ==> r[i] == cs[i];
  }

  /** `getAppointmentCount(email)`. */
  function AppointmentCount(appointments: seq<ListedAppointment>, email: string): (r: nat)
    ensures r <= |appointments|
    ensures r > 0 <==> exists k :: 0 <= k < |appointments| && appointments[k].customer.email == email
  {
    var mine := Filter(appointments, (a: ListedAppointment) => a.customer.email == email);
    assert |mine| > 0 ==> mine[0] in mine;
    assert forall k :: 0 <= k < |appointments| ==> appointments[k] in appointments;
    |mine|
  }

  /** `getCustomerAppointments(email)`: that customer's appointments, newest first. */
  function CustomerAppointments(appointments: seq<ListedAppointment>, email: string): (r: seq<ListedAppointment>)
    ensures multiset(r) == multiset(Filter(appointments, (a: ListedAppointment) => a.customer.email == email))
    ensures forall a :: a in r <==> a in appointments && a.customer.email == email
    ensures |r| == AppointmentCount(appointments, email)
    ensures AllKeyed(r, AppointmentDate) ==> Ordered(r, AppointmentDate, true)
  {
    var mine := Filter(appointments, (a: ListedAppointment) => a.customer.email == email);
    SortedCopy(mine);
    SortBy(mine, AppointmentDate, true)
  }

  lemma SortedCopy(mine: seq<ListedAppointment>)
    ensures forall a :: a in SortBy(mine, AppointmentDate, true) <==> a in mine
    ensures AllKeyed(SortBy(mine, AppointmentDate, true), AppointmentDate) ==>
              Ordered(SortBy(mine, AppointmentDate, true), AppointmentDate, true)
  {
    var r := SortBy(mine, AppointmentDate, true);
    forall a ensures a in r <==> a in mine {
      assert a in r <==> a in multiset(r);
      assert a in mine <==> a in multiset(mine);
    }
    if AllKeyed(r, AppointmentDate) {
      assert AllKeyed(mine, AppointmentDate);
      SortByOrdered(mine, AppointmentDate, true);
    }
  }

  function AppointmentDate(a: ListedAppointment): Option<int> {
    a.dateTime
  }

  /** The counts shown next to each customer, summed over the list of customers. */
  function CountsTotal(customers: seq<Customer>, appointments: seq<ListedAppointment>): nat
    decreases |customers|
  {
    if customers == [] then 0
    else AppointmentCount(appointments, customers[0].email) + CountsTotal(customers[1..], appointments)
  }

  /** The per-customer counts add up to the number of appointments: every appointment is
      counted under exactly one listed customer. */
  lemma {:induction false} CountsAddUp(appointments: seq<ListedAppointment>)
    ensures CountsTotal(UniqueCustomers(appointments), appointments) == |appointments|
    decreases |appointments|
  {
    if appointments != [] {
      var n := |appointments|;
      var front := appointments[..n - 1];
      var last := appointments[n - 1];
      assert appointments == front + [last];
      CountsAddUp(front);
      UniqueCustomersDistinct(front);
      UniqueCustomersCover(front);
      var acc := UniqueCustomers(front);
      var r := UniqueCustomers(appointments);
      CountsAfterAppend(acc, front, last);
      var same := (c: Customer) => c.email == last.customer.email;
      FilterAtMostOne(acc, same);
      if HasEmail(acc, last.customer.email) {
        var c :| c in acc && c.email == last.customer.email;
        assert c in Filter(acc, same);
      } else {
        FilterNone(acc, same);
        CountsTotalSnoc(acc, Customer(last.customer.name, last.customer.email), appointments);
        CountOfAppend(front, last, last.customer.email);
        NoCountOfAbsent(front, last.customer.email, acc);
      }
    }
  }

  /** An email no listed customer has was never booked in those appointments. */
  lemma NoCountOfAbsent(appointments: seq<ListedAppointment>, email: string, customers: seq<Customer>)
    requires forall a :: a in appointments ==> HasEmail(customers, a.customer.email)
    requires !HasEmail(customers, email)
    ensures AppointmentCount(appointments, email) == 0
  {
    var p := (a: ListedAppointment) => a.customer.email == email;
    forall k | 0 <= k < |appointments| ensures !p(appointments[k]) {
      assert appointments[k] in appointments;
    }
    FilterNone(appointments, p);
  }

  lemma CountOfAppend(appointments: seq<ListedAppointment>, a: ListedAppointment, email: string)
    ensures AppointmentCount(appointments + [a], email) ==
              AppointmentCount(appointments, email) + (if a.customer.email == email then 1 else 0)
  {
    FilterConcat(appointments, [a], (x: ListedAppointment) => x.customer.email == email);
  }

  /** One more appointment adds one to the count of each customer with its email. */
  lemma {:induction false} CountsAfterAppend(customers: seq<Customer>, appointments: seq<ListedAppointment>, a: ListedAppointment)
    ensures CountsTotal(customers, appointments + [a]) ==
              CountsTotal(customers, appointments) + |Filter(customers, (c: Customer) => c.email == a.customer.email)|
    decreases |customers|
  {
    if customers != [] {
      CountsAfterAppend(customers[1..], appointments, a);
      CountOfAppend(appointments, a, customers[0].email);
    }
  }

  lemma {:induction false} CountsTotalSnoc(customers: seq<Customer>, c: Customer, appointments: seq<ListedAppointment>)
    ensures CountsTotal(customers + [c], appointments) == CountsTotal(customers, appointments) + AppointmentCount(appointments, c.email)
    decreases |customers|
  {
    if customers == [] {
      assert [] + [c] == [c];
    } else {
      assert (customers + [c])[1..] == customers[1..] + [c];
      CountsTotalSnoc(customers[1..], c, appointments);
    }
  }

  /** The search: an empty term keeps everyone; otherwise the customers whose lower-cased
      name or email contains the term. */
  function MatchingCustomers(customers: seq<Customer>, term: string): (r: seq<Customer>)
    ensures term == "" ==> r == customers
    ensures term != "" ==> forall c :: c in r <==> c in customers && (Contains(Lower(c.name), term) || Contains(Lower(c.email), term))
    ensures IsSubseq(r, customers)
  {
    if term == "" then (IsSubseqRefl(customers); customers)
    else
      var p := (c: Customer) => Contains(Lower(c.name), term) || Contains(Lower(c.email), term);
      FilterIsSubseq(customers, p);
      Filter(customers, p)
  }

  /** Each word's first character, `words.map(w => w.charAt(0)).join('')`. */
  function FirstLetters(words: seq<string>): (r: string)
    ensures |r| <= |words|
    decreases |words|
  {
    if words == [] then ""
    else (if words[0] == "" then "" else [words[0][0]]) + FirstLetters(words[1..])
  }

  /** `getInitials(name)`. */
  function Initials(name: string): (r: string)
    ensures |r| <= 2
    ensures forall i :: 0 <= i < |r| ==> !IsLower(r[i])
    ensures r <= Upper(FirstLetters(Split(name, ' ')))
  {
    Take(Upper(FirstLetters(Split(name, ' '))), 2)
  }

  /** Two words separated by a space give the upper-cased first letters of both. */
  lemma InitialsOfTwoWords(first: string, second: string, rest: string)
    requires first != "" && second != "" && ' ' !in first && ' ' !in second
    requires rest == "" || rest[0] == ' '
    ensures Initials(first + " " + second + rest) == [UpperChar(first[0]), UpperChar(second[0])]
  {
    var name := first + " " + second + rest;
    assert name[..|first|] == first;
    assert name[|first|] == ' ';
    SplitAt(name, |first|, ' ');
    var tail := name[|first| + 1..];
    assert tail == second + rest;
    var words := Split(name, ' ');
    assert words == [first] + Split(tail, ' ');
    if rest == "" {
      assert tail == second;
      NoSeparator(tail, ' ');
    } else {
      assert tail[..|second|] == second;
      assert tail[|second|] == ' ';
      SplitAt(tail, |second|, ' ');
    }
    assert Split(tail, ' ')[0] == second;
    assert words[0] == first && words[1..][0] == second;
    var letters := FirstLetters(words);
    assert letters == [first[0]] + FirstLetters(words[1..]);
    assert FirstLetters(words[1..]) == [second[0]] + FirstLetters(words[1..][1..]);
    assert letters[..2] == [first[0], second[0]];
  }

  class AppointmentListComponent {
    var appointments: seq<ListedAppointment>
    var selectedCustomer: Option<Customer>
    var searchTerm: string
    var filteredCustomers: seq<Customer>

    constructor ()
      ensures appointments == [] && selectedCustomer == None && searchTerm == "" && filteredCustomers == []
    {
      appointments := [];
      selectedCustomer := None;
      searchTerm := "";
      filteredCustomers := [];
    }

    /** The `customers` getter, accumulating as the source's `reduce` does. */
    method Customers() returns (acc: seq<Customer>)
      ensures acc == UniqueCustomers(appointments)
    {
      acc := [];
      var i := 0;
      while i < |appointments|
        invariant 0 <= i <= |appointments|
        invariant acc == UniqueCustomers(appointments[..i])
      {
        var appointment := appointments[i];
        assert appointments[..i + 1][..i] == appointments[..i];
        var existing := false;
        var j := 0;
        while j < |acc|
          invariant 0 <= j <= |acc|
          invariant existing <==> exists k :: 0 <= k < j && acc[k].email == appointment.customer.email
        {
          if acc[j].email == appointment.customer.email {
            existing := true;
          }
          j := j + 1;
        }
        if !existing {
          acc := acc + [Customer(appointment.customer.name, appointment.customer.email)];
        }
        i := i + 1;
      }
      assert appointments[..i] == appointments;
    }

    /** The `next` handler of `loadAppointments()`, then `loadCustomers()`. */
    method LoadAppointments(data: seq<ListedAppointment>)
      modifies this`appointments, this`filteredCustomers
      ensures appointments == data && filteredCustomers == UniqueCustomers(data)
    {
      appointments := data;
      LoadCustomers();
    }

    method LoadCustomers()
      modifies this`filteredCustomers
      ensures filteredCustomers == UniqueCustomers(appointments)
    {
      filteredCustomers := Customers();
    }

    /** `filterCustomers(event)` with the input's value. */
    method FilterCustomers(value: string)
      modifies this`filteredCustomers
      ensures filteredCustomers == MatchingCustomers(UniqueCustomers(appointments), Lower(value))
    {
      var term := Lower(value);
      var customers := Customers();
      if term == "" {
        filteredCustomers := customers;
      } else {
        filteredCustomers := MatchingCustomers(customers, term);
      }
    }

    method SelectCustomer(customer: Customer)
      modifies this`selectedCustomer
      ensures selectedCustomer == Some(customer) && appointments == old(appointments)
    {
      selectedCustomer := Some(customer);
    }

    method GoBack()
      modifies this`selectedCustomer
      ensures selectedCustomer == None && appointments == old(appointments)
    {
      selectedCustomer := None;
    }
  }
}
