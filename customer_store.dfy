/** The admin side's customer service (`CustomerService`): the normalisation of the
    `/customers` responses, the cached customer list it keeps in step with creates,
    updates and deletes, the weekly statistic, and its HTTP error messages. */
module CustomerStore {
  import opened Wrappers
  import opened Seqs
  import opened Strings

  const Day: int := 86_400_000

  /** A customer record; `createdAt` is `None` when missing or not a date. */
  datatype Customer = Customer(id: int, name: string, email: string, phone: string, createdAt: Option<int>)

  /** A numeric field of a response object: `None` when absent. */
  type NumberField = Option<int>

  /** What `response.data` holds. */
  datatype DataField = DataArray(items: seq<Customer>) | NoDataArray

  /** The shapes of body the service tells apart: a JSON array, a JSON object (with the
      customer it would be read as), or anything else (null, a string, a number ...). */
  datatype Body =
    | ArrayBody(items: seq<Customer>)
    | ObjectBody(data: DataField, total: NumberField, page: NumberField, limit: NumberField, asCustomer: Customer)
    | OtherBody

  datatype CustomersResponse = CustomersResponse(data: seq<Customer>, total: int, page: int, limit: int)

  /** `field || fallback` on a number: absent and 0 are falsy. */
  function OrElse(field: NumberField, fallback: int): (r: int)
    ensures field.Some? && field.value != 0 ==> r == field.value
    ensures field.None? || field.value == 0 ==> r == fallback
  {
    if field.Some? && field.value != 0 then field.value else fallback
  }

  /** The `map` step of `getCustomers(page, limit)`. */
  function Normalise(body: Body, page: int, limit: int): (r: CustomersResponse)
    ensures body.ArrayBody? ==> r == CustomersResponse(body.items, |body.items|, page, limit)
    ensures body.ObjectBody? && body.data.DataArray? ==>
              r.data == body.data.items && r.total == OrElse(body.total, |body.data.items|) &&
              r.page == OrElse(body.page, page) && r.limit == OrElse(body.limit, limit)
    ensures body.ObjectBody? && body.data.NoDataArray? ==> r == CustomersResponse([body.asCustomer], 1, page, limit)
    ensures body.OtherBody? ==> r == CustomersResponse([], 0, page, limit)
  {
    match body
    case ArrayBody(items) => CustomersResponse(items, |items|, page, limit)
    case ObjectBody(data, total, p, l, c) =>
      if data.DataArray? then
        CustomersResponse(data.items, OrElse(total, |data.items|), OrElse(p, page), OrElse(l, limit))
      else CustomersResponse([c], 1, page, limit)
    case OtherBody => CustomersResponse([], 0, page, limit)
  }

  /** The normalised response sent back as a `{data, total, page, limit}` object. */
  function Rewrap(r: CustomersResponse, c: Customer): Body {
    ObjectBody(DataArray(r.data), Some(r.total), Some(r.page), Some(r.limit), c)
  }

  /** Normalising is idempotent: a normalised response, read again with the same
      arguments, gives itself back. */
  lemma NormaliseIdempotent(body: Body, page: int, limit: int, c: Customer)
    ensures Normalise(Rewrap(Normalise(body, page, limit), c), page, limit) == Normalise(body, page, limit)
  {
  }

  /** The total is the length of the list unless a non-zero total came with it. */
  lemma NormaliseTotal(body: Body, page: int, limit: int)
    ensures var r := Normalise(body, page, limit);
      r.total == |r.data| ||
      (body.ObjectBody? && body.data.DataArray? && body.total.Some? && body.total.value != 0 && r.total == body.total.value)
  {
  }

  datatype CustomerStats = CustomerStats(totalCustomers: int, newCustomersThisWeek: nat)

  /** Created within `[weekAgo, now]`: missing dates do not count. */
  predicate CreatedBetween(c: Customer, weekAgo: int, now: int) {
    c.createdAt.Some? && weekAgo <= c.createdAt.value <= now
  }

  /** The `newCustomersThisWeek` filter of `getCustomerStats()`. */
  function NewCustomersThisWeek(customers: seq<Customer>, now: int): (r: nat)
    ensures r <= |customers|
    ensures r == |Filter(customers, (c: Customer) => CreatedBetween(c, now - 7 * Day, now))|
  {
    |Filter(customers, (c: Customer) => CreatedBetween(c, now - 7 * Day, now))|
  }

  /** Exactly the customers created in the last seven days are counted, and a customer
      with no creation date never is. */
  lemma NewCustomersAreRecent(customers: seq<Customer>, now: int)
    ensures var counted := Filter(customers, (c: Customer) => CreatedBetween(c, now - 7 * Day, now));
      (forall c :: c in counted <==> c in customers && c.createdAt.Some? && now - 7 * Day <= c.createdAt.value <= now) &&
      ((forall c :: c in customers ==> c.createdAt.None?) ==> NewCustomersThisWeek(customers, now) == 0)
  {
    var p := (c: Customer) => CreatedBetween(c, now - 7 * Day, now);
    if forall c :: c in customers ==> c.createdAt.None? {
      forall k | 0 <= k < |customers| ensures !p(customers[k]) {
        assert customers[k] in customers;
      }
      FilterNone(customers, p);
    }
  }

  /** The `map` step of `getCustomerStats()`; unlike `getCustomers`, an object without a
      `data` array counts as no customers. */
  function Stats(body: Body, now: int): (r: CustomerStats)
    ensures body.ArrayBody? ==> r.totalCustomers == |body.items|
    ensures body.ObjectBody? && body.data.DataArray? ==> r.totalCustomers == OrElse(body.total, |body.data.items|)
    ensures !body.ArrayBody? && !(body.ObjectBody? && body.data.DataArray?) ==> r == CustomerStats(0, 0)
    ensures r.newCustomersThisWeek == NewCustomersThisWeek(CustomerList(body), now)
    ensures r.newCustomersThisWeek <= |CustomerList(body)|
  {
    var customers := CustomerList(body);
    var total := match body
      case ArrayBody(items) => |items|
      case ObjectBody(data, t, _, _, _) => if data.DataArray? then OrElse(t, |data.items|) else 0
      case OtherBody => 0;
    CustomerStats(total, NewCustomersThisWeek(customers, now))
  }

  /** The customers `getCustomerStats()` reads out of a body. */
  function CustomerList(body: Body): (r: seq<Customer>)
    ensures body.ArrayBody? || (body.ObjectBody? && body.data.DataArray?) ==>
              forall page, limit :: r == Normalise(body, page, limit).data
    ensures body.OtherBody? || (body.ObjectBody? && body.data.NoDataArray?) ==> r == []
  {
    match body
    case ArrayBody(items) => items
    case ObjectBody(data, _, _, _, _) => if data.DataArray? then data.items else []
    case OtherBody => []
  }

  // ---- `handleError` ----

  datatype HttpError = ClientError(message: string) | ServerError(status: int, message: string)

  const BadRequestMessage: string := "Bad Request: Invalid data provided"
  const UnauthorizedMessage: string := "Unauthorized: Please log in again"
  const ForbiddenMessage: string := "Forbidden: You do not have permission"
  const NotFoundMessage: string := "Not Found: Customer not found"
  const InternalErrorMessage: string := "Internal Server Error: " + "Please try again later"

  predicate HasFixedMessage(status: int) {
    status == 400 || status == 401 || status == 403 || status == 404 || status == 500
  }

  /** The message `handleError` wraps in the error it rethrows. */
  function ErrorMessage(error: HttpError): (r: string)
    ensures error.ClientError? ==> r == "Client Error: " + error.message
    ensures error.ServerError? && error.status == 400 ==> r == BadRequestMessage
    ensures error.ServerError? && error.status == 401 ==> r == UnauthorizedMessage
    ensures error.ServerError? && error.status == 403 ==> r == ForbiddenMessage
    ensures error.ServerError? && error.status == 404 ==> r == NotFoundMessage
    ensures error.ServerError? && error.status == 500 ==> r == InternalErrorMessage
    ensures error.ServerError? && !HasFixedMessage(error.status) ==>
              r == "Server Error: " + IntToString(error.status) + " - " + error.message
  {
    match error
    case ClientError(m) => "Client Error: " + m
    case ServerError(status, m) =>
      if status == 400 then BadRequestMessage
      else if status == 401 then UnauthorizedMessage
      else if status == 403 then ForbiddenMessage
      else if status == 404 then NotFoundMessage
      else if status == 500 then InternalErrorMessage
      else "Server Error: " + IntToString(status) + " - " + m
  }

  /** The five fixed statuses get five different messages. */
  lemma FixedMessagesDistinct(s: int, t: int, m: string, n: string)
    requires HasFixedMessage(s) && HasFixedMessage(t) && s != t
    ensures ErrorMessage(ServerError(s, m)) != ErrorMessage(ServerError(t, n))
  {
    FixedMessageInitial(s, m);
    FixedMessageInitial(t, n);
  }

  /** The fixed messages start with five different letters. */
  lemma FixedMessageInitial(s: int, m: string)
    requires HasFixedMessage(s)
    ensures |ErrorMessage(ServerError(s, m))| >= 1
    ensures ErrorMessage(ServerError(s, m))[0] ==
              if s == 400 then 'B' else if s == 401 then 'U' else if s == 403 then 'F' else if s == 404 then 'N' else 'I'
  {
    assert BadRequestMessage[0] == 'B';
    assert UnauthorizedMessage[0] == 'U';
    assert ForbiddenMessage[0] == 'F';
    assert NotFoundMessage[0] == 'N';
    assert InternalErrorMessage[0] == 'I';
  }

  /** Any other status yields a message from which the status and the server's message can
      be read back. */
  lemma ServerMessageInjective(s: int, t: int, m: string, n: string)
    requires !HasFixedMessage(s) && !HasFixedMessage(t)
    requires ErrorMessage(ServerError(s, m)) == ErrorMessage(ServerError(t, n))
    ensures s == t && m == n
  {
    var a := IntToString(s) + " - " + m;
    var b := IntToString(t) + " - " + n;
    ServerMessageShape(s, m);
    ServerMessageShape(t, n);
    DropPrefix("Server Error: ", a, b);
    StatusBeforeSpace(IntToString(s), m);
    StatusBeforeSpace(IntToString(t), n);
    IntToStringInjective(s, t);
    DropPrefix(IntToString(s) + " - ", m, n);
  }

  lemma ServerMessageShape(s: int, m: string)
    requires !HasFixedMessage(s)
    ensures ErrorMessage(ServerError(s, m)) == "Server Error: " + (IntToString(s) + " - " + m)
  {
    assert "Server Error: " + IntToString(s) + " - " + m == "Server Error: " + (IntToString(s) + " - " + m);
  }

  lemma DropPrefix(p: string, a: string, b: string)
    requires p + a == p + b
    ensures a == b
  {
    assert a == (p + a)[|p|..];
    assert b == (p + b)[|p|..];
  }

  /** The rendered status is the text before the first space. */
  lemma StatusBeforeSpace(status: string, message: string)
    requires |status| >= 1 && forall i :: 0 <= i < |status| ==> status[i] == '-' || IsDigit(status[i])
    ensures Split(status + " - " + message, ' ')[0] == status
  {
    var x := status + " - " + message;
    assert x[..|status|] == status;
    assert x[|status|] == ' ';
    assert ' ' !in status;
    SplitAt(x, |status|, ' ');
  }

  /** A server error message never reads like one of the fixed ones. */
  lemma ServerMessageNotFixed(s: int, m: string, t: int, n: string)
    requires !HasFixedMessage(s) && HasFixedMessage(t)
    ensures ErrorMessage(ServerError(s, m)) != ErrorMessage(ServerError(t, n))
  {
    FixedMessageInitial(t, n);
    assert ErrorMessage(ServerError(s, m))[0] == 'S';
  }

  /** The service's state: the value of `customersSubject` and of `loadingSubject`. */
  class CustomerService {
    var customers: seq<Customer>
    var loading: bool

    constructor ()
      ensures customers == [] && !loading
    {
      customers := [];
      loading := false;
    }

    /** `getCustomers(page, limit)` once the body has arrived: normalise, publish the
        list and stop loading. */
    method GetCustomers(body: Body, page: int, limit: int) returns (response: CustomersResponse)
      modifies this
      ensures response == Normalise(body, page, limit)
      ensures customers == response.data && !loading
    {
      loading := true;
      response := Normalise(body, page, limit);
      customers := response.data;
      loading := false;
    }

    /** `createCustomer` once the created record has arrived. */
    method CreateCustomer(created: Customer)
      modifies this
      ensures customers == old(customers) + [created] && !loading
      ensures |customers| == |old(customers)| + 1 && customers[..|old(customers)|] == old(customers)
      ensures customers[|customers| - 1] == created
    {
      loading := true;
      customers := customers + [created];
      loading := false;
    }

    /** `updateCustomer(id, …)` once the updated record has arrived: the first cached
        entry with that id is overwritten; an unknown id leaves the list as it was. */
    method UpdateCustomer(id: int, updated: Customer)
      modifies this
      ensures customers == ReplaceFirst(old(customers), (c: Customer) => c.id == id, updated) && !loading
      ensures |customers| == |old(customers)|
      ensures (forall c :: c in old(customers) ==> c.id != id) ==> customers == old(customers)
    {
      loading := true;
      var index := FirstIndex(customers, (c: Customer) => c.id == id);
      if index.Some? {
        customers := customers[index.value := updated];
      }
      loading := false;
    }

    /** `deleteCustomer(id)` once the server has answered. */
    method DeleteCustomer(id: int)
      modifies this
      ensures customers == Filter(old(customers), (c: Customer) => c.id != id) && !loading
      ensures forall c :: c in customers <==> c in old(customers) && c.id != id
    {
      loading := true;
      customers := Filter(customers, (c: Customer) => c.id != id);
      loading := false;
    }

    method ClearCustomers()
      modifies this`customers
      ensures customers == []
    {
      customers := [];
    }

    /** `handleError`: stop loading and build the message of the rethrown error. */
    method HandleError(error: HttpError) returns (message: string)
      modifies this`loading
      ensures message == ErrorMessage(error) && !loading
    {
      loading := false;
      message := ErrorMessage(error);
    }
  }

  /** Deleting removes every entry with the id and keeps the others in their order,
      each as often as before. */
  lemma DeleteKeepsOthers(customers: seq<Customer>, id: int)
    ensures var r := Filter(customers, (c: Customer) => c.id != id);
      IsSubseq(r, customers) &&
      (forall c: Customer :: c.id != id ==> multiset(r)[c] == multiset(customers)[c]) &&
      (forall c :: c in r ==> c.id != id)
  {
    FilterIsSubseq(customers, (c: Customer) => c.id != id);
    FilterMultiset(customers, (c: Customer) => c.id != id);
  }
}
