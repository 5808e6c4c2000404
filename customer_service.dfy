/** The customer service: mapper with defaults, conditional update payload, error propagation. */
module CustomerService {
  import opened Wrappers
  import opened Types
  import opened Store

  const Table := "customers"

  /** A `customers` row; the columns the mapper defaults may be null. */
  datatype CustomerRow = CustomerRow(
    id: string, first_name: string, last_name: string, email: string, phone: Option<string>,
    status: AccountStatus, addresses: Option<seq<Address>>, order_count: Option<int>,
    total_spent: Option<int>, created_at: string, last_order_date: Option<string>)

  /** An object sent to `customers`, one optional JSON value per column it may hold. */
  datatype CustomerColumns = CustomerColumns(
    first_name: Option<Value>, last_name: Option<Value>, email: Option<Value>,
    phone: Option<Value>, status: Option<Value>)

  /** `value || 0` on a nullable number. */
  function OrZero(o: Option<int>): (n: int)
    ensures o.Some? ==> n == o.value
    ensures o.None? ==> n == 0
  {
    if o.Some? then o.value else 0
  }

  /**
   * `mapCustomer`: renames the snake_case columns; phone defaults to '', addresses to [],
   * and the order count and total spent to 0.
   */
  function MapCustomer(c: CustomerRow): (r: Customer)
    ensures r.phone == OrElse(c.phone, "") && r.addresses == c.addresses.GetOr([])
    ensures r.orderCount == OrZero(c.order_count) && r.totalSpent == OrZero(c.total_spent)
    ensures r.firstName == c.first_name && r.lastName == c.last_name
    ensures r.createdAt == c.created_at && r.lastOrderDate == c.last_order_date
    ensures r.id == c.id && r.email == c.email && r.status == c.status && r.notes.None?
  {
    Customer(c.id, c.first_name, c.last_name, c.email, OrElse(c.phone, ""), c.status,
      c.addresses.GetOr([]), OrZero(c.order_count), OrZero(c.total_spent), None,
      c.created_at, c.last_order_date)
  }

  /** The change object of `update`: a column exactly for each defined field. */
  method UpdateChanges(c: CustomerPartial) returns (u: CustomerColumns)
    ensures u.first_name == OptStr(c.firstName) && u.last_name == OptStr(c.lastName)
    ensures u.email == OptStr(c.email) && u.phone == OptStr(c.phone)
    ensures u.status == (if c.status.Some? then Some(JStr(c.status.value.Code())) else None)
  {
    u := CustomerColumns(None, None, None, None, None);
    if c.firstName.Some? { u := u.(first_name := Some(JStr(c.firstName.value))); }
    if c.lastName.Some? { u := u.(last_name := Some(JStr(c.lastName.value))); }
    if c.email.Some? { u := u.(email := Some(JStr(c.email.value))); }
    if c.phone.Some? { u := u.(phone := Some(JStr(c.phone.value))); }
    if c.status.Some? { u := u.(status := Some(JStr(c.status.value.Code()))); }
  }

  /** `getAll`: an error is rethrown; otherwise every row is mapped in order. */
  function GetAll(reply: Reply<seq<CustomerRow>>): (r: Outcome<seq<Customer>>)
    ensures r.Err? <==> reply.error.Some?
    ensures r.Err? ==> r.fault == reply.error.value
    ensures r.Ok? ==> |r.value| == |reply.data.GetOr([])|
    ensures r.Ok? ==> forall i :: 0 <= i < |r.value| ==> r.value[i] == MapCustomer(reply.data.GetOr([])[i])
  {
    MapAllOrThrow(reply, MapCustomer)
  }

  /** `update`: sends the change object for `id`; an error is rethrown. */
  method Update(id: string, c: CustomerPartial, reply: Outcome<CustomerRow>)
    returns (sent: Command<CustomerColumns>, r: Outcome<Customer>)
    ensures sent.UpdateWhereId? && sent.table == Table && sent.id == id
    ensures sent.changes.first_name == OptStr(c.firstName) && sent.changes.last_name == OptStr(c.lastName)
    ensures sent.changes.email == OptStr(c.email) && sent.changes.phone == OptStr(c.phone)
    ensures sent.changes.status == (if c.status.Some? then Some(JStr(c.status.value.Code())) else None)
    ensures r.Err? <==> reply.Err?
    ensures r.Ok? ==> r.value == MapCustomer(reply.value)
  {
    var changes := UpdateChanges(c);
    sent := UpdateWhereId(Table, id, changes);
    r := MapOneOrThrow(reply, MapCustomer);
  }

  /** `delete`: an error is rethrown. */
  function Delete(id: string, error: Option<Fault>): (r: (Command<CustomerColumns>, Outcome<()>))
    ensures r.0 == DeleteWhereId(Table, id)
    ensures r.1.Err? <==> error.Some?
  {
    (DeleteWhereId(Table, id), ThrowIfError(error))
  }
}
