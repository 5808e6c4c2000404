/** The order service: mapper with defaults, the detail read with its items, and the two status writes. */
module OrderService {
  import opened Wrappers
  import opened Types
  import opened Store
  import CustomerService

  const Table := "orders"

  /** An `orders` row; the columns the mapper defaults may be null. */
  datatype OrderRow = OrderRow(
    id: string, order_number: string, customer_id: Option<string>, customer_name: string,
    customer_email: Option<string>, customer_phone: Option<string>,
    shipping_address: Option<Address>, billing_address: Option<Address>,
    items: Option<seq<OrderItem>>, subtotal: Option<int>, vat_amount: Option<int>,
    shipping_cost: Option<int>, total_amount: int, status: OrderStatus,
    payment_status: PaymentStatus, payment_method: Option<string>, order_date: string,
    history: Option<seq<OrderHistory>>, shipping_company: Option<string>,
    tracking_number: Option<string>, tracking_url: Option<string>, payment_date: Option<string>)

  /** An `order_items` row joined to an order. */
  datatype OrderItemRow = OrderItemRow(
    id: string, product_id: string, product_name: string, quantity: int, unit_price: int, total_price: int)

  /** The detail read: the order row and its joined items, None when the join is absent. */
  datatype OrderWithItems = OrderWithItems(order: OrderRow, order_items: Option<seq<OrderItemRow>>)

  /** An object sent to `orders`, one optional JSON value per column it may hold. */
  datatype OrderColumns = OrderColumns(
    status: Option<Value>, shipping_company: Option<Value>, tracking_number: Option<Value>,
    tracking_url: Option<Value>)

  datatype ShippingInfo = ShippingInfo(company: string, trackingNumber: string, trackingUrl: Option<string>)

  /**
   * `mapOrder`: empty or missing ids, contact fields and payment method become '', missing
   * addresses the empty object, missing items and history [], missing money subtotals 0,
   * and the total is read from `total_amount`.
   */
  function MapOrder(o: OrderRow): (r: Order)
    ensures r.customerId == OrElse(o.customer_id, "") && r.customerEmail == OrElse(o.customer_email, "")
    ensures r.customerPhone == OrElse(o.customer_phone, "") && r.paymentMethod == OrElse(o.payment_method, "")
    ensures r.shippingAddress == o.shipping_address && r.billingAddress == o.billing_address
    ensures r.items == o.items.GetOr([]) && r.history == o.history.GetOr([])
    ensures r.subtotal == CustomerService.OrZero(o.subtotal) && r.vatAmount == CustomerService.OrZero(o.vat_amount)
    ensures r.shippingCost == CustomerService.OrZero(o.shipping_cost)
    ensures r.total == o.total_amount && r.notes.None?
    ensures r.id == o.id && r.orderNumber == o.order_number && r.customerName == o.customer_name
    ensures r.status == o.status && r.paymentStatus == o.payment_status
    ensures r.orderDate == o.order_date && r.paymentDate == o.payment_date
    ensures r.shippingCompany == o.shipping_company && r.trackingNumber == o.tracking_number
    ensures r.trackingUrl == o.tracking_url
  {
    Order(
      o.id, o.order_number, OrElse(o.customer_id, ""), o.customer_name,
      OrElse(o.customer_email, ""), OrElse(o.customer_phone, ""),
      o.shipping_address, o.billing_address, o.items.GetOr([]),
      CustomerService.OrZero(o.subtotal), CustomerService.OrZero(o.vat_amount),
      CustomerService.OrZero(o.shipping_cost), o.total_amount, o.status, o.payment_status,
      OrElse(o.payment_method, ""), o.payment_date, o.order_date,
      o.shipping_company, o.tracking_number, o.tracking_url, None, o.history.GetOr([]))
  }

  /** The item mapping of `getById`: six fields copied; image and variant are not set. */
  function MapItem(i: OrderItemRow): (r: OrderItem)
    ensures r.productImage.None? && r.variant.None?
    ensures r.productId == i.product_id && r.unitPrice == i.unit_price && r.totalPrice == i.total_price
    ensures r.id == i.id && r.productName == i.product_name && r.quantity == i.quantity
  {
    OrderItem(i.id, i.product_id, i.product_name, None, i.quantity, i.unit_price, i.total_price, None)
  }

  /** The order row with `items` replaced by its mapped joined items. */
  function WithMappedItems(d: OrderWithItems): OrderRow {
    var rows := d.order_items.GetOr([]);
    d.order.(items := Some(seq(|rows|, k requires 0 <= k < |rows| => MapItem(rows[k]))))
  }

  /** `getAll`: an error is rethrown; otherwise every row is mapped in order. */
  function GetAll(reply: Reply<seq<OrderRow>>): (r: Outcome<seq<Order>>)
    ensures r.Err? <==> reply.error.Some?
    ensures r.Ok? ==>
      |r.value| == |reply.data.GetOr([])|
      && forall i :: 0 <= i < |r.value| ==> r.value[i] == MapOrder(reply.data.GetOr([])[i])
  {
    MapAllOrThrow(reply, MapOrder)
  }

  /**
   * `getById`: an error is rethrown and no row is undefined. Otherwise the order's items
   * are its joined items mapped in order, or none without a join; the row's own `items`
   * column is ignored.
   */
  function GetById(reply: Outcome<Option<OrderWithItems>>): (r: Outcome<Option<Order>>)
    ensures r.Err? <==> reply.Err?
    ensures r.Ok? ==> (r.value.None? <==> reply.value.None?)
    ensures r.Ok? && r.value.Some? ==>
      var joined := reply.value.value.order_items.GetOr([]);
      |r.value.value.items| == |joined|
      && forall k :: 0 <= k < |joined| ==> r.value.value.items[k] == MapItem(joined[k])
    ensures r.Ok? && r.value.Some? ==> r.value.value.id == reply.value.value.order.id
  {
    match reply
    case Err(fault) => Err(fault)
    case Ok(found) => Ok(if found.Some? then Some(MapOrder(WithMappedItems(found.value))) else None)
  }

  /** `updateStatus`: writes only `status`; an error is rethrown. */
  function UpdateStatus(id: string, status: OrderStatus, error: Option<Fault>): (r: (Command<OrderColumns>, Outcome<()>))
    ensures r.0 == UpdateWhereId(Table, id, OrderColumns(Some(JStr(status.Code())), None, None, None))
    ensures r.1.Err? <==> error.Some?
  {
    (UpdateWhereId(Table, id, OrderColumns(Some(JStr(status.Code())), None, None, None)), ThrowIfError(error))
  }

  /** `updateShipping`: writes only the three shipping columns, the url only when given; an error is rethrown. */
  function UpdateShipping(id: string, info: ShippingInfo, error: Option<Fault>): (r: (Command<OrderColumns>, Outcome<()>))
    ensures r.0.UpdateWhereId? && r.0.table == Table && r.0.id == id
    ensures r.0.changes == OrderColumns(None, Some(JStr(info.company)), Some(JStr(info.trackingNumber)), OptStr(info.trackingUrl))
    ensures r.1.Err? <==> error.Some?
  {
    (UpdateWhereId(Table, id, OrderColumns(None, Some(JStr(info.company)), Some(JStr(info.trackingNumber)), OptStr(info.trackingUrl))),
     ThrowIfError(error))
  }
}
