/** The review service: the joined read with its display fallbacks, and the two writes. */
module ReviewService {
  import opened Wrappers
  import opened Types
  import opened Store

  const Table := "reviews"
  const DeletedProduct := "Ürün Silinmiş"
  const UnknownCustomer := "Bilinmeyen Müşteri"

  /** The joined `products (name)` object. */
  datatype ProductRef = ProductRef(name: Option<string>)

  /** The joined `customers (first_name, last_name)` object. */
  datatype CustomerRef = CustomerRef(first_name: Option<string>, last_name: Option<string>)

  /** A `reviews` row with its two joins; a join is None when the referenced row is gone. */
  datatype ReviewRow = ReviewRow(
    id: string, product_id: string, products: Option<ProductRef>, customer_id: string,
    customers: Option<CustomerRef>, rating: int, comment: string, status: ReviewStatus,
    created_at: string)

  /** An object sent to `reviews`. */
  datatype ReviewColumns = ReviewColumns(status: Option<Value>)

  /** A template-literal interpolation of a nullable string: null prints as "null". */
  function Interpolate(o: Option<string>): string {
    if o.Some? then o.value else "null"
  }

  /** The product name shown: the joined name when it is non-empty, else 'Ürün Silinmiş'. */
  function ProductName(products: Option<ProductRef>): (s: string)
    ensures s == DeletedProduct <==> products.None? || products.value.name.None? || products.value.name.value in {"", DeletedProduct}
    ensures products.Some? && products.value.name.Some? && products.value.name.value != "" ==> s == products.value.name.value
  {
    if products.Some? then OrElse(products.value.name, DeletedProduct) else DeletedProduct
  }

  /**
   * The customer name shown: "first last" when the joined first name is non-empty,
   * else 'Bilinmeyen Müşteri'.
   */
  function CustomerName(customers: Option<CustomerRef>): (s: string)
    ensures (customers.Some? && customers.value.first_name.Some? && customers.value.first_name.value != "") ==>
      s == customers.value.first_name.value + " " + Interpolate(customers.value.last_name)
    ensures !(customers.Some? && customers.value.first_name.Some? && customers.value.first_name.value != "") ==>
      s == UnknownCustomer
  {
    if customers.Some? && customers.value.first_name.Some? && customers.value.first_name.value != "" then
      customers.value.first_name.value + " " + Interpolate(customers.value.last_name)
    else UnknownCustomer
  }

  /** `mapReview`. */
  function MapReview(r: ReviewRow): (v: Review)
    ensures v.productName == ProductName(r.products) && v.customerName == CustomerName(r.customers)
    ensures v.productId == r.product_id && v.customerId == r.customer_id && v.createdAt == r.created_at
    ensures v.rating == r.rating && v.status == r.status
    ensures v.id == r.id && v.comment == r.comment
  {
    Review(r.id, r.product_id, ProductName(r.products), r.customer_id, CustomerName(r.customers),
      r.rating, r.comment, r.status, r.created_at)
  }

  /** `getAll`: never fails; an error or missing data gives no reviews. */
  function GetAll(reply: Reply<seq<ReviewRow>>): (r: seq<Review>)
    ensures reply.error.Some? || reply.data.None? ==> r == []
    ensures reply.error.None? && reply.data.Some? ==>
      |r| == |reply.data.value| && forall i :: 0 <= i < |r| ==> r[i] == MapReview(reply.data.value[i])
  {
    MapAllOrEmpty(reply, MapReview)
  }

  /** `updateStatus`: writes only `status`; an error is rethrown. */
  function UpdateStatus(id: string, status: ReviewStatus, error: Option<Fault>): (r: (Command<ReviewColumns>, Outcome<()>))
    ensures r.0 == UpdateWhereId(Table, id, ReviewColumns(Some(JStr(status.Code()))))
    ensures r.1.Err? <==> error.Some?
  {
    (UpdateWhereId(Table, id, ReviewColumns(Some(JStr(status.Code())))), ThrowIfError(error))
  }

  /** `delete`: an error is rethrown. */
  function Delete(id: string, error: Option<Fault>): (r: (Command<ReviewColumns>, Outcome<()>))
    ensures r.0 == DeleteWhereId(Table, id)
    ensures r.1.Err? <==> error.Some?
  {
    (DeleteWhereId(Table, id), ThrowIfError(error))
  }

  /** A review whose product and customer were both deleted shows both fallbacks. */
  lemma OrphanedReview(r: ReviewRow)
    requires r.products.None? && r.customers.None?
    ensures MapReview(r).productName == "Ürün Silinmiş" && MapReview(r).customerName == "Bilinmeyen Müşteri"
  {
  }
}
