/** The order list page: search, status and date filtering, the badge maps and the header counters. */
module OrderList {
  import opened Wrappers
  import opened Types
  import opened Text
  import opened Seqs

  datatype StatusFilter = AllStatuses | Only(status: OrderStatus)

  /** A JavaScript `Date`: an instant in milliseconds, or an Invalid Date (NaN) when its text does not parse. */
  datatype Time = Valid(ms: int) | Invalid

  /** `a <= b` on two dates: false whenever either side is an Invalid Date. */
  predicate NotAfter(a: Time, b: Time) {
    a.Valid? && b.Valid? && a.ms <= b.ms
  }

  /**
   * The two date inputs, None when the input is empty. A set start bound is `new Date(dateFrom)`
   * (midnight UTC of that day); a set end bound is `new Date(dateTo + 'T23:59:59')`, which is read
   * in the browser's local time zone. Both instants are given as they are computed, so the two
   * bounds need not lie on the same kind of day boundary.
   */
  datatype DateRange = DateRange(from: Option<Time>, to: Option<Time>)

  predicate MatchesSearch(o: Order, query: string) {
    IncludesIgnoringCase(o.orderNumber, query) || IncludesIgnoringCase(o.customerName, query)
  }

  predicate MatchesStatus(o: Order, f: StatusFilter) {
    f.AllStatuses? || o.status == f.status
  }

  /** An order placed at `at` lies at or after the start bound and at or before the end bound. */
  predicate InRange(at: Time, r: DateRange) {
    (r.from.None? || NotAfter(r.from.value, at)) && (r.to.None? || NotAfter(at, r.to.value))
  }

  /**
   * The date test as the page runs it: the end bound is checked only while the start bound held.
   * An order date that does not parse fails every set bound and passes only when both are empty.
   */
  function MatchesDate(at: Time, r: DateRange): (b: bool)
    ensures b <==> InRange(at, r)
    ensures at.Invalid? ==> (b <==> r.from.None? && r.to.None?)
  {
    var afterFrom := if r.from.Some? then NotAfter(r.from.value, at) else true;
    if r.to.Some? && afterFrom then NotAfter(at, r.to.value) else afterFrom
  }

  /**
   * `filteredOrders`: the orders passing search, status and date, in their order;
   * `placedAt` gives `new Date(order.orderDate)`.
   */
  function FilteredOrders(orders: seq<Order>, query: string, f: StatusFilter, dates: DateRange, placedAt: Order -> Time): seq<Order> {
    Filter(orders, (o: Order) => MatchesSearch(o, query) && MatchesStatus(o, f) && MatchesDate(placedAt(o), dates))
  }

  /** An order is kept, with all its occurrences, exactly when it passes all three tests. */
  lemma FilteredOrdersExact(orders: seq<Order>, query: string, f: StatusFilter, dates: DateRange, placedAt: Order -> Time, o: Order)
    ensures multiset(FilteredOrders(orders, query, f, dates, placedAt))[o] ==
      if MatchesSearch(o, query) && MatchesStatus(o, f) && InRange(placedAt(o), dates) then multiset(orders)[o] else 0
  {
    FilterMultiset(orders, (o: Order) => MatchesSearch(o, query) && MatchesStatus(o, f) && MatchesDate(placedAt(o), dates), o);
  }

  /** With no query, 'all' and no dates every order is shown. */
  lemma NoFiltersShowAll(orders: seq<Order>, placedAt: Order -> Time)
    ensures FilteredOrders(orders, "", AllStatuses, DateRange(None, None), placedAt) == orders
  {
    forall i | 0 <= i < |orders|
      ensures MatchesSearch(orders[i], "")
    {
      IncludesEmpty(orders[i].orderNumber);
    }
    FilterAll(orders, (o: Order) => MatchesSearch(o, "") && MatchesStatus(o, AllStatuses) && MatchesDate(placedAt(o), DateRange(None, None)));
  }

  /** The label and style of each known order status. */
  function KnownStatusBadge(s: OrderStatus): Badge {
    match s
    case Pending => Badge("Bekliyor", "badge-warning")
    case PaymentConfirmed => Badge("Ödeme Onaylandı", "badge-info")
    case Preparing => Badge("Hazırlanıyor", "badge-primary")
    case Shipped => Badge("Kargoda", "badge-info")
    case Delivered => Badge("Teslim Edildi", "badge-success")
    case Cancelled => Badge("İptal", "badge-danger")
    case Refunded => Badge("İade", "badge-secondary")
  }

  /**
   * `getStatusBadge`, on the raw status text: an inherited property name finds the inherited
   * member, and any other unknown text is its own label, styled secondary.
   */
  function StatusBadge(status: string): (b: Badge)
    ensures forall s: OrderStatus :: s.Code() == status ==> b == KnownStatusBadge(s)
    ensures InheritedKey(status) ==> b == InheritedBadge
    ensures (forall s: OrderStatus :: s.Code() != status) && !InheritedKey(status) ==> b == Badge(status, "badge-secondary")
  {
    var parsed := ParseOrderStatus(status);
    if parsed.Some? then KnownStatusBadge(parsed.value)
    else if InheritedKey(status) then InheritedBadge
    else Badge(status, "badge-secondary")
  }

  /** Every order status has its own label, and none of them is the raw code. */
  lemma StatusBadgeDistinct(s: OrderStatus, t: OrderStatus)
    ensures KnownStatusBadge(s).text != s.Code()
    ensures KnownStatusBadge(s).text == KnownStatusBadge(t).text ==> s == t
  {
  }

  function KnownPaymentBadge(s: PaymentStatus): Badge {
    match s
    case PaymentPending => Badge("Bekliyor", "badge-warning")
    case Paid => Badge("Ödendi", "badge-success")
    case PaymentFailed => Badge("Başarısız", "badge-danger")
    case PaymentRefunded => Badge("İade Edildi", "badge-secondary")
  }

  /** `getPaymentBadge`, on the raw payment status text, with the same inherited-name case. */
  function PaymentBadge(status: string): (b: Badge)
    ensures forall s: PaymentStatus :: s.Code() == status ==> b == KnownPaymentBadge(s)
    ensures InheritedKey(status) ==> b == InheritedBadge
    ensures (forall s: PaymentStatus :: s.Code() != status) && !InheritedKey(status) ==> b == Badge(status, "badge-secondary")
  {
    var parsed := ParsePaymentStatus(status);
    if parsed.Some? then KnownPaymentBadge(parsed.value)
    else if InheritedKey(status) then InheritedBadge
    else Badge(status, "badge-secondary")
  }

  lemma PaymentBadgeDistinct(s: PaymentStatus, t: PaymentStatus)
    ensures KnownPaymentBadge(s).text != s.Code()
    ensures KnownPaymentBadge(s).text == KnownPaymentBadge(t).text ==> s == t
  {
  }

  predicate IsPending(o: Order) { o.status == Pending }
  predicate IsShipped(o: Order) { o.status == Shipped }

  /** The header counters. */
  datatype Counters = Counters(total: nat, pending: nat, shipped: nat)

  /** The counters are taken over every loaded order, whatever the filters show. */
  function HeaderCounters(orders: seq<Order>): (c: Counters)
    ensures c.total == |orders| && c.pending == Count(orders, IsPending) && c.shipped == Count(orders, IsShipped)
    ensures c.pending + c.shipped <= c.total
  {
    CountDisjoint(orders, IsPending, IsShipped, (o: Order) => IsPending(o) || IsShipped(o));
    Counters(|orders|, Count(orders, IsPending), Count(orders, IsShipped))
  }

  class OrderListPage {
    var orders: seq<Order>
    var loading: bool
    var searchQuery: string
    var statusFilter: StatusFilter
    var dates: DateRange

    constructor ()
      ensures orders == [] && loading && searchQuery == "" && statusFilter == AllStatuses
      ensures dates == DateRange(None, None)
    {
      orders := [];
      loading := true;
      searchQuery := "";
      statusFilter := AllStatuses;
      dates := DateRange(None, None);
    }

    /** The fetch: a failed load keeps the empty list, and loading ends either way. */
    method Load(result: Outcome<seq<Order>>)
      modifies this
      ensures orders == (if result.Ok? then result.value else old(orders)) && !loading
      ensures searchQuery == old(searchQuery) && statusFilter == old(statusFilter) && dates == old(dates)
    {
      if result.Ok? {
        orders := result.value;
      }
      loading := false;
    }

    method SetFilters(query: string, f: StatusFilter, range: DateRange)
      modifies this
      ensures searchQuery == query && statusFilter == f && dates == range
      ensures orders == old(orders) && loading == old(loading)
    {
      searchQuery := query;
      statusFilter := f;
      dates := range;
    }

    /** What the page shows: orders of the list that pass the search, the status and the dates. */
    function Visible(placedAt: Order -> Time): (v: seq<Order>)
      reads this
      ensures |v| <= |orders|
      ensures forall o :: o in v ==>
        o in orders && MatchesSearch(o, searchQuery) && MatchesStatus(o, statusFilter) && MatchesDate(placedAt(o), dates)
    {
      FilteredOrders(orders, searchQuery, statusFilter, dates, placedAt)
    }
  }
}
