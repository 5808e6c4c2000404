/** The dashboard statistics: order counts by status and the two revenue sums. */
module DashboardService {
  import opened Wrappers
  import opened Types
  import opened Seqs
  import CustomerService

  predicate IsPending(s: OrderStatus) { s == Pending }
  predicate IsShipped(s: OrderStatus) { s == Shipped }
  predicate IsDelivered(s: OrderStatus) { s == Delivered }
  predicate IsCancelled(s: OrderStatus) { s == Cancelled }
  predicate PendingOrShipped(s: OrderStatus) { IsPending(s) || IsShipped(s) }
  predicate DeliveredOrCancelled(s: OrderStatus) { IsDelivered(s) || IsCancelled(s) }
  predicate Counted(s: OrderStatus) { PendingOrShipped(s) || DeliveredOrCancelled(s) }

  /**
   * `getStats`: the order statuses are read with errors ignored (missing data is no orders),
   * the revenue sums default to 0, and the weekly and monthly sums are always 0.
   */
  function GetStats(orders: Reply<seq<OrderStatus>>, totalRevenue: Option<int>, todayRevenue: Option<int>): (r: DashboardStats)
    ensures r.totalOrders == |orders.data.GetOr([])|
    ensures r.pendingOrders == Count(orders.data.GetOr([]), IsPending)
    ensures r.shippedOrders == Count(orders.data.GetOr([]), IsShipped)
    ensures r.completedOrders == Count(orders.data.GetOr([]), IsDelivered)
    ensures r.cancelledOrders == Count(orders.data.GetOr([]), IsCancelled)
    ensures r.totalRevenue == CustomerService.OrZero(totalRevenue) && r.todayRevenue == CustomerService.OrZero(todayRevenue)
    ensures r.weekRevenue == 0 && r.monthRevenue == 0
  {
    var statuses := orders.data.GetOr([]);
    DashboardStats(|statuses|, Count(statuses, IsPending), Count(statuses, IsShipped),
      Count(statuses, IsDelivered), Count(statuses, IsCancelled),
      CustomerService.OrZero(totalRevenue), CustomerService.OrZero(todayRevenue), 0, 0)
  }

  /** The four status counts never exceed the order count: each order has one status. */
  lemma StatusCountsBounded(orders: Reply<seq<OrderStatus>>, totalRevenue: Option<int>, todayRevenue: Option<int>)
    ensures var r := GetStats(orders, totalRevenue, todayRevenue);
      r.pendingOrders + r.shippedOrders + r.completedOrders + r.cancelledOrders <= r.totalOrders
  {
    var s := orders.data.GetOr([]);
    CountDisjoint(s, IsPending, IsShipped, PendingOrShipped);
    CountDisjoint(s, IsDelivered, IsCancelled, DeliveredOrCancelled);
    CountDisjoint(s, PendingOrShipped, DeliveredOrCancelled, Counted);
  }

  /** Statuses that the four counts ignore still count towards the total. */
  lemma OnlyOtherStatuses(orders: Reply<seq<OrderStatus>>)
    requires orders.data == Some([Preparing, Refunded])
    ensures var r := GetStats(orders, None, None);
      r.totalOrders == 2 && r.pendingOrders == 0 && r.completedOrders == 0 && r.totalRevenue == 0
  {
  }
}
