/**
 * The dashboard page: one load of the statistics, the orders and the products, from which it
 * keeps the five most recent orders and the first five products low on stock.
 */
module Dashboard {
  import opened Wrappers
  import opened Types
  import opened Seqs
  import OrderList

  const RecentLimit := 5
  const LowStockLimit := 5
  const LowStockThreshold := 10

  /**
   * `getStatusBadge`, keyed by the raw status text: an inherited property name finds the
   * inherited member, and any other unknown text is its own label, styled secondary.
   */
  function StatusBadge(status: string): Badge {
    if status == "pending" then Badge("Bekliyor", "badge-warning")
    else if status == "payment_confirmed" then Badge("Ödeme Onaylandı", "badge-info")
    else if status == "preparing" then Badge("Hazırlanıyor", "badge-primary")
    else if status == "shipped" then Badge("Kargoda", "badge-info")
    else if status == "delivered" then Badge("Teslim Edildi", "badge-success")
    else if status == "cancelled" then Badge("İptal", "badge-danger")
    else if status == "refunded" then Badge("İade", "badge-secondary")
    else if InheritedKey(status) then InheritedBadge
    else Badge(status, "badge-secondary")
  }

  /** The dashboard's badges are the order list's badges, for every status text. */
  lemma StatusBadgeAgreesWithOrderList(status: string)
    ensures StatusBadge(status) == OrderList.StatusBadge(status)
    ensures InheritedKey(status) ==> StatusBadge(status) == InheritedBadge
    ensures (forall s: OrderStatus :: s.Code() != status) && !InheritedKey(status) ==> StatusBadge(status) == Badge(status, "badge-secondary")
  {
  }

  predicate IsLowStock(p: Product) { p.stock <= LowStockThreshold }

  /** `ordersData.slice(0, 5)` */
  function RecentOrders(orders: seq<Order>): seq<Order> {
    Take(orders, RecentLimit)
  }

  /** `productsData.filter(p => p.stock <= 10).slice(0, 5)` */
  function LowStock(products: seq<Product>): seq<Product> {
    Take(Filter(products, IsLowStock), LowStockLimit)
  }

  /** The recent orders are the fetched orders from the start, at most five of them. */
  lemma RecentOrdersPrefix(orders: seq<Order>)
    ensures |RecentOrders(orders)| == if |orders| < 5 then |orders| else 5
    ensures RecentOrders(orders) == orders[..|RecentOrders(orders)|]
  {
  }

  /**
   * At most five products are listed, each with a stock of at most 10, all from the fetched
   * list; when fewer than five are low on stock, all of them are listed.
   */
  lemma LowStockSelection(products: seq<Product>)
    ensures |LowStock(products)| <= 5
    ensures forall k :: 0 <= k < |LowStock(products)| ==>
      LowStock(products)[k].stock <= 10 && LowStock(products)[k] in products
    ensures Count(products, IsLowStock) < 5 ==> LowStock(products) == Filter(products, IsLowStock)
  {
    var low := Filter(products, IsLowStock);
    forall k | 0 <= k < |LowStock(products)|
      ensures LowStock(products)[k].stock <= 10 && LowStock(products)[k] in products
    {
      assert LowStock(products)[k] == low[k];
      assert low[k] in low;
    }
  }

  /** Once five low-stock products have been seen, the products after them change nothing: they are the first five. */
  lemma LowStockFirstFive(front: seq<Product>, back: seq<Product>)
    requires Count(front, IsLowStock) >= 5
    ensures LowStock(front + back) == LowStock(front)
  {
    FilterConcat(front, back, IsLowStock);
    var a := Filter(front, IsLowStock);
    var b := Filter(back, IsLowStock);
    assert (a + b)[..5] == a[..5];
  }

  class DashboardPage {
    var stats: Option<DashboardStats>
    var recentOrders: seq<Order>
    var lowStockProducts: seq<Product>
    var loading: bool

    constructor ()
      ensures stats.None? && recentOrders == [] && lowStockProducts == [] && loading
    {
      stats := None;
      recentOrders := [];
      lowStockProducts := [];
      loading := true;
    }

    /** The loading view shows while loading, and also whenever there are no statistics. */
    predicate ShowsLoading()
      reads this
    {
      loading || stats.None?
    }

    /**
     * `loadDashboardData`: the three reads settle together; if any of them fails nothing is
     * stored. Loading is over either way, so a failed first load leaves the loading view up.
     */
    method Load(result: Outcome<(DashboardStats, seq<Order>, seq<Product>)>)
      modifies this
      ensures result.Ok? ==>
        && stats == Some(result.value.0)
        && recentOrders == RecentOrders(result.value.1)
        && lowStockProducts == LowStock(result.value.2)
      ensures result.Err? ==>
        stats == old(stats) && recentOrders == old(recentOrders) && lowStockProducts == old(lowStockProducts)
      ensures !loading
      ensures ShowsLoading() <==> result.Err? && old(stats).None?
    {
      if result.Ok? {
        stats := Some(result.value.0);
        recentOrders := RecentOrders(result.value.1);
        lowStockProducts := LowStock(result.value.2);
      }
      loading := false;
    }
  }
}
