/**
 * The admin dashboard's statistics: revenue folded over the orders' totals,
 * the order count, and the product and user counts, taken only when none of
 * the three responses carries an error. The three requests are awaited
 * together in the page; here their responses are simply the inputs.
 */
module AdminDashboard {
  import opened Wrappers

  datatype Stats = Stats(totalRevenue: int, totalOrders: int, totalProducts: int, totalUsers: int)

  /** The stats before any fetch: all zero. */
  const InitialStats := Stats(0, 0, 0, 0)

  /** The orders response: the rows' `total_amount` values in cents, or no data; maybe an error message. */
  datatype OrdersResponse = OrdersResponse(data: Option<seq<int>>, error: Option<string>)

  /** A head-only count response: the exact count, or none; maybe an error message. */
  datatype CountResponse = CountResponse(count: Option<int>, error: Option<string>)

  /** The page state the fetch changes: the stats, the loading flag and the error toast, if one was shown. */
  datatype Dashboard = Dashboard(stats: Stats, loading: bool, failure: Option<string>)

  /** The page before the fetch completes. */
  const InitialDashboard := Dashboard(InitialStats, true, None)

  /** The sum of the amounts, as a reference definition. */
  function Sum(amounts: seq<int>): int
    decreases |amounts|
  {
    if amounts == [] then 0 else amounts[0] + Sum(amounts[1..])
  }

  /**
   * The `reduce((sum, order) => sum + order.total_amount, acc)` fold, from
   * left to right: it adds the sum of the amounts to the start value.
   */
  function Reduce(amounts: seq<int>, acc: int): (r: int)
    ensures r == acc + Sum(amounts)
    decreases |amounts|
  {
    if amounts == [] then acc else Reduce(amounts[1..], acc + amounts[0])
  }

  /** Revenue over two batches of orders is the sum of their revenues. */
  lemma {:induction false} SumAppend(xs: seq<int>, ys: seq<int>)
    ensures Sum(xs + ys) == Sum(xs) + Sum(ys)
    decreases |xs|
  {
    if xs == [] {
      assert xs + ys == ys;
    } else {
      assert (xs + ys)[1..] == xs[1..] + ys;
      SumAppend(xs[1..], ys);
    }
  }

  /** `ordersRes.data?.reduce(..., 0) || 0`: the total of all order amounts, 0 without data. */
  function Revenue(orders: OrdersResponse): (r: int)
    ensures orders.data.None? ==> r == 0
    ensures orders.data.Some? ==> r == Sum(orders.data.value)
  {
    if orders.data.None? then 0 else Reduce(orders.data.value, 0)
  }

  /** The first error among the three responses, checked in the order orders, products, users. */
  function FirstError(orders: OrdersResponse, products: CountResponse, users: CountResponse): (e: Option<string>)
    ensures e.None? <==> orders.error.None? && products.error.None? && users.error.None?
    ensures orders.error.Some? ==> e == orders.error
    ensures orders.error.None? && products.error.Some? ==> e == products.error
    ensures orders.error.None? && products.error.None? ==> e == users.error
  {
    if orders.error.Some? then orders.error
    else if products.error.Some? then products.error
    else users.error
  }

  /**
   * The fetch: on any error the stats stay as they were and the first
   * error is reported; otherwise the stats are the revenue, the number of
   * order rows and the two counts, each 0 when missing. Loading ends on
   * every path.
   */
  function FetchStats(page: Dashboard, orders: OrdersResponse, products: CountResponse, users: CountResponse): (r: Dashboard)
    ensures !r.loading
    ensures r.failure == FirstError(orders, products, users)
    ensures r.failure.Some? ==> r.stats == page.stats
    ensures r.failure.None? ==>
              && r.stats.totalRevenue == Sum(orders.data.GetOr([]))
              && r.stats.totalOrders == |orders.data.GetOr([])|
              && r.stats.totalProducts == products.count.GetOr(0)
              && r.stats.totalUsers == users.count.GetOr(0)
  {
    var err := FirstError(orders, products, users);
    if err.Some? then
      Dashboard(page.stats, false, err)
    else
      var stats := Stats(Revenue(orders),
                         if orders.data.Some? then |orders.data.value| else 0,
                         products.count.GetOr(0),
                         users.count.GetOr(0));
      Dashboard(stats, false, None)
  }

  /** A failed first fetch leaves the dashboard showing all zeros. */
  lemma FailedFetchShowsZeros(orders: OrdersResponse, products: CountResponse, users: CountResponse)
    requires orders.error.Some? || products.error.Some? || users.error.Some?
    ensures FetchStats(InitialDashboard, orders, products, users).stats == InitialStats
  {
  }

  /** With no orders, no revenue and no order count. */
  lemma NoOrdersNoRevenue(page: Dashboard, products: CountResponse, users: CountResponse)
    requires products.error.None? && users.error.None?
    ensures var r := FetchStats(page, OrdersResponse(Some([]), None), products, users);
            r.stats.totalRevenue == 0 && r.stats.totalOrders == 0
  {
  }
}
