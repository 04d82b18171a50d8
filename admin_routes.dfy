/** The request logic of backend/routes/admin.js: the dashboard statistics,
    the order listing with its status filter and page arithmetic, and the
    partner-details role check. */
module AdminRoutes {
  import opened Optional
  import opened OrderModel
  import opened Listing
  import ServerRoutes
  import PartnerRoutes

  // ---------------------------------------------------------------------
  // GET /dashboard/stats

  /** This router's notion of an active order. */
  predicate Active(o: Order) {
    o.status in ["placed", "preparing", "out_for_delivery"]
  }

  predicate Delivered(o: Order) {
    o.status == "delivered"
  }

  predicate OnSale(p: Product) {
    p.isAvailable
  }

  predicate LowStock(p: Product) {
    p.stock < 10 && p.isAvailable
  }

  datatype Stats = Stats(
    totalOrders: nat, activeOrders: nat, completedOrders: nat,
    totalPartners: nat, availablePartners: nat,
    totalProducts: nat, lowStockProducts: nat)

  /** The statistics. Active and completed orders are disjoint; the
      "available" partners are counted with the same query as all partners;
      low-stock products are among the products on sale. */
  function DashboardStats(docs: seq<Order>, users: seq<User>, products: seq<Product>): (r: Stats)
    ensures r.totalOrders == |docs|
    ensures r.activeOrders == Count(docs, Active) && r.completedOrders == Count(docs, Delivered)
    ensures r.totalPartners == Count(users, ServerRoutes.IsPartner)
    ensures r.totalProducts == Count(products, OnSale) && r.lowStockProducts == Count(products, LowStock)
    ensures r.activeOrders + r.completedOrders <= r.totalOrders
    ensures r.availablePartners == r.totalPartners <= |users|
    ensures r.lowStockProducts <= r.totalProducts <= |products|
  {
    CountDisjoint2(docs, Active, Delivered);
    CountMonotone(users, ServerRoutes.IsPartner, _ => true);
    CountMonotone(products, LowStock, OnSale);
    CountMonotone(products, OnSale, _ => true);
    CountAll(users);
    CountAll(products);
    Stats(|docs|, Count(docs, Active), Count(docs, Delivered),
          Count(users, ServerRoutes.IsPartner), Count(users, ServerRoutes.IsPartner),
          Count(products, OnSale), Count(products, LowStock))
  }

  /** Counting with an always-true predicate gives the length. */
  lemma {:induction false} CountAll<T>(s: seq<T>)
    ensures Count(s, _ => true) == |s|
  {
    if s != [] {
      CountAll(s[1..]);
    }
  }

  /** Orders that partners have claimed and are delivering (`accepted`,
      `picked_up`, `in_transit`) count as neither active nor completed. */
  lemma ClaimedOrdersUncounted(docs: seq<Order>, users: seq<User>, products: seq<Product>)
    requires forall i :: 0 <= i < |docs| ==> docs[i].status in ["accepted", "picked_up", "in_transit"]
    ensures DashboardStats(docs, users, products).activeOrders == 0
    ensures DashboardStats(docs, users, products).completedOrders == 0
  {
    CountNone(docs, Active);
    CountNone(docs, Delivered);
  }

  // ---------------------------------------------------------------------
  // GET /orders

  /** `if (status) query.status = status`: an empty or missing parameter
      adds no condition. */
  function StatusFilter(status: Option<string>): (r: Option<string>)
    ensures r.Some? <==> status.Some? && status.value != ""
    ensures r.Some? ==> r == status
  {
    if status.Some? && status.value != "" then status else None
  }

  function Matcher(filter: Option<string>): Order -> bool {
    (o: Order) => filter.None? || o.status == filter.value
  }

  /** `Math.ceil(total / limit)` for a non-zero limit. */
  function CeilDiv(total: nat, limit: int): (r: int)
    requires limit != 0
    ensures limit > 0 ==> (r - 1) * limit < total <= r * limit
    ensures limit < 0 ==> r <= 0
  {
    if limit > 0 then (total + limit - 1) / limit else -(total / -limit)
  }

  datatype Pagination = Pagination(current: int, pages: Option<int>, total: nat)

  datatype OrdersReply =
    | OrdersPage(orders: seq<Order>, pagination: Pagination)
    | OrdersFailed(status: int, message: string)

  /** The listing. `page` and `limit` default to 1 and 20. Orders are sorted
      newest `createdAt` first; `(page - 1) * limit` are skipped and at most
      `limit` returned. A negative skip makes the query fail (500). A zero
      limit means no limit, and `Math.ceil(total / 0)` is not a number, shown
      as `None`; a negative limit returns at most its absolute value. */
  function AdminOrders(docs: seq<Order>, status: Option<string>, page: Option<int>, limit: Option<int>): (r: OrdersReply)
    ensures var p := page.GetOr(1); var l := limit.GetOr(20);
      r.OrdersFailed? <==> (p - 1) * l < 0
    ensures r.OrdersFailed? ==> r == OrdersFailed(500, "Failed to fetch orders")
    ensures r.OrdersPage? ==> r.pagination.current == page.GetOr(1)
    ensures r.OrdersPage? ==> (page.GetOr(1) - 1) * limit.GetOr(20) >= 0
    ensures r.OrdersPage? ==> (r.pagination.pages.None? <==> limit.GetOr(20) == 0)
    ensures var l := limit.GetOr(20);
      var matching := SortDesc(Filter(docs, Matcher(StatusFilter(status))), CreatedAt);
      r.OrdersPage? ==> r.pagination.total == |matching| && (l != 0 ==> r.pagination.pages == Some(CeilDiv(|matching|, l)))
    ensures var p := page.GetOr(1); var l := limit.GetOr(20);
      var matching := SortDesc(Filter(docs, Matcher(StatusFilter(status))), CreatedAt);
      r.OrdersPage? && l > 0 ==> r.orders == Window(matching, (p - 1) * l, l)
    ensures var p := page.GetOr(1); var l := limit.GetOr(20);
      var matching := SortDesc(Filter(docs, Matcher(StatusFilter(status))), CreatedAt);
      r.OrdersPage? && l < 0 ==> r.orders == Window(matching, (p - 1) * l, -l)
    ensures var matching := SortDesc(Filter(docs, Matcher(StatusFilter(status))), CreatedAt);
      r.OrdersPage? && limit.GetOr(20) == 0 ==> r.orders == matching
  {
    var matching := SortDesc(Filter(docs, Matcher(StatusFilter(status))), CreatedAt);
    var p := page.GetOr(1);
    var l := limit.GetOr(20);
    Paginate(matching, |matching|, p, l, (p - 1) * l)
  }

  /** The skip, the limit and the page count applied to the sorted matches
      `matching`, of which the count query found `total`. */
  function Paginate(matching: seq<Order>, total: nat, p: int, l: int, skip: int): (r: OrdersReply)
    ensures r.OrdersFailed? <==> skip < 0
    ensures r.OrdersFailed? ==> r == OrdersFailed(500, "Failed to fetch orders")
    ensures r.OrdersPage? ==>
      && skip >= 0
      && r.pagination.current == p
      && r.pagination.total == total
      && (r.pagination.pages.None? <==> l == 0)
      && (l > 0 ==> r.pagination.pages == Some(CeilDiv(total, l)))
      && (l > 0 ==> r.orders == Window(matching, skip, l))
      && (l < 0 ==> r.pagination.pages == Some(CeilDiv(total, l)))
      && (l < 0 ==> r.orders == Window(matching, skip, -l))
      && (l == 0 ==> r.orders == matching)
  {
    if skip < 0 then OrdersFailed(500, "Failed to fetch orders")
    else if l == 0 then OrdersPage(matching, Pagination(p, None, total))
    else if l > 0 then OrdersPage(Window(matching, skip, l), Pagination(p, Some(CeilDiv(total, l)), total))
    else OrdersPage(Window(matching, skip, -l), Pagination(p, Some(CeilDiv(total, l)), total))
  }

  /** With the defaults, the listing is the twenty newest matching orders,
      and the page count is the number of twenty-order pages. */
  lemma DefaultPage(docs: seq<Order>, status: Option<string>)
    ensures var r := AdminOrders(docs, status, None, None);
      && r.OrdersPage?
      && r.orders == Window(SortDesc(Filter(docs, Matcher(StatusFilter(status))), CreatedAt), 0, 20)
      && r.pagination.current == 1
  {
  }

  /** Floor division by a positive number is monotone. */
  lemma DivMonotone(a: nat, b: nat, c: int)
    requires a <= b && c > 0
    ensures a / c <= b / c
  {
    if a / c > b / c {
      assert (b / c + 1) * c <= (a / c) * c by {
        MulMonotone(b / c + 1, a / c, c);
      }
      assert false;
    }
  }

  lemma MulMonotone(a: int, b: int, c: int)
    requires a <= b && c >= 0
    ensures a * c <= b * c
  {
  }

  /** The quotient and remainder of a division are the only ones. */
  lemma DivUnique(a: int, c: int, q: int, r: int)
    requires c > 0 && a == q * c + r && 0 <= r < c
    ensures a / c == q && a % c == r
  {
    var q' := a / c;
    var r' := a % c;
    assert a == q' * c + r';
    if q' < q {
      MulMonotone(q' + 1, q, c);
    } else if q' > q {
      MulMonotone(q + 1, q', c);
    }
  }

  /** Position `i` of a listing lies on page `i / limit + 1`, at offset
      `i % limit`, and that page is within the page count. */
  lemma PageOfPosition(i: nat, limit: int, total: nat)
    requires limit > 0 && i < total
    ensures (i / limit) * limit + i % limit == i
    ensures 0 <= i % limit < limit
    ensures 1 <= i / limit + 1 <= CeilDiv(total, limit)
  {
    var q := i / limit;
    var r := i % limit;
    assert i + limit == (q + 1) * limit + r;
    DivUnique(i + limit, limit, q + 1, r);
    DivMonotone(i + limit, total + limit - 1, limit);
  }

  /** With a positive limit, page `q + 1` is the window that skips `q`
      whole pages, and the page count is reported. */
  lemma PositivePage(docs: seq<Order>, status: Option<string>, q: nat, limit: int)
    requires limit > 0
    ensures var matching := SortDesc(Filter(docs, Matcher(StatusFilter(status))), CreatedAt);
      var r := AdminOrders(docs, status, Some(q + 1), Some(limit));
      && q * limit >= 0
      && r == OrdersPage(Window(matching, q * limit, limit),
                         Pagination(q + 1, Some(CeilDiv(|matching|, limit)), |matching|))
  {
    MulMonotone(0, q, limit);
    assert (q + 1 - 1) * limit == q * limit;
    CountIsFilterLength(docs, Matcher(StatusFilter(status)));
  }

  /** With a positive limit, every matching order is on a page within the
      reported count: the order at position `q * limit + k` (`k < limit`)
      is shown on page `q + 1`, at position `k`. By `PageOfPosition` every
      position has this form, with `q = i / limit` and `k = i % limit`. */
  lemma EveryOrderOnItsPage(docs: seq<Order>, status: Option<string>, limit: int, q: nat, k: nat)
    requires 0 <= k < limit
    requires q * limit + k < |Filter(docs, Matcher(StatusFilter(status)))|
    ensures var matching := SortDesc(Filter(docs, Matcher(StatusFilter(status))), CreatedAt);
      var r := AdminOrders(docs, status, Some(q + 1), Some(limit));
      && r.OrdersPage?
      && r.pagination.pages.Some? && 1 <= q + 1 <= r.pagination.pages.value
      && k < |r.orders| && r.orders[k] == matching[q * limit + k]
  {
    var matching := SortDesc(Filter(docs, Matcher(StatusFilter(status))), CreatedAt);
    PageWithinCount(q, limit, |matching|);
    PositivePage(docs, status, q, limit);
    PositionInWindow(matching, limit, q, k);
  }

  /** A page that starts before the end is within the page count. */
  lemma PageWithinCount(q: nat, limit: int, total: nat)
    requires limit > 0 && q * limit < total
    ensures q + 1 <= CeilDiv(total, limit)
  {
    assert (q + 1) * limit <= total + limit - 1;
    DivUnique((q + 1) * limit, limit, q + 1, 0);
    DivMonotone((q + 1) * limit, total + limit - 1, limit);
  }

  /** Offset `k` of the window that skips `q` whole pages is position
      `q * limit + k`. */
  lemma PositionInWindow(matching: seq<Order>, limit: int, q: nat, k: nat)
    requires 0 <= k < limit && q * limit + k < |matching|
    ensures q * limit >= 0
    ensures var w := Window(matching, q * limit, limit);
      k < |w| && w[k] == matching[q * limit + k]
  {
    MulMonotone(0, q, limit);
  }

  // ---------------------------------------------------------------------
  // GET /partners/:id

  /** 404 unless the user exists and is a partner: the same gate as the
      role check of the partner accept handler. */
  function PartnerDetailsCheck(user: Option<User>): (r: Check)
    ensures r.Pass? <==> PartnerRoutes.PartnerAccount(user)
    ensures r.Reject? ==> r == Reject(404, "Partner not found")
  {
    if user.None? || user.value.role != "partner" then Reject(404, "Partner not found") else Pass
  }
}
