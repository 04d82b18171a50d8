/** The request logic of backend/server.js: bearer-token extraction, the
    available-orders listing, the accept variant's checks, the order-creation
    checks and total loop, and the dashboard and per-partner counts. The
    handlers that write orders are methods of OrderStore.OrderStore. */
module ServerRoutes {
  import opened Optional
  import opened OrderModel
  import opened Listing

  // ---------------------------------------------------------------------
  // authenticateToken

  /** `s.split(sep)` as JavaScript does it: the pieces between separators,
      empty pieces included, so there is always at least one. */
  function Split(s: string, sep: char): (r: seq<string>)
    ensures |r| >= 1
    ensures forall i :: 0 <= i < |r| ==> sep !in r[i]
  {
    if s == [] then [""]
    else
      var rest := Split(s[1..], sep);
      if s[0] == sep then [""] + rest
      else [[s[0]] + rest[0]] + rest[1..]
  }

  /** `parts.join(sep)`. */
  function Join(parts: seq<string>, sep: char): string
    requires |parts| >= 1
  {
    if |parts| == 1 then parts[0] else parts[0] + [sep] + Join(parts[1..], sep)
  }

  /** Joining the pieces again gives back the string that was split. */
  lemma {:induction false} SplitJoin(s: string, sep: char)
    ensures Join(Split(s, sep), sep) == s
  {
    if s != [] {
      var rest := Split(s[1..], sep);
      SplitJoin(s[1..], sep);
      if s[0] == sep {
        assert ([""] + rest)[1..] == rest;
      } else {
        var r := [[s[0]] + rest[0]] + rest[1..];
        if |rest| == 1 {
          assert r == [[s[0]] + rest[0]];
        } else {
          assert r[1..] == rest[1..];
          assert Join(rest, sep) == rest[0] + [sep] + Join(rest[1..], sep);
        }
      }
    }
  }

  /** Splitting a string that starts with a separator-free word `w`. */
  lemma {:induction false} SplitAfterWord(w: string, t: string, sep: char)
    requires sep !in w
    ensures Split(w + t, sep) == [w + Split(t, sep)[0]] + Split(t, sep)[1..]
  {
    if w != [] {
      assert (w + t)[1..] == w[1..] + t;
      SplitAfterWord(w[1..], t, sep);
      assert [w[0]] + (w[1..] + Split(t, sep)[0]) == w + Split(t, sep)[0];
    } else {
      assert w + t == t;
      assert w + Split(t, sep)[0] == Split(t, sep)[0];
      assert Split(t, sep) == [Split(t, sep)[0]] + Split(t, sep)[1..];
    }
  }

  /** `authHeader && authHeader.split(' ')[1]`, with a falsy result (a missing
      header, an empty header, no second word, an empty second word) as None. */
  function BearerToken(header: Option<string>): (r: Option<string>)
    ensures r.Some? ==> r.value != "" && ' ' !in r.value
    ensures r.Some? ==> header.Some? && |Split(header.value, ' ')| > 1 && Split(header.value, ' ')[1] == r.value
  {
    if header.None? || header.value == "" then None
    else
      var parts := Split(header.value, ' ');
      if |parts| > 1 && parts[1] != "" then Some(parts[1]) else None
  }

  /** The token of `<scheme> <token>` (RFC 6750, section 2.1) is the second
      word; the scheme word itself is not checked. */
  lemma BearerTokenOfCredentials(scheme: string, token: string, rest: string)
    requires ' ' !in scheme && ' ' !in token && token != ""
    requires rest == [] || rest[0] == ' '
    ensures BearerToken(Some(scheme + " " + token + rest)) == Some(token)
  {
    var h := scheme + " " + token + rest;
    var tail := [' '] + (token + rest);
    assert h == scheme + tail;
    SplitAfterWord(scheme, tail, ' ');
    assert tail[0] == ' ' && tail[1..] == token + rest;
    var s2 := Split(token + rest, ' ');
    assert Split(tail, ' ') == [""] + s2;
    SplitAfterWord(token, rest, ' ');
    if rest != [] {
      assert rest[0] == ' ';
      assert Split(rest, ' ') == [""] + Split(rest[1..], ' ');
    }
    assert Split(rest, ' ')[0] == "";
    assert s2[0] == token;
    assert Split(h, ' ')[1] == token;
    assert h != "";
  }

  /** A header with no space yields no token, so the request is refused 401. */
  lemma BearerTokenNeedsTwoWords(h: string)
    requires ' ' !in h
    ensures BearerToken(Some(h)) == None
  {
    SplitAfterWord(h, "", ' ');
    assert h + "" == h;
  }

  datatype AuthResult = Authenticated(userId: string) | Denied(status: int, message: string)

  /** The middleware: 401 without a token, 403 when the token does not verify,
      otherwise the verified user id. `verify` stands for `jwt.verify`. The
      copies of the middleware in backend/server.js and in the route files
      differ only in the 403 message, which is a parameter here. */
  function Authenticate(header: Option<string>, verify: string -> Option<string>, invalidMessage: string): (r: AuthResult)
    ensures r.Denied? && r.status == 401 <==> BearerToken(header).None?
    ensures r.Denied? && r.status == 403 <==> BearerToken(header).Some? && verify(BearerToken(header).value).None?
    ensures r.Denied? && r.status == 403 ==> r.message == invalidMessage
    ensures r.Authenticated? ==> BearerToken(header).Some? && Some(r.userId) == verify(BearerToken(header).value)
  {
    match BearerToken(header)
    case None => Denied(401, "Access token required")
    case Some(token) =>
      match verify(token)
      case None => Denied(403, invalidMessage)
      case Some(userId) => Authenticated(userId)
  }

  /** The 403 message of backend/server.js. */
  const ServerInvalidToken := "Invalid token"

  /** The 403 message of backend/routes/partner.js and customer.js. */
  const RouterInvalidToken := "Invalid or expired token"

  /** The middleware of backend/server.js and that of the route files give
      the same answer for the same header and verification result, except
      for the wording of the 403. */
  lemma MiddlewaresDifferOnlyInMessage(header: Option<string>, verify: string -> Option<string>)
    ensures var a := Authenticate(header, verify, ServerInvalidToken);
      var b := Authenticate(header, verify, RouterInvalidToken);
      && (a.Denied? && a.status == 403 <==> b.Denied? && b.status == 403)
      && (a.Denied? && a.status == 403 ==> a.message == ServerInvalidToken && b.message == RouterInvalidToken)
      && (!(a.Denied? && a.status == 403) ==> a == b)
  {
  }

  // ---------------------------------------------------------------------
  // GET /api/partner/orders/available

  predicate Claimable(o: Order) {
    o.status == "placed" && !o.isLocked
  }

  function PlacedAt(o: Order): int {
    o.timestamps.placed
  }

  /** `Order.find({ status: 'placed', isLocked: false }).sort({ 'timestamps.placed': -1 })` */
  function AvailableOrders(docs: seq<Order>): seq<Order> {
    SortDesc(Filter(docs, Claimable), PlacedAt)
  }

  /** The listing holds exactly the placed, unlocked orders, newest first. */
  lemma AvailableOrdersSpec(docs: seq<Order>, o: Order)
    ensures o in AvailableOrders(docs) <==> o in docs && o.status == "placed" && !o.isLocked
    ensures SortedDesc(AvailableOrders(docs), PlacedAt)
  {
    SortedFilterMembers(docs, Claimable, PlacedAt, o);
  }

  /** A claimed order is never listed as available. */
  lemma ClaimedNotAvailable(docs: seq<Order>, o: Order)
    requires ClaimConsistent(o) && o.assignedPartner.Some?
    ensures o !in AvailableOrders(docs)
  {
    AvailableOrdersSpec(docs, o);
  }

  // ---------------------------------------------------------------------
  // POST /api/partner/orders/:orderId/accept

  /** The accept variant's checks, in the order it makes them: missing order
      404, not `placed` 400, locked 400, unknown partner 404. The caller's
      role is never examined. */
  function AcceptCheck(order: Option<Order>, partner: Option<User>): (r: Check)
    ensures r.Pass? <==> order.Some? && order.value.status == "placed" && !order.value.isLocked && partner.Some?
    ensures order.None? ==> r == Reject(404, "Order not found")
    ensures r.Reject? && r.status == 404 ==> order.None? || (Claimable(order.value) && partner.None?)
    ensures r.Reject? ==> r.status == 400 || r.status == 404
    ensures order.Some? && Claimable(order.value) && partner.None? ==> r == Reject(404, "Partner not found")
    ensures order.Some? && order.value.status != "placed" ==> r == Reject(400, "Order is no longer available")
    ensures order.Some? && order.value.status == "placed" && order.value.isLocked ==>
      r == Reject(400, "Order is already being processed by another partner")
  {
    if order.None? then Reject(404, "Order not found")
    else if order.value.status != "placed" then Reject(400, "Order is no longer available")
    else if order.value.isLocked then Reject(400, "Order is already being processed by another partner")
    else if partner.None? then Reject(404, "Partner not found")
    else Pass
  }

  /** Any user record passes the checks of this variant, whatever its role:
      the role check of backend/routes/partner.js is missing here. */
  lemma AcceptIgnoresRole(o: Order, u: User, role: string)
    requires Claimable(o)
    ensures AcceptCheck(Some(o), Some(u.(role := role))) == Pass
  {
  }

  // ---------------------------------------------------------------------
  // POST /api/customer/orders

  /** The checks made before the customer lookup. */
  function CreateCheck(req: OrderRequest): (r: Check)
    ensures r.Pass? <==> req.items.Some? && req.items.value != [] && req.deliveryAddress.Some? && req.deliveryAddress.value.phone != ""
    ensures r.Reject? ==> r.status == 400
    ensures req.items.None? || req.items.value == [] ==> r == Reject(400, "Items are required")
  {
    if req.items.None? || |req.items.value| == 0 then Reject(400, "Items are required")
    else if req.deliveryAddress.None? || req.deliveryAddress.value.phone == "" then
      Reject(400, "Delivery address with phone number is required")
    else Pass
  }

  predicate Numeric(it: RequestItem) {
    it.price.Some? && it.quantity.Some?
  }

  /** `item.price * item.quantity` summed in order, with `None` for a total
      that is not a number (a missing price or quantity makes it NaN). */
  function RequestTotal(items: seq<RequestItem>): (r: Option<int>)
    ensures r.Some? <==> forall i :: 0 <= i < |items| ==> Numeric(items[i])
  {
    if items == [] then Some(0)
    else
      var t := RequestTotal(items[..|items| - 1]);
      var it := items[|items| - 1];
      if t.Some? && Numeric(it) then Some(t.value + it.price.value * it.quantity.value) else None
  }

  function ToOrderItem(it: RequestItem): (r: OrderItem)
    requires Numeric(it)
    ensures r.productId == it.productId && r.name == it.name && r.image == it.image
    ensures Some(r.price) == it.price && Some(r.quantity) == it.quantity
  {
    OrderItem(it.productId, it.name, it.price.value, it.quantity.value, it.image)
  }

  function ToOrderItems(items: seq<RequestItem>): (r: seq<OrderItem>)
    requires forall i :: 0 <= i < |items| ==> Numeric(items[i])
    ensures |r| == |items|
    ensures forall i :: 0 <= i < |items| ==> r[i] == ToOrderItem(items[i])
  {
    seq(|items|, i requires 0 <= i < |items| => ToOrderItem(items[i]))
  }

  /** A numeric total is the sum of price times quantity over the order
      lines the items become. */
  lemma {:induction false} RequestTotalSpec(items: seq<RequestItem>)
    ensures RequestTotal(items).Some? ==> RequestTotal(items).value == ItemsTotal(ToOrderItems(items))
    decreases |items|
  {
    if items != [] {
      var n := |items| - 1;
      var init := items[..n];
      RequestTotalSpec(init);
      assert forall i :: 0 <= i < n ==> init[i] == items[i];
      if RequestTotal(items).Some? {
        assert ToOrderItems(items)[..n] == ToOrderItems(init);
      }
    }
  }

  /** The creation loop: one copied entry per request item, in order, and
      the running total of price times quantity. */
  method PriceItems(items: seq<RequestItem>) returns (orderItems: seq<RequestItem>, total: Option<int>)
    ensures orderItems == items
    ensures total == RequestTotal(items)
  {
    total := Some(0);
    orderItems := [];
    for i := 0 to |items|
      invariant orderItems == items[..i]
      invariant total == RequestTotal(items[..i])
    {
      var item := items[i];
      var itemTotal: Option<int> := if Numeric(item) then Some(item.price.value * item.quantity.value) else None;
      total := if total.Some? && itemTotal.Some? then Some(total.value + itemTotal.value) else None;
      orderItems := orderItems + [RequestItem(item.productId, item.name, item.price, item.quantity, item.image)];
      assert items[..i + 1][..i] == items[..i];
    }
    assert items[..|items|] == items;
  }

  // ---------------------------------------------------------------------
  // GET /api/admin/partners and GET /api/admin/dashboard

  predicate Pending(o: Order) {
    o.status == "placed"
  }

  predicate InProgress(o: Order) {
    o.status in ["accepted", "picked_up", "in_transit"]
  }

  predicate Completed(o: Order) {
    o.status == "delivered"
  }

  datatype DashboardStats = DashboardStats(
    totalOrders: nat, pendingOrders: nat, activeOrders: nat, completedOrders: nat,
    totalPartners: nat, totalCustomers: nat)

  predicate IsPartner(u: User) {
    u.role == "partner"
  }

  predicate IsCustomer(u: User) {
    u.role == "customer"
  }

  /** The dashboard's counts. Pending, active and completed never overlap,
      so together they are at most the number of orders; likewise partners
      and customers. */
  function DashboardCounts(docs: seq<Order>, users: seq<User>): (r: DashboardStats)
    ensures r.totalOrders == |docs|
    ensures r.pendingOrders == Count(docs, Pending) == |Filter(docs, Pending)|
    ensures r.activeOrders == Count(docs, InProgress) == |Filter(docs, InProgress)|
    ensures r.completedOrders == Count(docs, Completed) == |Filter(docs, Completed)|
    ensures r.totalPartners == Count(users, IsPartner) && r.totalCustomers == Count(users, IsCustomer)
    ensures r.pendingOrders + r.activeOrders + r.completedOrders <= r.totalOrders
    ensures r.totalPartners + r.totalCustomers <= |users|
  {
    CountDisjoint3(docs, Pending, InProgress, Completed);
    CountDisjoint2(users, IsPartner, IsCustomer);
    CountIsFilterLength(docs, Pending);
    CountIsFilterLength(docs, InProgress);
    CountIsFilterLength(docs, Completed);
    DashboardStats(|docs|, Count(docs, Pending), Count(docs, InProgress), Count(docs, Completed),
                   Count(users, IsPartner), Count(users, IsCustomer))
  }

  /** Every order with a schema status other than `cancelled` is counted in
      exactly one of pending, active, completed. */
  lemma DashboardClassesCover(o: Order)
    requires SchemaStatus(o.status) && o.status != "cancelled"
    ensures (if Pending(o) then 1 else 0) + (if InProgress(o) then 1 else 0) + (if Completed(o) then 1 else 0) == 1
  {
  }

  /** The five most recently placed orders: the first five (or all, when
      there are fewer) of the collection sorted newest placement first. */
  function RecentOrders(docs: seq<Order>): (r: seq<Order>)
    ensures |r| == if |docs| < 5 then |docs| else 5
    ensures forall k :: 0 <= k < |r| ==> r[k] in docs
    ensures SortedDesc(r, PlacedAt)
    ensures r == SortDesc(docs, PlacedAt)[..|r|]
    ensures forall i, k :: 0 <= i < |r| <= k < |docs| ==>
      PlacedAt(SortDesc(docs, PlacedAt)[k]) <= PlacedAt(r[i])
  {
    var sorted := SortDesc(docs, PlacedAt);
    SortedTop(docs, PlacedAt, if |docs| < 5 then |docs| else 5);
    WindowFromStart(sorted, 5);
    Window(sorted, 0, 5)
  }

  datatype PartnerStats = PartnerStats(totalOrders: nat, activeOrders: nat, completedOrders: nat)

  /** `{ assignedPartner: partnerId }` */
  function AssignedTo(partnerId: string): Order -> bool {
    (o: Order) => o.assignedPartner == Some(partnerId)
  }

  /** `{ assignedPartner: partnerId, status: { $in: [...] } }` */
  function ActiveFor(partnerId: string): Order -> bool {
    (o: Order) => o.assignedPartner == Some(partnerId) && InProgress(o)
  }

  /** `{ assignedPartner: partnerId, status: 'delivered' }` */
  function CompletedFor(partnerId: string): Order -> bool {
    (o: Order) => o.assignedPartner == Some(partnerId) && Completed(o)
  }

  /** One partner's counts: orders assigned to it, those of them in
      progress, and those delivered. Active and completed are disjoint parts
      of the assigned ones. */
  function PartnerCounts(docs: seq<Order>, partnerId: string): (r: PartnerStats)
    ensures r.totalOrders == Count(docs, AssignedTo(partnerId)) == |Filter(docs, AssignedTo(partnerId))|
    ensures r.activeOrders == Count(docs, ActiveFor(partnerId))
    ensures r.completedOrders == Count(docs, CompletedFor(partnerId))
    ensures r.activeOrders + r.completedOrders <= r.totalOrders <= |docs|
  {
    CountDisjointWithin(docs, AssignedTo(partnerId), ActiveFor(partnerId), CompletedFor(partnerId));
    CountIsFilterLength(docs, AssignedTo(partnerId));
    PartnerStats(Count(docs, AssignedTo(partnerId)), Count(docs, ActiveFor(partnerId)), Count(docs, CompletedFor(partnerId)))
  }

  /** An order another partner holds is never in this partner's counts. */
  lemma {:induction false} OthersOrdersUncounted(docs: seq<Order>, partnerId: string)
    requires forall i :: 0 <= i < |docs| ==> docs[i].assignedPartner != Some(partnerId)
    ensures PartnerCounts(docs, partnerId) == PartnerStats(0, 0, 0)
  {
    CountNone(docs, AssignedTo(partnerId));
    CountNone(docs, ActiveFor(partnerId));
    CountNone(docs, CompletedFor(partnerId));
  }
}
