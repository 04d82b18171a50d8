/** The request logic of backend/routes/customer.js: the products query and
    its listing order, and the order-creation validation, mock product
    defaults, total loop and partner notification. The handler that writes
    the order is OrderStore.OrderStore.CreateCustomerOrder. */
module CustomerRoutes {
  import opened Optional
  import opened OrderModel
  import opened Events
  import opened Listing
  import ServerRoutes

  // ---------------------------------------------------------------------
  // GET /products

  /** The query object: `isAvailable: true` always, plus the optional
      conditions on category, name and `isFeatured`. */
  datatype ProductQuery = ProductQuery(category: Option<string>, namePattern: Option<string>, featuredOnly: bool)

  /** A query parameter is truthy when present and not empty. */
  predicate Given(param: Option<string>) {
    param.Some? && param.value != ""
  }

  /** The handler's query builder: it starts from `{ isAvailable: true }`
      and adds a condition for each parameter that asks for one. */
  method BuildProductsQuery(category: Option<string>, search: Option<string>, featured: Option<string>)
    returns (q: ProductQuery)
    ensures q.category.Some? <==> Given(category) && category.value != "All"
    ensures q.category.Some? ==> q.category == category
    ensures q.namePattern.Some? <==> Given(search)
    ensures q.namePattern.Some? ==> q.namePattern == search
    ensures q.featuredOnly <==> featured == Some("true")
  {
    q := ProductQuery(None, None, false);
    if Given(category) && category.value != "All" {
      q := q.(category := category);
    }
    if Given(search) {
      q := q.(namePattern := search);
    }
    if featured == Some("true") {
      q := q.(featuredOnly := true);
    }
  }

  /** Whether a product matches the query. `nameMatches(pattern, name)`
      stands for the case-insensitive regular expression test, which is not
      modelled. */
  predicate Selects(q: ProductQuery, p: Product, nameMatches: (string, string) -> bool) {
    && p.isAvailable
    && (q.category.Some? ==> p.category == q.category.value)
    && (q.namePattern.Some? ==> nameMatches(q.namePattern.value, p.name))
    && (q.featuredOnly ==> p.isFeatured)
  }

  /** Without conditions (no category or `All`, no search, `featured` not
      `'true'`), the query selects exactly the available products. */
  lemma UnfilteredSelectsAvailable(p: Product, nameMatches: (string, string) -> bool)
    ensures Selects(ProductQuery(None, None, false), p, nameMatches) <==> p.isAvailable
  {
  }

  function ProductCreatedAt(p: Product): int {
    p.createdAt
  }

  predicate Featured(p: Product) {
    p.isFeatured
  }

  predicate NotFeatured(p: Product) {
    !p.isFeatured
  }

  function Selector(q: ProductQuery, nameMatches: (string, string) -> bool): Product -> bool {
    p => Selects(q, p, nameMatches)
  }

  /** `.sort({ isFeatured: -1, createdAt: -1 })`: featured products first,
      each group newest first. */
  function ProductListing(products: seq<Product>, q: ProductQuery, nameMatches: (string, string) -> bool): seq<Product> {
    var byAge := SortDesc(Filter(products, Selector(q, nameMatches)), ProductCreatedAt);
    Filter(byAge, Featured) + Filter(byAge, NotFeatured)
  }

  /** The listing holds exactly the selected products. */
  lemma ProductListingMembers(products: seq<Product>, q: ProductQuery, nameMatches: (string, string) -> bool, x: Product)
    ensures x in ProductListing(products, q, nameMatches) <==> x in products && Selects(q, x, nameMatches)
  {
    var byAge := SortDesc(Filter(products, Selector(q, nameMatches)), ProductCreatedAt);
    SortedFilterMembers(products, Selector(q, nameMatches), ProductCreatedAt, x);
    FilterMembers(byAge, Featured, x);
    FilterMembers(byAge, NotFeatured, x);
  }

  /** Featured products, newest first, followed by the others, newest
      first, meet both sort keys. */
  lemma FeaturedThenOthers(f: seq<Product>, n: seq<Product>)
    requires forall k :: 0 <= k < |f| ==> f[k].isFeatured
    requires forall k :: 0 <= k < |n| ==> !n[k].isFeatured
    requires SortedDesc(f, ProductCreatedAt) && SortedDesc(n, ProductCreatedAt)
    ensures var r := f + n;
      && (forall i, j :: 0 <= i < j < |r| && r[j].isFeatured ==> r[i].isFeatured)
      && (forall i, j :: 0 <= i < j < |r| && r[i].isFeatured == r[j].isFeatured ==> r[i].createdAt >= r[j].createdAt)
  {
    var r := f + n;
    forall i, j | 0 <= i < j < |r| && r[i].isFeatured == r[j].isFeatured
      ensures r[i].createdAt >= r[j].createdAt
    {
      if j < |f| {
        assert ProductCreatedAt(f[i]) >= ProductCreatedAt(f[j]);
      } else if i >= |f| {
        assert ProductCreatedAt(n[i - |f|]) >= ProductCreatedAt(n[j - |f|]);
      }
    }
  }

  /** No featured product follows a non-featured one, and within each group
      the newer product comes first. */
  lemma ProductListingOrder(products: seq<Product>, q: ProductQuery, nameMatches: (string, string) -> bool)
    ensures var r := ProductListing(products, q, nameMatches);
      && (forall i, j :: 0 <= i < j < |r| && r[j].isFeatured ==> r[i].isFeatured)
      && (forall i, j :: 0 <= i < j < |r| && r[i].isFeatured == r[j].isFeatured ==> r[i].createdAt >= r[j].createdAt)
  {
    var byAge := SortDesc(Filter(products, Selector(q, nameMatches)), ProductCreatedAt);
    SortDescSorted(Filter(products, Selector(q, nameMatches)), ProductCreatedAt);
    FilterSorted(byAge, Featured, ProductCreatedAt);
    FilterSorted(byAge, NotFeatured, ProductCreatedAt);
    FeaturedThenOthers(Filter(byAge, Featured), Filter(byAge, NotFeatured));
  }

  // ---------------------------------------------------------------------
  // POST /orders

  /** The per-item validators: a productId and a name, a quantity that is
      an integer of at least 1, a numeric price. */
  predicate ValidItem(it: RequestItem) {
    && it.productId != ""
    && it.quantity.Some? && it.quantity.value >= 1
    && it.name != ""
    && it.price.Some?
  }

  predicate ValidRequest(req: OrderRequest) {
    && req.items.Some? && |req.items.value| >= 1
    && (forall i :: 0 <= i < |req.items.value| ==> ValidItem(req.items.value[i]))
    && req.deliveryAddress.Some? && req.deliveryAddress.value.phone != ""
  }

  /** The validation step: any failing validator gives one 400. */
  function ValidateOrder(req: OrderRequest): (r: Check)
    ensures r.Pass? <==> ValidRequest(req)
    ensures r.Reject? ==> r == Reject(400, "Validation failed")
  {
    if ValidRequest(req) then Pass else Reject(400, "Validation failed")
  }

  /** A request these validators accept also passes the checks of
      backend/server.js, and then every item has a numeric price and
      quantity, so that total is a number. */
  lemma ValidRequestPassesServerChecks(req: OrderRequest)
    requires ValidRequest(req)
    ensures ServerRoutes.CreateCheck(req) == Pass
    ensures ServerRoutes.RequestTotal(req.items.value).Some?
  {
    ServerRoutes.RequestTotalSpec(req.items.value);
  }

  /** The converse fails: backend/server.js takes an item without a name. */
  lemma ServerChecksAreWeaker()
    ensures exists req :: ServerRoutes.CreateCheck(req) == Pass && !ValidRequest(req)
  {
    var it := RequestItem("p1", "", Some(5), Some(1), "");
    var req := OrderRequest(Some([it]), Some(Address("", "", "", "", "555")));
    assert !ValidItem(req.items.value[0]);
    assert ServerRoutes.CreateCheck(req) == Pass;
  }

  /** `item.price || 10`: a zero price falls back to 10. */
  function EffectivePrice(price: int): (r: int)
    ensures r != 0
    ensures price != 0 ==> r == price
    ensures price == 0 ==> r == 10
  {
    if price != 0 then price else 10
  }

  /** The order line built from the mock product: the price falls back to
      10 and the image to `''` (a missing image is `""` already). The name
      would fall back to `'Product'`, but a validated item has one. */
  function MockItem(it: RequestItem): (r: OrderItem)
    requires ValidItem(it)
    ensures r.productId == it.productId && r.quantity == it.quantity.value && r.image == it.image
    ensures r.price == EffectivePrice(it.price.value)
    ensures r.name == it.name
  {
    OrderItem(it.productId, if it.name != "" then it.name else "Product", EffectivePrice(it.price.value),
              it.quantity.value, it.image)
  }

  function MockItems(items: seq<RequestItem>): (r: seq<OrderItem>)
    requires forall i :: 0 <= i < |items| ==> ValidItem(items[i])
    ensures |r| == |items|
    ensures forall i :: 0 <= i < |items| ==> r[i] == MockItem(items[i])
  {
    seq(|items|, i requires 0 <= i < |items| => MockItem(items[i]))
  }

  /** The creation loop: one order line per request item, in order, and the
      running total of effective price times quantity. */
  method PriceMockItems(items: seq<RequestItem>) returns (orderItems: seq<OrderItem>, total: int)
    requires forall i :: 0 <= i < |items| ==> ValidItem(items[i])
    ensures orderItems == MockItems(items)
    ensures total == ItemsTotal(orderItems)
  {
    total := 0;
    orderItems := [];
    for i := 0 to |items|
      invariant orderItems == MockItems(items[..i])
      invariant total == ItemsTotal(orderItems)
    {
      var item := items[i];
      var name := if item.name != "" then item.name else "Product";
      var price := if item.price.value != 0 then item.price.value else 10;
      var itemTotal := price * item.quantity.value;
      total := total + itemTotal;
      orderItems := orderItems + [OrderItem(item.productId, name, price, item.quantity.value, item.image)];
      assert orderItems[..i] == MockItems(items[..i]);
      assert orderItems == MockItems(items[..i + 1]);
    }
    assert items[..|items|] == items;
  }

  /** With no zero price, the lines and the total are those that
      backend/server.js computes for the same items. */
  lemma MockItemsAgreeWithServer(items: seq<RequestItem>)
    requires forall i :: 0 <= i < |items| ==> ValidItem(items[i]) && items[i].price.value != 0
    ensures ServerRoutes.RequestTotal(items).Some?
    ensures MockItems(items) == ServerRoutes.ToOrderItems(items)
    ensures ItemsTotal(MockItems(items)) == ServerRoutes.RequestTotal(items).value
  {
    ServerRoutes.RequestTotalSpec(items);
    assert MockItems(items) == ServerRoutes.ToOrderItems(items);
  }

  /** A zero price is charged as 10: the customer pays 10 per unit where
      backend/server.js would charge nothing. */
  lemma ZeroPriceCharged(it: RequestItem)
    requires ValidItem(it) && it.price == Some(0)
    ensures ItemsTotal(MockItems([it])) == 10 * it.quantity.value
    ensures ServerRoutes.RequestTotal([it]) == Some(0)
  {
    assert [it][..0] == [];
    assert MockItems([it])[..0] == [];
  }

  /** The `new_order` notification to the partners. The customer's name is
      built from `customer.profile`; without one the name cannot be built,
      the handler's inner `catch` swallows the error and nothing is sent. */
  function NewOrderNotifications(o: Order, customer: User, io: bool): (r: seq<Emission>)
    ensures |r| <= 1
    ensures r != [] <==> io && customer.profile.Some?
    ensures r != [] ==> r[0].room == "partners" && r[0].event == "new_order"
    ensures r != [] ==>
      && r[0].payload.NewOrderPayload? && r[0].payload.orderId == o.orderId
      && r[0].payload.total == o.total && r[0].payload.items == o.items
      && r[0].payload.deliveryAddress == o.deliveryAddress && r[0].payload.timestamp == o.timestamps.placed
  {
    if io && customer.profile.Some? then
      [Emission("partners", "new_order",
                NewOrderPayload(o.orderId, FullName(customer.profile.value), o.total, o.items,
                                o.deliveryAddress, o.timestamps.placed))]
    else []
  }
}
