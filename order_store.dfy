/** The order collection and the handlers that write it: the two accept
    handlers, the partner status route, and the two creation handlers. Each
    handler is a method that makes the route's checks, assigns the order's
    fields and saves it; its contract ties the outcome to the route
    functions of ServerRoutes, PartnerRoutes and CustomerRoutes. What the
    handlers publish through the socket server is appended to `events`. */
module OrderStore {
  import opened Optional
  import opened OrderModel
  import opened Events
  import ServerRoutes
  import PartnerRoutes
  import CustomerRoutes
  import SingleClaim

  /** Every key is stored once, under its own `orderId`, and every document
      keeps its claim fields consistent. */
  ghost predicate StoreInvariant(orders: map<string, Order>, ids: seq<string>) {
    && (forall i, j :: 0 <= i < j < |ids| ==> ids[i] != ids[j])
    && (forall k :: k in orders <==> k in ids)
    && (forall k :: k in orders ==> orders[k].orderId == k && ClaimConsistent(orders[k]))
  }

  /** Saving a document back under its key keeps the invariant. */
  lemma ReplaceKeepsInvariant(orders: map<string, Order>, ids: seq<string>, o: Order)
    requires StoreInvariant(orders, ids) && o.orderId in orders && ClaimConsistent(o)
    ensures StoreInvariant(orders[o.orderId := o], ids)
  {
  }

  class OrderStore {
    /** The documents, keyed by `orderId` (the schema makes it unique). */
    var orders: map<string, Order>
    /** The keys in insertion order: the collection's natural order. */
    var ids: seq<string>
    /** What the handlers have published, oldest first. */
    var events: seq<Emission>
    /** Whether the socket server is attached (`req.app.get('io')`). */
    const io: bool

    ghost predicate Valid()
      reads this
    {
      StoreInvariant(orders, ids)
    }

    constructor(io: bool)
      ensures Valid()
      ensures orders == map[] && ids == [] && events == [] && this.io == io
    {
      orders := map[];
      ids := [];
      events := [];
      this.io := io;
    }

    /** `Order.findOne({ orderId })` */
    function Lookup(orderId: string): (r: Option<Order>)
      reads this
      ensures r.Some? <==> orderId in orders
      ensures r.Some? ==> r.value == orders[orderId]
    {
      if orderId in orders then Some(orders[orderId]) else None
    }

    /** The accept handler of backend/routes/partner.js. A request that fails
        a check changes nothing. One that passes claims the order and saves
        it; with the socket server attached the three notifications follow,
        and building them needs the partner's profile: without one the
        handler fails with 500 after the save, so the claim stays. */
    method AcceptOrder(orderId: string, partnerId: string, partner: Option<User>, now: Instant) returns (reply: Reply)
      requires Valid()
      modifies this
      ensures Valid()
      ensures ids == old(ids)
      ensures orderId in old(orders) ==>
        orders[orderId] == SingleClaim.Step(old(orders)[orderId], SingleClaim.PartnerAccept(partnerId, partner, now))
      ensures var check := PartnerRoutes.AcceptCheck(partner, old(Lookup(orderId)), partnerId);
        check.Reject? ==> reply == Err(check.status, check.message) && orders == old(orders) && events == old(events)
      ensures PartnerRoutes.AcceptCheck(partner, old(Lookup(orderId)), partnerId).Pass? ==>
        orders == old(orders)[orderId := Claim(old(orders)[orderId], partnerId, partner.value.email, now)]
      ensures PartnerRoutes.AcceptCheck(partner, old(Lookup(orderId)), partnerId).Pass? && io && partner.value.profile.None? ==>
        reply == Err(500, "Failed to accept order") && events == old(events)
      ensures PartnerRoutes.AcceptCheck(partner, old(Lookup(orderId)), partnerId).Pass? && !(io && partner.value.profile.None?) ==>
        && reply == Ok(200, orders[orderId])
        && events == old(events) + (if io then PartnerRoutes.AcceptNotifications(orders[orderId], partner.value, now) else [])
    {
      var check := PartnerRoutes.AcceptCheck(partner, Lookup(orderId), partnerId);
      if check.Reject? {
        return Err(check.status, check.message);
      }
      // lock, assign, record the e-mail, set `accepted` and its timestamp
      var order := Claim(orders[orderId], partnerId, partner.value.email, now);
      ReplaceKeepsInvariant(orders, ids, order);
      orders := orders[orderId := order];
      if io {
        if partner.value.profile.None? {
          return Err(500, "Failed to accept order");
        }
        events := events + PartnerRoutes.AcceptNotifications(order, partner.value, now);
      }
      reply := Ok(200, order);
    }

    /** The accept handler of backend/server.js: the same claim after its
        own checks, and no notifications. */
    method AcceptOrderVariant(orderId: string, partnerId: string, partner: Option<User>, now: Instant) returns (reply: Reply)
      requires Valid()
      modifies this
      ensures Valid()
      ensures ids == old(ids) && events == old(events)
      ensures orderId in old(orders) ==>
        orders[orderId] == SingleClaim.Step(old(orders)[orderId], SingleClaim.ServerAccept(partnerId, partner, now))
      ensures var check := ServerRoutes.AcceptCheck(old(Lookup(orderId)), partner);
        check.Reject? ==> reply == Err(check.status, check.message) && orders == old(orders)
      ensures ServerRoutes.AcceptCheck(old(Lookup(orderId)), partner).Pass? ==>
        && orders == old(orders)[orderId := Claim(old(orders)[orderId], partnerId, partner.value.email, now)]
        && reply == Ok(200, orders[orderId])
    {
      var check := ServerRoutes.AcceptCheck(Lookup(orderId), partner);
      if check.Reject? {
        return Err(check.status, check.message);
      }
      // lock, assign, record the e-mail, set `accepted` and its timestamp
      var order := Claim(orders[orderId], partnerId, partner.value.email, now);
      ReplaceKeepsInvariant(orders, ids, order);
      orders := orders[orderId := order];
      reply := Ok(200, order);
    }

    /** The status route of backend/routes/partner.js: a status outside its
        three values 400, an unknown order 404, otherwise the status (and,
        for `delivered`, the delivery time) is written whatever the current
        status is. */
    method UpdateStatus(orderId: string, status: string, now: Instant) returns (reply: Reply)
      requires Valid()
      modifies this
      ensures Valid()
      ensures ids == old(ids) && events == old(events)
      ensures orderId in old(orders) ==>
        orders[orderId] == SingleClaim.Step(old(orders)[orderId], SingleClaim.StatusUpdate(status, now))
      ensures var check := PartnerRoutes.StatusCheck(status, orderId in old(orders));
        if check.Reject? then
          reply == Err(check.status, check.message) && orders == old(orders)
        else
          && orders == old(orders)[orderId := PartnerRoutes.WithStatus(old(orders)[orderId], status, now)]
          && reply == Ok(200, orders[orderId])
    {
      var check := PartnerRoutes.StatusCheck(status, orderId in orders);
      if check.Reject? {
        return Err(check.status, check.message);
      }
      var order := orders[orderId];
      order := order.(status := status);
      if status == "delivered" {
        order := order.(actualDeliveryTime := Some(now));
      }
      ReplaceKeepsInvariant(orders, ids, order);
      orders := orders[orderId := order];
      reply := Ok(200, order);
    }

    /** Stores a new document under a fresh key. */
    method Insert(o: Order)
      requires Valid() && o.orderId !in orders && ClaimConsistent(o)
      modifies this
      ensures Valid()
      ensures orders == old(orders)[o.orderId := o] && ids == old(ids) + [o.orderId]
      ensures events == old(events)
    {
      orders := orders[o.orderId := o];
      ids := ids + [o.orderId];
    }

    /** The creation handler of backend/server.js. Its checks come before
        the customer lookup; a total that is not a number (an item without
        a numeric price or quantity) cannot be stored, nor can a second
        order under an existing `orderId`: both fail with 500. */
    method CreateOrder(customerId: string, customer: Option<User>, req: OrderRequest, orderId: string, now: Instant)
      returns (reply: Reply)
      requires Valid()
      modifies this
      ensures Valid()
      ensures events == old(events)
      ensures var check := ServerRoutes.CreateCheck(req);
        && (check.Reject? ==> reply == Err(check.status, check.message))
        && (check.Pass? && customer.None? ==> reply == Err(404, "Customer not found"))
        && (check.Pass? && customer.Some? && (ServerRoutes.RequestTotal(req.items.value).None? || orderId in old(orders)) ==>
              reply == Err(500, "Failed to create order"))
        && (reply.Err? ==> orders == old(orders) && ids == old(ids))
        && (reply.Ok? <==> check.Pass? && customer.Some? && ServerRoutes.RequestTotal(req.items.value).Some? && orderId !in old(orders))
        && (reply.Ok? ==>
              && reply.status == 201
              && reply.order == NewOrder(orderId, customerId, customer.value.email,
                                         ServerRoutes.ToOrderItems(req.items.value),
                                         ServerRoutes.RequestTotal(req.items.value).value,
                                         req.deliveryAddress.value, now)
              && reply.order.total == ItemsTotal(reply.order.items)
              && orders == old(orders)[orderId := reply.order] && ids == old(ids) + [orderId])
    {
      var check := ServerRoutes.CreateCheck(req);
      if check.Reject? {
        return Err(check.status, check.message);
      }
      if customer.None? {
        return Err(404, "Customer not found");
      }
      var items, total := ServerRoutes.PriceItems(req.items.value);
      if total.None? || orderId in orders {
        return Err(500, "Failed to create order");
      }
      ServerRoutes.RequestTotalSpec(items);
      var order := NewOrder(orderId, customerId, customer.value.email, ServerRoutes.ToOrderItems(items),
                            total.value, req.deliveryAddress.value, now);
      Insert(order);
      reply := Ok(201, order);
    }

    /** The creation handler of backend/routes/customer.js. Validation
        comes first, then the customer lookup; the lines use the mock
        product defaults. After the save the partners are notified; a
        failure there (no customer profile) is swallowed and the order is
        still created with 201. */
    method CreateCustomerOrder(customerId: string, customer: Option<User>, req: OrderRequest, orderId: string, now: Instant)
      returns (reply: Reply)
      requires Valid()
      modifies this
      ensures Valid()
      ensures var check := CustomerRoutes.ValidateOrder(req);
        && (check.Reject? ==> reply == Err(400, "Validation failed"))
        && (check.Pass? && customer.None? ==> reply == Err(404, "Customer not found"))
        && (check.Pass? && customer.Some? && orderId in old(orders) ==> reply == Err(500, "Failed to create order"))
        && (reply.Err? ==> orders == old(orders) && ids == old(ids) && events == old(events))
        && (reply.Ok? <==> check.Pass? && customer.Some? && orderId !in old(orders))
        && (reply.Ok? ==>
              && reply.status == 201
              && reply.order == NewOrder(orderId, customerId, customer.value.email,
                                         CustomerRoutes.MockItems(req.items.value),
                                         ItemsTotal(CustomerRoutes.MockItems(req.items.value)),
                                         req.deliveryAddress.value, now)
              && orders == old(orders)[orderId := reply.order] && ids == old(ids) + [orderId]
              && events == old(events) + CustomerRoutes.NewOrderNotifications(reply.order, customer.value, io))
    {
      var check := CustomerRoutes.ValidateOrder(req);
      if check.Reject? {
        return Err(400, "Validation failed");
      }
      if customer.None? {
        return Err(404, "Customer not found");
      }
      var items, total := CustomerRoutes.PriceMockItems(req.items.value);
      if orderId in orders {
        return Err(500, "Failed to create order");
      }
      var order := NewOrder(orderId, customerId, customer.value.email, items, total, req.deliveryAddress.value, now);
      Insert(order);
      events := events + CustomerRoutes.NewOrderNotifications(order, customer.value, io);
      reply := Ok(201, order);
    }
  }
}
