/** The request logic of backend/routes/partner.js: the available-orders
    listing, the accept handler's checks and notifications, and the status
    route's validation and update. The handlers that write orders are methods
    of OrderStore.OrderStore. */
module PartnerRoutes {
  import opened Optional
  import opened OrderModel
  import opened Events
  import opened Listing

  // ---------------------------------------------------------------------
  // GET /orders/available

  /** `status: { $in: ['placed', 'preparing'] }`. The query's other condition,
      `deliveryPartner: { $exists: false }`, names a field the order schema
      does not have, so every order document meets it. */
  predicate OpenForPartners(o: Order) {
    o.status in ["placed", "preparing"]
  }

  /** The listing, newest `createdAt` first. */
  function AvailableToPartners(docs: seq<Order>): seq<Order> {
    SortDesc(Filter(docs, OpenForPartners), CreatedAt)
  }

  /** Exactly the `placed` and `preparing` orders are listed, newest first. */
  lemma AvailableToPartnersSpec(docs: seq<Order>, o: Order)
    ensures o in AvailableToPartners(docs) <==> o in docs && (o.status == "placed" || o.status == "preparing")
    ensures SortedDesc(AvailableToPartners(docs), CreatedAt)
  {
    SortedFilterMembers(docs, OpenForPartners, CreatedAt, o);
  }

  /** Unlike the listing of backend/server.js, this one does not look at the
      claim: an assigned order that the status route moved to `preparing` is
      listed again. */
  lemma AssignedPreparingIsListed(o: Order)
    requires o.assignedPartner.Some? && o.status == "preparing"
    ensures o in AvailableToPartners([o])
  {
    AvailableToPartnersSpec([o], o);
  }

  // ---------------------------------------------------------------------
  // POST /orders/:orderId/accept

  predicate PartnerAccount(partner: Option<User>) {
    partner.Some? && partner.value.role == "partner"
  }

  /** `order.isLocked && order.lockedBy && order.lockedBy.toString() !== partnerId` */
  predicate LockedByOther(o: Order, partnerId: string) {
    o.isLocked && o.lockedBy.Some? && o.lockedBy.value != partnerId
  }

  /** The accept handler's checks, in the order it makes them; the first one
      that fails decides the answer: not a partner 403, no such order 404,
      locked by someone else 409, already assigned 400, not `placed` 400. */
  function AcceptCheck(partner: Option<User>, order: Option<Order>, partnerId: string): (r: Check)
    ensures r.Pass? <==>
      PartnerAccount(partner) && order.Some? && !LockedByOther(order.value, partnerId)
      && order.value.assignedPartner.None? && order.value.status == "placed"
    ensures r.Reject? && r.status == 403 <==> !PartnerAccount(partner)
    ensures r.Reject? && r.status == 404 <==> PartnerAccount(partner) && order.None?
    ensures r.Reject? && r.status == 409 <==> PartnerAccount(partner) && order.Some? && LockedByOther(order.value, partnerId)
    ensures r.Reject? ==> r.status in {400, 403, 404, 409}
    ensures r.Reject? && r.status == 403 ==> r.message == "Access denied. Partner account required."
    ensures r.Reject? && r.status == 404 ==> r.message == "Order not found"
    ensures r.Reject? && r.status == 409 ==> r.message == "Order is currently being processed by another partner"
    ensures (PartnerAccount(partner) && order.Some? && !LockedByOther(order.value, partnerId)
             && order.value.assignedPartner.Some?) ==>
      r == Reject(400, "Order already assigned to a partner")
    ensures (PartnerAccount(partner) && order.Some? && !LockedByOther(order.value, partnerId)
             && order.value.assignedPartner.None? && order.value.status != "placed") ==>
      r == Reject(400, "Order cannot be accepted in current status")
  {
    if !PartnerAccount(partner) then Reject(403, "Access denied. Partner account required.")
    else if order.None? then Reject(404, "Order not found")
    else if LockedByOther(order.value, partnerId) then Reject(409, "Order is currently being processed by another partner")
    else if order.value.assignedPartner.Some? then Reject(400, "Order already assigned to a partner")
    else if order.value.status != "placed" then Reject(400, "Order cannot be accepted in current status")
    else Pass
  }

  /** On a claimed order, another partner gets 409 and the winner, retrying,
      gets the "already assigned" 400. */
  lemma ClaimedOrderRefused(partner: User, o: Order, partnerId: string)
    requires partner.role == "partner"
    requires ClaimConsistent(o) && o.assignedPartner.Some?
    ensures partnerId != o.assignedPartner.value ==>
      AcceptCheck(Some(partner), Some(o), partnerId) == Reject(409, "Order is currently being processed by another partner")
    ensures partnerId == o.assignedPartner.value ==>
      AcceptCheck(Some(partner), Some(o), partnerId) == Reject(400, "Order already assigned to a partner")
  {
  }

  /** What a successful accept publishes, in order: `order_accepted` to the
      customer's room, `order_assigned` to the admins, `order_removed` to the
      partners. Building the partner's name reads `partner.profile`, so this
      needs a profile. */
  function AcceptNotifications(o: Order, partner: User, now: Instant): (r: seq<Emission>)
    requires partner.profile.Some?
    ensures |r| == 3
    ensures r[0].room == "customer_" + o.customerId && r[0].event == "order_accepted"
    ensures r[1].room == "admin" && r[1].event == "order_assigned"
    ensures r[2] == Emission("partners", "order_removed", RemovedPayload(o.orderId))
    ensures forall i :: 0 <= i < 3 ==> r[i].payload.orderId == o.orderId
    ensures r[0].payload.AcceptedPayload? && r[0].payload.estimatedDelivery == now + DeliveryEstimate
    ensures r[1].payload.AssignedPayload? && r[1].payload.customerName == o.customerEmail
  {
    var name := FullName(partner.profile.value);
    [ Emission("customer_" + o.customerId, "order_accepted",
               AcceptedPayload(o.orderId, name, partner.profile.value.phone, now + DeliveryEstimate)),
      Emission("admin", "order_assigned", AssignedPayload(o.orderId, o.customerEmail, name, o.timestamps.accepted.GetOr(now))),
      Emission("partners", "order_removed", RemovedPayload(o.orderId)) ]
  }

  // ---------------------------------------------------------------------
  // PUT /orders/:id/status

  const ValidStatuses: seq<string> := ["preparing", "out_for_delivery", "delivered"]

  /** The status route's checks: a status outside the three accepted values
      400, then a missing order 404. The current status is not consulted. */
  function StatusCheck(status: string, found: bool): (r: Check)
    ensures r.Pass? <==> status in ValidStatuses && found
    ensures status !in ValidStatuses ==> r == Reject(400, "Invalid status")
    ensures status in ValidStatuses && !found ==> r == Reject(404, "Order not found or not assigned to you")
    ensures r.Pass? ==> status != "placed"
  {
    if status !in ValidStatuses then Reject(400, "Invalid status")
    else if !found then Reject(404, "Order not found or not assigned to you")
    else Pass
  }

  /** Two of the three values the route accepts lie outside the schema's
      status enum. */
  lemma StatusRouteOutsideSchema()
    ensures exists s :: s in ValidStatuses && !SchemaStatus(s)
    ensures forall s :: s in ValidStatuses ==> (SchemaStatus(s) <==> s == "delivered")
  {
    assert "preparing" in ValidStatuses && !SchemaStatus("preparing");
  }

  /** The update as the route writes it: the new status, and the delivery
      time when it is `delivered`; nothing else. It keeps the claim fields
      consistent. */
  function WithStatus(o: Order, status: string, now: Instant): (r: Order)
    requires status in ValidStatuses
    ensures r.status == status
    ensures r.actualDeliveryTime == if status == "delivered" then Some(now) else o.actualDeliveryTime
    ensures r.(status := o.status, actualDeliveryTime := o.actualDeliveryTime) == o
    ensures ClaimConsistent(o) ==> ClaimConsistent(r)
  {
    var r := o.(status := status);
    if status == "delivered" then r.(actualDeliveryTime := Some(now)) else r
  }
}
