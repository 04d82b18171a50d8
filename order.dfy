/** The order document of the store (backend/models/Order.js), the user records the
    route handlers look up, the request shapes that create orders, and the two
    order updates shared by the handlers: the claim and the order total. */
module OrderModel {
  import opened Optional

  /** Milliseconds since the epoch, as `Date.now()` and `new Date()` give them. */
  type Instant = int

  /** The values the schema's `status` enum admits. Route handlers may still
      write other strings ('preparing', 'out_for_delivery'), so a status is a
      plain string and this predicate says whether it is one of the enum's. */
  predicate SchemaStatus(s: string) {
    s in ["placed", "accepted", "picked_up", "in_transit", "delivered", "cancelled"]
  }

  datatype Address = Address(street: string, city: string, state: string, zipCode: string, phone: string)

  /** One line of an order. Prices are whole cents. */
  datatype OrderItem = OrderItem(productId: string, name: string, price: int, quantity: int, image: string)

  datatype Timestamps = Timestamps(
    placed: Instant,
    accepted: Option<Instant>,
    pickedUp: Option<Instant>,
    inTransit: Option<Instant>,
    delivered: Option<Instant>)

  /** An order document. `createdAt` is the creation time that the schema's
      `timestamps: true` option adds; `actualDeliveryTime` is the field the
      partner status route writes. */
  datatype Order = Order(
    orderId: string,
    customerId: string,
    customerEmail: string,
    items: seq<OrderItem>,
    total: int,
    deliveryAddress: Address,
    status: string,
    assignedPartner: Option<string>,
    partnerEmail: Option<string>,
    timestamps: Timestamps,
    isLocked: bool,
    lockedBy: Option<string>,
    actualDeliveryTime: Option<Instant>,
    createdAt: Instant)

  datatype Profile = Profile(firstName: string, lastName: string, phone: string)

  /** A user as `User.findById` returns it. The user schema declares no
      `profile`, so in this repository it is absent; it is optional here. */
  datatype User = User(id: string, email: string, role: string, profile: Option<Profile>)

  /** A catalogue product (backend/models/Product.js), with the fields the
      route queries read. */
  datatype Product = Product(name: string, price: int, category: string, stock: int,
                             isAvailable: bool, isFeatured: bool, createdAt: Instant)

  /** An item of an order request body. A missing string field is `""`; a
      missing or non-numeric `price`/`quantity` is `None`. */
  datatype RequestItem = RequestItem(productId: string, name: string, price: Option<int>, quantity: Option<int>, image: string)

  /** The body of an order-creation request. */
  datatype OrderRequest = OrderRequest(items: Option<seq<RequestItem>>, deliveryAddress: Option<Address>)

  /** The outcome of a handler's checks: go on, or answer with an HTTP error. */
  datatype Check = Pass | Reject(status: int, message: string)

  /** A handler's HTTP answer: the order it wrote, or an error. */
  datatype Reply = Ok(status: int, order: Order) | Err(status: int, message: string)

  /** Nobody has claimed the order: every claim field still has its default. */
  predicate Unclaimed(o: Order) {
    && o.status == "placed"
    && o.assignedPartner.None?
    && o.partnerEmail.None?
    && !o.isLocked
    && o.lockedBy.None?
    && o.timestamps.accepted.None?
  }

  /** The claim fields are written together: lock, lock owner, assignee,
      partner e-mail and acceptance time are all set or all at their
      defaults, the lock owner is the assignee, and a claimed order is no
      longer `placed`. Every handler of this model keeps this invariant. */
  predicate ClaimConsistent(o: Order) {
    && o.isLocked == o.assignedPartner.Some?
    && o.lockedBy == o.assignedPartner
    && o.partnerEmail.Some? == o.assignedPartner.Some?
    && o.timestamps.accepted.Some? == o.assignedPartner.Some?
    && (o.assignedPartner.Some? ==> o.status != "placed")
  }

  /** The fields no handler of the core rewrites after creation. */
  predicate SamePayload(a: Order, b: Order) {
    && a.orderId == b.orderId
    && a.customerId == b.customerId
    && a.customerEmail == b.customerEmail
    && a.items == b.items
    && a.total == b.total
    && a.deliveryAddress == b.deliveryAddress
    && a.timestamps.placed == b.timestamps.placed
    && a.createdAt == b.createdAt
  }

  /** A new order document: the given fields, everything else at the schema's
      defaults (status `placed`, no partner, unlocked, only `timestamps.placed`). */
  function NewOrder(orderId: string, customerId: string, customerEmail: string, items: seq<OrderItem>,
                    total: int, address: Address, now: Instant): (r: Order)
    ensures Unclaimed(r) && ClaimConsistent(r) && SchemaStatus(r.status)
    ensures r.orderId == orderId && r.customerId == customerId && r.customerEmail == customerEmail
    ensures r.items == items && r.total == total && r.deliveryAddress == address
    ensures r.timestamps.placed == now && r.createdAt == now
    ensures r.timestamps.pickedUp.None? && r.timestamps.inTransit.None? && r.timestamps.delivered.None?
    ensures r.actualDeliveryTime.None?
  {
    Order(orderId, customerId, customerEmail, items, total, address, "placed",
          None, None, Timestamps(now, None, None, None, None), false, None, None, now)
  }

  /** The claim as both accept handlers write it: lock, lock owner, assignee,
      partner e-mail, status `accepted` and the acceptance time. */
  function Claim(o: Order, partnerId: string, partnerEmail: string, now: Instant): (r: Order)
    ensures r.assignedPartner == Some(partnerId) && r.lockedBy == Some(partnerId) && r.isLocked
    ensures r.partnerEmail == Some(partnerEmail)
    ensures r.status == "accepted" && SchemaStatus(r.status)
    ensures r.timestamps.accepted == Some(now)
    ensures ClaimConsistent(r)
    ensures SamePayload(o, r) && r.actualDeliveryTime == o.actualDeliveryTime
    ensures r.timestamps.pickedUp == o.timestamps.pickedUp && r.timestamps.inTransit == o.timestamps.inTransit
    ensures r.timestamps.delivered == o.timestamps.delivered
  {
    o.(isLocked := true, lockedBy := Some(partnerId), assignedPartner := Some(partnerId),
       partnerEmail := Some(partnerEmail), status := "accepted",
       timestamps := o.timestamps.(accepted := Some(now)))
  }

  function CreatedAt(o: Order): int {
    o.createdAt
  }

  /** Sum of price times quantity over the lines. */
  function ItemsTotal(items: seq<OrderItem>): int {
    if items == [] then 0
    else ItemsTotal(items[..|items| - 1]) + items[|items| - 1].price * items[|items| - 1].quantity
  }

  /** The total of two runs of lines is the sum of their totals. */
  lemma {:induction false} ItemsTotalAppend(a: seq<OrderItem>, b: seq<OrderItem>)
    ensures ItemsTotal(a + b) == ItemsTotal(a) + ItemsTotal(b)
    decreases |b|
  {
    if b != [] {
      var b' := b[..|b| - 1];
      assert (a + b)[..|a + b| - 1] == a + b';
      ItemsTotalAppend(a, b');
    } else {
      assert a + b == a;
    }
  }

  /** With no negative price or quantity, the total is not negative and is at
      least each line's own amount. */
  lemma {:induction false} ItemsTotalBounds(items: seq<OrderItem>, k: nat)
    requires forall i :: 0 <= i < |items| ==> items[i].price >= 0 && items[i].quantity >= 0
    requires k < |items|
    ensures ItemsTotal(items) >= items[k].price * items[k].quantity >= 0
    decreases |items|
  {
    var n := |items| - 1;
    var init := items[..n];
    ItemsTotalNonNegative(init);
    if k < n {
      ItemsTotalBounds(init, k);
    }
  }

  lemma {:induction false} ItemsTotalNonNegative(items: seq<OrderItem>)
    requires forall i :: 0 <= i < |items| ==> items[i].price >= 0 && items[i].quantity >= 0
    ensures ItemsTotal(items) >= 0
    decreases |items|
  {
    if items != [] {
      ItemsTotalNonNegative(items[..|items| - 1]);
    }
  }
}
