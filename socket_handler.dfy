/** The live-tracking state of backend/socket/socketHandler.js: the
    connection middleware's identity fallback, the rooms a socket joins, the
    last known location per order (`partnerLocations`) replayed to late
    joiners, and the last status note per order (`activeOrders`). Emits are
    recorded in a log; delivery is not modelled. */
module SocketHandler {
  import opened Optional

  type SocketId = nat
  type Instant = int

  /** Who a socket is, as the middleware sets `socket.userId` and
      `socket.userRole`. The tokens this system signs carry only `userId`,
      so a verified token may leave the role undefined (`None`). */
  datatype Identity = Identity(userId: string, role: Option<string>)

  /** A verified token's payload. */
  datatype TokenClaims = TokenClaims(userId: string, role: Option<string>)

  const DemoIdentity := Identity("demo-user", Some("customer"))

  /** The middleware: a token that is present and verifies gives its
      payload's identity; no token, an empty one, or one that fails to
      verify gives the demo customer. `verify` stands for `jwt.verify`. */
  function Identify(token: Option<string>, verify: string -> Option<TokenClaims>): (id: Identity)
    ensures token.None? || token == Some("") ==> id == DemoIdentity
    ensures token.Some? && token.value != "" && verify(token.value).None? ==> id == DemoIdentity
    ensures token.Some? && token.value != "" && verify(token.value).Some? ==>
      id.userId == verify(token.value).value.userId && id.role == verify(token.value).value.role
  {
    if token.None? || token.value == "" then DemoIdentity
    else match verify(token.value)
      case None => DemoIdentity
      case Some(claims) => Identity(claims.userId, claims.role)
  }

  /** The rooms joined on connection: the role's room, and the personal
      room of a customer or a partner. */
  function InitialRooms(id: Identity): (rooms: set<string>)
    ensures id.role.Some? ==> id.role.value in rooms
    ensures id.role == Some("customer") ==>
      "customer_" + id.userId in rooms && "partner_" + id.userId !in rooms && |rooms| == 2
    ensures id.role == Some("partner") ==>
      "partner_" + id.userId in rooms && "customer_" + id.userId !in rooms && |rooms| == 2
    ensures id.role.None? ==> rooms == {}
    ensures id.role.Some? && id.role.value != "customer" && id.role.value != "partner" ==> rooms == {id.role.value}
    ensures forall r :: r in rooms ==>
      (id.role.Some? && r == id.role.value) || r == "customer_" + id.userId || r == "partner_" + id.userId
  {
    var roleRoom: set<string> := if id.role.Some? then {id.role.value} else {};
    var personal: set<string> :=
      if id.role == Some("customer") then {"customer_" + id.userId}
      else if id.role == Some("partner") then {"partner_" + id.userId}
      else {};
    PersonalRoomsDiffer(id.userId);
    RoleRoomIsNotPersonal(id);
    roleRoom + personal
  }

  lemma PersonalRoomsDiffer(userId: string)
    ensures "customer_" + userId != "partner_" + userId
  {
    assert ("customer_" + userId)[0] == 'c';
    assert ("partner_" + userId)[0] == 'p';
  }

  /** The role room is never a personal room for the known roles. */
  lemma RoleRoomIsNotPersonal(id: Identity)
    ensures id.role == Some("customer") ==> id.role.value != "partner_" + id.userId
    ensures id.role == Some("partner") ==> id.role.value != "customer_" + id.userId
  {
    if id.role == Some("customer") {
      assert ("partner_" + id.userId)[0] == 'p';
    }
    if id.role == Some("partner") {
      assert ("customer_" + id.userId)[0] == 'c';
    }
  }

  /** Every socket without a valid token is the same demo customer, so all
      of them share the personal room `customer_demo-user`. */
  lemma AnonymousSocketsShareRoom(t1: Option<string>, t2: Option<string>, verify: string -> Option<TokenClaims>)
    requires t1.None? || verify(t1.value).None?
    requires t2.None? || verify(t2.value).None?
    ensures InitialRooms(Identify(t1, verify)) == InitialRooms(Identify(t2, verify)) == {"customer", "customer_demo-user"}
  {
    assert "customer_" + "demo-user" == "customer_demo-user";
    var r := InitialRooms(DemoIdentity);
    assert "customer" in r && "customer_demo-user" in r;
  }

  /** The HTTP handlers publish `new_order` and `order_removed` to the room
      `partners`, but a partner's socket joins `partner` and
      `partner_<userId>`: only a socket whose role is literally `partners`
      joins that room on connection. */
  lemma PartnersRoomOnlyForThatRole(id: Identity)
    ensures "partners" in InitialRooms(id) ==> id.role == Some("partners")
    ensures id.role == Some("partner") ==> "partners" !in InitialRooms(id)
  {
    assert ("customer_" + id.userId)[0] == 'c' != "partners"[0];
    assert ("partner_" + id.userId)[7] == '_' != "partners"[7];
  }

  /** A stored location (`lat` and `lng` are carried, never computed on). */
  datatype LocationSample = LocationSample(orderId: string, lat: real, lng: real, status: string, timestamp: Instant)

  /** A stored status note of `activeOrders`. */
  datatype StatusNote = StatusNote(status: string, description: string, timestamp: Instant)

  datatype SocketPayload =
    | Location(sample: LocationSample)
    | StatusPayload(orderId: string, status: string, description: string, timestamp: Instant)
    | Relayed(data: string)
    | AcceptedNote(orderId: string, partnerId: string, timestamp: Instant)
    | Unavailable(orderId: string)

  /** An emit: `io.to(room)` reaches every socket in the room, `socket.to(room)`
      every socket in it but the sender, `socket.emit` the sender only. */
  datatype Delivery =
    | ToRoom(room: string, event: string, payload: SocketPayload)
    | ToRoomExcept(room: string, sender: SocketId, event: string, payload: SocketPayload)
    | ToSocket(socket: SocketId, event: string, payload: SocketPayload)

  /** `status || 'in_transit'` */
  function SampleStatus(status: Option<string>): (r: string)
    ensures r != ""
    ensures status.Some? && status.value != "" ==> r == status.value
    ensures status.None? || status.value == "" ==> r == "in_transit"
  {
    if status.Some? && status.value != "" then status.value else "in_transit"
  }

  /** `partnerLocations.set(orderId, sample)`: the sample replaces the one
      stored for its order and every other order keeps its own. */
  function Record(cache: map<string, LocationSample>, s: LocationSample): (r: map<string, LocationSample>)
    ensures s.orderId in r && r[s.orderId] == s
    ensures forall o :: o != s.orderId ==> (o in r <==> o in cache)
    ensures forall o :: o != s.orderId && o in cache ==> r[o] == cache[o]
  {
    cache[s.orderId := s]
  }

  function RecordAll(cache: map<string, LocationSample>, samples: seq<LocationSample>): map<string, LocationSample>
    decreases |samples|
  {
    if samples == [] then cache else RecordAll(Record(cache, samples[0]), samples[1..])
  }

  /** The last sample for `orderId` in the sequence, if any. */
  function LastFor(samples: seq<LocationSample>, orderId: string): (r: Option<LocationSample>)
    ensures r.Some? ==> r.value in samples && r.value.orderId == orderId
    ensures r.None? <==> forall i :: 0 <= i < |samples| ==> samples[i].orderId != orderId
    decreases |samples|
  {
    if samples == [] then None
    else if samples[|samples| - 1].orderId == orderId then Some(samples[|samples| - 1])
    else LastFor(samples[..|samples| - 1], orderId)
  }

  /** Last writer wins: after a sequence of location updates, each order's
      cached sample is the last one reported for it, and an order with no
      report keeps what it had. */
  lemma {:induction false} LatestSampleWins(cache: map<string, LocationSample>, samples: seq<LocationSample>, orderId: string)
    ensures var after := RecordAll(cache, samples);
      match LastFor(samples, orderId)
      case Some(s) => orderId in after && after[orderId] == s
      case None => (orderId in after <==> orderId in cache) && (orderId in cache ==> after[orderId] == cache[orderId])
    decreases |samples|
  {
    if samples != [] {
      var n := |samples| - 1;
      RecordAllSnoc(cache, samples[..n], samples[n]);
      assert samples[..n] + [samples[n]] == samples;
      LatestSampleWins(cache, samples[..n], orderId);
    }
  }

  lemma {:induction false} RecordAllSnoc(cache: map<string, LocationSample>, samples: seq<LocationSample>, s: LocationSample)
    ensures RecordAll(cache, samples + [s]) == Record(RecordAll(cache, samples), s)
    decreases |samples|
  {
    if samples == [] {
      assert [] + [s] == [s];
    } else {
      assert (samples + [s])[1..] == samples[1..] + [s];
      RecordAllSnoc(Record(cache, samples[0]), samples[1..], s);
    }
  }

  /** The socket server's state. */
  class TrackingHub {
    /** `activeOrders`: the last status note per order. */
    var activeOrders: map<string, StatusNote>
    /** `partnerLocations`: the last location per order. */
    var partnerLocations: map<string, LocationSample>
    /** Each connected socket's identity. */
    var identities: map<SocketId, Identity>
    /** The rooms each connected socket is in. */
    var rooms: map<SocketId, set<string>>
    /** Every emit, oldest first. */
    var log: seq<Delivery>

    /** Every cached sample is stored under its own order. */
    ghost predicate Valid()
      reads this
    {
      && identities.Keys == rooms.Keys
      && (forall o :: o in partnerLocations ==> partnerLocations[o].orderId == o)
    }

    constructor()
      ensures Valid()
      ensures activeOrders == map[] && partnerLocations == map[] && identities == map[] && rooms == map[] && log == []
    {
      activeOrders := map[];
      partnerLocations := map[];
      identities := map[];
      rooms := map[];
      log := [];
    }

    /** A connection: the middleware's identity, then the initial joins. */
    method Connect(socket: SocketId, token: Option<string>, verify: string -> Option<TokenClaims>)
      requires Valid() && socket !in identities
      modifies this
      ensures Valid()
      ensures identities == old(identities)[socket := Identify(token, verify)]
      ensures rooms == old(rooms)[socket := InitialRooms(Identify(token, verify))]
      ensures KeepsMemberships(old(rooms), rooms)
      ensures activeOrders == old(activeOrders) && partnerLocations == old(partnerLocations) && log == old(log)
    {
      var id := Identify(token, verify);
      identities := identities[socket := id];
      var joined: set<string> := {};
      if id.role.Some? {
        joined := joined + {id.role.value};
      }
      if id.role == Some("customer") {
        joined := joined + {"customer_" + id.userId};
      }
      if id.role == Some("partner") {
        joined := joined + {"partner_" + id.userId};
      }
      assert joined == InitialRooms(id);
      rooms := rooms[socket := joined];
    }

    /** `join_order_tracking`: the socket joins the order's room and, when a
        location is cached for the order, is sent it. */
    method JoinOrderTracking(socket: SocketId, orderId: string)
      requires Valid() && socket in rooms
      modifies this
      ensures Valid()
      ensures rooms == old(rooms)[socket := old(rooms)[socket] + {"order_" + orderId}]
      ensures KeepsMemberships(old(rooms), rooms) && "order_" + orderId in rooms[socket]
      ensures orderId in partnerLocations ==>
        log == old(log) + [ToSocket(socket, "delivery_location_update", Location(partnerLocations[orderId]))]
      ensures orderId !in partnerLocations ==> log == old(log)
      ensures activeOrders == old(activeOrders) && partnerLocations == old(partnerLocations)
      ensures identities == old(identities)
    {
      rooms := rooms[socket := rooms[socket] + {"order_" + orderId}];
      if orderId in partnerLocations {
        log := log + [ToSocket(socket, "delivery_location_update", Location(partnerLocations[orderId]))];
      }
    }

    /** `order_status_update`: the note replaces the order's entry, and the
        update goes to the order's room, to the customer room of the
        sender's own user id (not the order's customer), and to the admins. */
    method OrderStatusUpdate(socket: SocketId, orderId: string, status: string, description: string, now: Instant)
      requires Valid() && socket in identities
      modifies this
      ensures Valid()
      ensures activeOrders == old(activeOrders)[orderId := StatusNote(status, description, now)]
      ensures var p := StatusPayload(orderId, status, description, now);
        log == old(log) + [ToRoom("order_" + orderId, "order_status_update", p),
                           ToRoomExcept("customer_" + old(identities)[socket].userId, socket, "order_updated", p),
                           ToRoomExcept("admin", socket, "order_status_changed", p)]
      ensures partnerLocations == old(partnerLocations) && rooms == old(rooms) && identities == old(identities)
      ensures KeepsMemberships(old(rooms), rooms)
    {
      activeOrders := activeOrders[orderId := StatusNote(status, description, now)];
      var p := StatusPayload(orderId, status, description, now);
      log := log + [ToRoom("order_" + orderId, "order_status_update", p)];
      log := log + [ToRoomExcept("customer_" + identities[socket].userId, socket, "order_updated", p)];
      log := log + [ToRoomExcept("admin", socket, "order_status_changed", p)];
    }

    /** `partner_location_update`: the sample (status defaulting to
        `in_transit`) replaces the order's cached one and goes to the order's
        room and to the customer room of the sender's own user id. */
    method PartnerLocationUpdate(socket: SocketId, orderId: string, lat: real, lng: real, status: Option<string>, now: Instant)
      returns (sample: LocationSample)
      requires Valid() && socket in identities
      modifies this
      ensures Valid()
      ensures sample == LocationSample(orderId, lat, lng, SampleStatus(status), now)
      ensures partnerLocations == Record(old(partnerLocations), sample)
      ensures log == old(log) + [ToRoom("order_" + orderId, "delivery_location_update", Location(sample)),
                                 ToRoomExcept("customer_" + old(identities)[socket].userId, socket,
                                              "delivery_location_update", Location(sample))]
      ensures activeOrders == old(activeOrders) && rooms == old(rooms) && identities == old(identities)
      ensures KeepsMemberships(old(rooms), rooms)
      ensures forall t :: t in rooms && "order_" + orderId in rooms[t] ==> t in Recipients(rooms, log[|old(log)|])
    {
      sample := LocationSample(orderId, lat, lng, if status.Some? && status.value != "" then status.value else "in_transit", now);
      partnerLocations := partnerLocations[orderId := sample];
      log := log + [ToRoom("order_" + orderId, "delivery_location_update", Location(sample))];
      log := log + [ToRoomExcept("customer_" + identities[socket].userId, socket, "delivery_location_update", Location(sample))];
    }

    /** `new_order`: the client's order data is passed on, unchanged, to the
        other partners and to the admins; nothing is stored. */
    method NewOrderRelay(socket: SocketId, orderData: string)
      requires Valid()
      modifies this
      ensures Valid()
      ensures log == old(log) + [ToRoomExcept("partner", socket, "new_order_available", Relayed(orderData)),
                                 ToRoomExcept("admin", socket, "new_order_created", Relayed(orderData))]
      ensures activeOrders == old(activeOrders) && partnerLocations == old(partnerLocations)
      ensures rooms == old(rooms) && identities == old(identities)
      ensures KeepsMemberships(old(rooms), rooms)
    {
      log := log + [ToRoomExcept("partner", socket, "new_order_available", Relayed(orderData))];
      log := log + [ToRoomExcept("admin", socket, "new_order_created", Relayed(orderData))];
    }

    /** `order_accepted`: the customer named in the message and the admins
        are told, and the other partners learn the order is gone; nothing is
        stored. */
    method OrderAcceptedRelay(socket: SocketId, orderId: string, partnerId: string, customerId: string, now: Instant)
      requires Valid()
      modifies this
      ensures Valid()
      ensures log == old(log) + [ToRoomExcept("customer_" + customerId, socket, "order_accepted", AcceptedNote(orderId, partnerId, now)),
                                 ToRoomExcept("admin", socket, "order_accepted", AcceptedNote(orderId, partnerId, now)),
                                 ToRoomExcept("partner", socket, "order_unavailable", Unavailable(orderId))]
      ensures activeOrders == old(activeOrders) && partnerLocations == old(partnerLocations)
      ensures rooms == old(rooms) && identities == old(identities)
      ensures KeepsMemberships(old(rooms), rooms)
    {
      var note := AcceptedNote(orderId, partnerId, now);
      log := log + [ToRoomExcept("customer_" + customerId, socket, "order_accepted", note)];
      log := log + [ToRoomExcept("admin", socket, "order_accepted", note)];
      log := log + [ToRoomExcept("partner", socket, "order_unavailable", Unavailable(orderId))];
    }
  }

  /** The sockets an emit reaches, given who is in which room. */
  function Recipients(rooms: map<SocketId, set<string>>, d: Delivery): (r: set<SocketId>)
    ensures forall s :: s in r ==> s in rooms || d.ToSocket?
    ensures d.ToRoom? ==> forall s :: s in rooms && d.room in rooms[s] ==> s in r
    ensures d.ToRoomExcept? ==> forall s :: s in rooms && d.room in rooms[s] ==> (s in r <==> s != d.sender)
  {
    match d
    case ToRoom(room, _, _) => set s | s in rooms && room in rooms[s]
    case ToRoomExcept(room, sender, _, _) => set s | s in rooms && room in rooms[s] && s != sender
    case ToSocket(socket, _, _) => {socket}
  }

  /** No socket leaves a room: every socket of `before` is still connected
      in `after` and still in each room it was in. Every hub operation keeps
      this between its old and its new room map. */
  predicate KeepsMemberships(before: map<SocketId, set<string>>, after: map<SocketId, set<string>>) {
    forall s :: s in before ==> s in after && before[s] <= after[s]
  }

  /** Memberships kept by each of a series of hub operations are kept by
      the series. */
  lemma KeepsMembershipsTransitive(a: map<SocketId, set<string>>, b: map<SocketId, set<string>>, c: map<SocketId, set<string>>)
    requires KeepsMemberships(a, b) && KeepsMemberships(b, c)
    ensures KeepsMemberships(a, c)
  {
  }

  /** A socket that joined an order's tracking room receives every location
      update for that order sent after any series of hub operations,
      whoever sends it. `states` are the room maps the hub passes through,
      from the join on; each operation keeps the memberships of the state
      before it, as every `TrackingHub` method ensures. */
  lemma {:induction false} TrackerReceivesLocation(states: seq<map<SocketId, set<string>>>, tracker: SocketId,
                                                  sample: LocationSample)
    requires |states| > 0
    requires tracker in states[0] && "order_" + sample.orderId in states[0][tracker]
    requires forall n :: 0 <= n < |states| - 1 ==> KeepsMemberships(states[n], states[n + 1])
    ensures tracker in Recipients(states[|states| - 1],
                                  ToRoom("order_" + sample.orderId, "delivery_location_update", Location(sample)))
    decreases |states|
  {
    if |states| > 1 {
      TrackerReceivesLocation(states[..|states| - 1], tracker, sample);
      assert KeepsMemberships(states[|states| - 2], states[|states| - 1]);
    }
  }
}
