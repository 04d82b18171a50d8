/** Single claim. Each handler runs to completion before the next starts,
    so what happens to one order over time is a sequence of requests, each
    of them one of the handlers of OrderStore.OrderStore that write an
    existing order: the accept of backend/routes/partner.js, the accept of
    backend/server.js, and the partner status route. `Step` is what one
    request does to the order; each of those methods ensures that the
    document it leaves under the key is `Step` of the one it found. Over any such sequence, from any starting document, at most one
    accept writes a claim, and once written the claim is never replaced. */
module SingleClaim {
  import opened Optional
  import opened OrderModel
  import ServerRoutes
  import PartnerRoutes

  datatype Request =
    | PartnerAccept(partnerId: string, partner: Option<User>, now: Instant)
    | ServerAccept(partnerId: string, partner: Option<User>, now: Instant)
    | StatusUpdate(status: string, now: Instant)

  /** The request is an accept whose checks pass on `o`, so it writes a claim. */
  predicate Claims(o: Order, r: Request) {
    match r
    case PartnerAccept(pid, partner, _) => PartnerRoutes.AcceptCheck(partner, Some(o), pid).Pass?
    case ServerAccept(_, partner, _) => ServerRoutes.AcceptCheck(Some(o), partner).Pass?
    case StatusUpdate(_, _) => false
  }

  /** Both accept handlers write a claim only on a `placed` order. */
  lemma ClaimNeedsPlaced(o: Order, r: Request)
    requires Claims(o, r)
    ensures o.status == "placed"
    ensures r.PartnerAccept? ==> o.assignedPartner.None?
  {
  }

  /** What one request does to the order. */
  function Step(o: Order, r: Request): (o': Order)
    ensures SamePayload(o, o')
    ensures Claims(o, r) ==> o'.assignedPartner == Some(r.partnerId) && o'.lockedBy == Some(r.partnerId)
    ensures !Claims(o, r) && !r.StatusUpdate? ==> o' == o
    ensures r.StatusUpdate? && r.status !in PartnerRoutes.ValidStatuses ==> o' == o
    ensures o.status != "placed" ==>
      && o'.assignedPartner == o.assignedPartner && o'.lockedBy == o.lockedBy
      && o'.partnerEmail == o.partnerEmail && o'.timestamps == o.timestamps
    ensures o.status != "placed" ==> o'.status != "placed"
    ensures ClaimConsistent(o) ==> ClaimConsistent(o')
  {
    match r
    case PartnerAccept(pid, partner, now) =>
      if Claims(o, r) then Claim(o, pid, partner.value.email, now) else o
    case ServerAccept(pid, partner, now) =>
      if Claims(o, r) then Claim(o, pid, partner.value.email, now) else o
    case StatusUpdate(status, now) =>
      if status in PartnerRoutes.ValidStatuses then PartnerRoutes.WithStatus(o, status, now) else o
  }

  /** The order after a sequence of requests. */
  function Run(o: Order, rs: seq<Request>): Order
    decreases |rs|
  {
    if rs == [] then o else Run(Step(o, rs[0]), rs[1..])
  }

  /** How many requests of the sequence wrote a claim. */
  function ClaimCount(o: Order, rs: seq<Request>): nat
    decreases |rs|
  {
    if rs == [] then 0
    else (if Claims(o, rs[0]) then 1 else 0) + ClaimCount(Step(o, rs[0]), rs[1..])
  }

  /** Once an order has left `placed` it never returns there. */
  lemma {:induction false} NeverBackToPlaced(o: Order, rs: seq<Request>)
    requires o.status != "placed"
    ensures Run(o, rs).status != "placed"
    ensures ClaimCount(o, rs) == 0
    decreases |rs|
  {
    if rs != [] {
      if Claims(o, rs[0]) {
        ClaimNeedsPlaced(o, rs[0]);
      }
      NeverBackToPlaced(Step(o, rs[0]), rs[1..]);
    }
  }

  /** At most one request of any sequence writes a claim, and none does on
      an order that is no longer `placed`. */
  lemma {:induction false} AtMostOneClaim(o: Order, rs: seq<Request>)
    ensures ClaimCount(o, rs) <= 1
    ensures o.status != "placed" ==> ClaimCount(o, rs) == 0
    decreases |rs|
  {
    if o.status != "placed" {
      NeverBackToPlaced(o, rs);
    } else if rs != [] {
      var o' := Step(o, rs[0]);
      if Claims(o, rs[0]) {
        assert o'.status == "accepted";
        NeverBackToPlaced(o', rs[1..]);
      } else {
        AtMostOneClaim(o', rs[1..]);
      }
    }
  }

  /** Once the order has left `placed` (as a claim makes it), the claim is
      never replaced: the assignee, the lock owner, the partner e-mail and
      the timestamps stay as they are. */
  lemma {:induction false} ClaimKept(o: Order, rs: seq<Request>)
    requires o.status != "placed"
    ensures Run(o, rs).assignedPartner == o.assignedPartner && Run(o, rs).lockedBy == o.lockedBy
    ensures Run(o, rs).partnerEmail == o.partnerEmail && Run(o, rs).timestamps == o.timestamps
    decreases |rs|
  {
    if rs != [] {
      ClaimKept(Step(o, rs[0]), rs[1..]);
    }
  }

  /** The run keeps the claim fields consistent. */
  lemma {:induction false} RunKeepsClaimConsistent(o: Order, rs: seq<Request>)
    requires ClaimConsistent(o)
    ensures ClaimConsistent(Run(o, rs))
    decreases |rs|
  {
    if rs != [] {
      RunKeepsClaimConsistent(Step(o, rs[0]), rs[1..]);
    }
  }

  /** The first request that claims the order wins it for good, and every
      accept after it fails: through partner.js another partner is told 409
      and the winner is told 400 "already assigned"; through server.js the
      order is no longer `placed`. */
  lemma FirstClaimWins(o: Order, before: seq<Request>, r: Request, after: seq<Request>, next: Request)
    requires ClaimCount(o, before) == 0 && Claims(Run(o, before), r)
    requires ClaimConsistent(o)
    ensures var final := Run(o, before + [r] + after);
      && final.assignedPartner == Some(r.partnerId) && final.lockedBy == Some(r.partnerId)
      && !Claims(final, next)
      && (next.PartnerAccept? && PartnerRoutes.PartnerAccount(next.partner) ==>
            PartnerRoutes.AcceptCheck(next.partner, Some(final), next.partnerId)
              == if next.partnerId == r.partnerId then Reject(400, "Order already assigned to a partner")
                 else Reject(409, "Order is currently being processed by another partner"))
  {
    var mid := Run(o, before);
    var won := Step(mid, r);
    RunSplit(o, before, [r] + after);
    assert ([r] + after)[1..] == after;
    assert Run(o, before + [r] + after) == Run(won, after) by {
      assert before + [r] + after == before + ([r] + after);
    }
    ClaimKept(won, after);
    RunKeepsClaimConsistent(o, before);
    RunKeepsClaimConsistent(won, after);
    ClaimNeedsPlaced(mid, r);
    NeverBackToPlaced(won, after);
    var final := Run(won, after);
    if next.PartnerAccept? && PartnerRoutes.PartnerAccount(next.partner) {
      PartnerRoutes.ClaimedOrderRefused(next.partner.value, final, next.partnerId);
    }
  }

  /** Running two sequences one after the other. */
  lemma {:induction false} RunSplit(o: Order, a: seq<Request>, b: seq<Request>)
    ensures Run(o, a + b) == Run(Run(o, a), b)
    decreases |a|
  {
    if a != [] {
      assert (a + b)[0] == a[0] && (a + b)[1..] == a[1..] + b;
      RunSplit(Step(o, a[0]), a[1..], b);
    } else {
      assert a + b == b;
    }
  }
}
