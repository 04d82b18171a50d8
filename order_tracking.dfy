/** The delivery timeline of frontend/src/pages/OrderTracking.jsx: which of
    its five steps are completed and which is current, as a function of the
    page's current status, and the rule that a live status update is taken
    only for the page's own order. */
module OrderTracking {
  import opened Optional

  /** The statuses of the five steps, in timeline order. */
  const Stages: seq<string> := ["placed", "accepted", "picked_up", "in_transit", "delivered"]

  datatype Step = Step(id: nat, status: string, completed: bool, current: bool)

  /** The timeline as the page writes it: each step is completed when the
      current status is in that step's own list, and current when it equals
      the step's status. */
  function Timeline(currentStatus: string): (t: seq<Step>)
    ensures |t| == 5
    ensures forall k :: 0 <= k < 5 ==> t[k].id == k + 1 && t[k].status == Stages[k]
  {
    [ Step(1, "placed", currentStatus in ["placed", "accepted", "picked_up", "in_transit", "delivered"], currentStatus == "placed"),
      Step(2, "accepted", currentStatus in ["accepted", "picked_up", "in_transit", "delivered"], currentStatus == "accepted"),
      Step(3, "picked_up", currentStatus in ["picked_up", "in_transit", "delivered"], currentStatus == "picked_up"),
      Step(4, "in_transit", currentStatus in ["in_transit", "delivered"], currentStatus == "in_transit"),
      Step(5, "delivered", currentStatus == "delivered", currentStatus == "delivered") ]
  }

  /** Where a status stands in the timeline, if it is in it at all. */
  function Position(status: string): (r: Option<nat>)
    ensures r.Some? <==> status in Stages
    ensures r.Some? ==> r.value < 5 && Stages[r.value] == status
  {
    if status == "placed" then Some(0)
    else if status == "accepted" then Some(1)
    else if status == "picked_up" then Some(2)
    else if status == "in_transit" then Some(3)
    else if status == "delivered" then Some(4)
    else None
  }

  /** Step `k` is completed exactly when the status has reached it, and
      current exactly when the status is that step's own. */
  lemma StepMeaning(currentStatus: string, k: nat)
    requires k < 5
    ensures Timeline(currentStatus)[k].completed <==> Position(currentStatus).Some? && Position(currentStatus).value >= k
    ensures Timeline(currentStatus)[k].current <==> currentStatus == Stages[k]
  {
  }

  /** The completed steps are a prefix of the timeline. */
  lemma CompletedPrefix(currentStatus: string, i: nat, j: nat)
    requires i <= j < 5 && Timeline(currentStatus)[j].completed
    ensures Timeline(currentStatus)[i].completed
  {
    StepMeaning(currentStatus, i);
    StepMeaning(currentStatus, j);
  }

  /** For a status of the timeline exactly one step is current, and it is
      also completed, as are exactly the steps before it. */
  lemma OneCurrentStep(currentStatus: string)
    requires currentStatus in Stages
    ensures var k := Position(currentStatus).value;
      var t := Timeline(currentStatus);
      && t[k].current && t[k].completed
      && (forall i :: 0 <= i < 5 && i != k ==> !t[i].current)
      && (forall i :: 0 <= i < 5 ==> (t[i].completed <==> i <= k))
  {
    forall i | 0 <= i < 5
      ensures var t := Timeline(currentStatus);
        (t[i].current <==> i == Position(currentStatus).value) && (t[i].completed <==> i <= Position(currentStatus).value)
    {
      StepMeaning(currentStatus, i);
    }
  }

  /** Any other status (`cancelled`, or the partner route's `preparing` and
      `out_for_delivery`) shows no step completed and none current. */
  lemma OutsideStatusShowsNothing(currentStatus: string)
    requires currentStatus !in Stages
    ensures forall i :: 0 <= i < 5 ==> !Timeline(currentStatus)[i].completed && !Timeline(currentStatus)[i].current
  {
    forall i | 0 <= i < 5
      ensures !Timeline(currentStatus)[i].completed && !Timeline(currentStatus)[i].current
    {
      StepMeaning(currentStatus, i);
    }
  }

  /** A status message received over the socket. */
  datatype StatusMessage = StatusMessage(orderId: string, status: string)

  /** The page's order id and current status. */
  datatype TrackingPage = TrackingPage(orderId: string, currentStatus: string)

  /** The status-update effect: the latest message is applied only when
      there is one and it is about this page's order. */
  function ApplyStatusMessage(page: TrackingPage, message: Option<StatusMessage>): (r: TrackingPage)
    ensures r.orderId == page.orderId
    ensures message.Some? && message.value.orderId == page.orderId ==> r.currentStatus == message.value.status
    ensures message.None? || message.value.orderId != page.orderId ==> r == page
  {
    if message.Some? && message.value.orderId == page.orderId then page.(currentStatus := message.value.status)
    else page
  }

  /** Messages about other orders never change what the page shows. */
  lemma {:induction false} OtherOrdersIgnored(page: TrackingPage, messages: seq<StatusMessage>)
    requires forall i :: 0 <= i < |messages| ==> messages[i].orderId != page.orderId
    ensures ApplyAll(page, messages) == page
    decreases |messages|
  {
    if messages != [] {
      OtherOrdersIgnored(ApplyStatusMessage(page, Some(messages[0])), messages[1..]);
    }
  }

  function ApplyAll(page: TrackingPage, messages: seq<StatusMessage>): TrackingPage
    decreases |messages|
  {
    if messages == [] then page else ApplyAll(ApplyStatusMessage(page, Some(messages[0])), messages[1..])
  }
}
