/**
 * The customer's order-tracking page (frontend/src/pages/OrderTracking.js):
 * the six-step timeline computed from the order's status string, and the
 * guard on the call/chat buttons.
 */
module Tracking {
  import opened Wrappers
  import opened Domain

  /** The forward track of an order; cancelled is not on it. */
  const Track: seq<Status> := [Pending, Accepted, Preparing, PickedUp, InTransit, Delivered]

  /** The place of a status on the track, or -1 for cancelled. */
  function Position(s: Status): (k: int)
    ensures -1 <= k < |Track|
    ensures k >= 0 ==> Track[k] == s
    ensures k == -1 <==> s == Cancelled
  {
    match s
    case Pending => 0
    case Accepted => 1
    case Preparing => 2
    case PickedUp => 3
    case InTransit => 4
    case Delivered => 5
    case Cancelled => -1
  }

  /** One entry of the timeline. */
  datatype Step = Step(key: string, text: string, completed: bool)

  /** The order is loaded and its status is one of the names given. */
  predicate Reached(order: Option<string>, names: seq<string>)
  {
    order.Some? && order.value in names
  }

  /**
   * getStatusSteps. `order` is the status string of the loaded order, or
   * None while there is none. The first step is always completed and the
   * completed steps always form a prefix of the timeline.
   */
  function StatusSteps(order: Option<string>): (steps: seq<Step>)
    ensures |steps| == |Track|
    ensures forall k :: 0 <= k < |steps| ==> steps[k].key == Name(Track[k])
    ensures steps[0].completed
    ensures forall j, k :: 0 <= j <= k < |steps| && steps[k].completed ==> steps[j].completed
  {
    [ Step("pending", "Order Placed", true),
      Step("accepted", "Pharmacy Accepted",
           Reached(order, ["accepted", "preparing", "picked_up", "in_transit", "delivered"])),
      Step("preparing", "Preparing", Reached(order, ["preparing", "picked_up", "in_transit", "delivered"])),
      Step("picked_up", "Picked Up", Reached(order, ["picked_up", "in_transit", "delivered"])),
      Step("in_transit", "On the Way", Reached(order, ["in_transit", "delivered"])),
      Step("delivered", "Delivered", Reached(order, ["delivered"])) ]
  }

  /** A status at place k of the track completes exactly the steps 0..k. */
  lemma CompletedExactly(s: Status, j: nat)
    requires s != Cancelled && j < |Track|
    ensures StatusSteps(Some(Name(s)))[j].completed <==> j <= Position(s)
  {
  }

  /** A delivered order has every step completed. */
  lemma DeliveredCompletesAll(j: nat)
    requires j < |Track|
    ensures StatusSteps(Some(Name(Delivered)))[j].completed
  {
    CompletedExactly(Delivered, j);
  }

  /**
   * With no order, a cancelled order, or a status string that names no
   * status, only "Order Placed" is completed.
   */
  lemma OffTrackOnlyFirst(order: Option<string>, j: nat)
    requires order.None? || Parse(order.value).None? || Parse(order.value) == Some(Cancelled)
    requires 1 <= j < |Track|
    ensures !StatusSteps(order)[j].completed
  {
  }

  /** The call/chat buttons are shown for a loaded order with this status. */
  predicate ShowContactActions(status: string)
  {
    status != "delivered" && status != "cancelled"
  }

  /**
   * The buttons are shown exactly while the order is neither delivered nor
   * cancelled; on the track, exactly while the last step is not completed.
   */
  lemma ContactUntilFinished(s: Status)
    ensures ShowContactActions(Name(s)) <==> s != Delivered && s != Cancelled
    ensures s != Cancelled ==>
      (ShowContactActions(Name(s)) <==> !StatusSteps(Some(Name(s)))[|Track| - 1].completed)
  {
    NameInjective(s, Delivered);
    NameInjective(s, Cancelled);
    if s != Cancelled {
      CompletedExactly(s, |Track| - 1);
    }
  }
}
