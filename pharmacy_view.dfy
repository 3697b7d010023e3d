/**
 * The orders tab of the pharmacy portal (frontend/src/pages/PharmacyDashboard.js):
 * the accept/reject buttons of a pending order, the message shown after an
 * update, and the count of pending orders on the tab's badge.
 */
module PharmacyView {
  import opened Wrappers
  import opened Domain
  import opened Backend
  import opened Tracking

  /** The buttons of one order: Accept and Reject while pending, none after. */
  function PharmacyActions(status: string): (acts: seq<Action>)
    ensures status == "pending" ==> |acts| == 2
    ensures status != "pending" ==> acts == []
  {
    if status == "pending" then [Action("accepted", "Accept"), Action("cancelled", "Reject")]
    else []
  }

  /**
   * A pending order offers accepting and cancelling, both of which the
   * server lets the owning pharmacy write; "preparing" is never offered.
   */
  lemma PharmacyButtonsAccepted(
    w: string, o: Order, user: User, pharmacies: map<string, PharmacyRecord>, a: Action)
    requires a in PharmacyActions(w)
    requires user.role == PharmacyOwner && Owns(pharmacies, user.id, o.pharmacyId)
    ensures Parse(a.target) == Some(Accepted) || Parse(a.target) == Some(Cancelled)
    ensures Parse(a.target).value in PharmacyTargets
    ensures a.target != Name(Preparing)
    ensures StatusUpdateVerdict(Some(o), user, pharmacies, a.target) == Ok(Parse(a.target).value)
  {
  }

  /**
   * From a pending order a button either moves it one step forward on the
   * track or takes it off the track (cancelled).
   */
  lemma PharmacyButtonsForward(s: Status, a: Action)
    requires a in PharmacyActions(Name(s))
    ensures s == Pending
    ensures Parse(a.target).Some?
    ensures Position(Parse(a.target).value) == Position(s) + 1 || Parse(a.target).value == Cancelled
  {
    ParseName(s);
    ParseIff("pending", s);
  }

  /** The word of the alert after an update. */
  function ActionWord(target: string): (word: string)
    ensures word == "accepted" <==> target == "accepted"
    ensures word != "accepted" ==> word == "rejected"
  {
    if target == "accepted" then "accepted" else "rejected"
  }

  /** The alert after a successful update: "Order <word> successfully" for either word. */
  function ActionMessage(target: string): (m: string)
    ensures m == "Order accepted successfully" <==> target == "accepted"
    ensures target != "accepted" ==> m == "Order rejected successfully"
  {
    if ActionWord(target) == "accepted" then "Order accepted successfully"
    else "Order rejected successfully"
  }

  /** Accept reports acceptance and Reject reports rejection. */
  lemma MessagesMatchButtons()
    ensures ActionMessage(PharmacyActions("pending")[0].target) == "Order accepted successfully"
    ensures ActionMessage(PharmacyActions("pending")[1].target) == "Order rejected successfully"
  {
  }

  /** The number of orders whose status is "pending". */
  function PendingCount(statuses: seq<string>): (n: nat)
    ensures n == multiset(statuses)["pending"]
    ensures n <= |statuses|
  {
    if statuses == [] then 0
    else
      var init := statuses[..|statuses| - 1];
      assert statuses == init + [statuses[|statuses| - 1]];
      PendingCount(init) + (if statuses[|statuses| - 1] == "pending" then 1 else 0)
  }

  /** The badge: the pending count, hidden (None) when it is 0. */
  function Badge(statuses: seq<string>): (b: Option<nat>)
    ensures b.None? <==> "pending" !in statuses
    ensures b.Some? ==> b.value == multiset(statuses)["pending"] && b.value >= 1
  {
    var n := PendingCount(statuses);
    if n > 0 then Some(n) else None
  }

  /** Placing one more order raises the count by one and shows the badge. */
  lemma NewOrderShowsBadge(statuses: seq<string>)
    ensures PendingCount(statuses + [Name(Pending)]) == PendingCount(statuses) + 1
    ensures Badge(statuses + [Name(Pending)]).Some?
  {
    assert "pending" in statuses + [Name(Pending)];
  }
}
