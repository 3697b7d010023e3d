/**
 * The deliveries list of the driver portal (frontend/src/pages/DriverDashboard.js):
 * which next-step button a delivery shows for its status, and how the
 * buttons relate to the server's rules and to the tracking timeline.
 */
module DriverView {
  import opened Wrappers
  import opened Domain
  import opened Backend
  import opened Tracking

  /**
   * The buttons of one delivery: three independent conditionals on its
   * status, each contributing one button or none.
   */
  function DriverActions(status: string): (acts: seq<Action>)
    ensures |acts| <= 1
  {
    (if status == "accepted" then [Action("picked_up", "Mark Picked Up")] else []) +
    (if status == "picked_up" then [Action("in_transit", "On the Way")] else []) +
    (if status == "in_transit" then [Action("delivered", "Mark Delivered")] else [])
  }

  /** The status after which a driver has a button, and the status it writes. */
  function NextForDriver(s: Status): Option<Status>
  {
    match s
    case Accepted => Some(PickedUp)
    case PickedUp => Some(InTransit)
    case InTransit => Some(Delivered)
    case _ => None
  }

  /**
   * A delivery whose status names s shows exactly one button, writing
   * NextForDriver(s), when there is one, and no button otherwise; a status
   * string that names no status shows none.
   */
  lemma DriverActionsExactly(w: string)
    ensures Parse(w).None? ==> DriverActions(w) == []
    ensures Parse(w).Some? && NextForDriver(Parse(w).value).None? ==> DriverActions(w) == []
    ensures Parse(w).Some? && NextForDriver(Parse(w).value).Some? ==>
      |DriverActions(w)| == 1 &&
      DriverActions(w)[0].target == Name(NextForDriver(Parse(w).value).value)
  {
  }

  /**
   * Every button writes a status the server lets a driver write, and the
   * server accepts it from the driver the order is assigned to, whatever the
   * order's status, once the assignment records the driver's user id
   * (AssignedDriverId, the corrected assignment; as written the driver is
   * refused, see AsWrittenAssignmentLocksOutDriver).
   */
  lemma DriverButtonsAccepted(
    w: string, o: Order, d: DriverProfile, pharmacies: map<string, PharmacyRecord>, a: Action)
    requires a in DriverActions(w)
    ensures Parse(a.target).Some? && Parse(a.target).value in DriverTargets
    ensures StatusUpdateVerdict(Some(o.(driverId := Some(AssignedDriverId(d)))),
                                User(d.userId, Driver), pharmacies, a.target)
            == Ok(Parse(a.target).value)
  {
    var t := Parse(a.target).value;
    AssignmentEnablesDriver(o, d, pharmacies, t);
  }

  /**
   * Every button moves the order forward on the track: to the very next
   * step from picked_up and in_transit, and past "Preparing" from accepted.
   */
  lemma DriverButtonsForward(s: Status, a: Action)
    requires a in DriverActions(Name(s))
    ensures Parse(a.target).Some?
    ensures Position(Parse(a.target).value) > Position(s) >= 0
    ensures s != Accepted ==> Position(Parse(a.target).value) == Position(s) + 1
    ensures s == Accepted ==> Position(Parse(a.target).value) == Position(s) + 2
  {
    ParseName(s);
    DriverActionsExactly(Name(s));
  }
}
