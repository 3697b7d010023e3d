/**
 * The enumerations shared by the backend and the three portals: order
 * statuses and user roles, with the strings that travel over the wire.
 */
module Domain {
  import opened Wrappers

  /** The seven order statuses of the backend's OrderStatus class. */
  datatype Status = Pending | Accepted | Preparing | PickedUp | InTransit | Delivered | Cancelled

  /** The wire string of a status. */
  function Name(s: Status): string
  {
    match s
    case Pending => "pending"
    case Accepted => "accepted"
    case Preparing => "preparing"
    case PickedUp => "picked_up"
    case InTransit => "in_transit"
    case Delivered => "delivered"
    case Cancelled => "cancelled"
  }

  /** The status a wire string names, if any. */
  function Parse(w: string): (r: Option<Status>)
    ensures r.Some? ==> Name(r.value) == w
  {
    if w == "pending" then Some(Pending)
    else if w == "accepted" then Some(Accepted)
    else if w == "preparing" then Some(Preparing)
    else if w == "picked_up" then Some(PickedUp)
    else if w == "in_transit" then Some(InTransit)
    else if w == "delivered" then Some(Delivered)
    else if w == "cancelled" then Some(Cancelled)
    else None
  }

  /** Every status survives the trip to the wire and back. */
  lemma ParseName(s: Status)
    ensures Parse(Name(s)) == Some(s)
  {
  }

  /** Two statuses with the same wire string are the same status. */
  lemma NameInjective(s: Status, t: Status)
    ensures Name(s) == Name(t) <==> s == t
  {
    ParseName(s);
    ParseName(t);
  }

  /** A string names a status exactly when it is that status's wire string. */
  lemma ParseIff(w: string, s: Status)
    ensures Parse(w) == Some(s) <==> w == Name(s)
  {
    ParseName(s);
  }

  /**
   * The role stored on a user. Registration accepts any string, so a role
   * outside the three known ones is possible: `Unrecognised(name)` stands
   * for such a role, and its `name` is never "customer", "pharmacy" or
   * "driver" (RoleOf maps those three to their own constructors).
   */
  datatype Role = Customer | PharmacyOwner | Driver | Unrecognised(name: string)

  /** The role a stored role string denotes. */
  function RoleOf(w: string): (r: Role)
    ensures r.Unrecognised? <==> w != "customer" && w != "pharmacy" && w != "driver"
    ensures r.Unrecognised? ==> r.name == w
  {
    if w == "customer" then Customer
    else if w == "pharmacy" then PharmacyOwner
    else if w == "driver" then Driver
    else Unrecognised(w)
  }

  /** A role as RoleOf produces it: an unrecognised name is none of the three known ones. */
  predicate RoleWellFormed(r: Role)
  {
    r.Unrecognised? ==> r.name != "customer" && r.name != "pharmacy" && r.name != "driver"
  }

  /** Every role read from a string is well formed. */
  lemma RoleOfWellFormed(w: string)
    ensures RoleWellFormed(RoleOf(w))
  {
  }

  datatype User = User(id: string, role: Role)

  /** A status button of a portal: the status it asks the server to write, and its caption. */
  datatype Action = Action(target: string, caption: string)
}
