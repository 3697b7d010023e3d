/**
 * The order rules of the backend (backend/server.py): order creation with its
 * total and its cash-on-delivery distance limit, role-scoped status updates,
 * customer cancellation with a time-tiered charge, driver assignment, the
 * authorization of a single-order read and the drivers' "available orders"
 * query. The MongoDB collections are maps held by a Store object; the clock,
 * fresh identifiers and the great-circle distance are parameters.
 */
module Backend {
  import opened Wrappers
  import opened Domain

  datatype Location = Location(lat: real, lng: real, address: string)

  /** One line of an order as the server receives and stores it. */
  datatype Item = Item(medicineId: string, medicineName: string, quantity: int, price: real)

  /** The body of POST /orders. */
  datatype OrderRequest = OrderRequest(
    pharmacyId: string,
    items: seq<Item>,
    deliveryAddress: Location,
    paymentMethod: string,
    notes: string)

  /** A stored order; times are minutes on the server's clock. */
  datatype Order = Order(
    id: string,
    customerId: string,
    pharmacyId: string,
    driverId: Option<string>,
    items: seq<Item>,
    totalAmount: real,
    deliveryAddress: Location,
    status: Status,
    paymentMethod: string,
    paymentStatus: string,
    distanceKm: real,
    cancellationCharge: real,
    notes: string,
    createdAt: real,
    updatedAt: real)

  datatype PharmacyRecord = PharmacyRecord(id: string, ownerId: string)

  /** A driver profile; its id is its own, distinct from the user's id. */
  datatype DriverProfile = DriverProfile(id: string, userId: string)

  /** An HTTP error response: status code and detail message. */
  datatype Failure = Failure(code: nat, detail: string)

  const CashOnDelivery: string := "cash_on_delivery"

  /** Cash on delivery is refused from this distance on. */
  const CodLimitKm: real := 10.0

  /** The statuses a pharmacy owner may write. */
  const PharmacyTargets: set<Status> := {Accepted, Cancelled, Preparing}

  /** The statuses the assigned driver may write. */
  const DriverTargets: set<Status> := {PickedUp, InTransit, Delivered}

  /** The number of orders one available-orders query returns at most. */
  const AvailableLimit: nat := 100

  function Get<K, V>(m: map<K, V>, k: K): (r: Option<V>)
    ensures r.Some? <==> k in m
    ensures r.Some? ==> r.value == m[k]
  {
    if k in m then Some(m[k]) else None
  }

  // ---------------------------------------------------------------------
  // Order total

  /** The sum of price times quantity over the items, in order. */
  function OrderTotal(items: seq<Item>): real
  {
    if items == [] then 0.0
    else OrderTotal(items[..|items| - 1]) + Subtotal(items[|items| - 1])
  }

  function Subtotal(item: Item): real
  {
    item.price * item.quantity as real
  }

  /** The total of a concatenation is the sum of the totals. */
  lemma {:induction false} OrderTotalAppend(a: seq<Item>, b: seq<Item>)
    ensures OrderTotal(a + b) == OrderTotal(a) + OrderTotal(b)
  {
    if b == [] {
      assert a + b == a;
    } else {
      assert (a + b)[..|a + b| - 1] == a + b[..|b| - 1];
      OrderTotalAppend(a, b[..|b| - 1]);
    }
  }

  /** Items with non-negative prices and quantities never total below zero. */
  lemma {:induction false} OrderTotalNonNegative(items: seq<Item>)
    requires forall i :: 0 <= i < |items| ==> items[i].price >= 0.0 && items[i].quantity >= 0
    ensures OrderTotal(items) >= 0.0
  {
    if items != [] {
      OrderTotalNonNegative(items[..|items| - 1]);
      var last := items[|items| - 1];
      assert Subtotal(last) >= 0.0 by {
        assert last.price >= 0.0 && last.quantity as real >= 0.0;
      }
    }
  }

  // ---------------------------------------------------------------------
  // Cancellation charge

  /**
   * The charge for cancelling an order that is `elapsed` minutes old: free up
   * to 2 minutes, 10% up to 5, 15% up to 20, the full total after that.
   */
  function CancellationCharge(elapsed: real, total: real): (c: real)
    ensures total >= 0.0 ==> 0.0 <= c <= total
    ensures elapsed <= 2.0 ==> c == 0.0
    ensures elapsed > 20.0 ==> c == total
  {
    if elapsed <= 2.0 then 0.0
    else if elapsed <= 5.0 then total * 0.10
    else if elapsed <= 20.0 then total * 0.15
    else total
  }

  /** Waiting longer never makes cancelling cheaper. */
  lemma ChargeMonotone(e1: real, e2: real, total: real)
    requires e1 <= e2 && total >= 0.0
    ensures CancellationCharge(e1, total) <= CancellationCharge(e2, total)
  {
  }

  // ---------------------------------------------------------------------
  // Authorization

  /** The user owns the pharmacy with that id. */
  predicate Owns(pharmacies: map<string, PharmacyRecord>, userId: string, pharmacyId: string)
  {
    pharmacyId in pharmacies && pharmacies[pharmacyId].ownerId == userId
  }

  /**
   * The outcome of PUT /orders/{id}/status for an order (None when there is
   * none with that id) and a requested status string. On success it is the
   * status to write. The order's current status plays no part.
   */
  function StatusUpdateVerdict(
    order: Option<Order>, user: User, pharmacies: map<string, PharmacyRecord>, target: string)
    : (r: Result<Status, Failure>)
    ensures r.Ok? ==> order.Some? && target == Name(r.value)
    ensures r.Ok? && user.role == PharmacyOwner ==>
      Owns(pharmacies, user.id, order.value.pharmacyId) && r.value in PharmacyTargets
    ensures r.Ok? && user.role == Driver ==>
      order.value.driverId == Some(user.id) && r.value in DriverTargets
    ensures r.Ok? ==> user.role == PharmacyOwner || user.role == Driver
    ensures forall s ::
              (target == Name(s) && order.Some? &&
               ((user.role == PharmacyOwner && Owns(pharmacies, user.id, order.value.pharmacyId) && s in PharmacyTargets) ||
                (user.role == Driver && order.value.driverId == Some(user.id) && s in DriverTargets)))
              ==> r == Ok(s)
    ensures order.None? ==> r == Err(Failure(404, "Order not found"))
    ensures order.Some? && user.role != PharmacyOwner && user.role != Driver ==>
      r == Err(Failure(403, "Not authorized to update order status"))
    ensures order.Some? && user.role == PharmacyOwner && !Owns(pharmacies, user.id, order.value.pharmacyId) ==>
      r == Err(Failure(403, "Not authorized"))
    ensures order.Some? && user.role == PharmacyOwner && Owns(pharmacies, user.id, order.value.pharmacyId) &&
            (Parse(target).None? || Parse(target).value !in PharmacyTargets) ==>
      r == Err(Failure(400, "Invalid status for pharmacy"))
    ensures order.Some? && user.role == Driver && order.value.driverId != Some(user.id) ==>
      r == Err(Failure(403, "Not authorized"))
    ensures order.Some? && user.role == Driver && order.value.driverId == Some(user.id) &&
            (Parse(target).None? || Parse(target).value !in DriverTargets) ==>
      r == Err(Failure(400, "Invalid status for driver"))
  {
    if order.None? then Err(Failure(404, "Order not found"))
    else
      var o := order.value;
      match user.role
      case PharmacyOwner =>
        if !Owns(pharmacies, user.id, o.pharmacyId) then Err(Failure(403, "Not authorized"))
        else if Parse(target).None? || Parse(target).value !in PharmacyTargets then
          Err(Failure(400, "Invalid status for pharmacy"))
        else Ok(Parse(target).value)
      case Driver =>
        if o.driverId != Some(user.id) then Err(Failure(403, "Not authorized"))
        else if Parse(target).None? || Parse(target).value !in DriverTargets then
          Err(Failure(400, "Invalid status for driver"))
        else Ok(Parse(target).value)
      case _ => Err(Failure(403, "Not authorized to update order status"))
  }

  /** The verdict of a status update never depends on the order's current status. */
  lemma VerdictIgnoresStatus(
    o: Order, s: Status, user: User, pharmacies: map<string, PharmacyRecord>, target: string)
    ensures StatusUpdateVerdict(Some(o), user, pharmacies, target)
         == StatusUpdateVerdict(Some(o.(status := s)), user, pharmacies, target)
  {
  }

  /** For example, the owning pharmacy may put a delivered order back to accepted. */
  lemma DeliveredOrderCanBeReaccepted(o: Order, user: User, pharmacies: map<string, PharmacyRecord>)
    requires o.status == Delivered && user.role == PharmacyOwner
    requires Owns(pharmacies, user.id, o.pharmacyId)
    ensures StatusUpdateVerdict(Some(o), user, pharmacies, "accepted") == Ok(Accepted)
  {
    assert "accepted" == Name(Accepted);
  }

  /** Customers and unrecognised roles can never update a status. */
  lemma OtherRolesRejected(
    order: Option<Order>, user: User, pharmacies: map<string, PharmacyRecord>, target: string)
    requires user.role != PharmacyOwner && user.role != Driver
    ensures StatusUpdateVerdict(order, user, pharmacies, target).Err?
  {
  }

  /**
   * The outcome of POST /orders/{id}/cancel at time `now`: on success the
   * charge to record.
   */
  function CancelVerdict(user: User, order: Option<Order>, now: real): (r: Result<real, Failure>)
    ensures r.Ok? <==>
      user.role == Customer && order.Some? && order.value.customerId == user.id &&
      order.value.status != Delivered && order.value.status != Cancelled
    ensures r.Ok? ==> r.value == CancellationCharge(now - order.value.createdAt, order.value.totalAmount)
    ensures r.Ok? && order.value.totalAmount >= 0.0 ==> 0.0 <= r.value <= order.value.totalAmount
    ensures user.role != Customer ==> r == Err(Failure(403, "Only customers can cancel orders"))
    ensures user.role == Customer && order.None? ==> r == Err(Failure(404, "Order not found"))
    ensures user.role == Customer && order.Some? && order.value.customerId != user.id ==>
      r == Err(Failure(403, "Not authorized"))
  {
    if user.role != Customer then Err(Failure(403, "Only customers can cancel orders"))
    else if order.None? then Err(Failure(404, "Order not found"))
    else
      var o := order.value;
      if o.customerId != user.id then Err(Failure(403, "Not authorized"))
      else if o.status == Delivered then Err(Failure(400, "Cannot cancel delivered order"))
      else if o.status == Cancelled then Err(Failure(400, "Order already cancelled"))
      else Ok(CancellationCharge(now - o.createdAt, o.totalAmount))
  }

  /** Who may read a single order (GET /orders/{id}). */
  predicate CanView(user: User, pharmacies: map<string, PharmacyRecord>, o: Order)
  {
    match user.role
    case Customer => o.customerId == user.id
    case PharmacyOwner => Owns(pharmacies, user.id, o.pharmacyId)
    case Driver => o.driverId == Some(user.id)
    case Unrecognised(_) => true
  }

  // ---------------------------------------------------------------------
  // Available orders

  /** An order a driver may take: accepted and not yet assigned. */
  predicate IsAvailable(o: Order)
  {
    o.status == Accepted && o.driverId.None?
  }

  /** The available orders among those logged, in log order. */
  function Available(log: seq<string>, orders: map<string, Order>): seq<Order>
    requires forall i :: 0 <= i < |log| ==> log[i] in orders
  {
    if log == [] then []
    else
      var rest := Available(log[..|log| - 1], orders);
      var o := orders[log[|log| - 1]];
      if IsAvailable(o) then rest + [o] else rest
  }

  /** At most n elements from the front. */
  function Take<T>(s: seq<T>, n: nat): (r: seq<T>)
    ensures |r| == if |s| <= n then |s| else n
    ensures r <= s
  {
    if |s| <= n then s else s[..n]
  }

  lemma {:induction false} AvailableAppend(a: seq<string>, b: seq<string>, orders: map<string, Order>)
    requires forall i :: 0 <= i < |a| ==> a[i] in orders
    requires forall i :: 0 <= i < |b| ==> b[i] in orders
    ensures Available(a + b, orders) == Available(a, orders) + Available(b, orders)
  {
    if b == [] {
      assert a + b == a;
    } else {
      assert (a + b)[..|a + b| - 1] == a + b[..|b| - 1];
      AvailableAppend(a, b[..|b| - 1], orders);
    }
  }

  /**
   * An order is among the available ones exactly when it is the order of a
   * logged id, is accepted and has no driver.
   */
  lemma {:induction false} AvailableExactly(log: seq<string>, orders: map<string, Order>, o: Order)
    requires forall i :: 0 <= i < |log| ==> log[i] in orders
    ensures o in Available(log, orders) <==>
      (exists i :: 0 <= i < |log| && orders[log[i]] == o) && IsAvailable(o)
  {
    if log != [] {
      var init := log[..|log| - 1];
      AvailableExactly(init, orders, o);
      if (exists i :: 0 <= i < |log| && orders[log[i]] == o) {
        var i :| 0 <= i < |log| && orders[log[i]] == o;
        if i < |log| - 1 {
          assert init[i] == log[i];
        }
      }
      if (exists i :: 0 <= i < |init| && orders[init[i]] == o) {
        var i :| 0 <= i < |init| && orders[init[i]] == o;
        assert log[i] == init[i];
      }
    }
  }

  /**
   * Scanning the log up to i, stopping at the end or once the limit is
   * reached, yields the first AvailableLimit available orders.
   */
  lemma StopEarly(log: seq<string>, i: nat, orders: map<string, Order>)
    requires forall j :: 0 <= j < |log| ==> log[j] in orders
    requires i <= |log|
    requires |Available(log[..i], orders)| <= AvailableLimit
    requires i == |log| || |Available(log[..i], orders)| == AvailableLimit
    ensures Take(Available(log, orders), AvailableLimit) == Available(log[..i], orders)
  {
    assert log == log[..i] + log[i..];
    AvailableAppend(log[..i], log[i..], orders);
    if i == |log| {
      assert log[i..] == [];
    }
  }

  /** Every order of a query result is stored, accepted and unassigned. */
  lemma AvailableStored(log: seq<string>, orders: map<string, Order>)
    requires forall j :: 0 <= j < |log| ==> log[j] in orders
    ensures forall k :: 0 <= k < |Take(Available(log, orders), AvailableLimit)| ==>
      Take(Available(log, orders), AvailableLimit)[k] in orders.Values &&
      IsAvailable(Take(Available(log, orders), AvailableLimit)[k])
  {
    var t := Take(Available(log, orders), AvailableLimit);
    forall k | 0 <= k < |t| ensures t[k] in orders.Values && IsAvailable(t[k]) {
      assert t[k] in Available(log, orders);
      AvailableExactly(log, orders, t[k]);
    }
  }

  // ---------------------------------------------------------------------
  // Driver assignment (see the Findings in README.md)

  /**
   * What assign_driver writes into an order's driver_id as written: the
   * driver PROFILE's id, which the status update, the single-order read and
   * the "my orders" query then compare with the driver's USER id.
   */
  function DriverIdAsWritten(d: DriverProfile): string
  {
    d.id
  }

  /** As written, an assigned driver whose profile id differs from their user id is locked out. */
  lemma AsWrittenAssignmentLocksOutDriver(
    o: Order, d: DriverProfile, pharmacies: map<string, PharmacyRecord>, target: string)
    requires d.id != d.userId
    ensures StatusUpdateVerdict(Some(o.(driverId := Some(DriverIdAsWritten(d)))),
                                User(d.userId, Driver), pharmacies, target)
         == Err(Failure(403, "Not authorized"))
    ensures !CanView(User(d.userId, Driver), pharmacies, o.(driverId := Some(DriverIdAsWritten(d))))
  {
  }

  /** A concrete instance: profile "d-1" of user "u-1" cannot mark its pickup. */
  lemma AsWrittenPickupRefused(o: Order, pharmacies: map<string, PharmacyRecord>)
    ensures StatusUpdateVerdict(Some(o.(driverId := Some(DriverIdAsWritten(DriverProfile("d-1", "u-1"))))),
                                User("u-1", Driver), pharmacies, "picked_up").Err?
  {
    AsWrittenAssignmentLocksOutDriver(o, DriverProfile("d-1", "u-1"), pharmacies, "picked_up");
  }

  /** What the corrected assign_driver writes: the profile's user id. */
  function AssignedDriverId(d: DriverProfile): string
  {
    d.userId
  }

  /** Once assigned, the driver may write every driver status and may read the order. */
  lemma AssignmentEnablesDriver(
    o: Order, d: DriverProfile, pharmacies: map<string, PharmacyRecord>, s: Status)
    requires s in DriverTargets
    ensures StatusUpdateVerdict(Some(o.(driverId := Some(AssignedDriverId(d)))),
                                User(d.userId, Driver), pharmacies, Name(s)) == Ok(s)
    ensures CanView(User(d.userId, Driver), pharmacies, o.(driverId := Some(AssignedDriverId(d))))
  {
  }

  // ---------------------------------------------------------------------
  // The store

  /** Pharmacy records are keyed by their id and no owner has two. */
  predicate PharmaciesKeyed(pharmacies: map<string, PharmacyRecord>)
  {
    (forall k :: k in pharmacies ==> pharmacies[k].id == k) &&
    (forall k, k' :: k in pharmacies && k' in pharmacies && pharmacies[k].ownerId == pharmacies[k'].ownerId ==> k == k')
  }

  predicate DriversKeyed(drivers: map<string, DriverProfile>)
  {
    forall k :: k in drivers ==> drivers[k].id == k
  }

  /** The three collections the order routes touch. */
  class Store {
    var orders: map<string, Order>
    /** The ids of db.orders in insertion order (the order queries return them in). */
    var orderLog: seq<string>
    const pharmacies: map<string, PharmacyRecord>
    const drivers: map<string, DriverProfile>

    ghost predicate Valid()
      reads this
    {
      && PharmaciesKeyed(pharmacies)
      && DriversKeyed(drivers)
      && (forall k :: k in orders ==> orders[k].id == k)
      && (forall i :: 0 <= i < |orderLog| ==> orderLog[i] in orders)
      && (forall k :: k in orders ==> k in orderLog)
      && (forall i, j :: 0 <= i < j < |orderLog| ==> orderLog[i] != orderLog[j])
    }

    constructor (pharmacies: map<string, PharmacyRecord>, drivers: map<string, DriverProfile>)
      requires PharmaciesKeyed(pharmacies) && DriversKeyed(drivers)
      ensures Valid()
      ensures this.pharmacies == pharmacies && this.drivers == drivers
      ensures orders == map[] && orderLog == []
    {
      this.pharmacies := pharmacies;
      this.drivers := drivers;
      orders := map[];
      orderLog := [];
    }

    /**
     * POST /orders. `distanceKm` is the distance from the delivery address to
     * the pharmacy, `now` the clock and `newId` the fresh order id.
     */
    method CreateOrder(user: User, req: OrderRequest, distanceKm: real, now: real, newId: string)
      returns (r: Result<Order, Failure>)
      requires Valid() && newId !in orders
      modifies this
      ensures Valid()
      ensures r.Ok? <==>
        user.role == Customer && req.pharmacyId in pharmacies &&
        !(req.paymentMethod == CashOnDelivery && distanceKm >= CodLimitKm)
      ensures user.role != Customer ==> r == Err(Failure(403, "Only customers can create orders"))
      ensures user.role == Customer && req.pharmacyId !in pharmacies ==> r == Err(Failure(404, "Pharmacy not found"))
      ensures (user.role == Customer && req.pharmacyId in pharmacies &&
               req.paymentMethod == CashOnDelivery && distanceKm >= CodLimitKm) ==>
        r == Err(Failure(400, "Cash on Delivery not available for orders beyond 10km"))
      ensures r.Ok? ==> r.value == Order(
        newId, user.id, req.pharmacyId, None, req.items, OrderTotal(req.items), req.deliveryAddress,
        Pending, req.paymentMethod, "pending", distanceKm, 0.0, req.notes, now, now)
      ensures r.Ok? ==> orders == old(orders)[newId := r.value] && orderLog == old(orderLog) + [newId]
      ensures r.Err? ==> orders == old(orders) && orderLog == old(orderLog)
    {
      if user.role != Customer {
        return Err(Failure(403, "Only customers can create orders"));
      }
      var total := OrderTotal(req.items);
      if req.pharmacyId !in pharmacies {
        return Err(Failure(404, "Pharmacy not found"));
      }
      if req.paymentMethod == CashOnDelivery && distanceKm >= CodLimitKm {
        return Err(Failure(400, "Cash on Delivery not available for orders beyond 10km"));
      }
      var order := Order(
        newId, user.id, req.pharmacyId, None, req.items, total, req.deliveryAddress,
        Pending, req.paymentMethod, "pending", distanceKm, 0.0, req.notes, now, now);
      orders := orders[newId := order];
      orderLog := orderLog + [newId];
      r := Ok(order);
    }

    /** GET /orders/{id}: the order, if the user may see it. */
    method GetOrder(user: User, orderId: string) returns (r: Result<Order, Failure>)
      requires Valid()
      ensures r.Ok? <==> orderId in orders && CanView(user, pharmacies, orders[orderId])
      ensures r.Ok? ==> r.value == orders[orderId] && r.value.id == orderId
      ensures orderId !in orders ==> r == Err(Failure(404, "Order not found"))
      ensures orderId in orders && !CanView(user, pharmacies, orders[orderId]) ==>
        r == Err(Failure(403, "Not authorized to view this order"))
    {
      if orderId !in orders {
        return Err(Failure(404, "Order not found"));
      }
      var o := orders[orderId];
      if user.role == Customer && o.customerId != user.id {
        r := Err(Failure(403, "Not authorized to view this order"));
      } else if user.role == PharmacyOwner {
        if !Owns(pharmacies, user.id, o.pharmacyId) {
          r := Err(Failure(403, "Not authorized to view this order"));
        } else {
          r := Ok(o);
        }
      } else if user.role == Driver && o.driverId != Some(user.id) {
        r := Err(Failure(403, "Not authorized to view this order"));
      } else {
        r := Ok(o);
      }
    }

    /**
     * PUT /orders/{id}/status. Only `status` and `updated_at` change, and the
     * order's current status is never consulted.
     */
    method UpdateOrderStatus(user: User, orderId: string, target: string, now: real)
      returns (r: Result<Status, Failure>)
      requires Valid()
      modifies this
      ensures Valid()
      ensures r == StatusUpdateVerdict(Get(old(orders), orderId), user, pharmacies, target)
      ensures r.Ok? ==> (orderId in old(orders) &&
        orders == old(orders)[orderId := old(orders)[orderId].(status := r.value, updatedAt := now)])
      ensures r.Err? ==> orders == old(orders)
      ensures orderLog == old(orderLog)
    {
      if orderId !in orders {
        return Err(Failure(404, "Order not found"));
      }
      var o := orders[orderId];
      var s: Status;
      if user.role == PharmacyOwner {
        if !Owns(pharmacies, user.id, o.pharmacyId) {
          return Err(Failure(403, "Not authorized"));
        }
        var parsed := Parse(target);
        if parsed.None? || parsed.value !in PharmacyTargets {
          return Err(Failure(400, "Invalid status for pharmacy"));
        }
        s := parsed.value;
      } else if user.role == Driver {
        if o.driverId != Some(user.id) {
          return Err(Failure(403, "Not authorized"));
        }
        var parsed := Parse(target);
        if parsed.None? || parsed.value !in DriverTargets {
          return Err(Failure(400, "Invalid status for driver"));
        }
        s := parsed.value;
      } else {
        return Err(Failure(403, "Not authorized to update order status"));
      }
      orders := orders[orderId := o.(status := s, updatedAt := now)];
      r := Ok(s);
    }

    /** POST /orders/{id}/cancel at time `now`; on success the recorded charge. */
    method CancelOrder(user: User, orderId: string, now: real) returns (r: Result<real, Failure>)
      requires Valid()
      modifies this
      ensures Valid()
      ensures r == CancelVerdict(user, Get(old(orders), orderId), now)
      ensures r.Ok? ==> (orderId in old(orders) &&
        orders == old(orders)[orderId := old(orders)[orderId].(
          status := Cancelled, cancellationCharge := r.value, updatedAt := now)])
      ensures r.Err? ==> orders == old(orders)
      ensures orderLog == old(orderLog)
    {
      if user.role != Customer {
        return Err(Failure(403, "Only customers can cancel orders"));
      }
      if orderId !in orders {
        return Err(Failure(404, "Order not found"));
      }
      var o := orders[orderId];
      if o.customerId != user.id {
        return Err(Failure(403, "Not authorized"));
      }
      if o.status == Delivered {
        return Err(Failure(400, "Cannot cancel delivered order"));
      }
      if o.status == Cancelled {
        return Err(Failure(400, "Order already cancelled"));
      }
      var elapsed := now - o.createdAt;
      var charge := CancellationCharge(elapsed, o.totalAmount);
      orders := orders[orderId := o.(status := Cancelled, cancellationCharge := charge, updatedAt := now)];
      r := Ok(charge);
    }

    /**
     * POST /orders/{id}/assign-driver, corrected: the order records the
     * assigned driver profile's user id, the id every driver check compares
     * with, where the handler as written records the profile's own id
     * (DriverIdAsWritten). The checks and their errors are as written.
     */
    method AssignDriver(user: User, orderId: string, driverId: string, now: real)
      returns (r: Result<(), Failure>)
      requires Valid()
      modifies this
      ensures Valid()
      ensures r.Ok? <==>
        user.role == PharmacyOwner && orderId in old(orders) &&
        Owns(pharmacies, user.id, old(orders)[orderId].pharmacyId) && driverId in drivers
      ensures user.role != PharmacyOwner ==> r == Err(Failure(403, "Only pharmacy owners can assign drivers"))
      ensures user.role == PharmacyOwner && orderId !in old(orders) ==> r == Err(Failure(404, "Order not found"))
      ensures user.role == PharmacyOwner && orderId in old(orders) &&
              !Owns(pharmacies, user.id, old(orders)[orderId].pharmacyId) ==>
        r == Err(Failure(403, "Not authorized"))
      ensures user.role == PharmacyOwner && orderId in old(orders) &&
              Owns(pharmacies, user.id, old(orders)[orderId].pharmacyId) && driverId !in drivers ==>
        r == Err(Failure(404, "Driver not found"))
      ensures r.Ok? ==> orders == old(orders)[orderId := old(orders)[orderId].(
        driverId := Some(AssignedDriverId(drivers[driverId])), updatedAt := now)]
      ensures r.Ok? ==> forall s :: s in DriverTargets ==>
        StatusUpdateVerdict(Some(orders[orderId]), User(drivers[driverId].userId, Driver), pharmacies, Name(s)) == Ok(s)
      ensures r.Ok? ==> CanView(User(drivers[driverId].userId, Driver), pharmacies, orders[orderId])
      ensures r.Err? ==> orders == old(orders)
      ensures orderLog == old(orderLog)
    {
      if user.role != PharmacyOwner {
        return Err(Failure(403, "Only pharmacy owners can assign drivers"));
      }
      if orderId !in orders {
        return Err(Failure(404, "Order not found"));
      }
      var o := orders[orderId];
      if !Owns(pharmacies, user.id, o.pharmacyId) {
        return Err(Failure(403, "Not authorized"));
      }
      if driverId !in drivers {
        return Err(Failure(404, "Driver not found"));
      }
      var d := drivers[driverId];
      forall s | s in DriverTargets
        ensures StatusUpdateVerdict(Some(o.(driverId := Some(AssignedDriverId(d)), updatedAt := now)),
                                    User(d.userId, Driver), pharmacies, Name(s)) == Ok(s)
      {
        AssignmentEnablesDriver(o.(updatedAt := now), d, pharmacies, s);
      }
      orders := orders[orderId := o.(driverId := Some(AssignedDriverId(d)), updatedAt := now)];
      r := Ok(());
    }

    /**
     * GET /drivers/available-orders: the first 100 logged orders that are
     * accepted and have no driver.
     */
    method AvailableOrders(user: User) returns (r: Result<seq<Order>, Failure>)
      requires Valid()
      ensures r.Ok? <==> user.role == Driver
      ensures r.Err? ==> r.error == Failure(403, "Only drivers can access this")
      ensures r.Ok? ==> r.value == Take(Available(orderLog, orders), AvailableLimit)
      ensures r.Ok? ==> |r.value| <= AvailableLimit
      ensures r.Ok? ==> forall i :: 0 <= i < |r.value| ==> r.value[i] in orders.Values && IsAvailable(r.value[i])
    {
      if user.role != Driver {
        return Err(Failure(403, "Only drivers can access this"));
      }
      var found: seq<Order> := [];
      var i := 0;
      while i < |orderLog| && |found| < AvailableLimit
        invariant 0 <= i <= |orderLog|
        invariant found == Available(orderLog[..i], orders)
        invariant |found| <= AvailableLimit
      {
        var o := orders[orderLog[i]];
        assert orderLog[..i + 1][..i] == orderLog[..i];
        if IsAvailable(o) {
          found := found + [o];
        }
        i := i + 1;
      }
      StopEarly(orderLog, i, orders);
      AvailableStored(orderLog, orders);
      r := Ok(found);
    }
  }
}
