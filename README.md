# Medicine delivery marketplace: order rules, cart and status views

This project models the core of a medicine delivery marketplace with three
portals (customer, pharmacy, driver) over one REST backend:

- **Server order rules** (`backend/server.py`). The `Backend.Store` class holds
  the `orders` collection as a map, plus the order ids in the order a query
  scans them (taken to be insertion order) and the `pharmacies` and `drivers`
  collections. Its methods are the handlers
  that create an order, read one, update its status, cancel it, assign a
  driver and list the orders open to drivers. Each method checks in the
  source's order and returns the same HTTP code and detail on every error
  path. The decisions are pure functions proved on their own:
  `StatusUpdateVerdict`, `CancelVerdict`, `CancellationCharge`, `CanView`
  and `Available`.
- **The cart aggregator** (`CustomerDashboard.js`). The `Cart` module holds
  the cart as a sequence of lines keyed by medicine id and the functions that
  add, remove and set quantities. It also has the two totals, the grouping by
  pharmacy and the order payloads. `Cart.CartSession` is the component state.
  Its checkout fills the per-pharmacy dictionary in a loop, then posts one
  order per pharmacy in sequence. It clears the cart only when every post
  succeeded.
- **The status views** (`OrderTracking.js`, `DriverDashboard.js`,
  `PharmacyDashboard.js`): the six-step tracking timeline, the contact
  buttons, the driver's next-step button, the pharmacy's accept/reject
  buttons, the message after an update, and the pending-orders badge. Lemmas
  connect each button to the server's permission sets and to the track
  pending → accepted → preparing → picked_up → in_transit → delivered.

Money, distances and minutes are `real` (the source uses floating point).
Statuses travel as strings: `Domain.Name` and `Domain.Parse` convert between
the enum and its wire string.

A forward-only state machine with terminal states would reject some of the
writes the server allows. The server does not enforce one: a status update
never looks at the current status. The model follows the code. `Backend.VerdictIgnoresStatus`
and `Backend.DeliveredOrderCanBeReaccepted` state the behaviour as written.
Forward movement is proved only for the buttons the portals offer
(`DriverView.DriverButtonsForward`, `PharmacyView.PharmacyButtonsForward`).
The driver's button on an accepted order skips "preparing".

## Model

| member | source | states |
|---|---|---|
| Domain.Parse | backend/server.py:61-68 | a string parses only to the status whose wire name it is |
| Domain.ParseName | backend/server.py:61-68 | every status's wire name parses back to that status |
| Domain.NameInjective | backend/server.py:61-68 | two statuses with the same wire name are equal |
| Domain.ParseIff | backend/server.py:61-68 | a string parses to s exactly when it is s's wire name |
| Domain.Name | backend/server.py:61-68 | defines the wire string of each status; Domain.ParseName is its inverse |
| Domain.RoleOf | backend/server.py:55-58 | a role string denotes its own role for "customer", "pharmacy" and "driver", and an unrecognised role carrying the string otherwise |
| Domain.RoleOfWellFormed | backend/server.py:55-58 | an unrecognised role never carries one of the three known names |
| Backend.OrderTotal | backend/server.py:656 | defines the order total: the sum of price times quantity over the items, in order |
| Backend.OrderTotalAppend | backend/server.py:656 | the total of concatenated item lists is the sum of their totals |
| Backend.OrderTotalNonNegative | backend/server.py:656 | items with non-negative prices and quantities total at least 0 |
| Backend.CancellationCharge | backend/server.py:789-797 | the charge is between 0 and the total; free up to 2 minutes; the full total after 20 |
| Backend.ChargeMonotone | backend/server.py:789-797 | cancelling later never costs less |
| Backend.StatusUpdateVerdict | backend/server.py:733-757 | 404 without an order; success only for the owning pharmacy with accepted/cancelled/preparing, or the assigned driver with picked_up/in_transit/delivered, and then always; 403 for a pharmacy that does not own the order or a driver it is not assigned to, 400 for a status outside the role's set, 403 for every other role |
| Backend.VerdictIgnoresStatus | backend/server.py:745-762 | the verdict is the same whatever the order's current status |
| Backend.DeliveredOrderCanBeReaccepted | backend/server.py:740-746 | the owning pharmacy may set a delivered order back to accepted |
| Backend.OtherRolesRejected | backend/server.py:756-757 | customers and unrecognised roles can never update a status |
| Backend.Owns | backend/server.py:741-742 | defines pharmacy ownership: the order's pharmacy exists and the user is its owner |
| Backend.CanView | backend/server.py:720-728 | defines who may read an order: its customer, the owner of its pharmacy, its driver, and any user with an unrecognised role |
| Backend.CancelVerdict | backend/server.py:767-797 | succeeds exactly for the owning customer on an order neither delivered nor cancelled, with the time-tiered charge; 403/404/403 on the first three checks |
| Backend.IsAvailable | backend/server.py:885-888 | defines an available order: accepted and without a driver |
| Backend.Available | backend/server.py:885-888 | defines the available orders of a log, in log order; Backend.AvailableExactly characterises it |
| Backend.Take | backend/server.py:888 | at most n elements, a prefix of the input |
| Backend.AvailableAppend | backend/server.py:885-888 | the available orders of a concatenated log are those of each part, in order |
| Backend.AvailableExactly | backend/server.py:885-888 | an order is listed iff it is a stored order that is accepted and has no driver |
| Backend.AsWrittenAssignmentLocksOutDriver | backend/server.py:816-839 | with the profile id stored, a driver whose profile id differs from their user id gets 403 on every status update and cannot read the order |
| Backend.AsWrittenPickupRefused | backend/server.py:833-837 | profile "d-1" of user "u-1", once assigned, cannot mark picked_up |
| Backend.AssignmentEnablesDriver | backend/server.py:749-754 | with the user id stored, the assigned driver may write every driver status and read the order |
| Backend.StopEarly | backend/server.py:885-888 | stopping the scan at the end of the log or at 100 found yields the first 100 available orders |
| Backend.AvailableStored | backend/server.py:885-888 | every listed order is stored, accepted and without a driver |
| Backend.Store.CreateOrder | backend/server.py:650-694 | 403 for non-customers, 404 for an unknown pharmacy, 400 for cash on delivery at 10 km or more; otherwise stores a pending order with the items' total, no driver, unpaid, no charge, and appends it |
| Backend.Store.GetOrder | backend/server.py:714-730 | returns the stored order exactly when the user may view it; 404 or 403 otherwise |
| Backend.Store.UpdateOrderStatus | backend/server.py:733-764 | the outcome is StatusUpdateVerdict; on success only status and updated_at change |
| Backend.Store.CancelOrder | backend/server.py:767-813 | the outcome is CancelVerdict; on success the order becomes cancelled with the charge recorded |
| Backend.Store.AssignDriver | backend/server.py:816-839 | the corrected handler: the checks and the errors 403 (not a pharmacy), 404 (no order), 403 (not the owner), 404 (no driver) in the source's order; on success only the driver id and updated_at change, and the driver id stored is the profile's user id, where line 836 stores the profile's own id; the assigned driver may then write every driver status and read the order |
| Backend.Store.AvailableOrders | backend/server.py:879-890 | drivers only; the first 100 available orders in the scan order, each stored, accepted and without a driver |
| Cart.Added | frontend/src/apps/customer/pages/CustomerDashboard.js:65-76 | the length grows by one exactly when the medicine is new |
| Cart.Removed | frontend/src/apps/customer/pages/CustomerDashboard.js:78-80 | no line with the id remains and the cart does not grow |
| Cart.RemovedSubMultiset | frontend/src/apps/customer/pages/CustomerDashboard.js:78-80 | every remaining line occurs in the cart at least as often |
| Cart.WithQuantity | frontend/src/apps/customer/pages/CustomerDashboard.js:82-92 | below 1 it is removal; otherwise the length is kept |
| Cart.Incremented | frontend/src/apps/customer/pages/CustomerDashboard.js:68-72 | defines the map of addToCart over a medicine already present: one more unit on its line, the length kept |
| Cart.TotalAmount | frontend/src/apps/customer/pages/CustomerDashboard.js:94-96 | defines getTotalAmount: the sum of price times quantity, from the left |
| Cart.ItemCount | frontend/src/apps/customer/pages/CustomerDashboard.js:306 | defines the "Total Items" figure: the sum of the quantities |
| Cart.TotalAppend | frontend/src/apps/customer/pages/CustomerDashboard.js:94-96 | totals and item counts add over concatenation |
| Cart.TotalPointUpdate | frontend/src/apps/customer/pages/CustomerDashboard.js:94-96 | changing one line moves the totals by that line's difference only |
| Cart.AddExisting | frontend/src/apps/customer/pages/CustomerDashboard.js:66-72 | adding a medicine already in the cart raises that line's quantity by one and leaves every other line; the count rises by 1 and the total by the price |
| Cart.UnitMore | frontend/src/apps/customer/pages/CustomerDashboard.js:70 | one more unit costs one more unit price |
| Cart.AddNew | frontend/src/apps/customer/pages/CustomerDashboard.js:73-74 | adding a new medicine appends one line of quantity 1; the count rises by 1 and the total by the price |
| Cart.AddRepeatedly | frontend/src/apps/customer/pages/CustomerDashboard.js:65-76 | adding the same hit n times to an empty cart gives one line of quantity n |
| Cart.RemoveAtShape | frontend/src/apps/customer/pages/CustomerDashboard.js:78-80 | removing the id of line k, which no other line has, leaves the other lines in order |
| Cart.DropTotals | frontend/src/apps/customer/pages/CustomerDashboard.js:94-96 | dropping a line from between two parts lowers the totals by that line |
| Cart.RemoveAt | frontend/src/apps/customer/pages/CustomerDashboard.js:78-80 | removing the id of line k, which no other line has, leaves the other lines in order and lowers the totals by that line |
| Cart.RemoveAbsent | frontend/src/apps/customer/pages/CustomerDashboard.js:78-80 | removing an absent id changes nothing |
| Cart.RemovedFrom | frontend/src/apps/customer/pages/CustomerDashboard.js:78-80 | every remaining line comes from the cart |
| Cart.RemovedWellFormed | frontend/src/apps/customer/pages/CustomerDashboard.js:78-80 | removal keeps ids unique and quantities at least 1 |
| Cart.AddedWellFormed | frontend/src/apps/customer/pages/CustomerDashboard.js:65-76 | adding keeps ids unique and quantities at least 1 |
| Cart.WithQuantityWellFormed | frontend/src/apps/customer/pages/CustomerDashboard.js:82-92 | setting a quantity keeps ids unique and quantities at least 1 |
| Cart.InvariantKept | frontend/src/apps/customer/pages/CustomerDashboard.js:65-92 | all three edits keep the cart invariant |
| Cart.SetQuantityAt | frontend/src/apps/customer/pages/CustomerDashboard.js:82-92 | a quantity of 1 or more changes that line alone; below 1 removes it |
| Cart.PharmacyIds | frontend/src/apps/customer/pages/CustomerDashboard.js:102-108 | the group keys are distinct and nonempty for a nonempty cart |
| Cart.PharmacyIdsSnoc | frontend/src/apps/customer/pages/CustomerDashboard.js:103-106 | a new line's pharmacy is appended to the keys unless already listed |
| Cart.PharmacyIdsCover | frontend/src/apps/customer/pages/CustomerDashboard.js:102-108 | every line's pharmacy is a key |
| Cart.PharmacyIdsListed | frontend/src/apps/customer/pages/CustomerDashboard.js:102-108 | every key is the pharmacy of some line |
| Cart.LinesOf | frontend/src/apps/customer/pages/CustomerDashboard.js:103-107 | defines one pharmacy's group: its lines in cart order, never longer than the cart |
| Cart.LinesOfCount | frontend/src/apps/customer/pages/CustomerDashboard.js:102-108 | a group holds each line of its pharmacy as often as the cart does, and no other line |
| Cart.GroupsDisjoint | frontend/src/apps/customer/pages/CustomerDashboard.js:102-108 | two pharmacies' groups share no line |
| Cart.LinesOfAbsent | frontend/src/apps/customer/pages/CustomerDashboard.js:103-105 | a pharmacy with no line has an empty group |
| Cart.LinesOfSnoc | frontend/src/apps/customer/pages/CustomerDashboard.js:107 | appending a line extends its own pharmacy's group by it and leaves every other group |
| Cart.GroupedCount | frontend/src/apps/customer/pages/CustomerDashboard.js:102-108 | over distinct keys, the groups hold a line as often as the cart does when its pharmacy is a key, else not at all |
| Cart.GroupTotalExtend | frontend/src/apps/customer/pages/CustomerDashboard.js:102-108 | appending a line adds its total to its own pharmacy's group total only |
| Cart.GroupsCoverCart | frontend/src/apps/customer/pages/CustomerDashboard.js:102-108 | the groups together are the cart, counted with multiplicity |
| Cart.GroupTotalsAddUp | frontend/src/apps/customer/pages/CustomerDashboard.js:94-108 | the group totals add up to the cart total |
| Cart.ToItems | frontend/src/apps/customer/pages/CustomerDashboard.js:113-118 | defines the posted items of a group, one per line |
| Cart.RequestFor | frontend/src/apps/customer/pages/CustomerDashboard.js:120-130 | defines the order posted for one pharmacy: its items, the user's location as "Current Location", cash on delivery, empty notes |
| Cart.Requests | frontend/src/apps/customer/pages/CustomerDashboard.js:112-130 | defines the orders checkout posts: one per pharmacy key, in key order |
| Cart.ItemsTotal | frontend/src/apps/customer/pages/CustomerDashboard.js:113-118 | the server's total of a posted group equals the cart's total of those lines |
| Cart.GroupStep | frontend/src/apps/customer/pages/CustomerDashboard.js:103-107 | one pass of the grouping loop keeps the dictionary equal to the groups of the lines seen so far |
| Cart.GroupingComplete | frontend/src/apps/customer/pages/CustomerDashboard.js:102-108 | after all lines, the keys are the cart's pharmacies and each maps to its group |
| Cart.RequestsFromGroups | frontend/src/apps/customer/pages/CustomerDashboard.js:112-130 | the payloads built from the dictionary are the cart's per-pharmacy requests |
| Cart.RequestsForTotal | frontend/src/apps/customer/pages/CustomerDashboard.js:112-131 | the posted orders' totals are the group totals |
| Cart.CheckoutTotalsAddUp | frontend/src/apps/customer/pages/CustomerDashboard.js:112-131 | the totals the server computes for all posted orders add up to the cart total |
| Cart.CartSession.constructor | frontend/src/apps/customer/pages/CustomerDashboard.js:14 | the cart starts empty, which meets the cart invariant |
| Cart.CartSession.AddToCart | frontend/src/apps/customer/pages/CustomerDashboard.js:65-76 | the cart becomes Added of the old cart and keeps the invariant (unique ids, quantities at least 1) |
| Cart.CartSession.RemoveFromCart | frontend/src/apps/customer/pages/CustomerDashboard.js:78-80 | the cart becomes Removed of the old cart and keeps the invariant |
| Cart.CartSession.UpdateQuantity | frontend/src/apps/customer/pages/CustomerDashboard.js:82-92 | the cart becomes WithQuantity of the old cart and keeps the invariant |
| Cart.CartSession.GroupByPharmacy | frontend/src/apps/customer/pages/CustomerDashboard.js:101-108 | the keys in first-appearance order, each mapped to its pharmacy's lines in cart order |
| Cart.CartSession.PostInOrder | frontend/src/apps/customer/pages/CustomerDashboard.js:111-141 | posts a prefix of the requests in order; stops at the first failure with its detail; no failure iff all were posted and all succeeded |
| Cart.CartSession.HandleCheckout | frontend/src/apps/customer/pages/CustomerDashboard.js:98-142 | empty cart: nothing posted; else posts a prefix of the per-pharmacy orders, stops at the first failure and reports its detail, and clears the cart iff all were posted and all succeeded |
| Tracking.Position | frontend/src/pages/OrderTracking.js:33-40 | a status's place on the track, -1 exactly for cancelled |
| Tracking.StatusSteps | frontend/src/pages/OrderTracking.js:33-40 | six steps keyed by the track; the first is completed; the completed steps form a prefix |
| Tracking.CompletedExactly | frontend/src/pages/OrderTracking.js:35-39 | a status at place k completes exactly steps 0..k |
| Tracking.DeliveredCompletesAll | frontend/src/pages/OrderTracking.js:39 | a delivered order completes every step |
| Tracking.OffTrackOnlyFirst | frontend/src/pages/OrderTracking.js:34-39 | no order, cancelled, or an unknown status completes only the first step |
| Tracking.ShowContactActions | frontend/src/pages/OrderTracking.js:135 | defines the guard on the call and chat buttons |
| Tracking.ContactUntilFinished | frontend/src/pages/OrderTracking.js:135 | the contact buttons show iff the order is neither delivered nor cancelled, i.e. on the track iff the last step is not completed |
| DriverView.DriverActions | frontend/src/pages/DriverDashboard.js:254-284 | at most one button per status |
| DriverView.DriverActionsExactly | frontend/src/pages/DriverDashboard.js:254-284 | accepted, picked_up and in_transit give exactly one button, writing picked_up, in_transit and delivered; every other string gives none |
| DriverView.DriverButtonsAccepted | frontend/src/pages/DriverDashboard.js:255-277 | every button writes a driver status, which the server accepts from the assigned driver once the assignment stores the driver's user id (the corrected assignment; as written it refuses them) |
| DriverView.DriverButtonsForward | frontend/src/pages/DriverDashboard.js:255-277 | every button moves forward on the track: one step from picked_up and in_transit, two from accepted |
| PharmacyView.PharmacyActions | frontend/src/pages/PharmacyDashboard.js:523-539 | two buttons for a pending order, none for any other status |
| PharmacyView.PharmacyButtonsAccepted | frontend/src/pages/PharmacyDashboard.js:523-539 | both buttons write accepted or cancelled, never preparing, and the server accepts them from the owning pharmacy |
| PharmacyView.PharmacyButtonsForward | frontend/src/pages/PharmacyDashboard.js:523-539 | buttons exist only on pending and move one step forward or to cancelled |
| PharmacyView.ActionWord | frontend/src/pages/PharmacyDashboard.js:143 | the word is "accepted" iff the target was accepted, else "rejected" |
| PharmacyView.ActionMessage | frontend/src/pages/PharmacyDashboard.js:143 | the alert reads "Order accepted successfully" iff the target was accepted, else "Order rejected successfully" |
| PharmacyView.MessagesMatchButtons | frontend/src/pages/PharmacyDashboard.js:143 | Accept reports "Order accepted successfully", Reject "Order rejected successfully" |
| PharmacyView.PendingCount | frontend/src/pages/PharmacyDashboard.js:340-341 | the number of "pending" statuses, counted with multiplicity |
| PharmacyView.Badge | frontend/src/pages/PharmacyDashboard.js:340-341 | hidden iff no order is pending; otherwise the pending count |
| PharmacyView.NewOrderShowsBadge | frontend/src/pages/PharmacyDashboard.js:340-341 | one more pending order raises the count by one and shows the badge |

## Left out

- Distance and delivery time: `calculate_distance` (haversine) and `estimate_delivery_time` are parameters or dropped. `CreateOrder` receives the distance, and the order's `estimated_time` and `razorpay_order_id` fields are not modelled.
- Mongo I/O, authentication, tokens and payments are not modelled. The clock (`now`, in minutes) and fresh uuids are parameters. `CreateOrder` requires the new id not to be stored already.
- The other routes are not modelled: medicines, search, pharmacy and driver profiles, `get_my_orders`, location updates. Neither are polling, local storage and the page rendering.
- Floating-point rounding: prices, totals, charges and distances are exact reals.
- Order of `get_available_orders`: the query has no sort, so MongoDB returns its natural order, which is not guaranteed. The model scans the order ids in insertion order (`Backend.Store.orderLog`).
- Order of checkout: `Object.entries` lists the pharmacy ids in insertion order only because they are never integer-like strings (they are uuid4 strings, backend/server.py:125). The model takes first-appearance order.
- `notes` is optional (`Optional[str]`) on the server; the model's `OrderRequest` and `Order` carry a plain string, and the client always sends "".
- `Backend.Owns` takes it that no owner has two pharmacies, as `find_one({"owner_id": …})` does. Which pharmacy Mongo would return otherwise is not modelled.
- Cart.CartSession.HandleCheckout: the checkout network post is a parameter `respond(i, request)`. The code shows one alert for the whole checkout, so the model does not report per-pharmacy outcomes beyond the list of posts made. The alert texts and the refresh of "my orders" are left out.
- Cart.Added: its own contract states only the new length; the line contents are stated by `Cart.AddExisting` and `Cart.AddNew`.
- The tracking page's 10-second polling interval and the loading screen are not modelled.

## Findings

| source | as written | input that shows it | evidently intended | confidence | as-written member | corrected member |
|---|---|---|---|---|---|---|
| backend/server.py:833-837 | `assign_driver` stores the driver profile's `id` in `order.driver_id`, but the status update (line 750), the single-order read (line 727) and the driver's order list (line 708) compare `driver_id` with the user id | profile `DriverProfile("d-1", "u-1")` assigned, then user `u-1` (driver) puts `picked_up`: 403 "Not authorized" | the assigned driver can update and read the order, so the profile's `user_id` is stored (Backend.AssignmentEnablesDriver proves the driver is then accepted) | medium, not executed | Backend.AsWrittenAssignmentLocksOutDriver | Backend.Store.AssignDriver |
