# Vehicle routing with loading plans: the `Route` of Vehicle_ALNS

A `Route` belongs to one vehicle. It holds the vehicle's customers in
visiting order and one loading plan per leg of the tour:

- `plan[0]` is the load leaving the depot.
- `plan[j + 1]` is the load after serving `customers[j]`.

A plan has one stack (compartment) per vehicle compartment. Each stack
holds items, and an item belongs to one customer. It is either that
customer's delivery, carried from the depot to the customer, or its pickup,
carried from the customer back to the depot. A stack runs from its rear
(index 0) to its front (the last index). The *front run* of a stack is the
maximal run of pickups at its front end.

The model covers four operations of `heuristic/classes/Route.py`:

- **`insert_customer(c, at)`** puts `c` at index `at` and copies plan `at`
  for the new leg.
  - It loads the delivery at the rear of the depot's shortest stack in
    plans `0..at`.
  - It places the pickup in the stack that is shortest at the customer, in
    every later plan.
  - The pickup goes either at the rear, or just behind the front run. In the
    second case, the pickups lying behind the front run are first moved up
    behind it.
- **`remove_customer(c)`** takes the delivery off every plan up to the
  customer and the pickup off every later plan. It then deletes the
  customer and the plan after it.
- **`routing_cost`** is the vehicle's cost per kilometre times the length of
  the tour depot, customers, depot. It is computed once and then cached.
- **`__contains__` and `__len__`**.

Files:

- `loading.dfy` (module `Loading`): items, stacks and plans, and the stack
  operations the route calls: `push_rear`, `push(-k, x)`, `remove`,
  `shortest_stack`, `find_stack` and `deliveries_in_stack`.
- `problem.dfy` (module `Problems`): the problem instance as an immutable
  record.
- `costs.dfy` (module `Costs`): `distance` and `routing_cost`. It also
  proves what an insertion or a removal does to the cost.
- `route_spec.dfy` (module `RouteSpec`): the customer list and the plans as
  values. It defines what insertion and removal produce (`InsertedPlan`,
  `RemovedPlan`) and the invariant `Carries`: after serving the first `j`
  customers, plan `j` holds exactly the deliveries of the others and the
  pickups of those served.
- `placement.dfy` (module `Placement`): what the front placement does to one
  stack.
- `route_lemmas.dfy` (module `RouteProperties`): insertion and removal keep
  the route consistent, and removal undoes insertion.
- `route_settled.dfy` (module `Settling`): no item changes compartment
  while it rides (`Settled`). Insertion and removal keep this. On such a
  route, the pickups the front placement moves are in their compartment in
  every later plan, so each `remove` of the placement finds its item.
- `route.dfy` (module `Routes`): the `Route` class. Its methods change
  `customers`, `plan` and the cost cache in place, with the source's loops,
  and are proved against the functions of `RouteSpec`. Its invariant is
  `Consistent` (the route carries the right items and keeps them settled)
  together with a cached cost that is never stale.

## Model

| member | source | states |
|---|---|---|
| Routes.Route.constructor | heuristic/classes/Route.py:26-34 | A new route holds the given customers and plans and has no cached cost. Given consistent, settled plans, it satisfies the route invariant `Valid`. |
| Routes.Route.Contains | heuristic/classes/Route.py:36-37 | Membership holds exactly when looking up the customer's index succeeds. |
| Routes.Route.Len | heuristic/classes/Route.py:39-40 | The number of customers is one less than the number of loading plans. |
| Routes.Route.RoutingCost | heuristic/classes/Route.py:52-61 | Returns the rate times the length of depot, customers, depot, and caches it. The cache is never stale, so a later call returns the same value. |
| Costs.Distance | heuristic/classes/Route.py:63-76 | Definition: the rate times each leg between consecutive nodes, summed. Its properties are in `Costs.DistanceIsRateTimesLength` and `Costs.DistanceNonNegative`. |
| Costs.RouteCost | heuristic/classes/Route.py:57-59 | Definition: `distance` of the tour depot, customers, depot, at the vehicle's rate. How insertion and removal change it is in `Costs.InsertCostDelta` and `Costs.RemoveCostDelta`. |
| Costs.DistanceIsRateTimesLength | heuristic/classes/Route.py:63-76 | `distance` equals the vehicle's rate times the path length (an independent, end-first sum of legs). A list of fewer than two nodes costs 0. |
| Costs.DistanceNonNegative | heuristic/classes/Route.py:72-76 | With non-negative legs and rate, no list has negative cost. |
| Costs.InsertCostDelta | heuristic/classes/Route.py:141 | Inserting `c` at `at` changes the routing cost by exactly rate × (u→c + c→w − u→w), where u and w are its neighbours on the tour. This is the exact change an incremental update at line 141 would have to make. |
| Costs.RemoveCostDelta | heuristic/classes/Route.py:156 | Removing the customer at `idx` lowers the routing cost by exactly the detour through it. |
| RouteSpec.IndexOf | heuristic/classes/Route.py:154 | `customers.index(c)` fails exactly when `c` is absent. Otherwise it returns an in-range position holding `c`, with no earlier occurrence. |
| Loading.Volume | heuristic/classes/Route.py:125 | Definition: the sum of the item volumes of a stack. `Loading.Shortest` compares it, and `RouteSpec.FrontBranch` tests it. |
| Loading.DeliveriesInStack | heuristic/classes/Route.py:120 | `deliveries_in_stack` counts the deliveries. Together with the pickups they are all the items of the stack. |
| Loading.PushRear | heuristic/classes/Route.py:108-109 | Definition: `push_rear` puts the item at the rear (index 0), as at lines 138-139 too. `RouteProperties.InsertedDelivery` and `RouteProperties.InsertedPickup` state what it does to the plans. |
| Loading.Shortest | heuristic/classes/Route.py:105 | `shortest_stack` returns a valid compartment whose volume is no more than any other's. Every lower-numbered compartment is strictly fuller. |
| Loading.FindStack | heuristic/classes/Route.py:159 | `find_stack(x)` returns the lowest-numbered compartment holding x. |
| Loading.FrontLen | heuristic/classes/Route.py:116 | The front run has only pickups, and the item just behind it, if any, is a delivery. |
| Loading.PushBeforePlaces | heuristic/classes/Route.py:134 | `push(-k, x)` puts x just behind the last k items and keeps the other items in order on both sides. |
| Loading.PushBefore | heuristic/classes/Route.py:134-136 | A push adds exactly one item: the stack grows by one, and its multiset gains x. |
| Loading.RemoveFirst | heuristic/classes/Route.py:133 | `remove(x)` takes exactly one copy of x out of the stack. |
| Loading.RemoveFirstAt | heuristic/classes/Route.py:133 | If the rearmost copy of x is at position i, `remove(x)` gives the stack without position i, the other items keeping their order. |
| Loading.RelocatePermutes | heuristic/classes/Route.py:132-134 | Removing each listed pickup and pushing it behind the front run only reorders the stack. |
| Loading.PickupsIn | heuristic/classes/Route.py:128-129 | The list of pickups behind the front run holds only pickup items from the stack. |
| Loading.PickupsComplete | heuristic/classes/Route.py:128-129 | Conversely, every pickup item of the stack is in its list of pickups. |
| Loading.PickupsPartition | heuristic/classes/Route.py:128-129 | A stack's pickups and its deliveries together are exactly its items, as multisets. |
| RouteSpec.FrontBranch | heuristic/classes/Route.py:116-125 | Definition: the stack's volume less its front run's is below the number of deliveries times the pickup's volume. What each branch produces is in `RouteProperties.PickupPlacedShape` and `Placement.FrontPlacementShape`. |
| Loading.Unloaded | heuristic/classes/Route.py:159 | `find_stack(x).remove(x)` keeps the plan's compartments and their numbers. `RouteProperties.ContentsUnloaded` states that exactly one x leaves. |
| RouteSpec.InsertedCustomers | heuristic/classes/Route.py:99 | Definition: `customers.insert(at, c)`. Its properties are in `RouteProperties.InsertKeepsCustomers` and `RouteProperties.InsertThenRemoveCustomers`. |
| RouteSpec.RemovedCustomers | heuristic/classes/Route.py:164 | Definition: `del customers[idx]`. Its properties are in `RouteProperties.RemoveKeepsCustomers`. |
| RouteSpec.PickupPlaced | heuristic/classes/Route.py:125-139 | The pickup placement, in either branch, leaves the stack with its old items plus the new pickup. |
| Placement.FrontPlacedKeepsDeliveries | heuristic/classes/Route.py:128-136 | In the front branch, every affected stack ends as its old items plus the pickup, and its deliveries keep their relative order. |
| Placement.RelocateGathers | heuristic/classes/Route.py:131-134 | Relocating a stack's pickups in order gathers them, in their old order, just behind the last part of the stack. The deliveries are left in order at the rear. |
| Placement.FrontPlacementShape | heuristic/classes/Route.py:116-136 | On the stack the choice was made on, the front placement gives, rear to front: the deliveries, the pickups that lay behind the front run, the new pickup, then the old front run. |
| RouteProperties.PickupPlacedShape | heuristic/classes/Route.py:116-139 | The placement's result on its own stack is that front-branch shape when the front test holds. Otherwise it is the new pickup at the rear followed by the old stack. |
| RouteProperties.InsertedPickupStack | heuristic/classes/Route.py:111-112 | In the new plan after the customer, the compartment shortest at the customer holds the pickup placement applied to the copy of plan `at`. What that placement gives, in each branch, is `RouteProperties.PickupPlacedShape`. |
| RouteProperties.InsertedDelivery | heuristic/classes/Route.py:100-109 | In plans `0..at`, the depot's shortest compartment gains the delivery at its rear. Nothing else in those plans changes. |
| RouteProperties.InsertedPickup | heuristic/classes/Route.py:111-139 | In every plan after the customer, only the compartment chosen at the customer changes. It gains exactly the pickup, and its deliveries keep their order. |
| RouteProperties.InsertedContents | heuristic/classes/Route.py:100-139 | Plans `0..at` gain exactly the delivery, and every later plan (a copy shifted by one) gains exactly the pickup. |
| RouteProperties.InsertSteps | heuristic/classes/Route.py:99-139 | The source's steps give `InsertedPlan`: copy plan `at`, push the delivery at the rear of plans `0..at`, then run the front or the rear loop from plan `at+1` on. Each step's precondition holds. |
| RouteProperties.RemoveSteps | heuristic/classes/Route.py:158-165 | The two unloading loops, followed by deleting plan `idx+1`, give `RemovedPlan`. |
| RouteProperties.InsertThenRemoveCustomers | heuristic/classes/Route.py:154-164 | After inserting `c` at `at`, `index(c)` is `at`, and deleting it restores the customer list. |
| RouteProperties.InsertKeepsCustomers | heuristic/classes/Route.py:99 | Inserting a new customer keeps the list free of repeats and of non-customers. |
| RouteProperties.RemoveKeepsCustomers | heuristic/classes/Route.py:164 | Deleting a customer keeps the list free of repeats, and the customer is gone. |
| RouteProperties.InPlanContents | heuristic/classes/Route.py:159 | `find_stack` can succeed exactly when the item is somewhere in the plan. |
| RouteProperties.ContentsUnloaded | heuristic/classes/Route.py:159 | `find_stack(x).remove(x)` takes exactly one x out of the plan's contents. |
| RouteProperties.CarriedItemsOnBoard | heuristic/classes/Route.py:158-162 | On a consistent route, the customer at `idx` has its delivery in every plan up to `idx` and its pickup in every later plan. So both unloading loops find their item. |
| RouteProperties.NotRoutedNotLoaded | heuristic/classes/Route.py:91-96 | The items of a customer not on the route are on no plan. |
| RouteProperties.InsertKeepsRoute | heuristic/classes/Route.py:91-141 | Insertion keeps the route consistent: one plan per leg, every compartment numbered, and each plan carrying exactly the deliveries still due and the pickups made. |
| RouteProperties.RemoveKeepsRoute | heuristic/classes/Route.py:143-165 | Removal finds the items where it unloads them and keeps the route consistent in the same sense. |
| RouteProperties.InsertThenRemovePlan | heuristic/classes/Route.py:100-165 | Removing a customer just inserted puts every plan back as it was in the rear branch. In the front branch it does so up to the order of the chosen compartment: the same items, all other compartments unchanged. |
| RouteProperties.InsertThenRemoveKeepsDeliveries | heuristic/classes/Route.py:128-162 | In either branch, removing a customer just inserted gives the chosen compartment of every later plan its deliveries back in their old order. Only its pickups may come back reordered. |
| Settling.InsertedNewItems | heuristic/classes/Route.py:105-139 | After an insertion, the new delivery is in the depot's shortest compartment, and only there, in every plan up to the customer. The new pickup is in the compartment chosen at the customer, and only there, in every later plan. |
| Settling.InsertKeepsSettled | heuristic/classes/Route.py:99-139 | Insertion keeps every item of the route in one compartment for its whole ride. |
| Settling.RemoveKeepsSettled | heuristic/classes/Route.py:158-165 | Removal keeps every remaining item in one compartment for its whole ride. |
| Settling.LoadedPickupStays | heuristic/classes/Route.py:131-133 | On a settled route, a pickup on board at a stop is in the same compartment at every later stop. |
| Settling.SettledFeasible | heuristic/classes/Route.py:128-134 | On a consistent, settled route, the pickups the front branch moves are in the chosen compartment in every later plan. So `remove` at line 133 always finds its item, for any new customer at any position. |
| Routes.InsertKeepsConsistent | heuristic/classes/Route.py:91-141 | Inserting a new customer at any position keeps the route consistent and settled, and its front placement is feasible. |
| Routes.RemoveKeepsConsistent | heuristic/classes/Route.py:143-165 | Removing a customer of the route finds its items where they are unloaded and keeps the route consistent and settled. |
| Routes.Route.PushRearEach | heuristic/classes/Route.py:108-109 | The `push_rear` loop: the item goes to the rear of compartment k in plans `lo..hi-1`, and no other plan changes. |
| Routes.RelocateAll | heuristic/classes/Route.py:132-134 | The inner loop of the front branch computes the relocation of the listed pickups. |
| Routes.Route.PlaceInFrontEach | heuristic/classes/Route.py:131-136 | The front-branch loop applies the front placement to compartment k of every plan from `lo` on, and no earlier plan changes. |
| Routes.Route.UnloadEach | heuristic/classes/Route.py:158-162 | Each unloading loop takes the item out of its compartment in plans `lo..hi-1`, and no other plan changes. |
| Routes.Route.LoadDelivery | heuristic/classes/Route.py:100-109 | Copies plan `at` for the new leg, then loads the delivery at the rear of the depot's shortest compartment in plans `0..at`. |
| Routes.Route.PlacePickup | heuristic/classes/Route.py:111-139 | Chooses the front or the rear branch on the copy of plan `at`. The resulting plans are `InsertedPlan`. |
| Routes.Route.InsertCustomer | heuristic/classes/Route.py:91-141 | Given only a new customer and a position on the route, the front placement is feasible. The customer is at `at`, the plans are `InsertedPlan`, and the cached cost is dropped. The route invariant is kept. |
| Routes.Route.Unload | heuristic/classes/Route.py:158-165 | Unloads the customer's items and deletes the customer and plan `idx+1`. The result is `RemovedPlan`. |
| Routes.Route.RemoveAt | heuristic/classes/Route.py:156-165 | Removing the customer at `idx` finds its items on board where they are unloaded. The customers and plans become `RemovedCustomers` and `RemovedPlan`, the cached cost is dropped, and the route invariant is kept. |
| Routes.Route.RemoveCustomer | heuristic/classes/Route.py:143-165 | It removes the customer exactly when the customer is on the route. Then its items were on board where unloaded, the plans become `RemovedPlan`, and the cached cost is dropped. Otherwise nothing changes. The route invariant is kept. |
| Routes.InsertThenRemove | heuristic/classes/Route.py:91-165 | Inserting a customer and then removing it gives back the customer list and restores the plans as `InsertThenRemovePlan` states. The deliveries of the chosen compartment come back in their old order. |

## Left out

- The stack and item classes (`Item`, `Stacks`, `SetList`) are not part of this model. Their operations are modelled from how `Route.py` calls them:
  - `shortest_stack` takes the least volume, with ties going to the lowest index.
  - `find_stack` takes the lowest-numbered compartment holding the item.
  - `remove` takes out the rearmost copy.
- `push(-k, x)` with an empty front run (`k = 0`) is read as "at the front". Python's `list.insert(-0, x)` would instead put x at the rear, like `push_rear`. Offsets beyond the stack put the item at the rear, as a negative list index does.
- `Problem` is a singleton read from files. Here it is an immutable record with `demands`, `pickups`, `distances`, the per-vehicle cost `vehKmCost` and the number of compartments. Parsing is not modelled.
- `DEPOT` comes from `heuristic.constants`, which is not part of this model. It is taken to be -1, inferred from the `+ 1` shift of node numbers in `distance` (line 75) and in `__str__`.
- Costs and distances are `real`, and floating-point rounding is not modelled.
- `routing_cost` calls `distance` unbound, but `distance` needs the route's vehicle. It is modelled with the vehicle's cost per kilometre as the rate.
- `__slots__` lists neither `schedule` nor `vehicle_id`, and `__init__` never sets `plan`. The model's constructor takes the plans as a parameter. Schedules, time windows, shifts and vehicle capacity are not modelled: the route never computes them.
- `_update_routing_cost` is not shown, so the model treats it as dropping the cached cost. `Costs.InsertCostDelta` and `Costs.RemoveCostDelta` state the exact change an incremental update would have to make.
- Routes.Route.RemoveCustomer: for a customer not on the route, `customers.index` raises. The model returns `false` and changes nothing. A customer number outside the problem's tables (an index error) gets the same treatment.
- Routes.Route.InsertCustomer: requires a customer not yet on the route and a position within it. The source checks neither: its docstring says it assumes the insertion is feasible.
- Routes.Route.constructor: `__init__` never builds the loading plan, so the constructor takes plans that already carry the customers' items and keep each item in one compartment.
- Routes.InsertThenRemove: in the front branch, the chosen compartment comes back with the same items and its deliveries in order, but its pickups possibly in a different order, because the relocated pickups stay gathered. Only the rear branch restores the plans exactly.
- `deepcopy` of a plan is value semantics, so aliasing between plans is not modelled.
- `cost`, `__iter__`, `__str__` and `__repr__` are not modelled: `cost` forwards to `routing_cost`, `__iter__` yields the customers, and `__str__`/`__repr__` print.
