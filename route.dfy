/**
  The route of one vehicle: its customers in visiting order, one loading
  plan per leg, and a cached routing cost.
 */
module Routes {
  import opened Optional
  import opened Loading
  import opened Problems
  import opened Costs
  import opened RouteSpec
  import opened RouteProperties
  import opened Placement
  import opened Settling

  /**
    A route's customers and plans fit the problem: one more plan than
    customers, each plan with the vehicle's compartments, the plans carrying
    exactly the customers' items over the right legs, and each item kept in
    one compartment while it rides.
   */
  ghost predicate Consistent(prob: Problem, vehicle: nat, cs: seq<int>, plans: seq<Plan>)
  {
    && Wf(prob) && vehicle < |prob.vehKmCost|
    && AllCustomers(prob, cs) && Distinct(cs)
    && |plans| == |cs| + 1
    && PlansWf(plans, prob.numStacks)
    && Carries(prob, cs, plans)
    && Settled(prob, cs, plans)
  }

  /** Inserting a new customer anywhere keeps a route consistent, and its front placement feasible. */
  lemma InsertKeepsConsistent(prob: Problem, vehicle: nat, cs: seq<int>, plans: seq<Plan>, c: int, at: nat)
    requires Consistent(prob, vehicle, cs, plans)
    requires IsCustomer(prob, c) && c !in cs && at <= |cs|
    ensures InsertFeasible(plans, prob.numStacks, at, prob.pickups[c])
    ensures Consistent(prob, vehicle, InsertedCustomers(cs, c, at),
                       InsertedPlan(plans, prob.numStacks, at, prob.demands[c], prob.pickups[c]))
  {
    SettledFeasible(prob, cs, plans, at, prob.pickups[c]);
    InsertKeepsRoute(prob, cs, plans, c, at);
    InsertKeepsSettled(prob, cs, plans, c, at);
  }

  /** Removing a customer of the route keeps it consistent. */
  lemma RemoveKeepsConsistent(prob: Problem, vehicle: nat, cs: seq<int>, plans: seq<Plan>, idx: nat)
    requires Consistent(prob, vehicle, cs, plans) && idx < |cs|
    ensures OnBoard(plans, idx, prob.demands[cs[idx]], prob.pickups[cs[idx]])
    ensures Consistent(prob, vehicle, RemovedCustomers(cs, idx),
                       RemovedPlan(plans, idx, prob.demands[cs[idx]], prob.pickups[cs[idx]]))
  {
    RemoveKeepsRoute(prob, cs, plans, idx);
    RemoveKeepsSettled(prob, cs, plans, idx);
  }

  class Route {
    const problem: Problem
    const vehicle: nat
    var customers: seq<int>
    var plan: seq<Plan>
    var routeCost: Option<real>

    /**
      The route's invariant: its customers and plans are consistent, and a
      cached cost is never stale.
     */
    ghost predicate Valid()
      reads this
    {
      && Consistent(problem, vehicle, customers, plan)
      && (routeCost.Some? ==> routeCost.value == RouteCost(problem, vehicle, customers))
    }

    /** A route over `customers` whose loading plan is given. The cost is not yet known. */
    constructor (problem: Problem, vehicle: nat, customers: seq<int>, plan: seq<Plan>)
      requires Wf(problem) && vehicle < |problem.vehKmCost|
      requires AllCustomers(problem, customers) && Distinct(customers)
      requires PlansWf(plan, problem.numStacks) && Carries(problem, customers, plan)
      requires Settled(problem, customers, plan)
      ensures Valid()
      ensures this.problem == problem && this.vehicle == vehicle
      ensures this.customers == customers && this.plan == plan && routeCost == None
    {
      this.problem := problem;
      this.vehicle := vehicle;
      this.customers := customers;
      this.plan := plan;
      routeCost := None;
    }

    /** `__contains__`. */
    function Contains(customer: int): (b: bool)
      reads this
      ensures b <==> IndexOf(customers, customer).Some?
    {
      customer in customers
    }

    /** `__len__`: the number of customers, one less than the number of plans. */
    function Len(): (n: nat)
      reads this
      requires Valid()
      ensures n + 1 == |plan|
    {
      |customers|
    }

    /** `routing_cost`: computed over depot, customers, depot on the first call, then cached. */
    method RoutingCost() returns (cost: real)
      requires Valid()
      modifies this`routeCost
      ensures Valid()
      ensures cost == RouteCost(problem, vehicle, customers)
      ensures routeCost == Some(cost)
    {
      if routeCost.None? {
        var route := [DEPOT] + customers + [DEPOT];
        TourNodes(problem, customers);
        routeCost := Some(Distance(problem, problem.vehKmCost[vehicle], route));
      }
      cost := routeCost.value;
    }

    /** `for plan in self.plan[lo:hi]: plan[k].push_rear(x)`. */
    method PushRearEach(lo: nat, hi: nat, k: nat, x: Item)
      requires lo <= hi <= |plan| && HasStack(plan, lo, hi, k)
      modifies this`plan
      ensures plan == PushedRear(old(plan), lo, hi, k, x)
    {
      var j := lo;
      while j < hi
        invariant lo <= j <= hi && |plan| == |old(plan)|
        invariant forall i :: lo <= i < j ==> plan[i] == WithItems(old(plan)[i], k, PushRear(old(plan)[i][k].items, x))
        invariant forall i :: 0 <= i < |plan| && !(lo <= i < j) ==> plan[i] == old(plan)[i]
      {
        plan := plan[j := WithItems(plan[j], k, PushRear(plan[j][k].items, x))];
        j := j + 1;
      }
    }

    /**
      The front placement loop: in compartment k of every plan from `lo` on,
      each pickup of `ps` in turn is removed and pushed behind the last
      `front` items, and then x is pushed there too.
     */
    method PlaceInFrontEach(lo: nat, k: nat, ps: seq<Item>, front: nat, x: Item)
      requires lo <= |plan| && HoldsAll(plan, lo, k, ps)
      modifies this`plan
      ensures plan == PlacedInFront(old(plan), lo, k, ps, front, x)
    {
      var j := lo;
      while j < |plan|
        invariant lo <= j <= |plan| && |plan| == |old(plan)|
        invariant forall i :: lo <= i < j ==>
                    plan[i] == WithItems(old(plan)[i], k, FrontPlaced(old(plan)[i][k].items, ps, front, x))
        invariant forall i :: 0 <= i < |plan| && !(lo <= i < j) ==> plan[i] == old(plan)[i]
      {
        var items := RelocateAll(plan[j][k].items, ps, front);
        items := PushBefore(items, front, x);
        plan := plan[j := WithItems(plan[j], k, items)];
        j := j + 1;
      }
    }

    /** `for stacks in self.plan[lo:hi]: stacks.find_stack(x).remove(x)`. */
    method UnloadEach(lo: nat, hi: nat, x: Item)
      requires lo <= hi <= |plan| && forall i :: lo <= i < hi ==> InPlan(plan[i], x)
      modifies this`plan
      ensures plan == UnloadedEach(old(plan), lo, hi, x)
    {
      var j := lo;
      while j < hi
        invariant lo <= j <= hi && |plan| == |old(plan)|
        invariant forall i :: lo <= i < j ==> plan[i] == Unloaded(old(plan)[i], x)
        invariant forall i :: 0 <= i < |plan| && !(lo <= i < j) ==> plan[i] == old(plan)[i]
      {
        plan := plan[j := Unloaded(plan[j], x)];
        j := j + 1;
      }
    }

    /**
      `insert_customer`: puts the customer at index `at`, copies the plan
      before it for the new leg, loads the delivery at the rear of the
      depot's shortest compartment in every plan up to the customer, and
      places the pickup in the compartment shortest at the customer, in
      every plan from there on.
     */
    method InsertCustomer(customer: int, at: nat)
      requires Valid()
      requires IsCustomer(problem, customer) && customer !in customers && at <= |customers|
      modifies this
      ensures Valid()
      ensures customers == InsertedCustomers(old(customers), customer, at)
      ensures InsertFeasible(old(plan), problem.numStacks, at, problem.pickups[customer])
      ensures plan == InsertedPlan(old(plan), problem.numStacks, at,
                                   problem.demands[customer], problem.pickups[customer])
      ensures routeCost == None
    {
      ghost var plans0: seq<Plan>, cs0: seq<int> := plan, customers;
      InsertKeepsConsistent(problem, vehicle, cs0, plans0, customer, at);
      customers := customers[..at] + [customer] + customers[at..];
      LoadDelivery(at, problem.demands[customer]);
      PlacePickup(at, problem.pickups[customer], plans0, problem.demands[customer]);
      // `_update_routing_cost`: the cached cost no longer holds.
      routeCost := None;
    }

    /**
      The first half of `insert_customer`: plan `at` is copied for the new
      leg, and the delivery rides from the depot to the customer, at the
      rear of the compartment shortest at the depot.
     */
    method LoadDelivery(at: nat, d: Item)
      requires problem.numStacks > 0 && PlansWf(plan, problem.numStacks) && at < |plan|
      modifies this`plan
      ensures var c := old(plan)[..at + 1] + [old(plan)[at]] + old(plan)[at + 1..];
              && HasStack(c, 0, at + 1, Shortest(old(plan)[0]))
              && plan == PushedRear(c, 0, at + 1, Shortest(old(plan)[0]), d)
    {
      CopyAt(plan, problem.numStacks, at);
      plan := plan[..at + 1] + [plan[at]] + plan[at + 1..];
      var stackIdx := plan[0][Shortest(plan[0])].index;
      PushRearEach(0, at + 1, stackIdx, d);
    }

    /**
      The second half of `insert_customer`: the pickup rides from the
      customer to the depot, in the compartment shortest at the customer,
      in front (with the pickups behind the front run moved up to it) or
      at the rear, whichever `FrontBranch` picks.
     */
    method PlacePickup(at: nat, p: Item, ghost plans0: seq<Plan>, ghost d: Item)
      requires InsertFeasible(plans0, problem.numStacks, at, p)
      requires var c := plans0[..at + 1] + [plans0[at]] + plans0[at + 1..];
               && HasStack(c, 0, at + 1, Shortest(plans0[0]))
               && plan == PushedRear(c, 0, at + 1, Shortest(plans0[0]), d)
      modifies this`plan
      ensures plan == InsertedPlan(plans0, problem.numStacks, at, d, p)
    {
      InsertSteps(plans0, problem.numStacks, at, d, p);
      var stack := plan[at + 1][Shortest(plan[at + 1])];
      var front := FrontLen(stack.items);
      if FrontBranch(stack.items, p) {
        var pickups := PickupsBehindFront(stack.items);
        PlaceInFrontEach(at + 1, stack.index, pickups, front, p);
      } else {
        PushRearEach(at + 1, |plan|, stack.index, p);
      }
    }

    /**
      `remove_customer`: unloads the customer's delivery from every plan up
      to the customer and its pickup from every later plan, then deletes the
      customer and its plan. A customer not on the route changes nothing.
     */
    method RemoveCustomer(customer: int) returns (removed: bool)
      requires Valid()
      modifies this
      ensures Valid()
      ensures removed <==> customer in old(customers)
      ensures !removed ==> customers == old(customers) && plan == old(plan) && routeCost == old(routeCost)
      ensures removed ==>
                var idx := IndexOf(old(customers), customer).value;
                var d, p := problem.demands[customer], problem.pickups[customer];
                && customers == RemovedCustomers(old(customers), idx)
                && OnBoard(old(plan), idx, d, p)
                && plan == RemovedPlan(old(plan), idx, d, p)
                && routeCost == None
    {
      var found := IndexOf(customers, customer);
      if found.None? {
        return false;
      }
      RemoveAt(found.value);
      removed := true;
    }

    /**
      `remove_customer` once the customer is found at idx: the customer's
      items come off the plans, the customer and its plan are deleted, and
      the cached cost no longer holds.
     */
    method RemoveAt(idx: nat)
      requires Valid() && idx < |customers|
      modifies this
      ensures Valid()
      ensures var d, p := problem.demands[old(customers)[idx]], problem.pickups[old(customers)[idx]];
              && customers == RemovedCustomers(old(customers), idx)
              && OnBoard(old(plan), idx, d, p)
              && plan == RemovedPlan(old(plan), idx, d, p)
              && routeCost == None
    {
      RemoveKeepsConsistent(problem, vehicle, customers, plan, idx);
      // `_update_routing_cost`: the cached cost no longer holds.
      routeCost := None;
      Unload(idx, problem.demands[customers[idx]], problem.pickups[customers[idx]]);
    }

    /**
      The body of `remove_customer` once the customer is found at idx: its
      delivery comes off every plan up to it, its pickup off every later
      plan, and the customer and the plan after it are deleted.
     */
    method Unload(idx: nat, d: Item, p: Item)
      requires idx < |customers| && OnBoard(plan, idx, d, p)
      modifies this`plan, this`customers
      ensures customers == RemovedCustomers(old(customers), idx)
      ensures plan == RemovedPlan(old(plan), idx, d, p)
    {
      RemoveSteps(plan, idx, d, p);
      UnloadEach(0, idx + 1, d);
      UnloadEach(idx + 1, |plan|, p);
      customers := customers[..idx] + customers[idx + 1..];
      plan := plan[..idx + 1] + plan[idx + 2..];
    }
  }

  /** The relocation loop of the front placement, on one compartment's items. */
  method RelocateAll(items: seq<Item>, ps: seq<Item>, front: nat) returns (r: seq<Item>)
    requires forall q :: q in ps ==> q in items
    ensures r == Relocate(items, ps, front)
  {
    r := items;
    var m := 0;
    while m < |ps|
      invariant 0 <= m <= |ps|
      invariant forall q :: q in ps[m..] ==> q in r
      invariant Relocate(r, ps[m..], front) == Relocate(items, ps, front)
    {
      RelocateFirst(r, ps[m..], front);
      assert ps[m..][1..] == ps[m + 1..];
      r := PushBefore(RemoveFirst(r, ps[m]), front, ps[m]);
      m := m + 1;
    }
  }

  /**
    Inserting a customer and removing it again gives back the customer list
    and restores the loading plans (see `Restored`), with the deliveries of
    the chosen compartment in their old order.
   */
  method InsertThenRemove(route: Route, customer: int, at: nat)
    requires route.Valid()
    requires IsCustomer(route.problem, customer) && customer !in route.customers && at <= |route.customers|
    modifies route
    ensures route.Valid()
    ensures route.customers == old(route.customers)
    ensures var si := Shortest(old(route.plan)[at]);
            Restored(route.plan, old(route.plan), route.problem.numStacks, at, si,
                     FrontBranch(old(route.plan)[at][si].items, route.problem.pickups[customer]))
    ensures var si := Shortest(old(route.plan)[at]);
            forall j :: at < j < |old(route.plan)| ==>
              && j < |route.plan| && si < |route.plan[j]| && si < |old(route.plan)[j]|
              && NonPickups(route.plan[j][si].items) == NonPickups(old(route.plan)[j][si].items)
  {
    ghost var cs0: seq<int>, plans0: seq<Plan> := route.customers, route.plan;
    var prob := route.problem;
    NotRoutedNotLoaded(prob, cs0, plans0, customer);
    SettledFeasible(prob, cs0, plans0, at, prob.pickups[customer]);
    InsertThenRemovePlan(plans0, prob.numStacks, at, prob.demands[customer], prob.pickups[customer]);
    InsertThenRemoveKeepsDeliveries(plans0, prob.numStacks, at, prob.demands[customer], prob.pickups[customer]);
    InsertThenRemoveCustomers(cs0, customer, at);
    route.InsertCustomer(customer, at);
    var removed := route.RemoveCustomer(customer);
  }
}
