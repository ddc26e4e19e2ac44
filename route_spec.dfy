/**
  The route's customer list and loading plans as values, and what inserting
  and removing a customer does to them. `plans[0]` is the load leaving the
  depot and `plans[j + 1]` the load after serving customer j.
 */
module RouteSpec {
  import opened Optional
  import opened Loading
  import opened Problems

  /** Every plan has the vehicle's n compartments, compartment k at position k. */
  predicate PlansWf(plans: seq<Plan>, n: nat)
  {
    forall j :: 0 <= j < |plans| ==> |plans[j]| == n && forall k :: 0 <= k < n ==> plans[j][k].index == k
  }

  /** No customer is visited twice (the customer list is a set-like list). */
  predicate Distinct(cs: seq<int>)
  {
    forall i, j :: 0 <= i < j < |cs| ==> cs[i] != cs[j]
  }

  /** `customers.index(c)`; None where the lookup raises. */
  function IndexOf(cs: seq<int>, c: int): (r: Option<nat>)
    ensures r.None? <==> c !in cs
    ensures r.Some? ==> r.value < |cs| && cs[r.value] == c && c !in cs[..r.value]
  {
    if cs == [] then None
    else if cs[0] == c then Some(0)
    else
      match IndexOf(cs[1..], c)
      case None => None
      case Some(i) =>
        assert cs[..i + 1] == [cs[0]] + cs[1..][..i];
        Some(i + 1)
  }

  /** `customers.insert(at, c)`. */
  function InsertedCustomers(cs: seq<int>, c: int, at: nat): seq<int>
    requires at <= |cs|
  {
    cs[..at] + [c] + cs[at..]
  }

  /** `del customers[idx]`. */
  function RemovedCustomers(cs: seq<int>, idx: nat): seq<int>
    requires idx < |cs|
  {
    cs[..idx] + cs[idx + 1..]
  }

  /** The rear/front test of the insertion, on the stack planned on. */
  predicate FrontBranch(s: seq<Item>, p: Item)
  {
    Volume(s) - Volume(s[|s| - FrontLen(s)..]) < (DeliveriesInStack(s) as real) * p.volume
  }

  /** The pickups the front placement moves are in the compartment it is applied to. */
  predicate CanPlace(items: seq<Item>, s: seq<Item>, p: Item)
  {
    FrontBranch(s, p) ==> forall q :: q in PickupsBehindFront(s) ==> q in items
  }

  /**
    The pickup placement applied to one compartment, planned on stack s:
    in front of the gathered pickups just behind the front run, or at the rear.
   */
  function PickupPlaced(items: seq<Item>, s: seq<Item>, p: Item): (r: seq<Item>)
    requires CanPlace(items, s, p)
    ensures multiset(r) == multiset(items) + multiset{p}
  {
    if FrontBranch(s, p) then FrontPlaced(items, PickupsBehindFront(s), FrontLen(s), p)
    else PushRear(items, p)
  }

  /**
    What `insert_customer` assumes: a well-formed list of plans, an index
    into it, and, where the front placement is chosen, that the pickups it
    moves are in that compartment in every plan it is applied to.
   */
  predicate InsertFeasible(plans: seq<Plan>, n: nat, at: nat, p: Item)
  {
    && n > 0 && PlansWf(plans, n) && at < |plans|
    && var si := Shortest(plans[at]);
       forall j :: at <= j < |plans| ==> CanPlace(plans[j][si].items, plans[at][si].items, p)
  }

  /**
    The plans after inserting a customer with delivery d and pickup p at
    index `at`: plans 0..at carry d at the rear of the depot's shortest
    compartment; plan at+1 is a copy of plan at, and it and every later plan
    receive p in the compartment that is shortest in that copy.
   */
  function InsertedPlan(plans: seq<Plan>, n: nat, at: nat, d: Item, p: Item): (r: seq<Plan>)
    requires InsertFeasible(plans, n, at, p)
    ensures |r| == |plans| + 1
  {
    var di := Shortest(plans[0]);
    var si := Shortest(plans[at]);
    var s := plans[at][si].items;
    seq(|plans| + 1, j requires 0 <= j <= |plans| =>
      if j <= at then WithItems(plans[j], di, PushRear(plans[j][di].items, d))
      else WithItems(plans[j - 1], si, PickupPlaced(plans[j - 1][si].items, s, p)))
  }


  /** Every plan in positions lo..hi-1 has a compartment k. */
  predicate HasStack(plans: seq<Plan>, lo: nat, hi: nat, k: nat)
  {
    forall i :: lo <= i < hi && i < |plans| ==> k < |plans[i]|
  }

  /** Every plan from lo on has a compartment k holding all of ps. */
  predicate HoldsAll(plans: seq<Plan>, lo: nat, k: nat, ps: seq<Item>)
  {
    forall i :: lo <= i < |plans| ==> k < |plans[i]| && forall q :: q in ps ==> q in plans[i][k].items
  }

  /** One loop of the insertion: x pushed at the rear of compartment k of plans lo..hi-1. */
  function PushedRear(plans: seq<Plan>, lo: nat, hi: nat, k: nat, x: Item): (r: seq<Plan>)
    requires lo <= hi <= |plans| && HasStack(plans, lo, hi, k)
    ensures |r| == |plans|
  {
    seq(|plans|, i requires 0 <= i < |plans| =>
      if lo <= i < hi then WithItems(plans[i], k, PushRear(plans[i][k].items, x)) else plans[i])
  }

  /** The other loop of the insertion: the front placement in compartment k of every plan from lo on. */
  function PlacedInFront(plans: seq<Plan>, lo: nat, k: nat, ps: seq<Item>, front: nat, x: Item): (r: seq<Plan>)
    requires lo <= |plans| && HoldsAll(plans, lo, k, ps)
    ensures |r| == |plans|
  {
    seq(|plans|, i requires 0 <= i < |plans| =>
      if lo <= i then WithItems(plans[i], k, FrontPlaced(plans[i][k].items, ps, front, x)) else plans[i])
  }

  /** The customer at idx has its delivery on board up to plan idx and its pickup after it. */
  predicate OnBoard(plans: seq<Plan>, idx: nat, d: Item, p: Item)
  {
    && idx + 1 < |plans|
    && (forall j :: 0 <= j <= idx ==> InPlan(plans[j], d))
    && (forall j :: idx < j < |plans| ==> InPlan(plans[j], p))
  }

  /**
    The plans after removing the customer at idx: d is unloaded from plans
    0..idx and p from the later ones, then plan idx+1 is dropped.
   */
  function RemovedPlan(plans: seq<Plan>, idx: nat, d: Item, p: Item): seq<Plan>
    requires OnBoard(plans, idx, d, p)
  {
    seq(|plans| - 1, j requires 0 <= j < |plans| - 1 =>
      if j <= idx then Unloaded(plans[j], d) else Unloaded(plans[j + 1], p))
  }

  /** One loop of the removal: x unloaded from plans lo..hi-1. */
  function UnloadedEach(plans: seq<Plan>, lo: nat, hi: nat, x: Item): (r: seq<Plan>)
    requires lo <= hi <= |plans| && forall i :: lo <= i < hi ==> InPlan(plans[i], x)
    ensures |r| == |plans|
  {
    seq(|plans|, i requires 0 <= i < |plans| => if lo <= i < hi then Unloaded(plans[i], x) else plans[i])
  }

  /** Item x is in the same compartments in every plan from lo to hi-1. */
  predicate Stays(plans: seq<Plan>, lo: nat, hi: nat, x: Item)
  {
    forall j, j', k ::
      lo <= j < hi && lo <= j' < hi && j < |plans| && j' < |plans| && 0 <= k < |plans[j]| && k < |plans[j']| ==>
        (x in plans[j][k].items <==> x in plans[j'][k].items)
  }

  /**
    No item changes compartment while it rides: a routed customer's
    delivery stays where it is from the depot to the customer, and its
    pickup from the customer back to the depot.
   */
  predicate Settled(prob: Problem, cs: seq<int>, plans: seq<Plan>)
  {
    forall i :: 0 <= i < |cs| && IsCustomer(prob, cs[i]) && cs[i] < |prob.pickups| ==>
      Stays(plans, 0, i + 1, prob.demands[cs[i]]) && Stays(plans, i + 1, |plans|, prob.pickups[cs[i]])
  }

  /** Everything a plan holds, over all compartments. */
  function Contents(q: Plan): multiset<Item>
  {
    if q == [] then multiset{} else multiset(q[0].items) + Contents(q[1..])
  }

  /** The delivery items of the listed customers (an unknown customer has none). */
  function DeliveriesOf(prob: Problem, cs: seq<int>): multiset<Item>
  {
    if cs == [] then multiset{}
    else (if 0 <= cs[0] < |prob.demands| then multiset{prob.demands[cs[0]]} else multiset{})
         + DeliveriesOf(prob, cs[1..])
  }

  /** The pickup items of the listed customers (an unknown customer has none). */
  function PickupsOf(prob: Problem, cs: seq<int>): multiset<Item>
  {
    if cs == [] then multiset{}
    else (if 0 <= cs[0] < |prob.pickups| then multiset{prob.pickups[cs[0]]} else multiset{})
         + PickupsOf(prob, cs[1..])
  }

  /**
    The loading plans match the route: after serving the first j customers
    the vehicle holds exactly the deliveries of the others and the pickups
    of those served.
   */
  predicate Carries(prob: Problem, cs: seq<int>, plans: seq<Plan>)
  {
    && |plans| == |cs| + 1
    && forall j :: 0 <= j < |plans| ==>
         Contents(plans[j]) == DeliveriesOf(prob, cs[j..]) + PickupsOf(prob, cs[..j])
  }
}
