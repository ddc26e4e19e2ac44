/**
  What inserting and removing a customer does to a route: the customer list
  keeps its customers distinct, every plan gains or loses exactly the
  customer's item, the plans keep carrying exactly the route's items, and
  removing a customer just inserted gives the old route back.
 */
module RouteProperties {
  import opened Optional
  import opened Loading
  import opened Problems
  import opened RouteSpec
  import opened Placement

  // ----- The customer list -----

  /** After `insert(at, c)`, `index(c)` finds c at `at`, and deleting it there gives the old list. */
  lemma InsertThenRemoveCustomers(cs: seq<int>, c: int, at: nat)
    requires c !in cs && at <= |cs|
    ensures IndexOf(InsertedCustomers(cs, c, at), c) == Some(at)
    ensures RemovedCustomers(InsertedCustomers(cs, c, at), at) == cs
  {
    var r := InsertedCustomers(cs, c, at);
    assert r[at] == c;
    var i := IndexOf(r, c).value;
    assert r[..at] == cs[..at] && r[at + 1..] == cs[at..];
    assert cs == cs[..at] + cs[at..];
  }

  lemma InsertKeepsCustomers(prob: Problem, cs: seq<int>, c: int, at: nat)
    requires AllCustomers(prob, cs) && Distinct(cs)
    requires IsCustomer(prob, c) && c !in cs && at <= |cs|
    ensures AllCustomers(prob, InsertedCustomers(cs, c, at))
    ensures Distinct(InsertedCustomers(cs, c, at))
  {
    var r := InsertedCustomers(cs, c, at);
    assert forall i :: 0 <= i < |r| ==> r[i] == if i < at then cs[i] else if i == at then c else cs[i - 1];
  }

  lemma RemoveKeepsCustomers(prob: Problem, cs: seq<int>, idx: nat)
    requires AllCustomers(prob, cs) && Distinct(cs) && idx < |cs|
    ensures AllCustomers(prob, RemovedCustomers(cs, idx))
    ensures Distinct(RemovedCustomers(cs, idx))
    ensures cs[idx] !in RemovedCustomers(cs, idx)
  {
    var r := RemovedCustomers(cs, idx);
    assert forall i :: 0 <= i < |r| ==> r[i] == if i < idx then cs[i] else cs[i + 1];
  }

  // ----- The items of a list of customers -----

  lemma {:induction false} ItemsOfAppend(prob: Problem, a: seq<int>, b: seq<int>)
    ensures DeliveriesOf(prob, a + b) == DeliveriesOf(prob, a) + DeliveriesOf(prob, b)
    ensures PickupsOf(prob, a + b) == PickupsOf(prob, a) + PickupsOf(prob, b)
  {
    if a == [] {
      assert a + b == b;
    } else {
      assert (a + b)[1..] == a[1..] + b;
      ItemsOfAppend(prob, a[1..], b);
    }
  }

  /** Every item of a list of customers belongs to one of them, and has the right kind. */
  lemma {:induction false} ItemsOfMembers(prob: Problem, cs: seq<int>, x: Item)
    requires Wf(prob)
    ensures x in DeliveriesOf(prob, cs) ==> x.customer in cs && !x.isPickup
    ensures x in PickupsOf(prob, cs) ==> x.customer in cs && x.isPickup
  {
    if cs != [] {
      ItemsOfMembers(prob, cs[1..], x);
    }
  }

  /** Each customer of the list contributes its delivery and its pickup. */
  lemma {:induction false} ItemsOfCustomer(prob: Problem, cs: seq<int>, i: nat)
    requires Wf(prob) && i < |cs| && IsCustomer(prob, cs[i])
    ensures prob.demands[cs[i]] in DeliveriesOf(prob, cs)
    ensures prob.pickups[cs[i]] in PickupsOf(prob, cs)
  {
    if i > 0 {
      ItemsOfCustomer(prob, cs[1..], i - 1);
    }
  }

  // ----- The contents of one plan -----

  lemma {:induction false} InPlanContents(q: Plan, x: Item)
    ensures InPlan(q, x) <==> x in Contents(q)
  {
    if q != [] {
      InPlanContents(q[1..], x);
      if InPlan(q, x) && x !in q[0].items {
        var k :| 0 <= k < |q| && x in q[k].items;
        assert q[1..][k - 1] == q[k];
      }
      if InPlan(q[1..], x) {
        var k :| 0 <= k < |q[1..]| && x in q[1..][k].items;
        assert q[k + 1] == q[1..][k];
      }
    }
  }

  /** Giving one compartment one more item gives the plan that item more. */
  lemma {:induction false} ContentsGrow(q: Plan, k: nat, items: seq<Item>, x: Item)
    requires k < |q| && multiset(items) == multiset(q[k].items) + multiset{x}
    ensures Contents(WithItems(q, k, items)) == Contents(q) + multiset{x}
  {
    var w := WithItems(q, k, items);
    if k == 0 {
      assert w[1..] == q[1..];
    } else {
      assert w[1..] == WithItems(q[1..], k - 1, items);
      ContentsGrow(q[1..], k - 1, items, x);
    }
  }

  /** Taking one item out of one compartment takes it out of the plan. */
  lemma {:induction false} ContentsShrink(q: Plan, k: nat, items: seq<Item>, x: Item)
    requires k < |q| && x in q[k].items && multiset(items) == multiset(q[k].items) - multiset{x}
    ensures x in Contents(q)
    ensures Contents(WithItems(q, k, items)) == Contents(q) - multiset{x}
  {
    var w := WithItems(q, k, items);
    if k == 0 {
      assert w[1..] == q[1..];
    } else {
      assert w[1..] == WithItems(q[1..], k - 1, items);
      ContentsShrink(q[1..], k - 1, items, x);
    }
  }

  /** Unloading an item takes exactly that item out of the plan. */
  lemma ContentsUnloaded(q: Plan, x: Item)
    requires InPlan(q, x)
    ensures x in Contents(q)
    ensures Contents(Unloaded(q, x)) == Contents(q) - multiset{x}
  {
    var k := FindStack(q, x);
    ContentsShrink(q, k, RemoveFirst(q[k].items, x), x);
  }

  // ----- Inserting a customer -----

  /** Plan j of `InsertedPlan`. */
  lemma InsertedPlanAt(plans: seq<Plan>, n: nat, at: nat, d: Item, p: Item, j: nat)
    requires InsertFeasible(plans, n, at, p) && j <= |plans|
    ensures var r, di, si := InsertedPlan(plans, n, at, d, p), Shortest(plans[0]), Shortest(plans[at]);
            && (j <= at ==> r[j] == WithItems(plans[j], di, PushRear(plans[j][di].items, d)))
            && (at < j ==>
                  r[j] == WithItems(plans[j - 1], si, PickupPlaced(plans[j - 1][si].items, plans[at][si].items, p)))
  {
    if j <= at {
      InsertedPlanBefore(plans, n, at, d, p, j);
    } else {
      InsertedPlanAfter(plans, n, at, d, p, j);
    }
  }

  lemma InsertedPlanBefore(plans: seq<Plan>, n: nat, at: nat, d: Item, p: Item, j: nat)
    requires InsertFeasible(plans, n, at, p) && j <= at
    ensures var di := Shortest(plans[0]);
            InsertedPlan(plans, n, at, d, p)[j] == WithItems(plans[j], di, PushRear(plans[j][di].items, d))
  {
  }

  lemma InsertedPlanAfter(plans: seq<Plan>, n: nat, at: nat, d: Item, p: Item, j: nat)
    requires InsertFeasible(plans, n, at, p) && at < j <= |plans|
    ensures var si := Shortest(plans[at]);
            InsertedPlan(plans, n, at, d, p)[j]
              == WithItems(plans[j - 1], si, PickupPlaced(plans[j - 1][si].items, plans[at][si].items, p))
  {
  }

  /** Compartment si of the plan after the customer: the pickup placement applied to the copy of plan `at`. */
  lemma InsertedPickupStack(plans: seq<Plan>, n: nat, at: nat, d: Item, p: Item)
    requires InsertFeasible(plans, n, at, p)
    ensures var r, si := InsertedPlan(plans, n, at, d, p), Shortest(plans[at]);
            && |r[at + 1]| == n
            && r[at + 1][si].items == PickupPlaced(plans[at][si].items, plans[at][si].items, p)
  {
    InsertedPlanAfter(plans, n, at, d, p, at + 1);
  }

  /**
    The pickup placement on the stack it was planned on leaves, rear to
    front: in the front branch its deliveries, then the pickups that lay
    among them, then the new pickup, then its old front run of pickups; in
    the rear branch the new pickup, then everything it held.
   */
  lemma PickupPlacedShape(s: seq<Item>, p: Item)
    ensures CanPlace(s, s, p)
    ensures var f := FrontLen(s);
            PickupPlaced(s, s, p)
              == if FrontBranch(s, p) then NonPickups(s[..|s| - f]) + PickupsBehindFront(s) + [p] + s[|s| - f..]
                 else [p] + s
  {
    FrontPlacementShape(s, p);
  }

  /** The copy of plan `at` keeps every compartment, in particular the depot's shortest. */
  lemma CopyAt(plans: seq<Plan>, n: nat, at: nat)
    requires n > 0 && PlansWf(plans, n) && at < |plans|
    ensures var c, di := plans[..at + 1] + [plans[at]] + plans[at + 1..], Shortest(plans[0]);
            && |c| == |plans| + 1 && |c[0]| > 0 && c[0][Shortest(c[0])].index == di
            && HasStack(c, 0, at + 1, di)
  {
    var c, di := plans[..at + 1] + [plans[at]] + plans[at + 1..], Shortest(plans[0]);
    assert forall i :: 0 <= i <= at ==> c[i] == plans[i];
    assert plans[0][di].index == di;
  }

  /**
    The copy of plan `at` followed by the delivery loop gives the plans of
    `InsertedPlan` up to the customer, and the old plans after it.
   */
  lemma InsertDeliverySteps(plans: seq<Plan>, n: nat, at: nat, d: Item, p: Item)
    requires InsertFeasible(plans, n, at, p)
    ensures var c, di := plans[..at + 1] + [plans[at]] + plans[at + 1..], Shortest(plans[0]);
            && |c| == |plans| + 1 && |c[0]| > 0 && c[0][Shortest(c[0])].index == di
            && plans[at][Shortest(plans[at])].index == Shortest(plans[at])
            && HasStack(c, 0, at + 1, di)
            && var l := PushedRear(c, 0, at + 1, di, d);
               && (forall i :: 0 <= i <= at ==> l[i] == InsertedPlan(plans, n, at, d, p)[i])
               && (forall i :: at < i < |l| ==> l[i] == plans[i - 1])
  {
    var c, di := plans[..at + 1] + [plans[at]] + plans[at + 1..], Shortest(plans[0]);
    assert forall i :: 0 <= i <= at ==> c[i] == plans[i];
    assert forall i :: at < i < |c| ==> c[i] == plans[i - 1];
    assert plans[0][di].index == di;
    var l := PushedRear(c, 0, at + 1, di, d);
    forall i | 0 <= i <= at
      ensures l[i] == InsertedPlan(plans, n, at, d, p)[i]
    {
      InsertedPlanAt(plans, n, at, d, p, i);
    }
  }

  /** After the delivery loop, the front placement loop completes `InsertedPlan`. */
  lemma InsertFrontSteps(plans: seq<Plan>, n: nat, at: nat, d: Item, p: Item, l: seq<Plan>)
    requires InsertFeasible(plans, n, at, p) && |l| == |plans| + 1
    requires forall i :: 0 <= i <= at ==> l[i] == InsertedPlan(plans, n, at, d, p)[i]
    requires forall i :: at < i < |l| ==> l[i] == plans[i - 1]
    requires FrontBranch(plans[at][Shortest(plans[at])].items, p)
    ensures var si := Shortest(plans[at]);
            var s := plans[at][si].items;
            && HoldsAll(l, at + 1, si, PickupsBehindFront(s))
            && PlacedInFront(l, at + 1, si, PickupsBehindFront(s), FrontLen(s), p)
                 == InsertedPlan(plans, n, at, d, p)
  {
    var si := Shortest(plans[at]);
    var s := plans[at][si].items;
    var ps := PickupsBehindFront(s);
    forall i | at + 1 <= i < |l|
      ensures si < |l[i]| && forall q :: q in ps ==> q in l[i][si].items
    {
      assert l[i] == plans[i - 1];
      assert CanPlace(plans[i - 1][si].items, s, p);
    }
    var f := PlacedInFront(l, at + 1, si, ps, FrontLen(s), p);
    forall i | 0 <= i < |f|
      ensures f[i] == InsertedPlan(plans, n, at, d, p)[i]
    {
      InsertedPlanAt(plans, n, at, d, p, i);
    }
  }

  /** After the delivery loop, the rear placement loop completes `InsertedPlan`. */
  lemma InsertRearSteps(plans: seq<Plan>, n: nat, at: nat, d: Item, p: Item, l: seq<Plan>)
    requires InsertFeasible(plans, n, at, p) && |l| == |plans| + 1
    requires forall i :: 0 <= i <= at ==> l[i] == InsertedPlan(plans, n, at, d, p)[i]
    requires forall i :: at < i < |l| ==> l[i] == plans[i - 1]
    requires !FrontBranch(plans[at][Shortest(plans[at])].items, p)
    ensures var si := Shortest(plans[at]);
            && HasStack(l, at + 1, |l|, si)
            && PushedRear(l, at + 1, |l|, si, p) == InsertedPlan(plans, n, at, d, p)
  {
    var si := Shortest(plans[at]);
    forall i | at + 1 <= i < |l|
      ensures si < |l[i]|
    {
      assert l[i] == plans[i - 1];
    }
    var f := PushedRear(l, at + 1, |l|, si, p);
    forall i | 0 <= i < |f|
      ensures f[i] == InsertedPlan(plans, n, at, d, p)[i]
    {
      InsertedPlanAt(plans, n, at, d, p, i);
    }
  }

  /**
    The insertion step by step: the copy of plan `at`, the delivery loop,
    and the pickup loop of whichever branch the stack at the customer calls
    for give `InsertedPlan`.
   */
  lemma InsertSteps(plans: seq<Plan>, n: nat, at: nat, d: Item, p: Item)
    requires InsertFeasible(plans, n, at, p)
    ensures var c, di := plans[..at + 1] + [plans[at]] + plans[at + 1..], Shortest(plans[0]);
            && |c| == |plans| + 1 && |c[0]| > 0 && c[0][Shortest(c[0])].index == di
            && HasStack(c, 0, at + 1, di)
            && var l := PushedRear(c, 0, at + 1, di, d);
               && |l[at + 1]| > 0
               && var st := l[at + 1][Shortest(l[at + 1])];
                  && (FrontBranch(st.items, p) ==>
                        && HoldsAll(l, at + 1, st.index, PickupsBehindFront(st.items))
                        && PlacedInFront(l, at + 1, st.index, PickupsBehindFront(st.items), FrontLen(st.items), p)
                             == InsertedPlan(plans, n, at, d, p))
                  && (!FrontBranch(st.items, p) ==>
                        && HasStack(l, at + 1, |l|, st.index)
                        && PushedRear(l, at + 1, |l|, st.index, p) == InsertedPlan(plans, n, at, d, p))
  {
    var c, di := plans[..at + 1] + [plans[at]] + plans[at + 1..], Shortest(plans[0]);
    InsertDeliverySteps(plans, n, at, d, p);
    var l := PushedRear(c, 0, at + 1, di, d);
    assert l[at + 1] == plans[at];
    if FrontBranch(plans[at][Shortest(plans[at])].items, p) {
      InsertFrontSteps(plans, n, at, d, p, l);
    } else {
      InsertRearSteps(plans, n, at, d, p, l);
    }
  }

  /** The plans after an insertion keep the vehicle's compartments. */
  lemma InsertedPlanWf(plans: seq<Plan>, n: nat, at: nat, d: Item, p: Item)
    requires InsertFeasible(plans, n, at, p)
    ensures PlansWf(InsertedPlan(plans, n, at, d, p), n)
  {
    var r: seq<Plan> := InsertedPlan(plans, n, at, d, p);
    forall j | 0 <= j < |r|
      ensures |r[j]| == n && forall k :: 0 <= k < n ==> r[j][k].index == k
    {
      InsertedPlanAt(plans, n, at, d, p, j);
    }
  }

  /**
    Every plan up to the customer gains exactly its delivery, and every
    later plan exactly its pickup.
   */
  lemma InsertedContents(plans: seq<Plan>, n: nat, at: nat, d: Item, p: Item)
    requires InsertFeasible(plans, n, at, p)
    ensures var r := InsertedPlan(plans, n, at, d, p);
            && (forall j :: 0 <= j <= at ==> Contents(r[j]) == Contents(plans[j]) + multiset{d})
            && (forall j :: at < j < |r| ==> Contents(r[j]) == Contents(plans[j - 1]) + multiset{p})
  {
    var r: seq<Plan> := InsertedPlan(plans, n, at, d, p);
    var di, si := Shortest(plans[0]), Shortest(plans[at]);
    var s := plans[at][si].items;
    forall j | 0 <= j <= at
      ensures Contents(r[j]) == Contents(plans[j]) + multiset{d}
    {
      InsertedPlanAt(plans, n, at, d, p, j);
      ContentsGrow(plans[j], di, PushRear(plans[j][di].items, d), d);
    }
    forall j | at < j < |r|
      ensures Contents(r[j]) == Contents(plans[j - 1]) + multiset{p}
    {
      InsertedPlanAt(plans, n, at, d, p, j);
      ContentsGrow(plans[j - 1], si, PickupPlaced(plans[j - 1][si].items, s, p), p);
    }
  }

  /**
    The delivery goes to the rear of the compartment least loaded when
    leaving the depot, in every plan up to the customer, and nothing else
    in those plans moves.
   */
  lemma InsertedDelivery(plans: seq<Plan>, n: nat, at: nat, d: Item, p: Item)
    requires InsertFeasible(plans, n, at, p)
    ensures var r, di := InsertedPlan(plans, n, at, d, p), Shortest(plans[0]);
            && (forall k :: 0 <= k < n ==> Volume(plans[0][di].items) <= Volume(plans[0][k].items))
            && forall j :: 0 <= j <= at ==>
                 && r[j][di].items[0] == d && r[j][di].items[1..] == plans[j][di].items
                 && forall k :: 0 <= k < n && k != di ==> r[j][k] == plans[j][k]
  {
  }

  /** One plan's share of the pickup placement. */
  lemma PickupLeg(q: Plan, si: nat, s: seq<Item>, p: Item)
    requires si < |q| && CanPlace(q[si].items, s, p) && p.isPickup
    ensures var w := WithItems(q, si, PickupPlaced(q[si].items, s, p));
            && multiset(w[si].items) == multiset(q[si].items) + multiset{p}
            && NonPickups(w[si].items) == NonPickups(q[si].items)
            && forall k :: 0 <= k < |q| && k != si ==> w[k] == q[k]
  {
    if FrontBranch(s, p) {
      PickupsIn(s[..|s| - FrontLen(s)]);
      FrontPlacedKeepsDeliveries(q[si].items, PickupsBehindFront(s), FrontLen(s), p);
    } else {
      NonPickupsAppend([p], q[si].items);
    }
  }

  /**
    The pickup goes to the compartment least loaded on leaving the customer,
    in that plan and every later one: that compartment gains exactly the
    pickup and keeps the order of its deliveries, the others do not move,
    and the delivery just loaded is not in the copied plan.
   */
  lemma InsertedPickup(plans: seq<Plan>, n: nat, at: nat, d: Item, p: Item)
    requires InsertFeasible(plans, n, at, p) && p.isPickup
    ensures var r, si := InsertedPlan(plans, n, at, d, p), Shortest(plans[at]);
            && (forall k :: 0 <= k < n ==> Volume(plans[at][si].items) <= Volume(plans[at][k].items))
            && forall j :: at < j < |r| ==>
                 && |r[j]| == n
                 && multiset(r[j][si].items) == multiset(plans[j - 1][si].items) + multiset{p}
                 && NonPickups(r[j][si].items) == NonPickups(plans[j - 1][si].items)
                 && forall k :: 0 <= k < n && k != si ==> r[j][k] == plans[j - 1][k]
  {
    var r: seq<Plan> := InsertedPlan(plans, n, at, d, p);
    var si: nat := Shortest(plans[at]);
    var s := plans[at][si].items;
    forall j | at < j < |r|
      ensures |r[j]| == n
      ensures multiset(r[j][si].items) == multiset(plans[j - 1][si].items) + multiset{p}
      ensures NonPickups(r[j][si].items) == NonPickups(plans[j - 1][si].items)
      ensures forall k :: 0 <= k < n && k != si ==> r[j][k] == plans[j - 1][k]
    {
      InsertedPlanAt(plans, n, at, d, p, j);
      PickupLeg(plans[j - 1], si, s, p);
    }
  }

  // ----- The items a route carries -----

  lemma InsertedSlices(cs: seq<int>, c: int, at: nat, j: nat)
    requires at <= |cs| && j <= |cs| + 1
    ensures j <= at ==> InsertedCustomers(cs, c, at)[j..] == cs[j..at] + ([c] + cs[at..])
    ensures j <= at ==> InsertedCustomers(cs, c, at)[..j] == cs[..j]
    ensures j <= at ==> cs[j..] == cs[j..at] + cs[at..]
    ensures at < j ==> InsertedCustomers(cs, c, at)[j..] == cs[j - 1..]
    ensures at < j ==> InsertedCustomers(cs, c, at)[..j] == (cs[..at] + [c]) + cs[at..j - 1]
    ensures at < j ==> cs[..j - 1] == cs[..at] + cs[at..j - 1]
  {
  }

  lemma RemovedSlices(cs: seq<int>, idx: nat, j: nat)
    requires idx < |cs| && j < |cs|
    ensures j <= idx ==> RemovedCustomers(cs, idx)[j..] == cs[j..idx] + cs[idx + 1..]
    ensures j <= idx ==> RemovedCustomers(cs, idx)[..j] == cs[..j]
    ensures j <= idx ==> cs[j..] == cs[j..idx] + ([cs[idx]] + cs[idx + 1..])
    ensures idx < j ==> RemovedCustomers(cs, idx)[j..] == cs[j + 1..]
    ensures idx < j ==> RemovedCustomers(cs, idx)[..j] == cs[..idx] + cs[idx + 1..j + 1]
    ensures idx < j ==> cs[..j + 1] == (cs[..idx] + [cs[idx]]) + cs[idx + 1..j + 1]
  {
  }

  lemma CarriesInsertedUpTo(prob: Problem, cs: seq<int>, c: int, at: nat, j: nat)
    requires Wf(prob) && IsCustomer(prob, c) && j <= at <= |cs|
    ensures var cs' := InsertedCustomers(cs, c, at);
            && DeliveriesOf(prob, cs'[j..]) == DeliveriesOf(prob, cs[j..]) + multiset{prob.demands[c]}
            && PickupsOf(prob, cs'[..j]) == PickupsOf(prob, cs[..j])
  {
    InsertedSlices(cs, c, at, j);
    ItemsOfAppend(prob, [c], cs[at..]);
    ItemsOfAppend(prob, cs[j..at], [c] + cs[at..]);
    ItemsOfAppend(prob, cs[j..at], cs[at..]);
  }

  lemma CarriesInsertedAfter(prob: Problem, cs: seq<int>, c: int, at: nat, j: nat)
    requires Wf(prob) && IsCustomer(prob, c) && at < j <= |cs| + 1
    ensures var cs' := InsertedCustomers(cs, c, at);
            && DeliveriesOf(prob, cs'[j..]) == DeliveriesOf(prob, cs[j - 1..])
            && PickupsOf(prob, cs'[..j]) == PickupsOf(prob, cs[..j - 1]) + multiset{prob.pickups[c]}
  {
    InsertedSlices(cs, c, at, j);
    ItemsOfAppend(prob, cs[..at], [c]);
    ItemsOfAppend(prob, cs[..at] + [c], cs[at..j - 1]);
    ItemsOfAppend(prob, cs[..at], cs[at..j - 1]);
  }

  lemma CarriesRemovedUpTo(prob: Problem, cs: seq<int>, idx: nat, j: nat)
    requires Wf(prob) && j <= idx < |cs| && IsCustomer(prob, cs[idx])
    ensures var cs' := RemovedCustomers(cs, idx);
            && DeliveriesOf(prob, cs'[j..]) == DeliveriesOf(prob, cs[j..]) - multiset{prob.demands[cs[idx]]}
            && PickupsOf(prob, cs'[..j]) == PickupsOf(prob, cs[..j])
  {
    RemovedSlices(cs, idx, j);
    ItemsOfAppend(prob, cs[j..idx], cs[idx + 1..]);
    ItemsOfAppend(prob, [cs[idx]], cs[idx + 1..]);
    ItemsOfAppend(prob, cs[j..idx], [cs[idx]] + cs[idx + 1..]);
  }

  lemma CarriesRemovedAfter(prob: Problem, cs: seq<int>, idx: nat, j: nat)
    requires Wf(prob) && idx < j < |cs| && IsCustomer(prob, cs[idx])
    ensures var cs' := RemovedCustomers(cs, idx);
            && DeliveriesOf(prob, cs'[j..]) == DeliveriesOf(prob, cs[j + 1..])
            && PickupsOf(prob, cs'[..j]) == PickupsOf(prob, cs[..j + 1]) - multiset{prob.pickups[cs[idx]]}
  {
    RemovedSlices(cs, idx, j);
    ItemsOfAppend(prob, cs[..idx], cs[idx + 1..j + 1]);
    ItemsOfAppend(prob, cs[..idx], [cs[idx]]);
    ItemsOfAppend(prob, cs[..idx] + [cs[idx]], cs[idx + 1..j + 1]);
  }

  /** A customer of the route has its delivery on board up to its stop and its pickup after it. */
  lemma CarriedItemsOnBoard(prob: Problem, cs: seq<int>, plans: seq<Plan>, idx: nat)
    requires Wf(prob) && Carries(prob, cs, plans) && idx < |cs| && IsCustomer(prob, cs[idx])
    ensures OnBoard(plans, idx, prob.demands[cs[idx]], prob.pickups[cs[idx]])
  {
    var d, p := prob.demands[cs[idx]], prob.pickups[cs[idx]];
    forall j | 0 <= j <= idx
      ensures InPlan(plans[j], d)
    {
      assert cs[j..][idx - j] == cs[idx];
      ItemsOfCustomer(prob, cs[j..], idx - j);
      InPlanContents(plans[j], d);
    }
    forall j | idx < j < |plans|
      ensures InPlan(plans[j], p)
    {
      assert cs[..j][idx] == cs[idx];
      ItemsOfCustomer(prob, cs[..j], idx);
      InPlanContents(plans[j], p);
    }
  }

  /** A customer not on the route has neither of its items in any plan. */
  lemma NotRoutedNotLoaded(prob: Problem, cs: seq<int>, plans: seq<Plan>, c: int)
    requires Wf(prob) && Carries(prob, cs, plans)
    requires IsCustomer(prob, c) && c !in cs
    ensures forall j :: 0 <= j < |plans| ==>
              !InPlan(plans[j], prob.demands[c]) && !InPlan(plans[j], prob.pickups[c])
  {
    forall j | 0 <= j < |plans|
      ensures !InPlan(plans[j], prob.demands[c]) && !InPlan(plans[j], prob.pickups[c])
    {
      InPlanContents(plans[j], prob.demands[c]);
      InPlanContents(plans[j], prob.pickups[c]);
      ItemsOfMembers(prob, cs[j..], prob.demands[c]);
      ItemsOfMembers(prob, cs[..j], prob.demands[c]);
      ItemsOfMembers(prob, cs[j..], prob.pickups[c]);
      ItemsOfMembers(prob, cs[..j], prob.pickups[c]);
    }
  }

  /** A plan up to the new customer carries the items the new customer list calls for. */
  lemma InsertKeepsCarriesUpTo(prob: Problem, cs: seq<int>, plans: seq<Plan>, c: int, at: nat, j: nat)
    requires Wf(prob) && Carries(prob, cs, plans)
    requires IsCustomer(prob, c) && j <= at <= |cs|
    requires InsertFeasible(plans, prob.numStacks, at, prob.pickups[c])
    ensures var cs', r := InsertedCustomers(cs, c, at), InsertedPlan(plans, prob.numStacks, at, prob.demands[c], prob.pickups[c]);
            Contents(r[j]) == DeliveriesOf(prob, cs'[j..]) + PickupsOf(prob, cs'[..j])
  {
    InsertedContents(plans, prob.numStacks, at, prob.demands[c], prob.pickups[c]);
    CarriesInsertedUpTo(prob, cs, c, at, j);
  }

  /** A plan after the new customer carries the items the new customer list calls for. */
  lemma InsertKeepsCarriesAfter(prob: Problem, cs: seq<int>, plans: seq<Plan>, c: int, at: nat, j: nat)
    requires Wf(prob) && Carries(prob, cs, plans)
    requires IsCustomer(prob, c) && at < j <= |plans|
    requires InsertFeasible(plans, prob.numStacks, at, prob.pickups[c])
    ensures var cs', r := InsertedCustomers(cs, c, at), InsertedPlan(plans, prob.numStacks, at, prob.demands[c], prob.pickups[c]);
            Contents(r[j]) == DeliveriesOf(prob, cs'[j..]) + PickupsOf(prob, cs'[..j])
  {
    InsertedContents(plans, prob.numStacks, at, prob.demands[c], prob.pickups[c]);
    CarriesInsertedAfter(prob, cs, c, at, j);
    assert Contents(plans[j - 1]) == DeliveriesOf(prob, cs[j - 1..]) + PickupsOf(prob, cs[..j - 1]);
  }

  /** Inserting a new customer keeps the route consistent with its plans. */
  lemma InsertKeepsRoute(prob: Problem, cs: seq<int>, plans: seq<Plan>, c: int, at: nat)
    requires Wf(prob) && AllCustomers(prob, cs) && Distinct(cs) && Carries(prob, cs, plans)
    requires IsCustomer(prob, c) && c !in cs && at <= |cs|
    requires InsertFeasible(plans, prob.numStacks, at, prob.pickups[c])
    ensures AllCustomers(prob, InsertedCustomers(cs, c, at)) && Distinct(InsertedCustomers(cs, c, at))
    ensures var r := InsertedPlan(plans, prob.numStacks, at, prob.demands[c], prob.pickups[c]);
            PlansWf(r, prob.numStacks) && Carries(prob, InsertedCustomers(cs, c, at), r)
  {
    var cs' := InsertedCustomers(cs, c, at);
    var r := InsertedPlan(plans, prob.numStacks, at, prob.demands[c], prob.pickups[c]);
    InsertedPlanWf(plans, prob.numStacks, at, prob.demands[c], prob.pickups[c]);
    InsertKeepsCustomers(prob, cs, c, at);
    forall j | 0 <= j < |r|
      ensures Contents(r[j]) == DeliveriesOf(prob, cs'[j..]) + PickupsOf(prob, cs'[..j])
    {
      if j <= at {
        InsertKeepsCarriesUpTo(prob, cs, plans, c, at, j);
      } else {
        InsertKeepsCarriesAfter(prob, cs, plans, c, at, j);
      }
    }
  }

  /** A plan up to the removed customer carries the items the new customer list calls for. */
  lemma RemoveKeepsCarriesUpTo(prob: Problem, cs: seq<int>, plans: seq<Plan>, idx: nat, j: nat)
    requires Wf(prob) && Carries(prob, cs, plans) && j <= idx < |cs| && IsCustomer(prob, cs[idx])
    requires InPlan(plans[j], prob.demands[cs[idx]])
    ensures Contents(Unloaded(plans[j], prob.demands[cs[idx]]))
         == DeliveriesOf(prob, RemovedCustomers(cs, idx)[j..]) + PickupsOf(prob, RemovedCustomers(cs, idx)[..j])
  {
    var d := prob.demands[cs[idx]];
    var cs' := RemovedCustomers(cs, idx);
    assert cs[j..][idx - j] == cs[idx];
    ItemsOfCustomer(prob, cs[j..], idx - j);
    ContentsUnloaded(plans[j], d);
    CarriesRemovedUpTo(prob, cs, idx, j);
    TakeFrom(Contents(plans[j]), DeliveriesOf(prob, cs[j..]), PickupsOf(prob, cs[..j]), d,
             Contents(Unloaded(plans[j], d)), DeliveriesOf(prob, cs'[j..]), PickupsOf(prob, cs'[..j]));
  }


  /** A plan after the removed customer carries the items the new customer list calls for. */
  lemma RemoveKeepsCarriesAfter(prob: Problem, cs: seq<int>, plans: seq<Plan>, idx: nat, j: nat)
    requires Wf(prob) && Carries(prob, cs, plans) && idx < j < |cs| && IsCustomer(prob, cs[idx])
    requires InPlan(plans[j + 1], prob.pickups[cs[idx]])
    ensures var cs' := RemovedCustomers(cs, idx);
            Contents(Unloaded(plans[j + 1], prob.pickups[cs[idx]])) == DeliveriesOf(prob, cs'[j..]) + PickupsOf(prob, cs'[..j])
  {
    var p := prob.pickups[cs[idx]];
    ContentsUnloaded(plans[j + 1], p);
    CarriesRemovedAfter(prob, cs, idx, j);
    assert cs[..j + 1][idx] == cs[idx];
    ItemsOfCustomer(prob, cs[..j + 1], idx);
    var cs' := RemovedCustomers(cs, idx);
    TakeFrom(Contents(plans[j + 1]), PickupsOf(prob, cs[..j + 1]), DeliveriesOf(prob, cs[j + 1..]), p,
             Contents(Unloaded(plans[j + 1], p)), PickupsOf(prob, cs'[..j]), DeliveriesOf(prob, cs'[j..]));
  }

  /** Taking x out of a total whose first part holds it takes it out of that part. */
  lemma TakeFrom(c: multiset<Item>, a: multiset<Item>, b: multiset<Item>, x: Item,
                 c': multiset<Item>, a': multiset<Item>, b': multiset<Item>)
    requires x in a && (c == a + b || c == b + a) && c' == c - multiset{x}
    requires a' == a - multiset{x} && b' == b
    ensures c' == a' + b'
  {
  }

  /** Plan j of the removal carries the items the new customer list calls for. */
  lemma RemoveKeepsCarriesAt(prob: Problem, cs: seq<int>, plans: seq<Plan>, idx: nat, j: nat)
    requires Wf(prob) && Carries(prob, cs, plans) && idx < |cs| && IsCustomer(prob, cs[idx])
    requires OnBoard(plans, idx, prob.demands[cs[idx]], prob.pickups[cs[idx]]) && j < |cs|
    ensures var cs' := RemovedCustomers(cs, idx);
            Contents(RemovedPlan(plans, idx, prob.demands[cs[idx]], prob.pickups[cs[idx]])[j])
              == DeliveriesOf(prob, cs'[j..]) + PickupsOf(prob, cs'[..j])
  {
    RemovedPlanAt(plans, idx, prob.demands[cs[idx]], prob.pickups[cs[idx]]);
    if j <= idx {
      RemoveKeepsCarriesUpTo(prob, cs, plans, idx, j);
    } else {
      RemoveKeepsCarriesAfter(prob, cs, plans, idx, j);
    }
  }

  /** Unloading keeps every plan's compartments in place. */
  lemma RemovedPlanWf(plans: seq<Plan>, n: nat, idx: nat, d: Item, p: Item)
    requires PlansWf(plans, n) && OnBoard(plans, idx, d, p)
    ensures PlansWf(RemovedPlan(plans, idx, d, p), n)
  {
    RemovedPlanAt(plans, idx, d, p);
  }

  /** Removing a customer of the route keeps the route consistent with its plans. */
  lemma RemoveKeepsRoute(prob: Problem, cs: seq<int>, plans: seq<Plan>, idx: nat)
    requires Wf(prob) && AllCustomers(prob, cs) && Distinct(cs)
    requires PlansWf(plans, prob.numStacks) && Carries(prob, cs, plans) && idx < |cs|
    ensures OnBoard(plans, idx, prob.demands[cs[idx]], prob.pickups[cs[idx]])
    ensures AllCustomers(prob, RemovedCustomers(cs, idx)) && Distinct(RemovedCustomers(cs, idx))
    ensures var r := RemovedPlan(plans, idx, prob.demands[cs[idx]], prob.pickups[cs[idx]]);
            PlansWf(r, prob.numStacks) && Carries(prob, RemovedCustomers(cs, idx), r)
  {
    CarriedItemsOnBoard(prob, cs, plans, idx);
    RemoveKeepsCustomers(prob, cs, idx);
    RemovedPlanWf(plans, prob.numStacks, idx, prob.demands[cs[idx]], prob.pickups[cs[idx]]);
    forall j | 0 <= j < |cs| {
      RemoveKeepsCarriesAt(prob, cs, plans, idx, j);
    }
  }

  // ----- Removing what was just inserted -----

  /** The plans of `RemovedPlan`, one by one. */
  lemma RemovedPlanAt(plans: seq<Plan>, idx: nat, d: Item, p: Item)
    requires OnBoard(plans, idx, d, p)
    ensures var rr := RemovedPlan(plans, idx, d, p);
            && |rr| == |plans| - 1
            && (forall j :: 0 <= j <= idx ==> rr[j] == Unloaded(plans[j], d))
            && (forall j :: idx < j < |rr| ==> rr[j] == Unloaded(plans[j + 1], p))
  {
  }

  /** Plan i of `UnloadedEach`. */
  lemma UnloadedEachAt(plans: seq<Plan>, lo: nat, hi: nat, x: Item, i: nat)
    requires lo <= hi <= |plans| && (forall i :: lo <= i < hi ==> InPlan(plans[i], x)) && i < |plans|
    ensures UnloadedEach(plans, lo, hi, x)[i] == if lo <= i < hi then Unloaded(plans[i], x) else plans[i]
  {
  }

  /** Unloading the delivery from plans 0..idx leaves the later plans, and the pickup in them. */
  lemma UnloadKeepsLater(plans: seq<Plan>, idx: nat, d: Item, p: Item)
    requires OnBoard(plans, idx, d, p)
    ensures var u := UnloadedEach(plans, 0, idx + 1, d);
            forall i :: idx + 1 <= i < |u| ==> u[i] == plans[i] && InPlan(u[i], p)
  {
  }

  /** Plan j of the two unloading loops followed by deleting plan idx+1 is plan j of `RemovedPlan`. */
  lemma RemoveStepAt(plans: seq<Plan>, idx: nat, d: Item, p: Item, j: nat)
    requires OnBoard(plans, idx, d, p) && j < |plans| - 1
    ensures var u := UnloadedEach(plans, 0, idx + 1, d);
            && (forall i :: idx + 1 <= i < |u| ==> InPlan(u[i], p))
            && var w := UnloadedEach(u, idx + 1, |u|, p);
               (w[..idx + 1] + w[idx + 2..])[j] == RemovedPlan(plans, idx, d, p)[j]
  {
    UnloadKeepsLater(plans, idx, d, p);
    var u := UnloadedEach(plans, 0, idx + 1, d);
    var w := UnloadedEach(u, idx + 1, |u|, p);
    var i := if j <= idx then j else j + 1;
    assert (w[..idx + 1] + w[idx + 2..])[j] == w[i];
    UnloadedEachAt(u, idx + 1, |u|, p, i);
    UnloadedEachAt(plans, 0, idx + 1, d, i);
    RemovedPlanAt(plans, idx, d, p);
  }

  /**
    The two unloading loops of the removal, followed by deleting plan
    idx+1, give `RemovedPlan`.
   */
  lemma RemoveSteps(plans: seq<Plan>, idx: nat, d: Item, p: Item)
    requires OnBoard(plans, idx, d, p)
    ensures var u := UnloadedEach(plans, 0, idx + 1, d);
            && (forall i :: idx + 1 <= i < |u| ==> InPlan(u[i], p))
            && var w := UnloadedEach(u, idx + 1, |u|, p);
               w[..idx + 1] + w[idx + 2..] == RemovedPlan(plans, idx, d, p)
  {
    RemoveStepAt(plans, idx, d, p, 0);
    forall j | 0 <= j < |plans| - 1 {
      RemoveStepAt(plans, idx, d, p, j);
    }
  }

  /** Unloading an item just pushed at the rear of a compartment restores the plan. */
  lemma UnloadPushed(q: Plan, k: nat, x: Item)
    requires k < |q| && forall m :: 0 <= m < |q| ==> x !in q[m].items
    ensures InPlan(WithItems(q, k, PushRear(q[k].items, x)), x)
    ensures Unloaded(WithItems(q, k, PushRear(q[k].items, x)), x) == q
  {
    var w := WithItems(q, k, PushRear(q[k].items, x));
    assert x in w[k].items;
    var f := FindStack(w, x);
    assert f == k;
    assert RemoveFirst(w[k].items, x) == q[k].items;
  }

  /**
    Unloading an item just added to a compartment gives that compartment its
    old items back, perhaps in another order, and leaves the others alone.
   */
  lemma UnloadPlaced(q: Plan, k: nat, items: seq<Item>, x: Item)
    requires k < |q| && forall m :: 0 <= m < |q| ==> x !in q[m].items
    requires multiset(items) == multiset(q[k].items) + multiset{x}
    ensures InPlan(WithItems(q, k, items), x)
    ensures var u := Unloaded(WithItems(q, k, items), x);
            && |u| == |q| && u[k].index == q[k].index
            && multiset(u[k].items) == multiset(q[k].items)
            && forall m :: 0 <= m < |q| && m != k ==> u[m] == q[m]
  {
    var w := WithItems(q, k, items);
    assert x in multiset(items);
    assert x in w[k].items;
    var f := FindStack(w, x);
    assert f == k;
  }

  /** One later plan's share: unloading the pickup just placed. */
  lemma UnloadPickupLeg(q: Plan, si: nat, s: seq<Item>, p: Item)
    requires si < |q| && CanPlace(q[si].items, s, p)
    requires forall m :: 0 <= m < |q| ==> p !in q[m].items
    ensures InPlan(WithItems(q, si, PickupPlaced(q[si].items, s, p)), p)
    ensures var u := Unloaded(WithItems(q, si, PickupPlaced(q[si].items, s, p)), p);
            && |u| == |q| && multiset(u[si].items) == multiset(q[si].items)
            && (forall k :: 0 <= k < |q| && k != si ==> u[k] == q[k])
            && (!FrontBranch(s, p) ==> u == q)
  {
    UnloadPlaced(q, si, PickupPlaced(q[si].items, s, p), p);
    if !FrontBranch(s, p) {
      UnloadPushed(q, si, p);
    }
  }

  /** Unloading the delivery from a plan up to the customer gives back the old plan. */
  lemma UnloadInsertedDelivery(plans: seq<Plan>, n: nat, at: nat, d: Item, p: Item, j: nat)
    requires InsertFeasible(plans, n, at, p) && j <= at && !InPlan(plans[j], d)
    ensures var r := InsertedPlan(plans, n, at, d, p);
            InPlan(r[j], d) && Unloaded(r[j], d) == plans[j]
  {
    InsertedPlanAt(plans, n, at, d, p, j);
    UnloadPushed(plans[j], Shortest(plans[0]), d);
  }

  /**
    Unloading the pickup from a plan after the customer gives back the old
    plan up to the order inside the compartment it went to.
   */
  lemma UnloadInsertedPickup(plans: seq<Plan>, n: nat, at: nat, d: Item, p: Item, j: nat)
    requires InsertFeasible(plans, n, at, p) && at <= j < |plans| && !InPlan(plans[j], p)
    ensures var r, si := InsertedPlan(plans, n, at, d, p), Shortest(plans[at]);
            && InPlan(r[j + 1], p)
            && var u := Unloaded(r[j + 1], p);
               && |u| == n && multiset(u[si].items) == multiset(plans[j][si].items)
               && (forall k :: 0 <= k < n && k != si ==> u[k] == plans[j][k])
               && (!FrontBranch(plans[at][si].items, p) ==> u == plans[j])
  {
    var si := Shortest(plans[at]);
    InsertedPlanAt(plans, n, at, d, p, j + 1);
    UnloadPickupLeg(plans[j], si, plans[at][si].items, p);
  }


  /**
    What removing a just-inserted customer gives back, against the plans
    before the insertion: every plan up to the customer exactly, and every
    later plan up to the order inside the compartment si the pickup went
    to, exactly when the pickup went to the rear.
   */
  predicate Restored(rr: seq<Plan>, plans: seq<Plan>, n: nat, at: nat, si: nat, frontBranch: bool)
  {
    && |rr| == |plans|
    && (forall j :: 0 <= j <= at && j < |rr| ==> rr[j] == plans[j])
    && (forall j :: at < j < |rr| ==>
          && |rr[j]| == |plans[j]| == n && si < n
          && multiset(rr[j][si].items) == multiset(plans[j][si].items)
          && (forall k :: 0 <= k < n && k != si ==> rr[j][k] == plans[j][k])
          && (!frontBranch ==> rr[j] == plans[j]))
  }

  /** An insertion of items that were on no plan puts them on board as `OnBoard` says. */
  lemma InsertedOnBoard(plans: seq<Plan>, n: nat, at: nat, d: Item, p: Item)
    requires InsertFeasible(plans, n, at, p)
    requires forall j :: 0 <= j < |plans| ==> !InPlan(plans[j], d) && !InPlan(plans[j], p)
    ensures OnBoard(InsertedPlan(plans, n, at, d, p), at, d, p)
  {
    var r := InsertedPlan(plans, n, at, d, p);
    forall j | 0 <= j <= at
      ensures InPlan(r[j], d)
    {
      UnloadInsertedDelivery(plans, n, at, d, p, j);
    }
    forall j | at < j < |r|
      ensures InPlan(r[j], p)
    {
      UnloadInsertedPickup(plans, n, at, d, p, j - 1);
    }
  }

  /** Plan j after removing a customer just inserted, against plan j before. */
  lemma RestoredAt(plans: seq<Plan>, n: nat, at: nat, d: Item, p: Item, j: nat)
    requires InsertFeasible(plans, n, at, p) && OnBoard(InsertedPlan(plans, n, at, d, p), at, d, p)
    requires j < |plans| && !InPlan(plans[j], d) && !InPlan(plans[j], p)
    ensures var rr, si := RemovedPlan(InsertedPlan(plans, n, at, d, p), at, d, p), Shortest(plans[at]);
            && (j <= at ==> rr[j] == plans[j])
            && (at < j ==>
                  && |rr[j]| == n
                  && multiset(rr[j][si].items) == multiset(plans[j][si].items)
                  && (forall k :: 0 <= k < n && k != si ==> rr[j][k] == plans[j][k])
                  && (!FrontBranch(plans[at][si].items, p) ==> rr[j] == plans[j]))
  {
    var r := InsertedPlan(plans, n, at, d, p);
    if j <= at {
      UnloadInsertedDelivery(plans, n, at, d, p, j);
      RemovedPlanAt(r, at, d, p);
    } else {
      UnloadInsertedPickup(plans, n, at, d, p, j);
      RemovedPlanAt(r, at, d, p);
    }
  }

  /**
    Removing a customer just inserted, whose items were on no plan before,
    restores the plans (see `Restored`).
   */
  lemma InsertThenRemovePlan(plans: seq<Plan>, n: nat, at: nat, d: Item, p: Item)
    requires InsertFeasible(plans, n, at, p)
    requires forall j :: 0 <= j < |plans| ==> !InPlan(plans[j], d) && !InPlan(plans[j], p)
    ensures OnBoard(InsertedPlan(plans, n, at, d, p), at, d, p)
    ensures var si := Shortest(plans[at]);
            Restored(RemovedPlan(InsertedPlan(plans, n, at, d, p), at, d, p), plans, n, at, si,
                     FrontBranch(plans[at][si].items, p))
  {
    InsertedOnBoard(plans, n, at, d, p);
    forall j | 0 <= j < |plans| {
      RestoredAt(plans, n, at, d, p, j);
    }
  }

  /** Unloading a pickup from a compartment leaves its deliveries in order. */
  lemma UnloadKeepsDeliveries(q: Plan, k: nat, items: seq<Item>, x: Item)
    requires k < |q| && x.isPickup && x in items
    requires forall m :: 0 <= m < |q| ==> x !in q[m].items
    ensures InPlan(WithItems(q, k, items), x)
    ensures NonPickups(Unloaded(WithItems(q, k, items), x)[k].items) == NonPickups(items)
  {
    var w := WithItems(q, k, items);
    assert x in w[k].items;
    assert FindStack(w, x) == k;
    RemoveFirstKeepsNonPickups(items, x);
  }

  /** One later plan's share: unloading the pickup just placed gives back the compartment's delivery order. */
  lemma UnloadPickupKeepsDeliveries(plans: seq<Plan>, n: nat, at: nat, d: Item, p: Item, j: nat)
    requires InsertFeasible(plans, n, at, p) && p.isPickup && at <= j < |plans| && !InPlan(plans[j], p)
    ensures var r, si := InsertedPlan(plans, n, at, d, p), Shortest(plans[at]);
            && InPlan(r[j + 1], p) && si < |Unloaded(r[j + 1], p)|
            && NonPickups(Unloaded(r[j + 1], p)[si].items) == NonPickups(plans[j][si].items)
  {
    var si := Shortest(plans[at]);
    var placed := PickupPlaced(plans[j][si].items, plans[at][si].items, p);
    InsertedPlanAt(plans, n, at, d, p, j + 1);
    PickupLeg(plans[j], si, plans[at][si].items, p);
    assert p in multiset(placed);
    UnloadKeepsDeliveries(plans[j], si, placed, p);
  }

  /**
    Removing a customer just inserted gives every later plan's chosen
    compartment its deliveries back in their old order, in either branch:
    only the pickups in it may come back reordered.
   */
  lemma InsertThenRemoveKeepsDeliveries(plans: seq<Plan>, n: nat, at: nat, d: Item, p: Item)
    requires InsertFeasible(plans, n, at, p) && p.isPickup
    requires forall j :: 0 <= j < |plans| ==> !InPlan(plans[j], d) && !InPlan(plans[j], p)
    ensures OnBoard(InsertedPlan(plans, n, at, d, p), at, d, p)
    ensures var rr, si := RemovedPlan(InsertedPlan(plans, n, at, d, p), at, d, p), Shortest(plans[at]);
            && |rr| == |plans|
            && forall j :: at < j < |plans| ==>
                 && si < |rr[j]| && si < |plans[j]|
                 && NonPickups(rr[j][si].items) == NonPickups(plans[j][si].items)
  {
    var r := InsertedPlan(plans, n, at, d, p);
    var si := Shortest(plans[at]);
    InsertedOnBoard(plans, n, at, d, p);
    RemovedPlanAt(r, at, d, p);
    forall j | at < j < |plans|
      ensures var rr := RemovedPlan(r, at, d, p);
              && si < |rr[j]| && si < |plans[j]|
              && NonPickups(rr[j][si].items) == NonPickups(plans[j][si].items)
    {
      UnloadPickupKeepsDeliveries(plans, n, at, d, p, j);
    }
  }
}
