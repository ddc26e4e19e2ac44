/**
  Items never change compartment while they ride. Insertion puts the
  delivery in one compartment up to the customer and the pickup in one
  compartment after it, removal and the front placement only take items
  out of or move them within a compartment, so a route built by these
  operations keeps every item where it was loaded. In particular the
  pickups the front placement moves are found in its compartment in every
  later plan, which is what the insertion needs.
 */
module Settling {
  import opened Loading
  import opened Problems
  import opened RouteSpec
  import opened RouteProperties

  /** x is in the same compartments of plans q and q'. */
  predicate SameFor(q: Plan, q': Plan, x: Item)
  {
    |q'| == |q| && forall k :: 0 <= k < |q| ==> (x in q'[k].items <==> x in q[k].items)
  }

  /** The old plan that plan j of an insertion at `at` is made from. */
  function Shifted(at: nat, j: nat): nat
  {
    if j <= at then j else j - 1
  }

  /** The old plan that plan j of a removal at `idx` is made from. */
  function Skipped(idx: nat, j: nat): nat
  {
    if j <= idx then j else j + 1
  }

  /** Plans that hold x where older plans did keep x in one place if the older ones did. */
  lemma StaysMapped(plans: seq<Plan>, r: seq<Plan>, lo: nat, hi: nat, lo': nat, hi': nat, x: Item, f: nat -> nat)
    requires Stays(plans, lo, hi, x) && hi <= |plans| && hi' <= |r|
    requires forall j :: lo' <= j < hi' ==> lo <= f(j) < hi && SameFor(plans[f(j)], r[j], x)
    ensures Stays(r, lo', hi', x)
  {
    forall j, j', k | lo' <= j < hi' && lo' <= j' < hi' && 0 <= k < |r[j]| && k < |r[j']|
      ensures x in r[j][k].items <==> x in r[j'][k].items
    {
      assert SameFor(plans[f(j)], r[j], x);
      assert SameFor(plans[f(j')], r[j'], x);
    }
  }

  // ----- Insertion -----

  /** Any item but the new customer's is where it was, in every plan of the insertion. */
  lemma InsertedSame(plans: seq<Plan>, n: nat, at: nat, d: Item, p: Item, j: nat, x: Item)
    requires InsertFeasible(plans, n, at, p) && j <= |plans| && x != d && x != p
    ensures Shifted(at, j) < |plans|
    ensures SameFor(plans[Shifted(at, j)], InsertedPlan(plans, n, at, d, p)[j], x)
  {
    InsertedPlanAt(plans, n, at, d, p, j);
    var q := plans[Shifted(at, j)];
    var w := InsertedPlan(plans, n, at, d, p)[j];
    forall k | 0 <= k < |q|
      ensures x in w[k].items <==> x in q[k].items
    {
      assert x in w[k].items <==> x in multiset(w[k].items);
      assert x in q[k].items <==> x in multiset(q[k].items);
    }
  }

  /** An item that kept one place in the old plans keeps one in the corresponding new ones. */
  lemma InsertKeepsStays(plans: seq<Plan>, n: nat, at: nat, d: Item, p: Item, x: Item,
                         lo: nat, hi: nat, lo': nat, hi': nat)
    requires InsertFeasible(plans, n, at, p) && x != d && x != p
    requires Stays(plans, lo, hi, x) && hi <= |plans| && hi' <= |plans| + 1
    requires forall j :: lo' <= j < hi' ==> lo <= Shifted(at, j) < hi
    ensures Stays(InsertedPlan(plans, n, at, d, p), lo', hi', x)
  {
    var r := InsertedPlan(plans, n, at, d, p);
    forall j | lo' <= j < hi'
      ensures lo <= Shifted(at, j) < hi && SameFor(plans[Shifted(at, j)], r[j], x)
    {
      InsertedSame(plans, n, at, d, p, j, x);
    }
    StaysMapped(plans, r, lo, hi, lo', hi', x, j => Shifted(at, j));
  }

  /**
    The new customer's delivery is in the depot's shortest compartment and
    nowhere else up to the customer, and its pickup in the compartment
    chosen at the customer and nowhere else after it.
   */
  lemma InsertedNewItems(plans: seq<Plan>, n: nat, at: nat, d: Item, p: Item)
    requires InsertFeasible(plans, n, at, p)
    requires forall j :: 0 <= j < |plans| ==> !InPlan(plans[j], d) && !InPlan(plans[j], p)
    ensures var r, di := InsertedPlan(plans, n, at, d, p), Shortest(plans[0]);
            forall j, k :: 0 <= j <= at && 0 <= k < |r[j]| ==> (d in r[j][k].items <==> k == di)
    ensures var r, si := InsertedPlan(plans, n, at, d, p), Shortest(plans[at]);
            forall j, k :: at < j < |r| && 0 <= k < |r[j]| ==> (p in r[j][k].items <==> k == si)
  {
    var r: seq<Plan> := InsertedPlan(plans, n, at, d, p);
    var di, si := Shortest(plans[0]), Shortest(plans[at]);
    forall j, k | 0 <= j <= at && 0 <= k < |r[j]|
      ensures d in r[j][k].items <==> k == di
    {
      InsertedPlanAt(plans, n, at, d, p, j);
    }
    forall j, k | at < j < |r| && 0 <= k < |r[j]|
      ensures p in r[j][k].items <==> k == si
    {
      InsertedPlanAt(plans, n, at, d, p, j);
      assert p in multiset(r[j][si].items);
    }
  }

  /** The new customer's items each keep one place. */
  lemma InsertedNewStays(plans: seq<Plan>, n: nat, at: nat, d: Item, p: Item)
    requires InsertFeasible(plans, n, at, p)
    requires forall j :: 0 <= j < |plans| ==> !InPlan(plans[j], d) && !InPlan(plans[j], p)
    ensures Stays(InsertedPlan(plans, n, at, d, p), 0, at + 1, d)
    ensures Stays(InsertedPlan(plans, n, at, d, p), at + 1, |plans| + 1, p)
  {
    InsertedNewItems(plans, n, at, d, p);
  }

  /** The customer at position i of the new route keeps its items in place. */
  predicate SettledAt(prob: Problem, cs: seq<int>, plans: seq<Plan>, i: nat)
  {
    i < |cs| && IsCustomer(prob, cs[i]) && cs[i] < |prob.pickups| ==>
      Stays(plans, 0, i + 1, prob.demands[cs[i]]) && Stays(plans, i + 1, |plans|, prob.pickups[cs[i]])
  }

  /** A route whose customers each keep their items in place is settled. */
  lemma SettledEach(prob: Problem, cs: seq<int>, plans: seq<Plan>)
    requires forall i :: 0 <= i < |cs| ==> SettledAt(prob, cs, plans, i)
    ensures Settled(prob, cs, plans)
  {
    forall i | 0 <= i < |cs| && IsCustomer(prob, cs[i]) && cs[i] < |prob.pickups|
      ensures Stays(plans, 0, i + 1, prob.demands[cs[i]]) && Stays(plans, i + 1, |plans|, prob.pickups[cs[i]])
    {
      assert SettledAt(prob, cs, plans, i);
    }
  }

  /** A customer before the new one keeps its items in place. */
  lemma InsertedSettledBefore(prob: Problem, cs: seq<int>, plans: seq<Plan>, c: int, at: nat, i: nat)
    requires Wf(prob) && AllCustomers(prob, cs) && |plans| == |cs| + 1 && Settled(prob, cs, plans)
    requires IsCustomer(prob, c) && c !in cs && i < at <= |cs|
    requires InsertFeasible(plans, prob.numStacks, at, prob.pickups[c])
    ensures SettledAt(prob, InsertedCustomers(cs, c, at),
                      InsertedPlan(plans, prob.numStacks, at, prob.demands[c], prob.pickups[c]), i)
  {
    var d, p := prob.demands[c], prob.pickups[c];
    assert InsertedCustomers(cs, c, at)[i] == cs[i] != c;
    InsertKeepsStays(plans, prob.numStacks, at, d, p, prob.demands[cs[i]], 0, i + 1, 0, i + 1);
    InsertKeepsStays(plans, prob.numStacks, at, d, p, prob.pickups[cs[i]], i + 1, |plans|, i + 1, |plans| + 1);
  }

  /** The new customer's items each keep one place. */
  lemma InsertedSettledNew(prob: Problem, cs: seq<int>, plans: seq<Plan>, c: int, at: nat)
    requires Wf(prob) && AllCustomers(prob, cs) && Carries(prob, cs, plans)
    requires IsCustomer(prob, c) && c !in cs && at <= |cs|
    requires InsertFeasible(plans, prob.numStacks, at, prob.pickups[c])
    ensures SettledAt(prob, InsertedCustomers(cs, c, at),
                      InsertedPlan(plans, prob.numStacks, at, prob.demands[c], prob.pickups[c]), at)
  {
    assert InsertedCustomers(cs, c, at)[at] == c;
    NotRoutedNotLoaded(prob, cs, plans, c);
    InsertedNewStays(plans, prob.numStacks, at, prob.demands[c], prob.pickups[c]);
  }

  /** A customer after the new one, now one place further, keeps its items in place. */
  lemma InsertedSettledAfter(prob: Problem, cs: seq<int>, plans: seq<Plan>, c: int, at: nat, i: nat)
    requires Wf(prob) && AllCustomers(prob, cs) && |plans| == |cs| + 1 && Settled(prob, cs, plans)
    requires IsCustomer(prob, c) && c !in cs && at < i <= |cs|
    requires InsertFeasible(plans, prob.numStacks, at, prob.pickups[c])
    ensures SettledAt(prob, InsertedCustomers(cs, c, at),
                      InsertedPlan(plans, prob.numStacks, at, prob.demands[c], prob.pickups[c]), i)
  {
    var d, p := prob.demands[c], prob.pickups[c];
    assert InsertedCustomers(cs, c, at)[i] == cs[i - 1] != c;
    InsertKeepsStays(plans, prob.numStacks, at, d, p, prob.demands[cs[i - 1]], 0, i, 0, i + 1);
    InsertKeepsStays(plans, prob.numStacks, at, d, p, prob.pickups[cs[i - 1]], i, |plans|, i + 1, |plans| + 1);
  }

  /** The customers before the new one keep their items in place. */
  lemma InsertedSettledBeforeAll(prob: Problem, cs: seq<int>, plans: seq<Plan>, c: int, at: nat)
    requires Wf(prob) && AllCustomers(prob, cs) && |plans| == |cs| + 1 && Settled(prob, cs, plans)
    requires IsCustomer(prob, c) && c !in cs && at <= |cs|
    requires InsertFeasible(plans, prob.numStacks, at, prob.pickups[c])
    ensures var cs', r := InsertedCustomers(cs, c, at),
                          InsertedPlan(plans, prob.numStacks, at, prob.demands[c], prob.pickups[c]);
            forall i :: 0 <= i < at ==> SettledAt(prob, cs', r, i)
  {
    forall i | 0 <= i < at {
      InsertedSettledBefore(prob, cs, plans, c, at, i);
    }
  }

  /** The customers after the new one keep their items in place. */
  lemma InsertedSettledAfterAll(prob: Problem, cs: seq<int>, plans: seq<Plan>, c: int, at: nat)
    requires Wf(prob) && AllCustomers(prob, cs) && |plans| == |cs| + 1 && Settled(prob, cs, plans)
    requires IsCustomer(prob, c) && c !in cs && at <= |cs|
    requires InsertFeasible(plans, prob.numStacks, at, prob.pickups[c])
    ensures var cs', r := InsertedCustomers(cs, c, at),
                          InsertedPlan(plans, prob.numStacks, at, prob.demands[c], prob.pickups[c]);
            forall i :: at < i <= |cs| ==> SettledAt(prob, cs', r, i)
  {
    forall i | at < i <= |cs| {
      InsertedSettledAfter(prob, cs, plans, c, at, i);
    }
  }

  /** Inserting a customer keeps every item of the route in place. */
  lemma InsertKeepsSettled(prob: Problem, cs: seq<int>, plans: seq<Plan>, c: int, at: nat)
    requires Wf(prob) && AllCustomers(prob, cs) && Carries(prob, cs, plans) && Settled(prob, cs, plans)
    requires IsCustomer(prob, c) && c !in cs && at <= |cs|
    requires InsertFeasible(plans, prob.numStacks, at, prob.pickups[c])
    ensures Settled(prob, InsertedCustomers(cs, c, at),
                    InsertedPlan(plans, prob.numStacks, at, prob.demands[c], prob.pickups[c]))
  {
    InsertedSettledBeforeAll(prob, cs, plans, c, at);
    InsertedSettledNew(prob, cs, plans, c, at);
    InsertedSettledAfterAll(prob, cs, plans, c, at);
    SettledEach(prob, InsertedCustomers(cs, c, at),
                InsertedPlan(plans, prob.numStacks, at, prob.demands[c], prob.pickups[c]));
  }

  // ----- Removal -----

  /** Any item but the removed customer's is where it was, in every plan of the removal. */
  lemma RemovedSame(plans: seq<Plan>, idx: nat, d: Item, p: Item, j: nat, x: Item)
    requires OnBoard(plans, idx, d, p) && j < |plans| - 1 && x != d && x != p
    ensures Skipped(idx, j) < |plans|
    ensures SameFor(plans[Skipped(idx, j)], RemovedPlan(plans, idx, d, p)[j], x)
  {
    var q := plans[Skipped(idx, j)];
    var y := if j <= idx then d else p;
    var w := RemovedPlan(plans, idx, d, p)[j];
    assert w == Unloaded(q, y);
    var k0 := FindStack(q, y);
    forall k | 0 <= k < |q|
      ensures x in w[k].items <==> x in q[k].items
    {
      if k == k0 {
        assert x in w[k].items <==> x in multiset(w[k].items);
        assert x in q[k].items <==> x in multiset(q[k].items);
      }
    }
  }

  /** An item that kept one place in the old plans keeps one in the corresponding new ones. */
  lemma RemoveKeepsStays(plans: seq<Plan>, idx: nat, d: Item, p: Item, x: Item,
                         lo: nat, hi: nat, lo': nat, hi': nat)
    requires OnBoard(plans, idx, d, p) && x != d && x != p
    requires Stays(plans, lo, hi, x) && hi <= |plans| && hi' <= |plans| - 1
    requires forall j :: lo' <= j < hi' ==> lo <= Skipped(idx, j) < hi
    ensures Stays(RemovedPlan(plans, idx, d, p), lo', hi', x)
  {
    var r := RemovedPlan(plans, idx, d, p);
    forall j | lo' <= j < hi'
      ensures lo <= Skipped(idx, j) < hi && SameFor(plans[Skipped(idx, j)], r[j], x)
    {
      RemovedSame(plans, idx, d, p, j, x);
    }
    StaysMapped(plans, r, lo, hi, lo', hi', x, j => Skipped(idx, j));
  }

  /** A customer before the removed one keeps its items in place. */
  lemma RemovedSettledBefore(prob: Problem, cs: seq<int>, plans: seq<Plan>, idx: nat, i: nat)
    requires Wf(prob) && AllCustomers(prob, cs) && Distinct(cs) && |plans| == |cs| + 1 && Settled(prob, cs, plans)
    requires i < idx < |cs| && OnBoard(plans, idx, prob.demands[cs[idx]], prob.pickups[cs[idx]])
    ensures SettledAt(prob, RemovedCustomers(cs, idx),
                      RemovedPlan(plans, idx, prob.demands[cs[idx]], prob.pickups[cs[idx]]), i)
  {
    var d, p := prob.demands[cs[idx]], prob.pickups[cs[idx]];
    assert RemovedCustomers(cs, idx)[i] == cs[i] != cs[idx];
    RemoveKeepsStays(plans, idx, d, p, prob.demands[cs[i]], 0, i + 1, 0, i + 1);
    RemoveKeepsStays(plans, idx, d, p, prob.pickups[cs[i]], i + 1, |plans|, i + 1, |plans| - 1);
  }

  /** A customer after the removed one, now one place nearer, keeps its items in place. */
  lemma RemovedSettledAfter(prob: Problem, cs: seq<int>, plans: seq<Plan>, idx: nat, i: nat)
    requires Wf(prob) && AllCustomers(prob, cs) && Distinct(cs) && |plans| == |cs| + 1 && Settled(prob, cs, plans)
    requires idx <= i < |cs| - 1 && OnBoard(plans, idx, prob.demands[cs[idx]], prob.pickups[cs[idx]])
    ensures SettledAt(prob, RemovedCustomers(cs, idx),
                      RemovedPlan(plans, idx, prob.demands[cs[idx]], prob.pickups[cs[idx]]), i)
  {
    var d, p := prob.demands[cs[idx]], prob.pickups[cs[idx]];
    assert RemovedCustomers(cs, idx)[i] == cs[i + 1] != cs[idx];
    RemoveKeepsStays(plans, idx, d, p, prob.demands[cs[i + 1]], 0, i + 2, 0, i + 1);
    RemoveKeepsStays(plans, idx, d, p, prob.pickups[cs[i + 1]], i + 2, |plans|, i + 1, |plans| - 1);
  }

  /** The customers before the removed one keep their items in place. */
  lemma RemovedSettledBeforeAll(prob: Problem, cs: seq<int>, plans: seq<Plan>, idx: nat)
    requires Wf(prob) && AllCustomers(prob, cs) && Distinct(cs) && |plans| == |cs| + 1 && Settled(prob, cs, plans)
    requires idx < |cs| && OnBoard(plans, idx, prob.demands[cs[idx]], prob.pickups[cs[idx]])
    ensures var cs', r := RemovedCustomers(cs, idx),
                          RemovedPlan(plans, idx, prob.demands[cs[idx]], prob.pickups[cs[idx]]);
            forall i :: 0 <= i < idx ==> SettledAt(prob, cs', r, i)
  {
    forall i | 0 <= i < idx {
      RemovedSettledBefore(prob, cs, plans, idx, i);
    }
  }

  /** The customers after the removed one keep their items in place. */
  lemma RemovedSettledAfterAll(prob: Problem, cs: seq<int>, plans: seq<Plan>, idx: nat)
    requires Wf(prob) && AllCustomers(prob, cs) && Distinct(cs) && |plans| == |cs| + 1 && Settled(prob, cs, plans)
    requires idx < |cs| && OnBoard(plans, idx, prob.demands[cs[idx]], prob.pickups[cs[idx]])
    ensures var cs', r := RemovedCustomers(cs, idx),
                          RemovedPlan(plans, idx, prob.demands[cs[idx]], prob.pickups[cs[idx]]);
            forall i :: idx <= i < |cs| - 1 ==> SettledAt(prob, cs', r, i)
  {
    forall i | idx <= i < |cs| - 1 {
      RemovedSettledAfter(prob, cs, plans, idx, i);
    }
  }

  /** Removing a customer of the route keeps every remaining item in place. */
  lemma RemoveKeepsSettled(prob: Problem, cs: seq<int>, plans: seq<Plan>, idx: nat)
    requires Wf(prob) && AllCustomers(prob, cs) && Distinct(cs) && Carries(prob, cs, plans) && Settled(prob, cs, plans)
    requires idx < |cs|
    ensures OnBoard(plans, idx, prob.demands[cs[idx]], prob.pickups[cs[idx]])
    ensures Settled(prob, RemovedCustomers(cs, idx),
                    RemovedPlan(plans, idx, prob.demands[cs[idx]], prob.pickups[cs[idx]]))
  {
    CarriedItemsOnBoard(prob, cs, plans, idx);
    RemovedSettledBeforeAll(prob, cs, plans, idx);
    RemovedSettledAfterAll(prob, cs, plans, idx);
    SettledEach(prob, RemovedCustomers(cs, idx),
                RemovedPlan(plans, idx, prob.demands[cs[idx]], prob.pickups[cs[idx]]));
  }

  // ----- What the insertion relies on -----

  /** A pickup on board belongs to one of the customers served. */
  lemma {:induction false} PickupOwner(prob: Problem, cs: seq<int>, q: Item) returns (i: nat)
    requires q in PickupsOf(prob, cs)
    ensures i < |cs| && 0 <= cs[i] < |prob.pickups| && q == prob.pickups[cs[i]]
  {
    if 0 <= cs[0] < |prob.pickups| && q == prob.pickups[cs[0]] {
      i := 0;
    } else {
      var i' := PickupOwner(prob, cs[1..], q);
      i := i' + 1;
    }
  }

  /** A pickup on board at stop `at` is in the same compartment at every later stop. */
  lemma LoadedPickupStays(prob: Problem, cs: seq<int>, plans: seq<Plan>, at: nat, k: nat, q: Item, j: nat)
    requires Wf(prob) && AllCustomers(prob, cs) && Carries(prob, cs, plans) && Settled(prob, cs, plans)
    requires at <= j < |plans| && k < |plans[at]| && k < |plans[j]| && q in plans[at][k].items && q.isPickup
    ensures q in plans[j][k].items
  {
    InPlanContents(plans[at], q);
    assert q in DeliveriesOf(prob, cs[at..]) + PickupsOf(prob, cs[..at]);
    ItemsOfMembers(prob, cs[at..], q);
    var i := PickupOwner(prob, cs[..at], q);
    assert cs[..at][i] == cs[i];
    assert Stays(plans, i + 1, |plans|, prob.pickups[cs[i]]);
  }

  /**
    On a route whose items stay in place, the pickups the front placement
    moves are in its compartment in every later plan: the insertion's
    requirement holds for any customer at any position.
   */
  lemma SettledFeasible(prob: Problem, cs: seq<int>, plans: seq<Plan>, at: nat, p: Item)
    requires Wf(prob) && AllCustomers(prob, cs) && PlansWf(plans, prob.numStacks)
    requires Carries(prob, cs, plans) && Settled(prob, cs, plans) && at <= |cs|
    ensures InsertFeasible(plans, prob.numStacks, at, p)
  {
    var si := Shortest(plans[at]);
    var s := plans[at][si].items;
    var behind := s[..|s| - FrontLen(s)];
    PickupsIn(behind);
    forall j | at <= j < |plans|
      ensures CanPlace(plans[j][si].items, s, p)
    {
      forall q | q in PickupsBehindFront(s)
        ensures q in plans[j][si].items
      {
        assert q in behind;
        LoadedPickupStays(prob, cs, plans, at, si, q, j);
      }
    }
  }
}
