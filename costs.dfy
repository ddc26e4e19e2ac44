/**
  Routing cost of a route: the vehicle's cost per kilometre times the
  length of each leg, over the depot, the customers in order, and the depot.
 */
module Costs {
  import opened Problems

  /** Length of the leg from node a to node b. */
  function Leg(prob: Problem, a: int, b: int): real
    requires Wf(prob) && IsNode(prob, a) && IsNode(prob, b)
  {
    prob.distances[a + 1][b + 1]
  }

  predicate AllNodes(prob: Problem, nodes: seq<int>)
  {
    forall i :: 0 <= i < |nodes| ==> IsNode(prob, nodes[i])
  }

  /**
    `distance`: the rate times the leg length, summed over consecutive pairs
    of the list; a list of fewer than two nodes has no legs.
   */
  function Distance(prob: Problem, rate: real, nodes: seq<int>): real
    requires Wf(prob) && AllNodes(prob, nodes)
  {
    if |nodes| < 2 then 0.0
    else rate * Leg(prob, nodes[0], nodes[1]) + Distance(prob, rate, nodes[1..])
  }

  /** With non-negative legs and rate, no list costs less than nothing. */
  lemma {:induction false} DistanceNonNegative(prob: Problem, rate: real, nodes: seq<int>)
    requires Wf(prob) && NonNegativeDistances(prob) && AllNodes(prob, nodes) && rate >= 0.0
    ensures Distance(prob, rate, nodes) >= 0.0
  {
    if |nodes| >= 2 {
      DistanceNonNegative(prob, rate, nodes[1..]);
      var leg := Leg(prob, nodes[0], nodes[1]);
      assert leg >= 0.0;
      assert rate * leg >= 0.0;
    }
  }

  /** Reference definition: the length of the path, summed from its far end. */
  function PathLength(prob: Problem, nodes: seq<int>): real
    requires Wf(prob) && AllNodes(prob, nodes)
  {
    if |nodes| < 2 then 0.0
    else PathLength(prob, nodes[..|nodes| - 1]) + Leg(prob, nodes[|nodes| - 2], nodes[|nodes| - 1])
  }

  /** The list the route's cost is taken over: depot, customers, depot. */
  function Tour(cs: seq<int>): (r: seq<int>)
  {
    [DEPOT] + cs + [DEPOT]
  }

  lemma TourNodes(prob: Problem, cs: seq<int>)
    requires AllCustomers(prob, cs)
    ensures AllNodes(prob, Tour(cs))
  {
    assert forall i :: 1 <= i <= |cs| ==> Tour(cs)[i] == cs[i - 1];
  }

  /** `routing_cost` of a route of vehicle v over customers cs. */
  function RouteCost(prob: Problem, v: nat, cs: seq<int>): real
    requires Wf(prob) && v < |prob.vehKmCost| && AllCustomers(prob, cs)
  {
    TourNodes(prob, cs);
    Distance(prob, prob.vehKmCost[v], Tour(cs))
  }

  lemma AllNodesAppend(prob: Problem, a: seq<int>, b: seq<int>)
    requires AllNodes(prob, a) && AllNodes(prob, b)
    ensures AllNodes(prob, a + b)
  {
    assert forall i :: 0 <= i < |a + b| ==> (a + b)[i] == if i < |a| then a[i] else b[i - |a|];
  }

  /** Joining two lists adds the leg between them. */
  lemma {:induction false} DistanceAppend(prob: Problem, rate: real, a: seq<int>, b: seq<int>)
    requires Wf(prob) && AllNodes(prob, a) && AllNodes(prob, b) && a != [] && b != []
    ensures AllNodes(prob, a + b)
    ensures Distance(prob, rate, a + b)
         == Distance(prob, rate, a) + rate * Leg(prob, a[|a| - 1], b[0]) + Distance(prob, rate, b)
  {
    AllNodesAppend(prob, a, b);
    if |a| > 1 {
      assert (a + b)[1..] == a[1..] + b;
      DistanceAppend(prob, rate, a[1..], b);
    } else {
      assert (a + b)[1..] == b;
    }
  }

  /** The last leg of a list, split off. */
  lemma DistanceLastLeg(prob: Problem, rate: real, nodes: seq<int>)
    requires Wf(prob) && AllNodes(prob, nodes) && |nodes| >= 2
    ensures AllNodes(prob, nodes[..|nodes| - 1])
    ensures Distance(prob, rate, nodes)
         == Distance(prob, rate, nodes[..|nodes| - 1]) + rate * Leg(prob, nodes[|nodes| - 2], nodes[|nodes| - 1])
  {
    var n := |nodes|;
    assert nodes == nodes[..n - 1] + [nodes[n - 1]];
    DistanceAppend(prob, rate, nodes[..n - 1], [nodes[n - 1]]);
  }

  lemma ScaleSum(rate: real, x: real, y: real, dx: real, d: real)
    requires dx == rate * x && d == dx + rate * y
    ensures d == rate * (x + y)
  {
  }

  /** `distance` is the rate times the path length, whichever end the sum starts from. */
  lemma {:induction false} DistanceIsRateTimesLength(prob: Problem, rate: real, nodes: seq<int>)
    requires Wf(prob) && AllNodes(prob, nodes)
    ensures Distance(prob, rate, nodes) == rate * PathLength(prob, nodes)
    decreases |nodes|
  {
    if |nodes| >= 2 {
      var n := |nodes|;
      DistanceLastLeg(prob, rate, nodes);
      assert Distance(prob, rate, nodes[..n - 1]) == rate * PathLength(prob, nodes[..n - 1]) by {
        DistanceIsRateTimesLength(prob, rate, nodes[..n - 1]);
      }
      ScaleSum(rate, PathLength(prob, nodes[..n - 1]), Leg(prob, nodes[n - 2], nodes[n - 1]),
        Distance(prob, rate, nodes[..n - 1]), Distance(prob, rate, nodes));
    }
  }

  /** The tour with c inserted at `at` is the old tour split after the stop before c. */
  lemma TourInsert(cs: seq<int>, c: int, at: nat)
    requires at <= |cs|
    ensures Tour(cs[..at] + [c] + cs[at..]) == Tour(cs)[..at + 1] + ([c] + Tour(cs)[at + 1..])
  {
    var t := Tour(cs);
    assert t[..at + 1] == [DEPOT] + cs[..at];
    assert t[at + 1..] == cs[at..] + [DEPOT];
  }

  /** A node in front of a list adds the leg to the list's first node. */
  lemma DistanceCons(prob: Problem, rate: real, c: int, post: seq<int>)
    requires Wf(prob) && AllNodes(prob, post) && IsNode(prob, c) && post != []
    ensures AllNodes(prob, [c] + post)
    ensures Distance(prob, rate, [c] + post) == rate * Leg(prob, c, post[0]) + Distance(prob, rate, post)
  {
    AllNodesAppend(prob, [c], post);
    assert ([c] + post)[1..] == post;
  }

  /** Putting node c between two lists replaces the leg joining them by two legs through c. */
  lemma SplitLeg(prob: Problem, rate: real, pre: seq<int>, c: int, post: seq<int>)
    requires Wf(prob) && AllNodes(prob, pre) && AllNodes(prob, post) && IsNode(prob, c)
    requires pre != [] && post != []
    ensures AllNodes(prob, pre + post) && AllNodes(prob, pre + ([c] + post))
    ensures var u, w := pre[|pre| - 1], post[0];
            Distance(prob, rate, pre + ([c] + post))
              == Distance(prob, rate, pre + post) + rate * (Leg(prob, u, c) + Leg(prob, c, w) - Leg(prob, u, w))
  {
    var cpost := [c] + post;
    DistanceCons(prob, rate, c, post);
    assert cpost[0] == c;
    DistanceAppend(prob, rate, pre, post);
    DistanceAppend(prob, rate, pre, cpost);
    Detour(rate, Leg(prob, pre[|pre| - 1], c), Leg(prob, c, post[0]), Leg(prob, pre[|pre| - 1], post[0]),
      Distance(prob, rate, pre), Distance(prob, rate, post),
      Distance(prob, rate, cpost), Distance(prob, rate, pre + post), Distance(prob, rate, pre + cpost));
  }

  /** The arithmetic of SplitLeg: the detour's cost, scaled by the rate. */
  lemma Detour(rate: real, uc: real, cw: real, uw: real, a: real, b: real, cb: real, ab: real, acb: real)
    requires cb == rate * cw + b
    requires ab == a + rate * uw + b
    requires acb == a + rate * uc + cb
    ensures acb == ab + rate * (uc + cw - uw)
  {
    assert rate * (uc + cw - uw) == rate * uc + rate * cw - rate * uw;
  }

  /**
    Inserting customer c at index `at` replaces the leg u -> w around it by
    u -> c -> w, and changes the cost by exactly that.
   */
  lemma InsertCostDelta(prob: Problem, v: nat, cs: seq<int>, c: int, at: nat)
    requires Wf(prob) && v < |prob.vehKmCost| && AllCustomers(prob, cs)
    requires IsCustomer(prob, c) && at <= |cs|
    ensures AllCustomers(prob, cs[..at] + [c] + cs[at..])
    ensures var u, w, rate := Tour(cs)[at], Tour(cs)[at + 1], prob.vehKmCost[v];
            RouteCost(prob, v, cs[..at] + [c] + cs[at..])
              == RouteCost(prob, v, cs) + rate * (Leg(prob, u, c) + Leg(prob, c, w) - Leg(prob, u, w))
  {
    var cs' := cs[..at] + [c] + cs[at..];
    assert forall i :: 0 <= i < |cs'| ==> cs'[i] == if i < at then cs[i] else if i == at then c else cs[i - 1];
    TourNodes(prob, cs);
    var t := Tour(cs);
    var pre, post := t[..at + 1], t[at + 1..];
    assert t == pre + post;
    TourInsert(cs, c, at);
    assert AllNodes(prob, pre) && AllNodes(prob, post);
    SplitLeg(prob, prob.vehKmCost[v], pre, c, post);
  }

  /** Removing the customer at index idx undoes the insertion's change of cost. */
  lemma RemoveCostDelta(prob: Problem, v: nat, cs: seq<int>, idx: nat)
    requires Wf(prob) && v < |prob.vehKmCost| && AllCustomers(prob, cs) && idx < |cs|
    ensures AllCustomers(prob, cs[..idx] + cs[idx + 1..])
    ensures var u, c, w, rate := Tour(cs)[idx], cs[idx], Tour(cs)[idx + 2], prob.vehKmCost[v];
            RouteCost(prob, v, cs[..idx] + cs[idx + 1..])
              == RouteCost(prob, v, cs) - rate * (Leg(prob, u, c) + Leg(prob, c, w) - Leg(prob, u, w))
  {
    var rest := cs[..idx] + cs[idx + 1..];
    assert forall i :: 0 <= i < |rest| ==> rest[i] == if i < idx then cs[i] else cs[i + 1];
    assert rest[..idx] + [cs[idx]] + rest[idx..] == cs;
    InsertCostDelta(prob, v, rest, cs[idx], idx);
    assert Tour(rest)[idx] == Tour(cs)[idx];
    assert Tour(rest)[idx + 1] == Tour(cs)[idx + 2];
  }
}
