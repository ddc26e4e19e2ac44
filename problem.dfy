/**
  The problem instance, read once and never changed: one delivery item and
  one pickup item per customer, the distance matrix and the vehicles' cost
  per kilometre.
 */
module Problems {
  import opened Loading

  /**
    Node number of the depot. Customers are nodes 0 .. N-1, and node n is
    row and column n + 1 of the distance matrix, so the depot is row 0.
   */
  const DEPOT: int := -1

  datatype Problem = Problem(
    numStacks: nat,               // compartments per vehicle
    demands: seq<Item>,           // demands[c]: the delivery item of customer c
    pickups: seq<Item>,           // pickups[c]: the pickup item of customer c
    distances: seq<seq<real>>,    // (N + 1) x (N + 1), depot first
    vehKmCost: seq<real>          // cost per kilometre, per vehicle
  )

  predicate IsCustomer(prob: Problem, c: int)
  {
    0 <= c < |prob.demands|
  }

  predicate IsNode(prob: Problem, n: int)
  {
    DEPOT <= n < |prob.demands|
  }

  predicate AllCustomers(prob: Problem, cs: seq<int>)
  {
    forall i :: 0 <= i < |cs| ==> IsCustomer(prob, cs[i])
  }

  /** No leg of the distance matrix is negative. */
  predicate NonNegativeDistances(prob: Problem)
  {
    forall i, j :: 0 <= i < |prob.distances| && 0 <= j < |prob.distances[i]| ==> prob.distances[i][j] >= 0.0
  }

  /** The instance is consistent: matrix and item tables match the customer count. */
  predicate Wf(prob: Problem)
  {
    && prob.numStacks > 0
    && |prob.pickups| == |prob.demands|
    && |prob.distances| == |prob.demands| + 1
    && (forall i :: 0 <= i < |prob.distances| ==> |prob.distances[i]| == |prob.demands| + 1)
    && (forall c :: 0 <= c < |prob.demands| ==>
          prob.demands[c].customer == c && !prob.demands[c].isPickup && prob.demands[c].volume > 0.0)
    && (forall c :: 0 <= c < |prob.pickups| ==>
          prob.pickups[c].customer == c && prob.pickups[c].isPickup && prob.pickups[c].volume > 0.0)
  }
}
