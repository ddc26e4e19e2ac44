/**
  Items, stacks and loading plans: the state of a vehicle's compartments
  when it leaves one stop.

  A stack's `items` run from the rear (index 0) to the front (the last
  index). The front is where items are unloaded from; the "front run" of a
  stack is the maximal run of pickup items at its front end.
 */
module Loading {

  /** One unit of cargo of one customer, a pickup or a delivery. */
  datatype Item = Item(customer: int, isPickup: bool, volume: real)

  /** One compartment of the vehicle, with its compartment number. */
  datatype Stack = Stack(index: nat, items: seq<Item>)

  /** All compartments of the vehicle at one stop; compartment k is at position k. */
  type Plan = seq<Stack>

  /** Total volume held by a stack. */
  function Volume(items: seq<Item>): real
  {
    if items == [] then 0.0 else items[0].volume + Volume(items[1..])
  }

  /** The delivery items of a stack, rear to front. */
  function NonPickups(items: seq<Item>): seq<Item>
  {
    if items == [] then []
    else (if items[0].isPickup then [] else [items[0]]) + NonPickups(items[1..])
  }

  /** The pickup items of a stack, rear to front. */
  function Pickups(items: seq<Item>): seq<Item>
  {
    if items == [] then []
    else (if items[0].isPickup then [items[0]] else []) + Pickups(items[1..])
  }

  /** Every pickup of a stack is a pickup item in it. */
  lemma {:induction false} PickupsIn(items: seq<Item>)
    ensures forall x :: x in Pickups(items) ==> x in items && x.isPickup
  {
    if items != [] {
      PickupsIn(items[1..]);
    }
  }

  /** Every delivery item of a stack is a delivery item in it. */
  lemma {:induction false} NonPickupsIn(items: seq<Item>)
    ensures forall x :: x in NonPickups(items) ==> x in items && !x.isPickup
  {
    if items != [] {
      NonPickupsIn(items[1..]);
    }
  }

  /** Every pickup item of a stack is among its pickups. */
  lemma {:induction false} PickupsComplete(items: seq<Item>)
    ensures forall x :: x in items && x.isPickup ==> x in Pickups(items)
  {
    if items != [] {
      PickupsComplete(items[1..]);
      assert forall x :: x in items ==> x == items[0] || x in items[1..];
    }
  }

  /** Its pickups and its deliveries together are exactly the items of a stack. */
  lemma {:induction false} PickupsPartition(items: seq<Item>)
    ensures multiset(Pickups(items)) + multiset(NonPickups(items)) == multiset(items)
  {
    if items != [] {
      var rest := items[1..];
      PickupsPartition(rest);
      assert multiset(items) == multiset{items[0]} + multiset(rest) by {
        assert items == [items[0]] + rest;
      }
      if items[0].isPickup {
        assert multiset(Pickups(items)) == multiset{items[0]} + multiset(Pickups(rest));
        assert NonPickups(items) == NonPickups(rest);
      } else {
        assert Pickups(items) == Pickups(rest);
        assert multiset(NonPickups(items)) == multiset{items[0]} + multiset(NonPickups(rest));
      }
    }
  }

  /** Number of delivery items in a stack (`deliveries_in_stack`). */
  function DeliveriesInStack(items: seq<Item>): (r: nat)
    ensures r + |Pickups(items)| == |items|
  {
    PickupsPartition(items);
    assert |multiset(Pickups(items)) + multiset(NonPickups(items))| == |multiset(items)|;
    |NonPickups(items)|
  }

  /** Length of the front run: the maximal run of pickups at the front end. */
  function FrontLen(items: seq<Item>): (k: nat)
    ensures k <= |items|
    ensures forall i :: |items| - k <= i < |items| ==> items[i].isPickup
    ensures k < |items| ==> !items[|items| - k - 1].isPickup
  {
    if items == [] || !items[|items| - 1].isPickup then 0
    else FrontLen(items[..|items| - 1]) + 1
  }

  /** The pickups that lie behind the front run (`islice` up to the front run, then filtered). */
  function PickupsBehindFront(items: seq<Item>): seq<Item>
  {
    Pickups(items[..|items| - FrontLen(items)])
  }

  /** `push_rear`: the item goes to the rear end. */
  function PushRear(items: seq<Item>, x: Item): seq<Item>
  {
    [x] + items
  }

  /**
    `push(-k, x)`: the item goes just behind the last k items. As with a
    negative list index, an offset beyond the stack puts it at the rear.
   */
  function PushBefore(items: seq<Item>, k: nat, x: Item): (r: seq<Item>)
    ensures |r| == |items| + 1
    ensures multiset(r) == multiset(items) + multiset{x}
  {
    var at := if k <= |items| then |items| - k else 0;
    assert items == items[..at] + items[at..];
    items[..at] + [x] + items[at..]
  }

  /** Where `push(-k, x)` puts x: behind the last k items, the others keeping their order. */
  lemma PushBeforePlaces(items: seq<Item>, k: nat, x: Item)
    requires k <= |items|
    ensures var r := PushBefore(items, k, x);
            && r[|items| - k] == x
            && r[..|items| - k] == items[..|items| - k]
            && r[|items| - k + 1..] == items[|items| - k..]
  {
  }

  /** `remove`: takes out the first item equal to x, counting from the rear. */
  function RemoveFirst(items: seq<Item>, x: Item): (r: seq<Item>)
    requires x in items
    ensures multiset(r) == multiset(items) - multiset{x}
    ensures |r| == |items| - 1
  {
    if items[0] == x then
      assert items == [items[0]] + items[1..];
      items[1..]
    else
      assert items == [items[0]] + items[1..];
      [items[0]] + RemoveFirst(items[1..], x)
  }

  /** `remove(x)` takes out the first copy of x, counting from the rear, and keeps the others in order. */
  lemma {:induction false} RemoveFirstAt(items: seq<Item>, x: Item, i: nat)
    requires i < |items| && items[i] == x && x !in items[..i]
    ensures RemoveFirst(items, x) == items[..i] + items[i + 1..]
    decreases i
  {
    if i > 0 {
      var rest := items[1..];
      assert items[0] != x by {
        assert items[0] == items[..i][0];
      }
      assert x !in rest[..i - 1] by {
        assert rest[..i - 1] == items[..i][1..];
      }
      assert RemoveFirst(items, x) == [items[0]] + RemoveFirst(rest, x);
      assert RemoveFirst(rest, x) == rest[..i - 1] + rest[i..] by {
        RemoveFirstAt(rest, x, i - 1);
      }
      SplitAround(items, i);
    }
  }

  /** Splitting a stack around position i, with its rearmost item set apart. */
  lemma SplitAround(items: seq<Item>, i: nat)
    requires 0 < i < |items|
    ensures items[..i] + items[i + 1..] == [items[0]] + (items[1..][..i - 1] + items[1..][i..])
  {
  }

  /**
    Moves each pickup of `ps` in turn: removed from where it is and pushed
    just behind the last k items.
   */
  function Relocate(items: seq<Item>, ps: seq<Item>, k: nat): seq<Item>
    requires forall q :: q in ps ==> q in items
    decreases |ps|
  {
    if ps == [] then items
    else
      var moved := PushBefore(RemoveFirst(items, ps[0]), k, ps[0]);
      assert multiset(moved) == multiset(items);
      forall q | q in ps[1..] ensures q in moved {
        assert q in ps;
        assert q in multiset(items);
      }
      Relocate(moved, ps[1..], k)
  }

  /** The front placement: relocate `ps`, then push the new pickup behind the last k items. */
  function FrontPlaced(items: seq<Item>, ps: seq<Item>, k: nat, x: Item): (r: seq<Item>)
    requires forall q :: q in ps ==> q in items
    ensures multiset(r) == multiset(items) + multiset{x}
  {
    RelocatePermutes(items, ps, k);
    PushBefore(Relocate(items, ps, k), k, x)
  }

  /** Relocating only reorders the stack. */
  lemma {:induction false} RelocatePermutes(items: seq<Item>, ps: seq<Item>, k: nat)
    requires forall q :: q in ps ==> q in items
    ensures multiset(Relocate(items, ps, k)) == multiset(items)
    decreases |ps|
  {
    if ps != [] {
      var moved := PushBefore(RemoveFirst(items, ps[0]), k, ps[0]);
      assert multiset(moved) == multiset(items);
      forall q | q in ps[1..] ensures q in moved {
        assert q in ps;
        assert q in multiset(items);
      }
      RelocatePermutes(moved, ps[1..], k);
    }
  }

  /** `shortest_stack`: the least-volume compartment, ties going to the lowest index. */
  function Shortest(p: Plan): (k: nat)
    requires |p| > 0
    ensures k < |p|
    ensures forall j :: 0 <= j < |p| ==> Volume(p[k].items) <= Volume(p[j].items)
    ensures forall j :: 0 <= j < k ==> Volume(p[k].items) < Volume(p[j].items)
  {
    if |p| == 1 then 0
    else
      var k := Shortest(p[..|p| - 1]);
      assert p[..|p| - 1][k] == p[k];
      if Volume(p[|p| - 1].items) < Volume(p[k].items) then |p| - 1 else k
  }

  /** Whether some compartment of the plan holds x. */
  predicate InPlan(p: Plan, x: Item)
  {
    exists k :: 0 <= k < |p| && x in p[k].items
  }

  /** `find_stack`: the lowest-numbered compartment holding x. */
  function FindStack(p: Plan, x: Item): (k: nat)
    requires InPlan(p, x)
    ensures k < |p| && x in p[k].items
    ensures forall j :: 0 <= j < k ==> x !in p[j].items
  {
    if x in p[0].items then 0
    else
      var w :| 0 <= w < |p| && x in p[w].items;
      assert p[1..][w - 1] == p[w];
      1 + FindStack(p[1..], x)
  }

  /** Replaces the items of compartment k, keeping its number. */
  function WithItems(p: Plan, k: nat, items: seq<Item>): (r: Plan)
    requires k < |p|
    ensures |r| == |p| && r[k].items == items
    ensures forall m :: 0 <= m < |p| ==> r[m].index == p[m].index && (m != k ==> r[m] == p[m])
  {
    p[k := p[k].(items := items)]
  }

  /** `find_stack(x).remove(x)` on one plan. */
  function Unloaded(p: Plan, x: Item): (r: Plan)
    requires InPlan(p, x)
    ensures |r| == |p|
    ensures forall m :: 0 <= m < |p| ==> r[m].index == p[m].index
  {
    var k := FindStack(p, x);
    WithItems(p, k, RemoveFirst(p[k].items, x))
  }
}
