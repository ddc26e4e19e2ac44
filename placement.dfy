/**
  What the pickup placement of an insertion does to one stack: the front
  placement only moves pickups, so the deliveries keep their order, and on
  the stack it was planned on it gathers every pickup behind the front run
  just behind that run, with the new pickup next to them.
 */
module Placement {
  import opened Loading

  lemma Assoc(x: seq<Item>, y: seq<Item>, z: seq<Item>)
    ensures x + (y + z) == (x + y) + z
  {
  }

  lemma {:induction false} NonPickupsAppend(a: seq<Item>, b: seq<Item>)
    ensures NonPickups(a + b) == NonPickups(a) + NonPickups(b)
  {
    if a == [] {
      assert a + b == b;
    } else {
      assert (a + b)[1..] == a[1..] + b;
      NonPickupsAppend(a[1..], b);
      var h := if a[0].isPickup then [] else [a[0]];
      assert NonPickups(a + b) == h + (NonPickups(a[1..]) + NonPickups(b));
      Assoc(h, NonPickups(a[1..]), NonPickups(b));
    }
  }

  lemma {:induction false} PickupsAppend(a: seq<Item>, b: seq<Item>)
    ensures Pickups(a + b) == Pickups(a) + Pickups(b)
  {
    if a == [] {
      assert a + b == b;
    } else {
      assert (a + b)[1..] == a[1..] + b;
      PickupsAppend(a[1..], b);
      var h := if a[0].isPickup then [a[0]] else [];
      assert Pickups(a + b) == h + (Pickups(a[1..]) + Pickups(b));
      Assoc(h, Pickups(a[1..]), Pickups(b));
    }
  }

  /** Taking out a pickup leaves the deliveries, in order. */
  lemma {:induction false} RemoveFirstKeepsNonPickups(items: seq<Item>, x: Item)
    requires x in items && x.isPickup
    ensures NonPickups(RemoveFirst(items, x)) == NonPickups(items)
  {
    if items[0] != x {
      RemoveFirstKeepsNonPickups(items[1..], x);
      NonPickupsAppend([items[0]], RemoveFirst(items[1..], x));
    }
  }

  /** Pushing a pickup anywhere leaves the deliveries, in order. */
  lemma PushBeforeKeepsNonPickups(items: seq<Item>, k: nat, x: Item)
    requires x.isPickup
    ensures NonPickups(PushBefore(items, k, x)) == NonPickups(items)
  {
    var at := if k <= |items| then |items| - k else 0;
    assert items == items[..at] + items[at..];
    NonPickupsAppend(items[..at] + [x], items[at..]);
    NonPickupsAppend(items[..at], [x]);
    NonPickupsAppend(items[..at], items[at..]);
  }

  /** The first move of a relocation keeps the pickups still to move in the stack. */
  lemma RelocateFirst(items: seq<Item>, ps: seq<Item>, k: nat)
    requires ps != [] && forall q :: q in ps ==> q in items
    ensures var moved := PushBefore(RemoveFirst(items, ps[0]), k, ps[0]);
            && (forall q :: q in ps[1..] ==> q in moved)
            && Relocate(items, ps, k) == Relocate(moved, ps[1..], k)
  {
    var moved := PushBefore(RemoveFirst(items, ps[0]), k, ps[0]);
    assert multiset(moved) == multiset(items);
    forall q | q in ps[1..] ensures q in moved {
      assert q in ps;
      assert q in multiset(items);
    }
  }

  /** Relocating pickups never changes the order of the deliveries. */
  lemma {:induction false} RelocateKeepsNonPickups(items: seq<Item>, ps: seq<Item>, k: nat)
    requires forall q :: q in ps ==> q in items
    requires forall q :: q in ps ==> q.isPickup
    ensures NonPickups(Relocate(items, ps, k)) == NonPickups(items)
    decreases |ps|
  {
    if ps != [] {
      var moved := PushBefore(RemoveFirst(items, ps[0]), k, ps[0]);
      RemoveFirstKeepsNonPickups(items, ps[0]);
      PushBeforeKeepsNonPickups(RemoveFirst(items, ps[0]), k, ps[0]);
      assert multiset(moved) == multiset(items);
      forall q | q in ps[1..] ensures q in moved {
        assert q in ps;
        assert q in multiset(items);
      }
      RelocateKeepsNonPickups(moved, ps[1..], k);
    }
  }

  /**
    In the front branch the stack ends as its old items plus the new pickup,
    and its deliveries keep their relative order.
   */
  lemma FrontPlacedKeepsDeliveries(items: seq<Item>, ps: seq<Item>, k: nat, x: Item)
    requires forall q :: q in ps ==> q in items
    requires forall q :: q in ps ==> q.isPickup
    requires x.isPickup
    ensures multiset(FrontPlaced(items, ps, k, x)) == multiset(items) + multiset{x}
    ensures NonPickups(FrontPlaced(items, ps, k, x)) == NonPickups(items)
  {
    RelocateKeepsNonPickups(items, ps, k);
    PushBeforeKeepsNonPickups(Relocate(items, ps, k), k, x);
  }

  /** The stack with its rearmost pickup taken out. */
  function DropFirstPickup(a: seq<Item>): (r: seq<Item>)
    requires Pickups(a) != []
    ensures |r| == |a| - 1
    ensures Pickups(r) == Pickups(a)[1..]
    ensures NonPickups(r) == NonPickups(a)
  {
    if a[0].isPickup then a[1..]
    else
      assert Pickups(a) == Pickups(a[1..]);
      [a[0]] + DropFirstPickup(a[1..])
  }

  /** `remove` of the rearmost pickup of the part behind `t` finds it there. */
  lemma {:induction false} RemoveFirstFindsFirstPickup(a: seq<Item>, t: seq<Item>)
    requires Pickups(a) != []
    ensures Pickups(a)[0] in a + t
    ensures RemoveFirst(a + t, Pickups(a)[0]) == DropFirstPickup(a) + t
  {
    var q := Pickups(a)[0];
    assert (a + t)[1..] == a[1..] + t;
    if a[0].isPickup {
      assert Pickups(a) == [a[0]] + Pickups(a[1..]);
      assert q == (a + t)[0];
    } else {
      assert Pickups(a) == Pickups(a[1..]);
      PickupsIn(a);
      assert q != (a + t)[0];
      RemoveFirstFindsFirstPickup(a[1..], t);
      Assoc([a[0]], DropFirstPickup(a[1..]), t);
    }
  }

  lemma PushBeforeSplit(u: seq<Item>, b: seq<Item>, x: Item)
    ensures PushBefore(u + b, |b|, x) == u + [x] + b
  {
    var r := PushBefore(u + b, |b|, x);
    assert (u + b)[..|u|] == u;
    assert (u + b)[|u|..] == b;
    assert r == r[..|u|] + [r[|u|]] + r[|u| + 1..];
  }

  /** Pushing x behind the last |b| items of w + (m + b) puts it between m and b. */
  lemma PushBetween(w: seq<Item>, m: seq<Item>, b: seq<Item>, x: Item)
    ensures PushBefore(w + (m + b), |b|, x) == w + (m + [x]) + b
  {
    assert w + (m + b) == (w + m) + b;
    PushBeforeSplit(w + m, b, x);
    Regroup(w, m, [x], b);
  }

  /** Moving the rearmost pickup of `a` behind the last |b| items puts it just in front of `moved`. */
  lemma MoveFirstPickup(a: seq<Item>, moved: seq<Item>, b: seq<Item>)
    requires Pickups(a) != []
    ensures Pickups(a)[0] in a + moved + b
    ensures PushBefore(RemoveFirst(a + moved + b, Pickups(a)[0]), |b|, Pickups(a)[0])
         == DropFirstPickup(a) + (moved + [Pickups(a)[0]]) + b
  {
    assert a + moved + b == a + (moved + b);
    RemoveFirstFindsFirstPickup(a, moved + b);
    PushBetween(DropFirstPickup(a), moved, b, Pickups(a)[0]);
  }

  /** One step of the relocation: the rearmost pickup of `a` moves just in front of `moved`. */
  lemma RelocateStep(a: seq<Item>, moved: seq<Item>, b: seq<Item>)
    requires Pickups(a) != []
    ensures forall q :: q in Pickups(a) ==> q in a + moved + b
    ensures forall q :: q in Pickups(DropFirstPickup(a)) ==> q in DropFirstPickup(a) + (moved + [Pickups(a)[0]]) + b
    ensures Relocate(a + moved + b, Pickups(a), |b|)
         == Relocate(DropFirstPickup(a) + (moved + [Pickups(a)[0]]) + b, Pickups(DropFirstPickup(a)), |b|)
  {
    var ps := Pickups(a);
    PickupsIn(a);
    PickupsIn(DropFirstPickup(a));
    MoveFirstPickup(a, moved, b);
    RelocateFirst(a + moved + b, ps, |b|);
  }

  /**
    Relocating the pickups of `a`, in order, behind the last |b| items moves
    each of them just in front of the pickups already moved.
   */
  lemma {:induction false} RelocateGathers(a: seq<Item>, moved: seq<Item>, b: seq<Item>)
    ensures forall q :: q in Pickups(a) ==> q in a + moved + b
    ensures Relocate(a + moved + b, Pickups(a), |b|) == NonPickups(a) + moved + Pickups(a) + b
    decreases |a|
  {
    if Pickups(a) == [] {
      NoPickupsIsNonPickups(a);
    } else {
      RelocateGathers(DropFirstPickup(a), moved + [Pickups(a)[0]], b);
      GatherStep(a, moved, b);
    }
  }

  /** One step of RelocateGathers, from what the step leaves to do. */
  lemma GatherStep(a: seq<Item>, moved: seq<Item>, b: seq<Item>)
    requires Pickups(a) != []
    requires var a', q := DropFirstPickup(a), Pickups(a)[0];
             && (forall x :: x in Pickups(a') ==> x in a' + (moved + [q]) + b)
             && Relocate(a' + (moved + [q]) + b, Pickups(a'), |b|) == NonPickups(a') + (moved + [q]) + Pickups(a') + b
    ensures forall x :: x in Pickups(a) ==> x in a + moved + b
    ensures Relocate(a + moved + b, Pickups(a), |b|) == NonPickups(a) + moved + Pickups(a) + b
  {
    var ps := Pickups(a);
    var a' := DropFirstPickup(a);
    RelocateStep(a, moved, b);
    GatherLink(Relocate(a + moved + b, ps, |b|), Relocate(a' + (moved + [ps[0]]) + b, Pickups(a'), |b|),
      NonPickups(a), moved, ps, Pickups(a'), b);
  }

  /** The equalities of one step of RelocateGathers, chained. */
  lemma GatherLink(lhs: seq<Item>, mid: seq<Item>, n: seq<Item>, moved: seq<Item>, ps: seq<Item>, ps': seq<Item>, b: seq<Item>)
    requires ps != [] && ps' == ps[1..]
    requires lhs == mid && mid == n + (moved + [ps[0]]) + ps' + b
    ensures lhs == n + moved + ps + b
  {
    assert ps == [ps[0]] + ps';
  }

  lemma Regroup(w: seq<Item>, x: seq<Item>, y: seq<Item>, z: seq<Item>)
    ensures w + x + y + z == w + (x + y) + z
  {
  }

  lemma DropNothing(n: seq<Item>, p: seq<Item>, b: seq<Item>)
    ensures n + [] + p + b == n + p + b
  {
  }

  lemma {:induction false} NoPickupsIsNonPickups(a: seq<Item>)
    requires Pickups(a) == []
    ensures NonPickups(a) == a
  {
    if a != [] {
      assert Pickups(a) == Pickups(a[1..]);
      NoPickupsIsNonPickups(a[1..]);
      assert a == [a[0]] + a[1..];
    }
  }

  /**
    With nothing moved yet, relocating the pickups of a to just behind b
    and pushing x there gives a's deliveries, a's pickups in order, x, then b.
   */
  lemma PlacedGathered(a: seq<Item>, b: seq<Item>, x: Item)
    ensures forall q :: q in Pickups(a) ==> q in a + b
    ensures FrontPlaced(a + b, Pickups(a), |b|, x) == NonPickups(a) + Pickups(a) + [x] + b
  {
    assert a + [] + b == a + b;
    RelocateGathers(a, [], b);
    DropNothing(NonPickups(a), Pickups(a), b);
    PushBeforeSplit(NonPickups(a) + Pickups(a), b, x);
  }

  /**
    On the stack the placement was planned on, the front placement leaves
    its deliveries at the rear, in order, then every pickup that lay behind
    the front run, then the new pickup, then the old front run.
   */
  lemma FrontPlacementShape(s: seq<Item>, x: Item)
    ensures forall q :: q in PickupsBehindFront(s) ==> q in s
    ensures var f := FrontLen(s);
            FrontPlaced(s, PickupsBehindFront(s), f, x)
              == NonPickups(s[..|s| - f]) + PickupsBehindFront(s) + [x] + s[|s| - f..]
  {
    var f := FrontLen(s);
    var a, b := s[..|s| - f], s[|s| - f..];
    assert s == a + b && |b| == f;
    PlacedGathered(a, b, x);
  }
}
