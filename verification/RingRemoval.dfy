/** Adding a node and removing it again, for every hash function, collisions included: the vector is always
    restored, and the map loses exactly the points that the node shared with others. */
module RingRemoval {
  import opened RingTheorems
  import opened Rings

  /** How many of the first `n` replicas of a node fall on point `h`. */
  ghost function Times(node: string, hash: Hash, n: nat, h: nat): nat {
    if n == 0 then 0 else Times(node, hash, n - 1, h) + if Point(hash, (node, n - 1)) == h then 1 else 0
  }

  ghost predicate HasPoint(node: string, hash: Hash, n: nat, h: nat) {
    exists i: nat :: i < n && Point(hash, (node, i)) == h
  }

  ghost function CountOf(s: seq<nat>, h: nat): nat { multiset(s)[h] }

  ghost predicate SameCounts(s: seq<nat>, t: seq<nat>) { forall x :: CountOf(s, x) == CountOf(t, x) }

  lemma CountHead(s: seq<nat>, x: nat)
    requires s != []
    ensures CountOf(s, x) == CountOf(s[1..], x) + if x == s[0] then 1 else 0
  {
    assert s == [s[0]] + s[1..];
  }

  /** The first element of an ascending sequence is the least. */
  lemma HeadIsLeast(s: seq<nat>, x: nat)
    requires Ascending(s) && CountOf(s, x) > 0
    ensures s != [] && s[0] <= x
  {
    assert x in s;
    var i :| 0 <= i < |s| && s[i] == x;
  }

  lemma TailAscends(s: seq<nat>)
    requires Ascending(s) && s != []
    ensures Ascending(s[1..])
  {
  }

  /** An ascending sequence is determined by how often each value occurs in it. */
  lemma {:induction false} AscendingUnique(s: seq<nat>, t: seq<nat>)
    requires Ascending(s) && Ascending(t) && SameCounts(s, t)
    ensures s == t
    decreases |s|
  {
    hide Ascending, CountOf;
    if s != [] || t != [] {
      HeadsAgree(s, t);
      forall x
        ensures CountOf(s[1..], x) == CountOf(t[1..], x)
      {
        CountHead(s, x);
        CountHead(t, x);
      }
      TailAscends(s);
      TailAscends(t);
      AscendingUnique(s[1..], t[1..]);
      assert s == [s[0]] + s[1..] && t == [t[0]] + t[1..];
    }
  }

  lemma HeadsAgree(s: seq<nat>, t: seq<nat>)
    requires Ascending(s) && Ascending(t) && SameCounts(s, t) && (s != [] || t != [])
    ensures s != [] && t != [] && s[0] == t[0]
  {
    hide Ascending, CountOf;
    if s != [] {
      CountHead(s, s[0]);
      HeadIsLeast(t, s[0]);
    }
    if t != [] {
      CountHead(t, t[0]);
      HeadIsLeast(s, t[0]);
    }
  }

  lemma AddPointCounts(r: Ring, h: nat, node: string, x: nat)
    ensures CountOf(AddPoint(r, h, node).sorted, x) == CountOf(r.sorted, x) + if x == h then 1 else 0
  {
    var n := LowerBound(r.sorted, h);
    assert r.sorted == r.sorted[..n] + r.sorted[n..];
  }

  lemma RemovePointCounts(r: Ring, h: nat, x: nat)
    requires Safe(r) && CountOf(r.sorted, h) > 0
    ensures CountOf(r.sorted, x) == CountOf(RemovePoint(r, h).sorted, x) + if x == h then 1 else 0
  {
    hide CountOf, Ascending, LowerBound;
    var n := LowerBound(r.sorted, h);
    Occurs(r.sorted, h);
    FoundAt(r.sorted, h);
    SplitAt(r.sorted, n);
    CountAround(r.sorted[..n], h, r.sorted[n + 1..], x);
  }

  lemma CountAround(a: seq<nat>, h: nat, b: seq<nat>, x: nat)
    ensures CountOf(a + ([h] + b), x) == CountOf(a + b, x) + if x == h then 1 else 0
  {
  }

  lemma SplitAt(s: seq<nat>, n: nat)
    requires n < |s|
    ensures s == s[..n] + ([s[n]] + s[n + 1..])
  {
  }

  lemma Occurs(s: seq<nat>, h: nat)
    requires CountOf(s, h) > 0
    ensures h in s
  {
  }

  lemma FoundAt(s: seq<nat>, h: nat)
    requires Ascending(s) && h in s
    ensures LowerBound(s, h) < |s| && s[LowerBound(s, h)] == h
  {
    var i :| 0 <= i < |s| && s[i] == h;
    assert LowerBound(s, h) <= i;
  }

  lemma {:induction false} AddNodeCounts(r: Ring, node: string, hash: Hash, n: nat, x: nat)
    ensures CountOf(AddNode(r, node, hash, n).sorted, x) == CountOf(r.sorted, x) + Times(node, hash, n, x)
  {
    hide AddPoint, CountOf;
    if n > 0 {
      AddNodeCounts(r, node, hash, n - 1, x);
      AddPointCounts(AddNode(r, node, hash, n - 1), Point(hash, (node, n - 1)), node, x);
    }
  }

  lemma {:induction false} RemoveNodeCounts(r: Ring, node: string, hash: Hash, n: nat, x: nat)
    requires Safe(r) && forall y :: Times(node, hash, n, y) <= CountOf(r.sorted, y)
    ensures CountOf(r.sorted, x) == CountOf(RemoveNode(r, node, hash, n).sorted, x) + Times(node, hash, n, x)
  {
    hide RemovePoint, Safe, CountOf;
    if n > 0 {
      var p := Point(hash, (node, n - 1));
      forall y
        ensures Times(node, hash, n - 1, y) <= CountOf(r.sorted, y)
      {
        assert Times(node, hash, n, y) <= CountOf(r.sorted, y);
      }
      RemoveNodeCounts(r, node, hash, n - 1, x);
      RemoveNodeCounts(r, node, hash, n - 1, p);
      RemoveNodeSafe(r, node, hash, n - 1);
      assert Times(node, hash, n, p) <= CountOf(r.sorted, p);
      RemovePointCounts(RemoveNode(r, node, hash, n - 1), p, x);
    }
  }

  lemma {:induction false} AddNodeMaps(r: Ring, node: string, hash: Hash, n: nat, h: nat)
    ensures !HasPoint(node, hash, n, h) ==>
              && (h in AddNode(r, node, hash, n).circle <==> h in r.circle)
              && (h in r.circle ==> AddNode(r, node, hash, n).circle[h] == r.circle[h])
  {
    hide LowerBound, HasPoint;
    if n > 0 && !HasPoint(node, hash, n, h) {
      LastPoint(node, hash, n, h);
      AddNodeMaps(r, node, hash, n - 1, h);
    }
  }

  lemma {:induction false} RemoveNodeMaps(r: Ring, node: string, hash: Hash, n: nat, h: nat)
    ensures h in RemoveNode(r, node, hash, n).circle <==> h in r.circle && !HasPoint(node, hash, n, h)
    ensures h in RemoveNode(r, node, hash, n).circle ==> RemoveNode(r, node, hash, n).circle[h] == r.circle[h]
  {
    hide LowerBound, HasPoint;
    LastPoint(node, hash, n, h);
    if n > 0 {
      RemoveNodeMaps(r, node, hash, n - 1, h);
    }
  }

  lemma LastPoint(node: string, hash: Hash, n: nat, h: nat)
    ensures HasPoint(node, hash, n, h) <==> n > 0 && (HasPoint(node, hash, n - 1, h) || Point(hash, (node, n - 1)) == h)
  {
  }

  /** The vector comes back exactly; of the map, everything but the points of the node. */
  lemma AddThenRemoveLeaves(r: Ring, node: string, hash: Hash, n: nat)
    requires Safe(r)
    ensures var s := RemoveNode(AddNode(r, node, hash, n), node, hash, n);
            && s.sorted == r.sorted
            && (forall h :: h in s.circle <==> h in r.circle && !HasPoint(node, hash, n, h))
            && (forall h :: h in s.circle ==> s.circle[h] == r.circle[h])
  {
    hide CountOf, HasPoint, Ascending;
    var t := AddNode(r, node, hash, n);
    var s := RemoveNode(t, node, hash, n);
    AddNodeSafe(r, node, hash, n);
    forall x
      ensures CountOf(t.sorted, x) == CountOf(r.sorted, x) + Times(node, hash, n, x)
    {
      AddNodeCounts(r, node, hash, n, x);
    }
    forall x
      ensures CountOf(s.sorted, x) == CountOf(r.sorted, x)
    {
      RemoveNodeCounts(t, node, hash, n, x);
    }
    RemoveNodeSafe(t, node, hash, n);
    AscendingUnique(s.sorted, r.sorted);
    forall h: nat
      ensures h in s.circle <==> h in r.circle && !HasPoint(node, hash, n, h)
      ensures h in s.circle ==> s.circle[h] == r.circle[h]
    {
      AddNodeMaps(r, node, hash, n, h);
      RemoveNodeMaps(t, node, hash, n, h);
    }
  }

  /** Adding a node and removing it restores the ring exactly if none of its points was already taken. */
  lemma AddThenRemoveRestoresIff(r: Ring, node: string, hash: Hash, n: nat)
    requires Safe(r)
    ensures RemoveNode(AddNode(r, node, hash, n), node, hash, n) == r <==>
            forall i: nat :: i < n ==> Point(hash, (node, i)) !in r.circle
  {
    var s := RemoveNode(AddNode(r, node, hash, n), node, hash, n);
    AddThenRemoveLeaves(r, node, hash, n);
    if forall i: nat :: i < n ==> Point(hash, (node, i)) !in r.circle {
      assert s.circle == r.circle;
    } else {
      var i: nat :| i < n && Point(hash, (node, i)) in r.circle;
      assert Point(hash, (node, i)) !in s.circle;
    }
  }
}
