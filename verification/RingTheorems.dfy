/** Minimal disruption: without hash collisions the ring is determined by its members alone, every key
    belongs to the owner of its strict clockwise successor, and a change of membership moves no other keys. */
module RingTheorems {
  import opened Outcomes
  import opened Rings

  /** A replica: a node and an index. */
  type Replica = (string, nat)

  function Point(hash: Hash, p: Replica): nat { hash(VirtualNode(p.0, p.1)) }

  ghost predicate CollisionFree(hash: Hash, ps: set<Replica>) {
    forall p, q :: p in ps && q in ps && Point(hash, p) == Point(hash, q) ==> p == q
  }

  /** The ring holds exactly the replicas `ps`. */
  ghost predicate Holds(r: Ring, ps: set<Replica>, hash: Hash) {
    && Increasing(r.sorted)
    && (forall h :: h in r.sorted <==> h in r.circle)
    && (forall p :: p in ps ==> Point(hash, p) in r.circle && r.circle[Point(hash, p)] == p.0)
    && (forall h :: h in r.circle ==> HasPoint(hash, ps, h))
  }

  /** Some replica of `ps` falls on `h`. */
  ghost predicate HasPoint(hash: Hash, ps: set<Replica>, h: nat) {
    exists p :: p in ps && Point(hash, p) == h
  }

  lemma HasItsPoint(hash: Hash, ps: set<Replica>, p: Replica)
    requires p in ps
    ensures HasPoint(hash, ps, Point(hash, p))
  {
  }

  lemma HasPointOfMore(hash: Hash, ps: set<Replica>, p: Replica, h: nat)
    requires HasPoint(hash, ps, h)
    ensures HasPoint(hash, ps + {p}, h)
  {
    var q :| q in ps && Point(hash, q) == h;
    HasItsPoint(hash, ps + {p}, q);
  }

  lemma HasPointOfFewer(hash: Hash, ps: set<Replica>, p: Replica, h: nat)
    requires HasPoint(hash, ps, h) && h != Point(hash, p)
    ensures HasPoint(hash, ps - {p}, h)
  {
    var q :| q in ps && Point(hash, q) == h;
    HasItsPoint(hash, ps - {p}, q);
  }

  /** The replicas of a set of nodes. */
  ghost function Replicas(nodes: set<string>, n: nat): set<Replica> {
    set a, i | a in nodes && 0 <= i < n :: (a, i)
  }

  ghost function First(node: string, n: nat): set<Replica> { set i | 0 <= i < n :: (node, i) }

  // ---------------------------------------------------------------------------
  // The ring is determined by its replicas

  lemma {:induction false} IncreasingUnique(s: seq<nat>, t: seq<nat>)
    requires Increasing(s) && Increasing(t) && forall h :: h in s <==> h in t
    ensures s == t
    decreases |s|
  {
    assert |s| > 0 ==> s[0] in s;
    assert |t| > 0 ==> t[0] in t;
    if s != [] {
      assert s[0] in s;
      var i :| 0 <= i < |t| && t[i] == s[0];
      assert t[0] in t;
      var j :| 0 <= j < |s| && s[j] == t[0];
      assert i == 0;
      assert forall h :: h in s[1..] <==> h in s && h != s[0];
      assert forall h :: h in t[1..] <==> h in t && h != t[0];
      IncreasingUnique(s[1..], t[1..]);
    }
  }

  lemma HoldsUnique(r: Ring, s: Ring, ps: set<Replica>, hash: Hash)
    requires Holds(r, ps, hash) && Holds(s, ps, hash)
    ensures r == s
  {
    assert forall h :: h in r.circle <==> h in s.circle;
    IncreasingUnique(r.sorted, s.sorted);
    assert r.circle == s.circle;
  }

  lemma {:induction false} InsertIncreasing(s: seq<nat>, h: nat)
    requires Increasing(s) && h !in s
    ensures var n := LowerBound(s, h); var t := s[..n] + [h] + s[n..];
            Increasing(t) && forall x :: x in t <==> x == h || x in s
  {
    hide LowerBound;
    var n := LowerBound(s, h);
    assert n < |s| ==> s[n] in s;
    InsertedIncreasing(s, n, h);
    assert s == s[..n] + s[n..];
  }

  lemma InsertedIncreasing(s: seq<nat>, n: nat, h: nat)
    requires Increasing(s) && n <= |s|
    requires forall i :: 0 <= i < n ==> s[i] < h
    requires n < |s| ==> h < s[n]
    ensures Increasing(s[..n] + [h] + s[n..])
  {
    var t := s[..n] + [h] + s[n..];
    assert forall i :: 0 <= i < |t| ==> t[i] == if i < n then s[i] else if i == n then h else s[i - 1];
    assert forall j :: n < j < |s| ==> s[n] < s[j];
  }

  lemma {:induction false} EraseIncreasing(s: seq<nat>, h: nat)
    requires Increasing(s) && h in s
    ensures var n := LowerBound(s, h);
            n < |s| && s[n] == h
            && (var t := s[..n] + s[n + 1..]; Increasing(t) && forall x :: x in t <==> x != h && x in s)
  {
    hide LowerBound;
    var n := LowerBound(s, h);
    var k :| 0 <= k < |s| && s[k] == h;
    assert n == k;
    ErasedIncreasing(s, n);
    assert s == s[..n] + [h] + s[n + 1..];
  }

  lemma ErasedIncreasing(s: seq<nat>, n: nat)
    requires Increasing(s) && n < |s|
    ensures Increasing(s[..n] + s[n + 1..]) && s[n] !in s[..n] + s[n + 1..]
  {
    var t := s[..n] + s[n + 1..];
    assert forall i :: 0 <= i < |t| ==> t[i] == if i < n then s[i] else s[i + 1];
  }

  /** A replica that is not on the ring has a point that is not on the ring. */
  lemma PointIsNew(r: Ring, ps: set<Replica>, p: Replica, hash: Hash)
    requires Holds(r, ps, hash) && p !in ps && CollisionFree(hash, ps + {p})
    ensures Point(hash, p) !in r.circle && Point(hash, p) !in r.sorted
  {
    assert p in ps + {p} && forall q :: q in ps ==> q in ps + {p};
  }

  lemma AddPointHolds(r: Ring, ps: set<Replica>, p: Replica, hash: Hash)
    requires Holds(r, ps, hash) && p !in ps && CollisionFree(hash, ps + {p})
    ensures Holds(AddPoint(r, Point(hash, p), p.0), ps + {p}, hash)
  {
    hide LowerBound, HasPoint, Increasing, CollisionFree;
    var h := Point(hash, p);
    PointIsNew(r, ps, p, hash);
    InsertIncreasing(r.sorted, h);
    var s := AddPoint(r, h, p.0);
    forall x | x in s.circle
      ensures HasPoint(hash, ps + {p}, x)
    {
      if x == h { HasItsPoint(hash, ps + {p}, p); } else { HasPointOfMore(hash, ps, p, x); }
    }
  }

  lemma RemovePointHolds(r: Ring, ps: set<Replica>, p: Replica, hash: Hash)
    requires Holds(r, ps, hash) && p in ps && CollisionFree(hash, ps)
    ensures Holds(RemovePoint(r, Point(hash, p)), ps - {p}, hash)
  {
    hide LowerBound, HasPoint, Increasing;
    var h := Point(hash, p);
    EraseIncreasing(r.sorted, h);
    var s := RemovePoint(r, h);
    forall x | x in s.circle
      ensures HasPoint(hash, ps - {p}, x)
    {
      HasPointOfFewer(hash, ps, p, x);
    }
  }

  lemma {:induction false} AddNodeHolds(r: Ring, ps: set<Replica>, node: string, hash: Hash, n: nat)
    requires Holds(r, ps, hash) && ps !! First(node, n) && CollisionFree(hash, ps + First(node, n))
    ensures Holds(AddNode(r, node, hash, n), ps + First(node, n), hash)
  {
    if n == 0 {
      assert ps + First(node, 0) == ps;
    } else {
      var p := (node, n - 1);
      assert First(node, n) == First(node, n - 1) + {p};
      assert ps + First(node, n) == (ps + First(node, n - 1)) + {p};
      AddNodeHolds(r, ps, node, hash, n - 1);
      AddPointHolds(AddNode(r, node, hash, n - 1), ps + First(node, n - 1), p, hash);
    }
  }

  lemma {:induction false} RemoveNodeHolds(r: Ring, ps: set<Replica>, node: string, hash: Hash, n: nat)
    requires Holds(r, ps, hash) && First(node, n) <= ps && CollisionFree(hash, ps)
    ensures Holds(RemoveNode(r, node, hash, n), ps - First(node, n), hash)
  {
    if n == 0 {
      assert ps - First(node, 0) == ps;
    } else {
      var p := (node, n - 1);
      assert First(node, n) == First(node, n - 1) + {p};
      assert ps - First(node, n) == (ps - First(node, n - 1)) - {p};
      RemoveNodeHolds(r, ps, node, hash, n - 1);
      RemovePointHolds(RemoveNode(r, node, hash, n - 1), ps - First(node, n - 1), p, hash);
    }
  }

  /** Adding a node and removing it again restores the ring exactly. */
  lemma AddThenRemove(r: Ring, ps: set<Replica>, node: string, hash: Hash, n: nat)
    requires Holds(r, ps, hash) && ps !! First(node, n) && CollisionFree(hash, ps + First(node, n))
    ensures RemoveNode(AddNode(r, node, hash, n), node, hash, n) == r
  {
    AddNodeHolds(r, ps, node, hash, n);
    RemoveNodeHolds(AddNode(r, node, hash, n), ps + First(node, n), node, hash, n);
    assert (ps + First(node, n)) - First(node, n) == ps;
    HoldsUnique(RemoveNode(AddNode(r, node, hash, n), node, hash, n), r, ps, hash);
  }

  // ---------------------------------------------------------------------------
  // Histories

  /** The members after a history. */
  ghost function Members(nodes: set<string>, ops: seq<Op>): set<string>
    decreases |ops|
  {
    if ops == [] then nodes
    else
      match ops[0]
      case Add(a) => Members(nodes + {a}, ops[1..])
      case Remove(a) => Members(nodes - {a}, ops[1..])
      case Get(_) => Members(nodes, ops[1..])
  }

  /** Only absent nodes are added; removals are not restricted. */
  ghost predicate Proper(nodes: set<string>, ops: seq<Op>)
    decreases |ops|
  {
    ops == [] ||
    match ops[0]
    case Add(a) => a !in nodes && Proper(nodes + {a}, ops[1..])
    case Remove(a) => Proper(nodes - {a}, ops[1..])
    case Get(_) => Proper(nodes, ops[1..])
  }

  /** The hash separates all replicas of all nodes ever named. */
  ghost predicate Separates(hash: Hash, universe: set<string>, n: nat) { CollisionFree(hash, Replicas(universe, n)) }

  ghost predicate Within(universe: set<string>, ops: seq<Op>) {
    forall i :: 0 <= i < |ops| && (ops[i].Add? || ops[i].Remove?) ==> ops[i].node in universe
  }

  lemma ReplicasOf(nodes: set<string>, a: string, n: nat)
    ensures a !in nodes ==> Replicas(nodes + {a}, n) == Replicas(nodes, n) + First(a, n) && Replicas(nodes, n) !! First(a, n)
    ensures a in nodes ==> Replicas(nodes - {a}, n) == Replicas(nodes, n) - First(a, n) && First(a, n) <= Replicas(nodes, n)
  {
  }

  lemma FewerCollide(hash: Hash, few: set<Replica>, many: set<Replica>)
    requires few <= many && CollisionFree(hash, many)
    ensures CollisionFree(hash, few)
  {
  }

  /** After any proper history the ring holds exactly the replicas of its members. */
  lemma {:induction false} HistoryHolds(r: Ring, nodes: set<string>, ops: seq<Op>, universe: set<string>, hash: Hash, n: nat)
    requires Holds(r, Replicas(nodes, n), hash) && nodes <= universe && Separates(hash, universe, n)
    requires Proper(nodes, ops) && Within(universe, ops)
    ensures Run(r, ops, hash, n).Ok?
    ensures Holds(Run(r, ops, hash, n).value, Replicas(Members(nodes, ops), n), hash)
    decreases |ops|
  {
    if ops != [] {
      match ops[0]
      case Add(a) =>
        ReplicasOf(nodes, a, n);
        assert nodes + {a} <= universe;
        FewerCollide(hash, Replicas(nodes + {a}, n), Replicas(universe, n));
        AddNodeHolds(r, Replicas(nodes, n), a, hash, n);
        HistoryHolds(AddNode(r, a, hash, n), nodes + {a}, ops[1..], universe, hash, n);
      case Remove(a) =>
        RemovalHolds(r, nodes, a, universe, hash, n);
        HistoryHolds(RemoveNode(r, a, hash, n), nodes - {a}, ops[1..], universe, hash, n);
      case Get(key) =>
        LookupKeeps(r, Replicas(nodes, n), hash, hash(key));
        HistoryHolds(r, nodes, ops[1..], universe, hash, n);
    }
  }

  /** Removing any node, a member or not, leaves the replicas of the other members. */
  lemma RemovalHolds(r: Ring, nodes: set<string>, a: string, universe: set<string>, hash: Hash, n: nat)
    requires Holds(r, Replicas(nodes, n), hash) && nodes <= universe && a in universe && Separates(hash, universe, n)
    ensures Holds(RemoveNode(r, a, hash, n), Replicas(nodes - {a}, n), hash)
  {
    hide Holds, CollisionFree;
    ReplicasOf(nodes, a, n);
    if a in nodes {
      FewerCollide(hash, Replicas(nodes, n), Replicas(universe, n));
      RemoveNodeHolds(r, Replicas(nodes, n), a, hash, n);
    } else {
      assert nodes - {a} == nodes;
      FewerCollide(hash, Replicas(nodes + {a}, n), Replicas(universe, n));
      RemoveAbsent(r, Replicas(nodes, n), a, hash, n);
    }
  }

  /** Removing a node that is not on the ring changes nothing. */
  lemma {:induction false} RemoveAbsent(r: Ring, ps: set<Replica>, a: string, hash: Hash, n: nat)
    requires Holds(r, ps, hash) && ps !! First(a, n) && CollisionFree(hash, ps + First(a, n))
    ensures RemoveNode(r, a, hash, n) == r
  {
    hide Holds, CollisionFree, RemovePoint;
    if n > 0 {
      var p := (a, n - 1);
      assert First(a, n) == First(a, n - 1) + {p};
      FewerCollide(hash, ps + First(a, n - 1), ps + First(a, n));
      FewerCollide(hash, ps + {p}, ps + First(a, n));
      RemoveAbsent(r, ps, a, hash, n - 1);
      PointIsNew(r, ps, p, hash);
      RemoveNothing(r, Point(hash, p));
    }
  }

  lemma RemoveNothing(r: Ring, h: nat)
    requires h !in r.circle && h !in r.sorted
    ensures RemovePoint(r, h) == r
  {
    assert r.circle - {h} == r.circle;
  }

  lemma LookupKeeps(r: Ring, ps: set<Replica>, hash: Hash, k: nat)
    requires Holds(r, ps, hash)
    ensures GetNode(r, k).Ok? && (GetNode(r, k).value.Found? ==> GetNode(r, k).value.ring == r)
  {
    if r.circle != map[] {
      var h :| h in r.circle;
      assert h in r.sorted;
      var n := UpperBound(r.sorted, k);
      assert r.sorted[if n == |r.sorted| then 0 else n] in r.sorted;
    }
  }

  /** Two proper histories with the same members in the end, in whatever order, build the same ring. */
  lemma OrderDoesNotMatter(ops: seq<Op>, other: seq<Op>, universe: set<string>, hash: Hash, n: nat)
    requires DistinctNames(hash, universe, n)
    requires Proper({}, ops) && Within(universe, ops) && Proper({}, other) && Within(universe, other)
    requires Members({}, ops) == Members({}, other)
    ensures Run(EMPTY, ops, hash, n) == Run(EMPTY, other, hash, n)
  {
    hide Holds;
    EmptyHolds(hash, n);
    SeparatingNames(hash, universe, n);
    HistoryHolds(EMPTY, {}, ops, universe, hash, n);
    HistoryHolds(EMPTY, {}, other, universe, hash, n);
    HoldsUnique(Run(EMPTY, ops, hash, n).value, Run(EMPTY, other, hash, n).value,
                Replicas(Members({}, ops), n), hash);
  }

  lemma EmptyHolds(hash: Hash, n: nat)
    ensures Holds(EMPTY, Replicas({}, n), hash)
  {
    assert Replicas({}, n) == {};
  }

  /** The hash tells the names of all virtual nodes apart. */
  ghost predicate DistinctNames(hash: Hash, universe: set<string>, n: nat) {
    forall a, b, i: nat, j: nat :: a in universe && b in universe && i < n && j < n ==>
      (hash(VirtualNode(a, i)) == hash(VirtualNode(b, j)) ==> VirtualNode(a, i) == VirtualNode(b, j))
  }

  /** A hash that tells the names of virtual nodes apart separates the replicas, since names are unambiguous. */
  lemma SeparatingNames(hash: Hash, universe: set<string>, n: nat)
    requires DistinctNames(hash, universe, n)
    ensures Separates(hash, universe, n)
  {
    forall p, q | p in Replicas(universe, n) && q in Replicas(universe, n) && Point(hash, p) == Point(hash, q)
      ensures p == q
    {
      VirtualNodesDiffer(p.0, p.1, q.0, q.1);
    }
  }

  // ---------------------------------------------------------------------------
  // Who owns a key

  /** `s` is the first point strictly clockwise of `k`. */
  ghost predicate IsSuccessor(points: set<nat>, k: nat, s: nat) {
    && s in points
    && (s > k ==> forall x :: x in points && x > k ==> s <= x)
    && (s <= k ==> forall x :: x in points ==> x <= k && s <= x)
  }

  lemma SuccessorUnique(points: set<nat>, k: nat, s: nat, t: nat)
    requires IsSuccessor(points, k, s) && IsSuccessor(points, k, t)
    ensures s == t
  {
  }

  /** The points of the vector. */
  ghost function PointsOf(r: Ring): set<nat> { set h | h in r.sorted }

  lemma FirstBehind(t: seq<nat>, k: nat, n: nat, x: nat)
    requires Ascending(t) && x in t && n <= |t|
    requires (forall i :: 0 <= i < n ==> t[i] <= k) && (n < |t| ==> t[n] > k)
    ensures x > k ==> n < |t| && t[n] <= x
    ensures n == |t| ==> x <= k && t[0] <= x
  {
    var i :| 0 <= i < |t| && t[i] == x;
  }

  /** For every hash function and whatever happened before: a lookup on a ring that is not empty looks at the strict
      clockwise successor of the key among the points of the vector. It answers its owner, and changes nothing,
      if the map has one; if a removal has taken it, the answer is the empty name, which the lookup enters. */
  lemma LookupEffect(r: Ring, k: nat) returns (s: nat)
    requires Safe(r) && r.circle != map[]
    ensures IsSuccessor(PointsOf(r), k, s)
    ensures GetNode(r, k).Ok? && GetNode(r, k).value.Found?
    ensures var l := GetNode(r, k).value;
            && l.ring.sorted == r.sorted && l.ring.circle.Keys == r.circle.Keys + {s} && l.ring.circle[s] == l.node
            && (forall h :: h in r.circle ==> l.ring.circle[h] == r.circle[h])
            && (s !in r.circle ==> l.node == "")
  {
    hide UpperBound, Ascending;
    var h :| h in r.circle;
    assert h in r.sorted;
    var n := UpperBound(r.sorted, k);
    s := r.sorted[if n == |r.sorted| then 0 else n];
    assert s in r.sorted;
    forall x | x in r.sorted
      ensures x > k ==> s > k && s <= x
      ensures n == |r.sorted| ==> x <= k && s <= x
    {
      FirstBehind(r.sorted, k, n, x);
    }
  }

  /** The same as an operation of a history: only a lookup on an empty ring does nothing. */
  lemma GetEffect(r: Ring, key: string, hash: Hash, n: nat)
    requires Safe(r)
    ensures Step(r, Get(key), hash, n).Ok?
    ensures var t := Step(r, Get(key), hash, n).value;
            && t.sorted == r.sorted && (t.circle == r.circle <==>
                 r.circle == map[] || forall s :: IsSuccessor(PointsOf(r), hash(key), s) ==> s in r.circle)
  {
    if r.circle != map[] {
      var s := LookupEffect(r, hash(key));
      var t := Step(r, Get(key), hash, n).value;
      hide GetNode;
      forall x | IsSuccessor(PointsOf(r), hash(key), x)
        ensures x == s
      {
        SuccessorUnique(PointsOf(r), hash(key), s, x);
      }
      if s in r.circle { assert t.circle == r.circle; }
    }
  }

  /** With every point in the map, `getNode` returns the owner of the strict clockwise successor of the key. */
  lemma OwnerOfSuccessor(r: Ring, ps: set<Replica>, hash: Hash, k: nat) returns (s: nat)
    requires Holds(r, ps, hash) && ps != {}
    ensures IsSuccessor(r.circle.Keys, k, s) && GetNode(r, k) == Ok(Found(r.circle[s], r))
  {
    var p :| p in ps;
    assert Point(hash, p) in r.circle;
    assert r.circle.Keys == PointsOf(r);
    s := LookupEffect(r, k);
    var l := GetNode(r, k).value;
    assert l.ring.circle == r.circle;
  }

  /** A key whose successor survives a change of points keeps its owner. */
  lemma SuccessorOfFewer(few: set<nat>, many: set<nat>, k: nat, s: nat)
    requires few <= many && IsSuccessor(many, k, s) && s in few
    ensures IsSuccessor(few, k, s)
  {
  }

  /** Adding a node moves keys only to that node. */
  lemma AddMovesKeysToNewNode(r: Ring, ps: set<Replica>, node: string, hash: Hash, n: nat, k: nat)
    requires Holds(r, ps, hash) && ps != {} && ps !! First(node, n) && CollisionFree(hash, ps + First(node, n))
    ensures var before, after := GetNode(r, k), GetNode(AddNode(r, node, hash, n), k);
            && before.Ok? && before.value.Found? && after.Ok? && after.value.Found?
            && (after.value.node == before.value.node || after.value.node == node)
  {
    hide Holds, GetNode, AddNode, CollisionFree, IsSuccessor;
    var all := ps + First(node, n);
    AddNodeHolds(r, ps, node, hash, n);
    var t := AddNode(r, node, hash, n);
    var s := OwnerOfSuccessor(r, ps, hash, k);
    assert all != {} by { var p :| p in ps; assert p in all; }
    var s' := OwnerOfSuccessor(t, all, hash, k);
    SamePoints(r, ps, t, all, hash);
    SuccessorIsPoint(r.circle.Keys, k, s);
    SuccessorIsPoint(t.circle.Keys, k, s');
    if s' in r.circle {
      SuccessorOfFewer(r.circle.Keys, t.circle.Keys, k, s');
      SuccessorUnique(r.circle.Keys, k, s, s');
    } else {
      NewOwner(r, ps, t, node, hash, n, s');
    }
  }

  lemma SuccessorIsPoint(points: set<nat>, k: nat, s: nat)
    requires IsSuccessor(points, k, s)
    ensures s in points
  {
  }

  /** A point that is on the larger ring only belongs to the node that was added. */
  lemma NewOwner(r: Ring, ps: set<Replica>, t: Ring, node: string, hash: Hash, n: nat, h: nat)
    requires Holds(r, ps, hash) && Holds(t, ps + First(node, n), hash) && h in t.circle && h !in r.circle
    ensures t.circle[h] == node
  {
    hide Increasing;
    assert HasPoint(hash, ps + First(node, n), h);
    var p :| p in ps + First(node, n) && Point(hash, p) == h;
    assert p in First(node, n);
  }

  /** Points common to two rings have the same owner in both. */
  lemma SamePoints(r: Ring, ps: set<Replica>, t: Ring, all: set<Replica>, hash: Hash)
    requires Holds(r, ps, hash) && Holds(t, all, hash) && ps <= all
    ensures r.circle.Keys <= t.circle.Keys
    ensures forall h :: h in r.circle ==> t.circle[h] == r.circle[h]
  {
    hide Increasing;
    forall h | h in r.circle
      ensures h in t.circle && t.circle[h] == r.circle[h]
    {
      assert HasPoint(hash, ps, h);
      var p :| p in ps && Point(hash, p) == h;
      assert p in all;
    }
  }

  /** Removing a node moves only the keys that it owned. */
  lemma RemoveMovesOnlyItsKeys(r: Ring, ps: set<Replica>, node: string, hash: Hash, n: nat, k: nat)
    requires Holds(r, ps, hash) && First(node, n) <= ps && CollisionFree(hash, ps) && ps - First(node, n) != {}
    ensures var before, after := GetNode(r, k), GetNode(RemoveNode(r, node, hash, n), k);
            && before.Ok? && before.value.Found? && after.Ok? && after.value.Found?
            && (before.value.node != node ==> after.value.node == before.value.node)
  {
    hide Holds, GetNode, RemoveNode, CollisionFree, IsSuccessor;
    var few := ps - First(node, n);
    RemoveNodeHolds(r, ps, node, hash, n);
    var t := RemoveNode(r, node, hash, n);
    assert ps != {} by { var p :| p in few; assert p in ps; }
    var s := OwnerOfSuccessor(r, ps, hash, k);
    var s' := OwnerOfSuccessor(t, few, hash, k);
    SamePoints(t, few, r, ps, hash);
    SuccessorIsPoint(r.circle.Keys, k, s);
    SuccessorIsPoint(t.circle.Keys, k, s');
    if r.circle[s] != node {
      assert few + First(node, n) == ps;
      if s !in t.circle { NewOwner(t, few, r, node, hash, n, s); }
      SuccessorOfFewer(t.circle.Keys, r.circle.Keys, k, s);
      SuccessorUnique(t.circle.Keys, k, s, s');
    }
  }

  // ---------------------------------------------------------------------------
  // Where the hypotheses are needed

  /** A collision breaks removal: removing one of two nodes that share a point also takes the other's. */
  lemma CollidingRemovalTakesTheOther(a: string, b: string, hash: Hash)
    requires a != b && Point(hash, (a, 0)) == Point(hash, (b, 0))
    ensures var r := RemoveNode(AddNode(AddNode(EMPTY, a, hash, 1), b, hash, 1), b, hash, 1);
            GetNode(r, 0) == Ok(NoNodes) && r.sorted == [Point(hash, (a, 0))]
  {
    var h := Point(hash, (a, 0));
    var r1 := AddNode(EMPTY, a, hash, 1);
    assert AddNode(EMPTY, a, hash, 0) == EMPTY && r1 == Ring(map[h := a], [h]);
    var r2 := AddNode(r1, b, hash, 1);
    assert AddNode(r1, b, hash, 0) == r1 && LowerBound([h], h) == 0;
    assert r2.circle == map[h := b] && r2.sorted == [h, h];
    assert RemoveNode(r2, b, hash, 0) == r2 && LowerBound([h, h], h) == 0;
    var r := RemoveNode(r2, b, hash, 1);
    assert r.circle == map[] && r.sorted == [h];
  }

  /** Adding is exact precisely for nodes that are absent: a node added twice leaves duplicates behind. */
  lemma AddIsExactIff(r: Ring, nodes: set<string>, node: string, hash: Hash, n: nat)
    requires Holds(r, Replicas(nodes, n), hash) && n > 0 && CollisionFree(hash, Replicas(nodes + {node}, n))
    ensures Holds(AddNode(r, node, hash, n), Replicas(nodes + {node}, n), hash) <==> node !in nodes
  {
    ReplicasOf(nodes, node, n);
    if node !in nodes {
      AddNodeHolds(r, Replicas(nodes, n), node, hash, n);
    } else {
      AddedLength(r, node, hash, n);
      assert nodes + {node} == nodes;
      if Holds(AddNode(r, node, hash, n), Replicas(nodes, n), hash) {
        HoldsUnique(AddNode(r, node, hash, n), r, Replicas(nodes, n), hash);
      }
    }
  }

  lemma {:induction false} AddedLength(r: Ring, node: string, hash: Hash, n: nat)
    ensures |AddNode(r, node, hash, n).sorted| == |r.sorted| + n
  {
    if n > 0 { AddedLength(r, node, hash, n - 1); }
  }
}
