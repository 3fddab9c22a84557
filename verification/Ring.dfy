/** The consistent-hash ring (include/ConsistenHash.h): a sorted vector of hashes beside a map from hash to
    node name, over an arbitrary hash function. */
module Rings {
  import opened Outcomes

  type Hash = string -> nat

  datatype Ring = Ring(circle: map<nat, string>, sorted: seq<nat>)

  const EMPTY := Ring(map[], [])

  // ---------------------------------------------------------------------------
  // Names of virtual nodes

  function Digit(d: nat): char
    requires d < 10
  {
    "0123456789"[d]
  }

  /** `std::to_string`. */
  function Decimal(n: nat): (s: string)
    ensures |s| >= 1 && '#' !in s
  {
    if n < 10 then [Digit(n)] else Decimal(n / 10) + [Digit(n % 10)]
  }

  function VirtualNode(node: string, i: nat): string { node + "_#" + Decimal(i) }

  lemma {:induction false} DecimalInjective(a: nat, b: nat)
    requires Decimal(a) == Decimal(b)
    ensures a == b
  {
    assert forall d, e :: 0 <= d < 10 && 0 <= e < 10 && Digit(d) == Digit(e) ==> d == e;
    var x, y := Decimal(a), Decimal(b);
    assert x[|x| - 1] == Digit(a % 10) && y[|y| - 1] == Digit(b % 10);
    if a >= 10 && b >= 10 {
      assert x[..|x| - 1] == Decimal(a / 10) && y[..|y| - 1] == Decimal(b / 10);
      DecimalInjective(a / 10, b / 10);
    }
  }

  /** Different replicas of different nodes have different names, whatever the node names contain. */
  lemma VirtualNodesDiffer(a: string, i: nat, b: string, j: nat)
    requires VirtualNode(a, i) == VirtualNode(b, j)
    ensures a == b && i == j
  {
    var x, y := VirtualNode(a, i), VirtualNode(b, j);
    assert x == a + ['_', '#'] + Decimal(i) && y == b + ['_', '#'] + Decimal(j);
    assert x[|a| + 1] == '#' && y[|b| + 1] == '#';
    assert forall k :: |a| + 2 <= k < |x| ==> x[k] == Decimal(i)[k - |a| - 2];
    assert forall k :: |b| + 2 <= k < |y| ==> y[k] == Decimal(j)[k - |b| - 2];
    assert |a| == |b|;
    assert x[..|a|] == a && y[..|b|] == b;
    assert x[|a| + 2..] == Decimal(i) && y[|b| + 2..] == Decimal(j);
    DecimalInjective(i, j);
  }

  // ---------------------------------------------------------------------------
  // The operations

  ghost predicate Ascending(s: seq<nat>) { forall i, j :: 0 <= i < j < |s| ==> s[i] <= s[j] }

  ghost predicate Increasing(s: seq<nat>) { forall i, j :: 0 <= i < j < |s| ==> s[i] < s[j] }

  /** `std::lower_bound`: the first position whose element is not less than `h`. */
  function LowerBound(s: seq<nat>, h: nat): (n: nat)
    ensures n <= |s| && (forall i :: 0 <= i < n ==> s[i] < h) && (n < |s| ==> s[n] >= h)
  {
    if s == [] || s[0] >= h then 0 else 1 + LowerBound(s[1..], h)
  }

  /** `std::upper_bound`: the first position whose element is greater than `h`. */
  function UpperBound(s: seq<nat>, h: nat): (n: nat)
    ensures n <= |s| && (forall i :: 0 <= i < n ==> s[i] <= h) && (n < |s| ==> s[n] > h)
  {
    if s == [] || s[0] > h then 0 else 1 + UpperBound(s[1..], h)
  }

  function AddPoint(r: Ring, h: nat, node: string): Ring {
    var n := LowerBound(r.sorted, h);
    Ring(r.circle[h := node], r.sorted[..n] + [h] + r.sorted[n..])
  }

  function RemovePoint(r: Ring, h: nat): Ring {
    var n := LowerBound(r.sorted, h);
    Ring(r.circle - {h}, if n < |r.sorted| && r.sorted[n] == h then r.sorted[..n] + r.sorted[n + 1..] else r.sorted)
  }

  /** The first `n` rounds of `addNode`. */
  function AddNode(r: Ring, node: string, hash: Hash, n: nat): Ring {
    if n == 0 then r else AddPoint(AddNode(r, node, hash, n - 1), hash(VirtualNode(node, n - 1)), node)
  }

  /** The first `n` rounds of `removeNode`. */
  function RemoveNode(r: Ring, node: string, hash: Hash, n: nat): Ring {
    if n == 0 then r else RemovePoint(RemoveNode(r, node, hash, n - 1), hash(VirtualNode(node, n - 1)))
  }

  datatype Lookup = Found(node: string, ring: Ring) | NoNodes

  /** `getNode`; reading a hash that is not in the map inserts an empty name for it. */
  function GetNode(r: Ring, k: nat): Outcome<Lookup> {
    if r.circle == map[] then Ok(NoNodes)
    else if r.sorted == [] then Fault(55)
    else
      var n := UpperBound(r.sorted, k);
      var h := r.sorted[if n == |r.sorted| then 0 else n];
      if h in r.circle then Ok(Found(r.circle[h], r)) else Ok(Found("", r.(circle := r.circle[h := ""])))
  }

  // ---------------------------------------------------------------------------
  // Safety for every hash function

  /** The vector is sorted and holds every key of the map. */
  ghost predicate Safe(r: Ring) { Ascending(r.sorted) && forall h :: h in r.circle ==> h in r.sorted }

  lemma AddPointSafe(r: Ring, h: nat, node: string)
    requires Safe(r)
    ensures Safe(AddPoint(r, h, node))
    ensures forall x :: x in AddPoint(r, h, node).sorted <==> x == h || x in r.sorted
  {
    hide LowerBound;
    var n := LowerBound(r.sorted, h);
    assert r.sorted == r.sorted[..n] + r.sorted[n..];
    InsertedAscends(r.sorted, n, h);
  }

  lemma InsertedAscends(s: seq<nat>, n: nat, h: nat)
    requires Ascending(s) && n <= |s| && (forall i :: 0 <= i < n ==> s[i] < h) && (n < |s| ==> s[n] >= h)
    ensures Ascending(s[..n] + [h] + s[n..])
  {
    var t := s[..n] + [h] + s[n..];
    assert forall i :: 0 <= i < |t| ==> t[i] == if i < n then s[i] else if i == n then h else s[i - 1];
  }

  lemma RemovePointSafe(r: Ring, h: nat)
    requires Safe(r)
    ensures Safe(RemovePoint(r, h))
  {
    var n := LowerBound(r.sorted, h);
    var t := RemovePoint(r, h).sorted;
    forall x | x in r.sorted && x != h
      ensures x in t
    {
      var i :| 0 <= i < |r.sorted| && r.sorted[i] == x;
      assert t == r.sorted || t[if i < n then i else i - 1] == x;
    }
  }

  datatype Op = Add(node: string) | Remove(node: string) | Get(key: string)

  function Step(r: Ring, op: Op, hash: Hash, n: nat): Outcome<Ring> {
    match op
    case Add(node) => Ok(AddNode(r, node, hash, n))
    case Remove(node) => Ok(RemoveNode(r, node, hash, n))
    case Get(key) =>
      var l :- GetNode(r, hash(key));
      Ok(if l.Found? then l.ring else r)
  }

  function Run(r: Ring, ops: seq<Op>, hash: Hash, n: nat): Outcome<Ring>
    decreases |ops|
  {
    if ops == [] then Ok(r)
    else
      var s :- Step(r, ops[0], hash, n);
      Run(s, ops[1..], hash, n)
  }

  lemma {:induction false} AddNodeSafe(r: Ring, node: string, hash: Hash, n: nat)
    requires Safe(r)
    ensures Safe(AddNode(r, node, hash, n))
  {
    if n > 0 {
      AddNodeSafe(r, node, hash, n - 1);
      AddPointSafe(AddNode(r, node, hash, n - 1), hash(VirtualNode(node, n - 1)), node);
    }
  }

  lemma {:induction false} RemoveNodeSafe(r: Ring, node: string, hash: Hash, n: nat)
    requires Safe(r)
    ensures Safe(RemoveNode(r, node, hash, n))
  {
    if n > 0 {
      RemoveNodeSafe(r, node, hash, n - 1);
      RemovePointSafe(RemoveNode(r, node, hash, n - 1), hash(VirtualNode(node, n - 1)));
    }
  }

  /** In every history, with any hash function and any collisions, no lookup dereferences the end of
      the vector. */
  lemma {:induction false} EveryHistoryIsSafe(r: Ring, ops: seq<Op>, hash: Hash, n: nat)
    requires Safe(r)
    ensures Run(r, ops, hash, n).Ok? && Safe(Run(r, ops, hash, n).value)
    decreases |ops|
  {
    if ops != [] {
      match ops[0]
      case Add(node) =>
        AddNodeSafe(r, node, hash, n);
        EveryHistoryIsSafe(AddNode(r, node, hash, n), ops[1..], hash, n);
      case Remove(node) =>
        RemoveNodeSafe(r, node, hash, n);
        EveryHistoryIsSafe(RemoveNode(r, node, hash, n), ops[1..], hash, n);
      case Get(key) =>
        GetNodeSafe(r, hash(key));
        EveryHistoryIsSafe(Step(r, ops[0], hash, n).value, ops[1..], hash, n);
    }
  }

  lemma GetNodeSafe(r: Ring, k: nat)
    requires Safe(r)
    ensures GetNode(r, k).Ok?
    ensures var l := GetNode(r, k).value; l.Found? ==> Safe(l.ring) && l.ring.sorted == r.sorted
    ensures GetNode(r, k).value.NoNodes? <==> r.circle == map[]
  {
    if r.circle != map[] {
      var h :| h in r.circle;
      assert h in r.sorted;
    }
  }
}
