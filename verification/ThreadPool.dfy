/** The ring object and the pool of event-loop threads that uses it to place connections
    (include/ConsistenHash.h, src/EventLoopThreadPool.cc). */
module ThreadPools {
  import opened Outcomes
  import opened Rings
  import opened RingTheorems

  class ConsistentHash {
    const numReplicas: nat
    const hashFunction: Hash
    var circle: map<nat, string>
    var sortedHashes: seq<nat>

    ghost function State(): Ring
      reads this
    {
      Ring(circle, sortedHashes)
    }

    constructor (numReplicas: nat, hashFunction: Hash)
      ensures this.numReplicas == numReplicas && this.hashFunction == hashFunction && State() == EMPTY
    {
      this.numReplicas, this.hashFunction := numReplicas, hashFunction;
      circle, sortedHashes := map[], [];
    }

    method AddNode(node: string)
      requires Safe(State())
      modifies this
      ensures Safe(State()) && State() == Rings.AddNode(old(State()), node, hashFunction, numReplicas)
    {
      hide Safe, LowerBound;
      ghost var before := State();
      var i := 0;
      while i < numReplicas
        invariant 0 <= i <= numReplicas
        invariant State() == Rings.AddNode(before, node, hashFunction, i)
      {
        var hash := hashFunction(VirtualNode(node, i));
        circle := circle[hash := node];
        var it := LowerBound(sortedHashes, hash);
        sortedHashes := sortedHashes[..it] + [hash] + sortedHashes[it..];
        i := i + 1;
      }
      AddNodeSafe(before, node, hashFunction, numReplicas);
    }

    method RemoveReplica(hash: nat)
      modifies this
      ensures State() == RemovePoint(old(State()), hash)
    {
      hide LowerBound;
      circle := circle - {hash};
      var it := LowerBound(sortedHashes, hash);
      if it < |sortedHashes| && sortedHashes[it] == hash {
        sortedHashes := sortedHashes[..it] + sortedHashes[it + 1..];
      }
    }

    method RemoveNode(node: string)
      requires Safe(State())
      modifies this
      ensures Safe(State()) && State() == Rings.RemoveNode(old(State()), node, hashFunction, numReplicas)
    {
      hide Safe, RemovePoint;
      ghost var before := State();
      var i := 0;
      while i < numReplicas
        invariant 0 <= i <= numReplicas
        invariant State() == Rings.RemoveNode(before, node, hashFunction, i)
      {
        RemoveReplica(hashFunction(VirtualNode(node, i)));
        i := i + 1;
      }
      RemoveNodeSafe(before, node, hashFunction, numReplicas);
    }

    /** `getNode`: the exception of the empty ring is the result `NoNodes`. */
    method GetNode(key: string) returns (found: bool, node: string)
      requires Safe(State())
      modifies this`circle
      ensures Safe(State())
      ensures Rings.GetNode(old(State()), hashFunction(key)) == Ok(if found then Found(node, State()) else NoNodes)
      ensures found <==> old(circle) != map[]
      ensures !found ==> State() == old(State())
    {
      GetNodeSafe(State(), hashFunction(key));
      if circle == map[] {
        return false, "";
      }
      var it := UpperBound(sortedHashes, hashFunction(key));
      if it == |sortedHashes| {
        it := 0;
      }
      var h := sortedHashes[it];
      if h !in circle {
        circle := circle[h := ""];
      }
      return true, circle[h];
    }
  }

  /** An event loop of the pool: the caller's own, or that of a worker thread. */
  datatype LoopRef = Base | Worker(index: nat)

  function ThreadName(pool: string, i: nat): string { pool + Decimal(i) }

  /** Threads of one pool have different names. */
  lemma ThreadNamesDiffer(pool: string, i: nat, j: nat)
    requires ThreadName(pool, i) == ThreadName(pool, j)
    ensures i == j
  {
    assert ThreadName(pool, i)[|pool|..] == Decimal(i) && ThreadName(pool, j)[|pool|..] == Decimal(j);
    DecimalInjective(i, j);
  }

  /** A ring that nodes were only ever added to: every point of the vector has an owner among them. */
  ghost predicate Owned(r: Ring, names: set<string>) {
    Safe(r) && (forall h :: h in r.sorted ==> h in r.circle) && forall h :: h in r.circle ==> r.circle[h] in names
  }

  /** A lookup on such a ring answers the owner of the strict clockwise successor of the key, collisions or not. */
  lemma LookupOwned(r: Ring, names: set<string>, k: nat) returns (s: nat)
    requires Owned(r, names) && r.circle != map[]
    ensures IsSuccessor(r.circle.Keys, k, s) && r.circle[s] in names
    ensures GetNode(r, k) == Ok(Found(r.circle[s], r))
  {
    assert r.circle.Keys == PointsOf(r);
    s := LookupEffect(r, k);
    var l := GetNode(r, k).value;
    assert l.ring.circle == r.circle;
  }

  // ---------------------------------------------------------------------------
  // The ring of a pool

  /** The replicas that each thread has on the ring. */
  const REPLICAS: nat := 3

  /** One of the points of thread `i` is `h`. */
  ghost predicate OnPoint(pool: string, hash: Hash, i: nat, h: nat) {
    exists k: nat :: k < REPLICAS && hash(VirtualNode(ThreadName(pool, i), k)) == h
  }

  /** The points of the ring are those of the first `n` threads, three each, and where several threads meet the last one
      put on the ring owns the point. */
  ghost predicate RingOf(r: Ring, pool: string, hash: Hash, n: nat) {
    && Safe(r) && |r.sorted| == 3 * n && (forall h :: h in r.sorted ==> h in r.circle)
    && (forall i: nat, h :: i < n && OnPoint(pool, hash, i, h) ==> h in r.circle)
    && (forall h :: h in r.circle ==> OwnedByLast(r.circle[h], pool, hash, n, h))
  }

  ghost predicate OwnedByLast(owner: string, pool: string, hash: Hash, n: nat, h: nat) {
    exists i: nat :: i < n && OnPoint(pool, hash, i, h) && owner == ThreadName(pool, i) &&
                     forall j: nat :: i < j < n ==> !OnPoint(pool, hash, j, h)
  }

  lemma {:induction false} AddNodeMap(r: Ring, node: string, hash: Hash, n: nat, h: nat)
    ensures h in AddNode(r, node, hash, n).circle <==> h in r.circle || exists k: nat :: k < n && hash(VirtualNode(node, k)) == h
    ensures h in AddNode(r, node, hash, n).circle ==>
              AddNode(r, node, hash, n).circle[h] ==
              if exists k: nat :: k < n && hash(VirtualNode(node, k)) == h then node else r.circle[h]
  {
    hide LowerBound, VirtualNode;
    if n > 0 {
      AddNodeMap(r, node, hash, n - 1, h);
      if hash(VirtualNode(node, n - 1)) != h && exists k: nat :: k < n && hash(VirtualNode(node, k)) == h {
        var k: nat :| k < n && hash(VirtualNode(node, k)) == h;
        assert k < n - 1;
      }
    }
  }

  lemma {:induction false} AddNodeKeepsOwned(r: Ring, node: string, hash: Hash, n: nat)
    requires Safe(r) && forall h :: h in r.sorted ==> h in r.circle
    ensures var t := AddNode(r, node, hash, n); Safe(t) && forall h :: h in t.sorted ==> h in t.circle
  {
    hide Safe, LowerBound, VirtualNode;
    AddNodeSafe(r, node, hash, n);
    if n > 0 {
      AddNodeKeepsOwned(r, node, hash, n - 1);
      AddNodeSafe(r, node, hash, n - 1);
      AddPointSafe(AddNode(r, node, hash, n - 1), hash(VirtualNode(node, n - 1)), node);
    }
  }

  /** Putting the next thread on the ring. */
  lemma NextThread(r: Ring, pool: string, hash: Hash, n: nat)
    requires RingOf(r, pool, hash, n)
    ensures RingOf(AddNode(r, ThreadName(pool, n), hash, REPLICAS), pool, hash, n + 1)
    ensures AddNode(r, ThreadName(pool, n), hash, REPLICAS).circle != map[]
  {
    hide AddNode, ThreadName, VirtualNode, Safe;
    var t := AddNode(r, ThreadName(pool, n), hash, REPLICAS);
    AddNodeKeepsOwned(r, ThreadName(pool, n), hash, REPLICAS);
    AddedLength(r, ThreadName(pool, n), hash, REPLICAS);
    forall i: nat, h | i < n + 1 && OnPoint(pool, hash, i, h)
      ensures h in t.circle
    {
      AddNodeMap(r, ThreadName(pool, n), hash, REPLICAS, h);
    }
    forall h | h in t.circle
      ensures OwnedByLast(t.circle[h], pool, hash, n + 1, h)
    {
      AddNodeMap(r, ThreadName(pool, n), hash, REPLICAS, h);
      NextOwner(r, t, pool, hash, n, h);
    }
    AddNodeMap(r, ThreadName(pool, n), hash, REPLICAS, hash(VirtualNode(ThreadName(pool, n), 0)));
  }

  lemma NextOwner(r: Ring, t: Ring, pool: string, hash: Hash, n: nat, h: nat)
    requires h in t.circle && (OnPoint(pool, hash, n, h) || h in r.circle)
    requires t.circle[h] == if OnPoint(pool, hash, n, h) then ThreadName(pool, n) else r.circle[h]
    requires h in r.circle ==> OwnedByLast(r.circle[h], pool, hash, n, h)
    ensures OwnedByLast(t.circle[h], pool, hash, n + 1, h)
  {
    hide OnPoint, ThreadName;
    if !OnPoint(pool, hash, n, h) {
      var i: nat :| i < n && OnPoint(pool, hash, i, h) && r.circle[h] == ThreadName(pool, i) &&
                    forall j: nat :: i < j < n ==> !OnPoint(pool, hash, j, h);
      assert forall j: nat :: i < j < n + 1 ==> !OnPoint(pool, hash, j, h);
    }
  }

  ghost function Names(pool: string, n: nat): set<string> { set i | 0 <= i < n :: ThreadName(pool, i) }

  lemma RingOfIsOwned(r: Ring, pool: string, hash: Hash, n: nat)
    requires RingOf(r, pool, hash, n)
    ensures Owned(r, Names(pool, n))
  {
    hide OnPoint, ThreadName, Safe;
  }

  class EventLoopThreadPool {
    const name: string
    const hash: ConsistentHash
    var loops: seq<LoopRef>
    var threadNameToLoop: map<string, LoopRef>

    ghost predicate Valid()
      reads this, hash
    {
      && hash.numReplicas == REPLICAS
      && RingOf(hash.State(), name, hash.hashFunction, |loops|)
      && (hash.circle == map[] <==> loops == [])
      && threadNameToLoop.Keys == Names(name, |loops|)
      && (forall i :: 0 <= i < |loops| ==> Registered(i))
    }

    constructor (name: string, hashFunction: Hash)
      ensures Valid() && fresh(hash) && this.name == name && hash.hashFunction == hashFunction
      ensures loops == [] && threadNameToLoop == map[]
    {
      this.name := name;
      hash := new ConsistentHash(REPLICAS, hashFunction);
      loops, threadNameToLoop := [], map[];
    }

    /** The worker `i` is known under its name. */
    ghost predicate Registered(i: nat)
      reads this
    {
      && i < |loops| && loops[i] == Worker(i)
      && ThreadName(name, i) in threadNameToLoop && threadNameToLoop[ThreadName(name, i)] == Worker(i)
    }

    /** One round of `start`. */
    method AddThread(i: nat)
      requires Valid() && |loops| == i
      modifies this`loops, this`threadNameToLoop, hash
      ensures Valid() && |loops| == i + 1
    {
      hide RingOf, AddNode, Decimal;
      var threadName := ThreadName(name, i);
      ghost var ring := hash.State();
      RingIsSafe(ring, name, hash.hashFunction, i);
      NextThread(ring, name, hash.hashFunction, i);
      loops := loops + [Worker(i)];
      hash.AddNode(threadName);
      threadNameToLoop := threadNameToLoop[threadName := Worker(i)];
      assert Names(name, i + 1) == Names(name, i) + {threadName};
      forall k | 0 <= k < i
        ensures Registered(k)
      {
        assert old(Registered(k));
        if ThreadName(name, k) == threadName { ThreadNamesDiffer(name, k, i); }
      }
    }

    /** Starts the worker threads and puts each on the ring; a pool is started once. */
    method Start(numThreads: int)
      requires Valid() && loops == []
      modifies this`loops, this`threadNameToLoop, hash
      ensures Valid()
      ensures |loops| == (if numThreads < 0 then 0 else numThreads)
      ensures forall i :: 0 <= i < |loops| ==> Registered(i)
      ensures RingOf(hash.State(), name, hash.hashFunction, |loops|)
    {
      hide RingOf;
      var i := 0;
      while i < numThreads
        invariant 0 <= i && (numThreads >= 0 ==> i <= numThreads) && (numThreads < 0 ==> i == 0)
        invariant Valid() && |loops| == i
      {
        AddThread(i);
        i := i + 1;
      }
    }

    /** With at least one thread, for any key and any hash function, the answer is the worker whose name owns the
        strict clockwise successor of the key; neither the exception nor the fallback to the base loop happens. */
    method GetNextLoop(key: string) returns (thrown: bool, loop: LoopRef)
      requires Valid()
      modifies hash`circle
      ensures Valid() && hash.State() == old(hash.State())
      ensures thrown <==> loops == []
      ensures !thrown ==> loop.Worker? && loop.index < |loops|
      ensures !thrown ==> exists s :: IsSuccessor(hash.circle.Keys, hash.hashFunction(key), s)
                                      && hash.circle[s] == ThreadName(name, loop.index)
    {
      hide RingOf, IsSuccessor, Owned, GetNode, Decimal;
      ghost var ring := hash.State();
      RingIsSafe(ring, name, hash.hashFunction, |loops|);
      ghost var s := 0;
      if ring.circle != map[] {
        RingOfIsOwned(ring, name, hash.hashFunction, |loops|);
        s := LookupOwned(ring, threadNameToLoop.Keys, hash.hashFunction(key));
        SuccessorIsPoint(ring.circle.Keys, hash.hashFunction(key), s);
      }
      var found, threadName := hash.GetNode(key);
      if !found {
        return true, Base;
      }
      assert threadName == ring.circle[s] && hash.State() == ring;
      if threadName in threadNameToLoop {
        ghost var i :| 0 <= i < |loops| && threadName == ThreadName(name, i);
        assert Registered(i);
        assert IsSuccessor(hash.circle.Keys, hash.hashFunction(key), s) && hash.circle[s] == ThreadName(name, i);
        return false, threadNameToLoop[threadName];
      } else {
        return false, Base;
      }
    }
  }

  lemma RingIsSafe(r: Ring, pool: string, hash: Hash, n: nat)
    requires RingOf(r, pool, hash, n)
    ensures Safe(r)
  {
  }

  /** Without collisions, the owner of a point is the one thread that has it. */
  lemma OwnerIsTheThread(r: Ring, pool: string, hash: Hash, n: nat, i: nat, h: nat)
    requires RingOf(r, pool, hash, n) && i < n && OnPoint(pool, hash, i, h)
    requires forall j: nat :: j < n && j != i ==> !OnPoint(pool, hash, j, h)
    ensures h in r.circle && r.circle[h] == ThreadName(pool, i)
  {
    hide OnPoint, ThreadName, Safe;
    assert OwnedByLast(r.circle[h], pool, hash, n, h);
  }
}
