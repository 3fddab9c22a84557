/** What every step of the timer queue keeps: the two indexes agree, every live timer has exactly
    one owner, no assertion of the source fails and no dangling pointer is followed. */
module TimerSafety {
  import opened Outcomes
  import opened Timers

  ghost predicate IsActive(q: Queue, a: nat) { a in q.heap && IdOf(q, a) in q.active }

  ghost predicate InBatch(held: seq<Entry>, a: nat) { exists i :: 0 <= i < |held| && held[i].address == a }

  /** Sequence numbers identify live timers and never exceed the counter. */
  ghost predicate SoundHeap(q: Queue) {
    && (forall a :: a in q.heap ==> 0 < a < MAX_POINTER && 1 <= q.heap[a].sequence <= q.created)
  }

  /** `timers_` is exactly { (t.expiration, t) } for the timers t of `activeTimers_`. */
  ghost predicate IndexesAgree(q: Queue) {
    && Sorted(q.timers)
    && |q.timers| == |q.active|
    && (forall e :: e in q.timers ==>
          IsActive(q, e.address) && q.heap[e.address].expiration == e.when)
    && (forall id :: id in q.active ==>
          id.address in q.heap && IdOf(q, id.address) == id
          && Entry(q.heap[id.address].expiration, id.address) in q.timers)
  }

  ghost predicate DistinctAddresses(held: seq<Entry>) {
    forall i, j :: 0 <= i < j < |held| ==> held[i].address != held[j].address
  }

  /** The live timers are the disjoint union of the active ones, those of the batch `held` that
      `reset` has not yet dealt with, and those whose insertion is still queued. */
  ghost predicate Partitioned(q: Queue, held: seq<Entry>) {
    && DistinctAddresses(held)
    && (forall i :: 0 <= i < |held| ==>
          held[i].address in q.heap && !IsActive(q, held[i].address) && held[i].address !in q.queued)
    && (forall i, j :: 0 <= i < j < |q.queued| ==> q.queued[i] != q.queued[j])
    && (forall a :: a in q.queued ==> a in q.heap && !IsActive(q, a))
    && (forall a :: a in q.heap ==> IsActive(q, a) || InBatch(held, a) || a in q.queued)
  }

  ghost predicate Owned(q: Queue, held: seq<Entry>) {
    SoundHeap(q) && IndexesAgree(q) && Partitioned(q, held)
  }

  /** While a batch fires: it is what expired by `now`, in order, and `fired` ends with what has been run. */
  ghost predicate BatchRecorded(q: Queue) {
    q.phase.Firing? ==>
      && Sorted(q.phase.batch)
      && q.phase.next <= |q.phase.batch|
      && |q.fired| == q.phase.since + q.phase.next
      && (forall i :: 0 <= i < |q.phase.batch| ==>
            && q.phase.batch[i].address in q.heap
            && q.heap[q.phase.batch[i].address].expiration == q.phase.batch[i].when <= q.phase.now)
      && (forall i :: 0 <= i < q.phase.next ==>
            q.fired[q.phase.since + i] == q.heap[q.phase.batch[i].address].sequence)
  }

  ghost function Held(q: Queue): seq<Entry> { if q.phase.Firing? then q.phase.batch else [] }

  ghost predicate Inv(q: Queue) { Owned(q, Held(q)) && BatchRecorded(q) }

  // ---------------------------------------------------------------------------
  // Single operations

  lemma AllocateKeeps(q: Queue, held: seq<Entry>, a: nat, when: Time, interval: real)
    requires Owned(q, held) && Allocatable(q, a)
    ensures var r := Allocate(q, a, when, interval);
            SoundHeap(r) && IndexesAgree(r) && !IsActive(r, a)
            && Partitioned(r.(queued := [a] + q.queued), held)
  {
    var r := Allocate(q, a, when, interval);
    assert forall b :: b in q.heap ==> IsActive(r, b) == IsActive(q, b);
    assert !IsActive(r, a);
    var p := r.(queued := [a] + q.queued);
    assert forall b :: IsActive(p, b) == IsActive(r, b);
    assert forall b :: b in p.queued <==> b == a || b in q.queued;
  }

  /** The two indexes after both gained the timer `a`. */
  lemma IndexesGain(q: Queue, r: Queue, a: nat)
    requires IndexesAgree(q) && a in q.heap && !IsActive(q, a)
    requires r.heap == q.heap && r.active == q.active + {IdOf(q, a)}
    requires Sorted(r.timers) && |r.timers| == |q.timers| + 1
    requires forall x :: x in r.timers <==> x == Entry(q.heap[a].expiration, a) || x in q.timers
    ensures IndexesAgree(r)
    ensures forall b :: IsActive(r, b) <==> b == a || IsActive(q, b)
  {
  }

  /** Inserting a live, unowned timer never trips an assertion and makes it active. */
  lemma InsertKeeps(q: Queue, a: nat)
    requires SoundHeap(q) && IndexesAgree(q) && a in q.heap && !IsActive(q, a)
    ensures Insert(q, a).Ok?
    ensures var r := Insert(q, a).value;
            && SoundHeap(r) && IndexesAgree(r)
            && r == q.(timers := r.timers, active := r.active)
            && (forall b :: IsActive(r, b) <==> b == a || IsActive(q, b))
            && r.timers != []
            && r.timers[0].when == if EarliestChanged(q, q.heap[a].expiration) then q.heap[a].expiration
                                   else q.timers[0].when
  {
    var e := Entry(q.heap[a].expiration, a);
    assert e !in q.timers;
    InsertEntryOrdered(q.timers, e);
    var timers := InsertEntry(q.timers, e);
    var r := q.(timers := timers, active := q.active + {IdOf(q, a)});
    IndexesGain(q, r, a);
    assert Insert(q, a) == Ok(r);
  }

  /** `held` loses its timer `a`, which becomes active. */
  lemma Claimed(q: Queue, r: Queue, a: nat, held: seq<Entry>)
    requires Partitioned(q, held) && held != [] && held[0].address == a
    requires r.heap.Keys == q.heap.Keys && r.queued == q.queued
    requires forall b :: IsActive(r, b) <==> b == a || IsActive(q, b)
    ensures Partitioned(r, held[1..])
  {
    forall b | b in r.heap
      ensures IsActive(r, b) || InBatch(held[1..], b) || b in r.queued
    {
      if InBatch(held, b) && b != a {
        var i :| 0 <= i < |held| && held[i].address == b;
        assert held[1..][i - 1].address == b;
      }
    }
  }

  /** A timer leaves the queue of insertions and becomes active. */
  lemma Adopted(q: Queue, r: Queue, a: nat, held: seq<Entry>)
    requires Partitioned(q.(queued := [a] + q.queued), held)
    requires r.heap == q.heap && r.queued == q.queued
    requires forall b :: IsActive(r, b) <==> b == a || IsActive(q, b)
    ensures Partitioned(r, held)
  {
    var p := q.(queued := [a] + q.queued);
    assert forall b :: IsActive(p, b) == IsActive(q, b);
    assert forall b :: b in p.queued <==> b == a || b in q.queued;
    assert p.queued[0] == a && forall i :: 0 <= i < |q.queued| ==> q.queued[i] == p.queued[i + 1];
  }

  /** Ownership does not depend on the phase, the alarm, the cancellations or the log. */
  lemma SameOwners(q: Queue, r: Queue, held: seq<Entry>)
    requires r.heap == q.heap && r.created == q.created && r.timers == q.timers
    requires r.active == q.active && r.queued == q.queued
    ensures SoundHeap(r) == SoundHeap(q) && IndexesAgree(r) == IndexesAgree(q)
    ensures Partitioned(r, held) == Partitioned(q, held)
    ensures forall b :: IsActive(r, b) == IsActive(q, b)
  {
    assert forall b :: IsActive(r, b) == IsActive(q, b);
  }

  lemma AddTimerInLoopKeeps(q: Queue, held: seq<Entry>, a: nat, at: Time)
    requires SoundHeap(q) && IndexesAgree(q) && a in q.heap && !IsActive(q, a)
    requires Partitioned(q.(queued := [a] + q.queued), held)
    ensures AddTimerInLoop(q, a, at).Ok?
    ensures var r := AddTimerInLoop(q, a, at).value;
            && Owned(r, held) && r == q.(timers := r.timers, active := r.active, alarm := r.alarm)
  {
    InsertKeeps(q, a);
    var i := Insert(q, a).value;
    Adopted(q, i, a, held);
    SameOwners(i, AddTimerInLoop(q, a, at).value, held);
  }

  /** The two indexes after both lost the timer of `id`, which is freed. */
  lemma IndexesLose(q: Queue, r: Queue, id: TimerId)
    requires SoundHeap(q) && IndexesAgree(q) && id in q.active
    requires r.heap == q.heap - {id.address} && r.active == q.active - {id} && r.created == q.created
    requires Sorted(r.timers) && |r.timers| == |q.timers| - 1
    requires forall x :: x in r.timers <==> x != Entry(q.heap[id.address].expiration, id.address) && x in q.timers
    ensures SoundHeap(r) && IndexesAgree(r)
    ensures forall b :: IsActive(r, b) <==> b != id.address && IsActive(q, b)
  {
  }

  lemma CancelKeeps(q: Queue, held: seq<Entry>, id: TimerId)
    requires Owned(q, held)
    ensures CancelInLoop(q, id).Ok?
    ensures var r := CancelInLoop(q, id).value;
            && Owned(r, held)
            && (id in q.active ==>
                  && IsActive(q, id.address)
                  && r == q.(timers := r.timers, active := q.active - {id}, heap := q.heap - {id.address}))
  {
    if id in q.active {
      var e := Entry(q.heap[id.address].expiration, id.address);
      EraseEntryOrdered(q.timers, e);
      var r := q.(timers := EraseEntry(q.timers, e), active := q.active - {id}, heap := q.heap - {id.address});
      IndexesLose(q, r, id);
      assert IsActive(q, id.address);
      assert CancelInLoop(q, id) == Ok(r);
    } else {
      SameOwners(q, CancelInLoop(q, id).value, held);
    }
  }

  /** Erasing a batch of distinct active timers succeeds and removes exactly their ids. */
  lemma {:induction false} EraseActiveRemoves(active: set<TimerId>, batch: seq<Entry>, heap: map<nat, Timer>)
    requires DistinctAddresses(batch)
    requires forall e :: e in batch ==> e.address in heap && TimerId(e.address, heap[e.address].sequence) in active
    ensures EraseActive(active, batch, heap).Ok?
    ensures var r := EraseActive(active, batch, heap).value;
            && |r| == |active| - |batch|
            && (forall id :: id in r <==>
                  (id in active && !(InBatch(batch, id.address) && id.sequence == heap[id.address].sequence)))
    decreases |batch|
  {
    if batch != [] {
      var a := batch[0].address;
      var id := TimerId(a, heap[a].sequence);
      var rest := batch[1..];
      EraseActiveRemoves(active - {id}, rest, heap);
      assert forall b :: InBatch(batch, b) <==> b == a || InBatch(rest, b) by {
        forall b | InBatch(rest, b) ensures InBatch(batch, b) {
          var i :| 0 <= i < |rest| && rest[i].address == b;
          assert batch[i + 1].address == b;
        }
        forall b | InBatch(batch, b) && b != a ensures InBatch(rest, b) {
          var i :| 0 <= i < |batch| && batch[i].address == b;
          assert rest[i - 1].address == b;
        }
      }
    }
  }

  /** The prefix cut off by the sentinel is exactly what has expired. */
  lemma ExpiredPrefix(s: seq<Entry>, now: Time)
    requires Sorted(s) && forall e :: e in s ==> e.address < MAX_POINTER
    ensures var end := LowerBound(s, Entry(now, MAX_POINTER));
            && (forall i :: 0 <= i < end ==> s[i].when <= now)
            && (forall i :: end <= i < |s| ==> s[i].when > now)
  {
    SortedIsOrdered(s);
    var end := LowerBound(s, Entry(now, MAX_POINTER));
    forall i | end <= i < |s|
      ensures s[i].when > now
    {
      assert !Before(s[end], Entry(now, MAX_POINTER)) && s[end] in s;
    }
  }

  lemma ActiveAddressesDistinct(q: Queue)
    requires IndexesAgree(q)
    ensures DistinctAddresses(q.timers)
  {
    SortedIsOrdered(q.timers);
    forall i, j | 0 <= i < j < |q.timers|
      ensures q.timers[i].address != q.timers[j].address
    {
      assert q.timers[i] in q.timers && q.timers[j] in q.timers && Before(q.timers[i], q.timers[j]);
    }
  }

  /** Entries of different parts of `timers_` have different addresses. */
  lemma PartsDisjoint(q: Queue, batch: seq<Entry>, rest: seq<Entry>)
    requires IndexesAgree(q) && q.timers == batch + rest
    ensures DistinctAddresses(batch)
    ensures forall e :: e in batch ==> e in q.timers
    ensures forall e :: e in rest ==> e in q.timers && !InBatch(batch, e.address)
    ensures forall e :: e in q.timers && !InBatch(batch, e.address) ==> e in rest
  {
    ActiveAddressesDistinct(q);
    assert forall i :: 0 <= i < |batch| ==> batch[i] == q.timers[i];
    assert forall j :: 0 <= j < |rest| ==> rest[j] == q.timers[|batch| + j];
  }

  /** Moving a prefix of `timers_` out of both indexes makes it the held batch. */
  lemma BatchLeavesIndexes(q: Queue, r: Queue, batch: seq<Entry>)
    requires Owned(q, []) && q.timers == batch + r.timers
    requires r.heap == q.heap && r.created == q.created && r.queued == q.queued
    requires |r.active| == |q.active| - |batch|
    requires forall id :: id in r.active <==>
               (id in q.active && !(InBatch(batch, id.address) && id.sequence == q.heap[id.address].sequence))
    ensures Owned(r, batch)
  {
    hide Sorted;
    PartsDisjoint(q, batch, r.timers);
    SortedParts(batch, r.timers);
    forall b | b in q.heap
      ensures IsActive(r, b) <==> IsActive(q, b) && !InBatch(batch, b)
    {
    }
    assert IndexesAgree(r);
    forall i | 0 <= i < |batch|
      ensures IsActive(q, batch[i].address) && InBatch(batch, batch[i].address)
    {
      assert batch[i] in q.timers;
    }
    assert Partitioned(r, batch);
  }

  lemma BatchIsActive(q: Queue, end: nat)
    requires Owned(q, []) && end <= |q.timers|
    ensures DistinctAddresses(q.timers[..end])
    ensures forall e :: e in q.timers[..end] ==> IsActive(q, e.address)
  {
    ActiveAddressesDistinct(q);
    assert forall e :: e in q.timers[..end] ==> e in q.timers;
  }

  /** `getExpired` succeeds and splits `timers_` at `now`. */
  lemma GetExpiredSplits(q: Queue, now: Time)
    requires Owned(q, [])
    ensures GetExpired(q, now).Ok?
    ensures var (batch, r) := GetExpired(q, now).value;
            && q.timers == batch + r.timers
            && (forall i :: 0 <= i < |batch| ==> batch[i].when <= now)
            && (forall i :: 0 <= i < |r.timers| ==> r.timers[i].when > now)
            && r == q.(timers := r.timers, active := r.active)
            && Owned(r, batch)
  {
    hide Owned, EraseActive, LowerBound, Sorted;
    BelowSentinel(q);
    ExpiredPrefix(q.timers, now);
    var end := LowerBound(q.timers, Entry(now, MAX_POINTER));
    BatchErased(q, end);
    assert q.timers == q.timers[..end] + q.timers[end..];
  }

  lemma BelowSentinel(q: Queue)
    requires Owned(q, [])
    ensures Sorted(q.timers) && |q.timers| == |q.active|
    ensures forall e :: e in q.timers ==> e.address < MAX_POINTER
  {
  }

  /** Erasing the first `end` timers from the second index, too, makes them the held batch. */
  lemma BatchErased(q: Queue, end: nat)
    requires Owned(q, []) && end <= |q.timers|
    ensures EraseActive(q.active, q.timers[..end], q.heap).Ok?
    ensures var r := q.(timers := q.timers[end..], active := EraseActive(q.active, q.timers[..end], q.heap).value);
            Owned(r, q.timers[..end]) && |r.timers| == |r.active|
  {
    var batch, rest := q.timers[..end], q.timers[end..];
    assert q.timers == batch + rest;
    BatchIsActive(q, end);
    EraseActiveRemoves(q.active, batch, q.heap);
    assert |q.timers| == |q.active|;
    hide SoundHeap, IndexesAgree, Partitioned, EraseActive;
    BatchLeavesIndexes(q, q.(timers := rest, active := EraseActive(q.active, batch, q.heap).value), batch);
  }

  lemma BeginReadKeeps(q: Queue, now: Time)
    requires Inv(q) && q.phase.Idle?
    ensures Advances(q, BeginRead(q, now), 0, [])
    ensures var r := BeginRead(q, now).value;
            && r.phase == Firing(r.phase.batch, 0, now, |q.fired|)
            && r.phase.batch + r.timers == q.timers
            && (forall i :: 0 <= i < |r.timers| ==> r.timers[i].when > now)
            && r == q.(timers := r.timers, active := r.active, canceling := {}, phase := r.phase,
                       alarm := ReadAlarm(q.alarm, now))
  {
    hide SoundHeap, IndexesAgree, Partitioned;
    var p := q.(alarm := ReadAlarm(q.alarm, now));
    SameOwners(q, p, []);
    GetExpiredSplits(p, now);
    var (batch, g) := GetExpired(p, now).value;
    var r := BeginRead(q, now).value;
    SameOwners(g, r, batch);
    BatchMatches(q, batch, r.timers);
    assert BatchRecorded(r);
  }

  /** The entries of the batch carry the expirations of their timers. */
  lemma BatchMatches(q: Queue, batch: seq<Entry>, rest: seq<Entry>)
    requires IndexesAgree(q) && q.timers == batch + rest
    ensures Sorted(batch)
    ensures forall i :: 0 <= i < |batch| ==>
              batch[i].address in q.heap && q.heap[batch[i].address].expiration == batch[i].when
  {
    SortedParts(batch, rest);
    assert forall i :: 0 <= i < |batch| ==> batch[i] == q.timers[i] && batch[i] in q.timers;
  }

  /** The head of the held batch is restarted: nothing else changes hands. */
  lemma RestartKeepsIndexes(q: Queue, a: nat, now: Time)
    requires SoundHeap(q) && IndexesAgree(q) && a in q.heap && !IsActive(q, a)
    ensures var p := q.(heap := q.heap[a := q.heap[a].Restarted(now)]);
            SoundHeap(p) && IndexesAgree(p) && forall b :: IsActive(p, b) == IsActive(q, b)
  {
    var p := q.(heap := q.heap[a := q.heap[a].Restarted(now)]);
    assert forall b :: IsActive(p, b) == IsActive(q, b);
  }

  /** The head of the held batch is freed. */
  lemma FreeKeeps(q: Queue, held: seq<Entry>)
    requires Owned(q, held) && held != []
    ensures Owned(q.(heap := q.heap - {held[0].address}), held[1..])
  {
    var a := held[0].address;
    var r := q.(heap := q.heap - {a});
    assert forall b :: IsActive(r, b) == IsActive(q, b);
    assert IndexesAgree(r);
    forall b | b in r.heap
      ensures IsActive(r, b) || InBatch(held[1..], b) || b in r.queued
    {
      if InBatch(held, b) {
        var i :| 0 <= i < |held| && held[i].address == b;
        assert held[1..][i - 1].address == b;
      }
    }
    assert Partitioned(r, held[1..]);
  }

  lemma RestartKeeps(q: Queue, held: seq<Entry>, now: Time)
    requires Owned(q, held) && held != []
    ensures var o := Insert(q.(heap := q.heap[held[0].address := q.heap[held[0].address].Restarted(now)]), held[0].address);
            && o.Ok? && Owned(o.value, held[1..])
            && o.value == q.(timers := o.value.timers, active := o.value.active,
                             heap := q.heap[held[0].address := q.heap[held[0].address].Restarted(now)])
  {
    hide SoundHeap, IndexesAgree, Insert;
    var a := held[0].address;
    var p := q.(heap := q.heap[a := q.heap[a].Restarted(now)]);
    RestartKeepsIndexes(q, a, now);
    InsertKeeps(p, a);
    Claimed(q, Insert(p, a).value, a, held);
  }

  lemma ResetOneKeeps(q: Queue, held: seq<Entry>, now: Time)
    requires Owned(q, held) && held != []
    ensures ResetOne(q, held[0].address, now).Ok?
    ensures var r := ResetOne(q, held[0].address, now).value;
            && Owned(r, held[1..])
            && r == q.(timers := r.timers, active := r.active, heap := r.heap)
            && (forall b :: b in r.heap ==> b in q.heap && r.heap[b].sequence == q.heap[b].sequence)
  {
    assert held[0].address in q.heap;
    hide Owned, Insert;
    RestartKeeps(q, held, now);
    FreeKeeps(q, held);
  }

  lemma {:induction false} ResetAllKeeps(q: Queue, held: seq<Entry>, now: Time)
    requires Owned(q, held)
    ensures ResetAll(q, held, now).Ok?
    ensures var r := ResetAll(q, held, now).value;
            && Owned(r, [])
            && r == q.(timers := r.timers, active := r.active, heap := r.heap)
            && (forall b :: b in r.heap ==> b in q.heap && r.heap[b].sequence == q.heap[b].sequence)
    decreases |held|
  {
    hide Owned, ResetOne;
    if held != [] {
      ResetOneKeeps(q, held, now);
      ResetAllKeeps(ResetOne(q, held[0].address, now).value, held[1..], now);
    }
  }

  lemma FirstIsAlive(q: Queue)
    requires IndexesAgree(q)
    ensures q.timers != [] ==> q.timers[0].address in q.heap && q.heap[q.timers[0].address].expiration == q.timers[0].when
  {
    assert q.timers != [] ==> q.timers[0] in q.timers;
  }

  lemma ResetKeeps(q: Queue, held: seq<Entry>, now: Time, at: Time)
    requires Owned(q, held) && q.phase.Idle?
    ensures Reset(q, held, now, at).Ok?
    ensures var r := Reset(q, held, now, at).value;
            && Inv(r)
            && r == q.(timers := r.timers, active := r.active, heap := r.heap, alarm := r.alarm)
            && (forall b :: b in r.heap ==> b in q.heap && r.heap[b].sequence == q.heap[b].sequence)
  {
    hide SoundHeap, IndexesAgree, Partitioned, ResetAll;
    ResetAllKeeps(q, held, now);
    var p := ResetAll(q, held, now).value;
    FirstIsAlive(p);
    SameOwners(p, Rearm(p, at).value, []);
  }

  // ---------------------------------------------------------------------------
  // Every run

  lemma QueueIrrelevant(q: Queue, r: Queue)
    requires r == q.(queued := r.queued)
    ensures SoundHeap(r) == SoundHeap(q) && IndexesAgree(r) == IndexesAgree(q)
    ensures forall b :: IsActive(r, b) == IsActive(q, b)
  {
    assert forall b :: IsActive(r, b) == IsActive(q, b);
  }

  /** The order of the queued insertions does not matter for ownership. */
  lemma QueuedElsewhere(q: Queue, held: seq<Entry>, a: nat)
    requires Partitioned(q.(queued := [a] + q.queued), held)
    ensures Partitioned(q.(queued := q.queued + [a]), held)
  {
    var p, r := q.(queued := [a] + q.queued), q.(queued := q.queued + [a]);
    assert forall b :: IsActive(p, b) == IsActive(r, b);
    assert forall b :: b in p.queued <==> b in r.queued;
    assert p.queued[0] == a && forall i :: 0 <= i < |q.queued| ==> q.queued[i] == p.queued[i + 1];
  }

  /** The outcome of a step from `q` is a good state in which live timers have kept their numbers, only
      the address `newcomer` may hold a new timer, numbered above the old counter, and exactly the
      callbacks `run` were run. */
  ghost predicate Advances(q: Queue, o: Outcome<Queue>, newcomer: nat, run: seq<nat>) {
    o.Ok? && Inv(o.value) && NumbersKept(q, o.value, newcomer) && o.value.fired == q.fired + run
  }

  ghost predicate NumbersKept(q: Queue, r: Queue, newcomer: nat) {
    && q.created <= r.created
    && (forall a :: a in r.heap ==>
          || (a == newcomer && a !in q.heap && r.heap[a].sequence > q.created)
          || (a in q.heap && q.heap[a].sequence == r.heap[a].sequence))
  }

  ghost function NewAddress(e: Event): nat {
    match e
    case Add(a, _, _, _) => a
    case AddElsewhere(a, _, _) => a
    case _ => 0
  }

  /** The callback, if any, that the event `e` runs in state `q`. */
  ghost function RunBy(q: Queue, e: Event): seq<nat> {
    if e.RunNextCallback? && q.phase.Firing? && q.phase.next < |q.phase.batch|
       && q.phase.batch[q.phase.next].address in q.heap
    then [q.heap[q.phase.batch[q.phase.next].address].sequence] else []
  }

  /** The record of the running batch survives whatever leaves its timers alone. */
  lemma SameRecord(q: Queue, r: Queue)
    requires BatchRecorded(q) && r.phase == q.phase && r.fired == q.fired
    requires forall i :: 0 <= i < |Held(q)| ==>
               && Held(q)[i].address in r.heap
               && (Held(q)[i].address in q.heap ==> r.heap[Held(q)[i].address] == q.heap[Held(q)[i].address])
    ensures BatchRecorded(r)
  {
    assert q.phase.Firing? ==> Held(q) == q.phase.batch;
  }

  lemma HeldIsAlive(q: Queue)
    requires Inv(q)
    ensures forall i :: 0 <= i < |Held(q)| ==> Held(q)[i].address in q.heap && !IsActive(q, Held(q)[i].address)
  {
  }

  lemma AddKeeps(q: Queue, a: nat, when: Time, interval: real, at: Time)
    requires Inv(q) && Allocatable(q, a)
    ensures var o := AddTimerInLoop(Allocate(q, a, when, interval), a, at);
            && Advances(q, o, a, [])
            && o.value == Allocate(q, a, when, interval).(
                            timers := o.value.timers, active := o.value.active, alarm := o.value.alarm)
  {
    hide SoundHeap, IndexesAgree, Partitioned, AddTimerInLoop;
    HeldIsAlive(q);
    AllocateKeeps(q, Held(q), a, when, interval);
    var p := Allocate(q, a, when, interval);
    AddTimerInLoopKeeps(p, Held(q), a, at);
    SameRecord(q, AddTimerInLoop(p, a, at).value);
  }

  lemma AddElsewhereKeeps(q: Queue, a: nat, when: Time, interval: real)
    requires Inv(q) && Allocatable(q, a)
    ensures Advances(q, Ok(Allocate(q, a, when, interval).(queued := q.queued + [a])), a, [])
  {
    hide SoundHeap, IndexesAgree, Partitioned;
    HeldIsAlive(q);
    AllocateKeeps(q, Held(q), a, when, interval);
    var p := Allocate(q, a, when, interval);
    var r := p.(queued := q.queued + [a]);
    QueuedElsewhere(p, Held(q), a);
    QueueIrrelevant(p, r);
    SameRecord(q, r);
  }

  lemma QueuedHead(q: Queue)
    requires Owned(q, []) && q.queued != []
    ensures var p, a := q.(queued := q.queued[1..]), q.queued[0];
            && SoundHeap(p) && IndexesAgree(p) && a in p.heap && !IsActive(p, a)
            && Partitioned(p.(queued := [a] + p.queued), [])
  {
    var p, a := q.(queued := q.queued[1..]), q.queued[0];
    assert a in q.queued;
    QueueIrrelevant(q, p);
    assert [a] + p.queued == q.queued;
    assert p.(queued := [a] + p.queued) == q;
  }

  lemma RunQueuedAddKeeps(q: Queue, at: Time)
    requires Inv(q) && q.phase.Idle? && q.queued != []
    ensures var o := AddTimerInLoop(q.(queued := q.queued[1..]), q.queued[0], at);
            && Advances(q, o, 0, [])
            && o.value == q.(queued := q.queued[1..], timers := o.value.timers, active := o.value.active,
                             alarm := o.value.alarm)
  {
    hide SoundHeap, IndexesAgree, Partitioned, AddTimerInLoop;
    QueuedHead(q);
    AddTimerInLoopKeeps(q.(queued := q.queued[1..]), [], q.queued[0], at);
  }

  lemma CancelStepKeeps(q: Queue, id: TimerId)
    requires Inv(q)
    ensures var o := CancelInLoop(q, id);
            && Advances(q, o, 0, [])
            && (id in q.active ==>
                  && IsActive(q, id.address)
                  && o.value == q.(timers := o.value.timers, active := q.active - {id}, heap := q.heap - {id.address}))
  {
    hide SoundHeap, IndexesAgree, Partitioned;
    HeldIsAlive(q);
    CancelKeeps(q, Held(q), id);
    SameRecord(q, CancelInLoop(q, id).value);
  }

  /** One event from a good state neither faults nor breaks the invariant, never changes the number
      of a live timer, and runs at most the callback whose turn it is. */
  lemma StepKeeps(q: Queue, e: Event)
    requires Inv(q)
    ensures Advances(q, Step(q, e), NewAddress(e), RunBy(q, e))
  {
    hide *;
    if e.Cancel? || e.OtherQueueCreates? {
      OtherKeeps(q, e);
    } else if e.HandleReadBegins? || e.RunNextCallback? || e.HandleReadEnds? {
      ReadKeeps(q, e);
    } else {
      AdditionKeeps(q, e);
    }
  }

  lemma OtherKeeps(q: Queue, e: Event)
    requires Inv(q) && (e.Cancel? || e.OtherQueueCreates?)
    ensures Advances(q, Step(q, e), NewAddress(e), RunBy(q, e))
  {
    hide Inv, NumbersKept, AddTimerInLoop, CancelInLoop, BeginRead, Fire, Reset;
    if e.Cancel? {
      CancelStepKeeps(q, e.id);
    } else {
      CreatedElsewhere(q);
    }
  }

  lemma AdditionKeeps(q: Queue, e: Event)
    requires Inv(q) && (e.Add? || e.AddElsewhere? || e.RunQueuedAdd?)
    ensures Advances(q, Step(q, e), NewAddress(e), RunBy(q, e))
  {
    hide Inv, NumbersKept, AddTimerInLoop, CancelInLoop, BeginRead, Fire, Reset;
    Stutters(q, NewAddress(e));
    match e
    case Add(a, when, interval, at) =>
      if Allocatable(q, a) { AddKeeps(q, a, when, interval, at); }
    case AddElsewhere(a, when, interval) =>
      if Allocatable(q, a) { AddElsewhereKeeps(q, a, when, interval); }
    case RunQueuedAdd(at) =>
      if q.phase.Idle? && q.queued != [] { RunQueuedAddKeeps(q, at); }
  }

  lemma ReadKeeps(q: Queue, e: Event)
    requires Inv(q) && (e.HandleReadBegins? || e.RunNextCallback? || e.HandleReadEnds?)
    ensures Advances(q, Step(q, e), NewAddress(e), RunBy(q, e))
  {
    hide Inv, NumbersKept, AddTimerInLoop, CancelInLoop, BeginRead, Fire, Reset;
    Stutters(q, NewAddress(e));
    match e
    case HandleReadBegins(now) =>
      if q.phase.Idle? { BeginReadKeeps(q, now); }
    case RunNextCallback =>
      if q.phase.Firing? && q.phase.next < |q.phase.batch| { FireKeeps(q); }
    case HandleReadEnds(at) =>
      if q.phase.Firing? && q.phase.next == |q.phase.batch| { EndReadKeeps(q, at); }
  }

  /** Once the callbacks have run, the batch is owned by `reset`. */
  lemma BatchIsOwned(q: Queue)
    requires Inv(q) && q.phase.Firing?
    ensures Owned(q.(phase := Idle), q.phase.batch)
  {
    hide SoundHeap, IndexesAgree, Partitioned;
    SameOwners(q, q.(phase := Idle), q.phase.batch);
  }

  lemma EndReadKeeps(q: Queue, at: Time)
    requires Inv(q) && q.phase.Firing?
    ensures var o := Reset(q.(phase := Idle), q.phase.batch, q.phase.now, at);
            && Advances(q, o, 0, [])
            && o.value == q.(timers := o.value.timers, active := o.value.active, heap := o.value.heap,
                             alarm := o.value.alarm, phase := Idle)
            && (forall b :: b in o.value.heap ==> b in q.heap && o.value.heap[b].sequence == q.heap[b].sequence)
  {
    hide SoundHeap, IndexesAgree, Partitioned;
    SameOwners(q, q.(phase := Idle), Held(q));
    ResetKeeps(q.(phase := Idle), Held(q), q.phase.now, at);
  }

  lemma Stutters(q: Queue, newcomer: nat)
    requires Inv(q)
    ensures Advances(q, Ok(q), newcomer, [])
  {
  }

  lemma HigherCounter(q: Queue, held: seq<Entry>)
    requires Owned(q, held)
    ensures Owned(q.(created := q.created + 1), held)
  {
    assert forall b :: IsActive(q.(created := q.created + 1), b) == IsActive(q, b);
  }

  lemma CreatedElsewhere(q: Queue)
    requires Inv(q)
    ensures Advances(q, Ok(q.(created := q.created + 1)), 0, [])
  {
    hide SoundHeap, IndexesAgree, Partitioned;
    HeldIsAlive(q);
    HigherCounter(q, Held(q));
    SameRecord(q, q.(created := q.created + 1));
  }

  lemma FireKeeps(q: Queue)
    requires Inv(q) && q.phase.Firing? && q.phase.next < |q.phase.batch|
    ensures Advances(q, Fire(q), 0, RunBy(q, RunNextCallback))
  {
    hide SoundHeap, IndexesAgree, Partitioned;
    SameOwners(q, Fire(q).value, Held(q));
  }

  /** In every run, with callbacks that add and cancel arbitrarily, every assertion of the source
      holds, no freed timer is touched or freed again, the indexes agree and every live timer has
      exactly one owner. */
  lemma {:induction false} EveryRunIsSafe(q: Queue, es: seq<Event>)
    requires Inv(q)
    ensures Run(q, es).Ok? && Inv(Run(q, es).value)
    decreases |es|
  {
    hide Inv, NumbersKept;
    if es != [] {
      StepKeeps(q, es[0]);
      EveryRunIsSafe(Step(q, es[0]).value, es[1..]);
    }
  }

  lemma InitIsGood()
    ensures Inv(Init())
  {
  }
}
