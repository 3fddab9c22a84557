/** What each operation of the timer queue does: which timers it leaves, where, with which expirations, and when
    the timerfd then goes off. */
module TimerEffects {
  import opened Outcomes
  import opened Timers
  import opened TimerSafety
  import opened TimerTheorems

  // ---------------------------------------------------------------------------
  // Arming

  /** The alarm was set at `at`, for `when` or the shortest delay. */
  ghost predicate SetFor(a: Alarm, when: Time, at: Time) {
    a.Armed? && a.armedAt == at && a.deadline == if when >= at + 100 then when else at + 100
  }

  /** The alarm after a timer with expiration `when` was added to `q`: set anew exactly if it comes first. */
  ghost predicate AlarmAfterAdding(q: Queue, r: Queue, when: Time, at: Time) {
    if q.timers == [] || when < q.timers[0].when then SetFor(r.alarm, when, at) else r.alarm == q.alarm
  }

  /** Inserting adds one entry to each index, and nothing else changes but the alarm. */
  lemma AddInLoopEffect(q: Queue, a: nat, at: Time)
    requires SoundHeap(q) && IndexesAgree(q) && a in q.heap && !IsActive(q, a)
    ensures AddTimerInLoop(q, a, at).Ok?
    ensures var r := AddTimerInLoop(q, a, at).value; var e := Entry(q.heap[a].expiration, a);
            && r == q.(timers := r.timers, active := r.active, alarm := r.alarm)
            && (forall x :: x in r.timers <==> x == e || x in q.timers) && |r.timers| == |q.timers| + 1
            && (forall id :: id in r.active <==> id == TimerId(a, q.heap[a].sequence) || id in q.active)
            && AlarmAfterAdding(q, r, q.heap[a].expiration, at)
  {
    hide Insert, Sorted;
    InsertKeeps(q, a);
    InsertEntries(q, a);
  }

  lemma InsertEntries(q: Queue, a: nat)
    requires SoundHeap(q) && IndexesAgree(q) && a in q.heap && !IsActive(q, a)
    ensures Insert(q, a).Ok?
    ensures var r := Insert(q, a).value;
            && (forall x :: x in r.timers <==> x == Entry(q.heap[a].expiration, a) || x in q.timers)
            && |r.timers| == |q.timers| + 1
            && (forall id :: id in r.active <==> id == TimerId(a, q.heap[a].sequence) || id in q.active)
  {
    var e := Entry(q.heap[a].expiration, a);
    assert e !in q.timers;
    InsertKeeps(q, a);
    InsertEntryOrdered(q.timers, e);
  }

  /** The new timer, and only it, is on the heap, numbered above all others. */
  ghost predicate Born(q: Queue, r: Queue, a: nat, when: Time, interval: real) {
    && a !in q.heap && r.heap == q.heap[a := Timer(when, interval, q.created + 1)] && r.created == q.created + 1
    && r.canceling == q.canceling && r.phase == q.phase && r.fired == q.fired
  }

  /** addTimer on the loop thread: the timer is in both indexes at once. */
  lemma AddEffect(q: Queue, a: nat, when: Time, interval: real, at: Time)
    requires Inv(q) && Allocatable(q, a)
    ensures Step(q, Add(a, when, interval, at)).Ok?
    ensures var r := Step(q, Add(a, when, interval, at)).value;
            && Born(q, r, a, when, interval) && r.queued == q.queued
            && (forall x :: x in r.timers <==> x == Entry(when, a) || x in q.timers)
            && (forall id :: id in r.active <==> id == TimerId(a, q.created + 1) || id in q.active)
            && AlarmAfterAdding(q, r, when, at)
  {
    hide AddTimerInLoop, IndexesAgree, Partitioned;
    AllocateKeeps(q, Held(q), a, when, interval);
    AddInLoopEffect(Allocate(q, a, when, interval), a, at);
  }

  /** addTimer on another thread: the timer waits, last, for its insertion. */
  lemma AddElsewhereEffect(q: Queue, a: nat, when: Time, interval: real)
    requires Inv(q) && Allocatable(q, a)
    ensures Step(q, AddElsewhere(a, when, interval)).Ok?
    ensures var r := Step(q, AddElsewhere(a, when, interval)).value;
            && Born(q, r, a, when, interval) && r.queued == q.queued + [a]
            && r.timers == q.timers && r.active == q.active && r.alarm == q.alarm
  {
  }

  /** And the insertions are made in the order of the calls. */
  lemma QueuedAddEffect(q: Queue, at: Time)
    requires Inv(q) && q.phase.Idle? && q.queued != []
    ensures Step(q, RunQueuedAdd(at)).Ok? && q.queued[0] in q.heap
    ensures var r := Step(q, RunQueuedAdd(at)).value; var a := q.queued[0]; var t := q.heap[a];
            && [a] + r.queued == q.queued
            && r == q.(queued := r.queued, timers := r.timers, active := r.active, alarm := r.alarm)
            && (forall x :: x in r.timers <==> x == Entry(t.expiration, a) || x in q.timers)
            && (forall id :: id in r.active <==> id == TimerId(a, t.sequence) || id in q.active)
            && AlarmAfterAdding(q, r, t.expiration, at)
  {
    hide AddTimerInLoop, IndexesAgree;
    assert q.queued[0] in q.queued;
    var p := q.(queued := q.queued[1..]);
    QueueIrrelevant(q, p);
    AddInLoopEffect(p, q.queued[0], at);
  }

  // ---------------------------------------------------------------------------
  // Cancelling

  /** An active timer is taken out of both indexes and freed; the id of any other is remembered while a batch
      fires, and ignored otherwise. Nothing else changes, the alarm included. */
  lemma CancelEffect(q: Queue, id: TimerId)
    requires Inv(q)
    ensures Step(q, Cancel(id)).Ok?
    ensures var r := Step(q, Cancel(id)).value;
            if id in q.active then
              && id.address in q.heap
              && r == q.(heap := q.heap - {id.address}, active := q.active - {id}, timers := r.timers)
              && (forall x :: x in r.timers <==> x in q.timers && x != Entry(q.heap[id.address].expiration, id.address))
            else if q.phase.Firing? then r == q.(canceling := q.canceling + {id})
            else r == q
  {
    hide Partitioned, BatchRecorded;
    CancelKeeps(q, Held(q), id);
    if id in q.active {
      EraseEntryOrdered(q.timers, Entry(q.heap[id.address].expiration, id.address));
    }
  }

  // ---------------------------------------------------------------------------
  // A batch

  /** handleRead begins: the due timers leave both indexes, in order; the alarm is no longer readable, and one
      still in the future stays. */
  lemma BeginEffect(q: Queue, now: Time)
    requires Inv(q) && q.phase.Idle?
    ensures Step(q, HandleReadBegins(now)).Ok?
    ensures var r := Step(q, HandleReadBegins(now)).value;
            && r.phase.Firing? && r.phase.now == now && r.phase.next == 0 && r.phase.batch + r.timers == q.timers
            && (forall i :: 0 <= i < |r.phase.batch| ==> r.phase.batch[i].when <= now)
            && (forall i :: 0 <= i < |r.timers| ==> r.timers[i].when > now)
            && r.heap == q.heap && r.queued == q.queued && r.fired == q.fired && r.created == q.created
            && r.canceling == {} && !Readable(r.alarm, now) && (!Readable(q.alarm, now) ==> r.alarm == q.alarm)
  {
    hide SoundHeap, IndexesAgree, Partitioned, Sorted, BeginRead, NumbersKept;
    BeginReadKeeps(q, now);
    assert BatchRecorded(Step(q, HandleReadBegins(now)).value);
  }

  /** One callback: the next timer of the batch runs, and nothing else changes. */
  lemma FireEffect(q: Queue)
    requires Inv(q) && q.phase.Firing? && q.phase.next < |q.phase.batch|
    ensures Step(q, RunNextCallback).Ok? && q.phase.batch[q.phase.next].address in q.heap
    ensures Step(q, RunNextCallback).value ==
            q.(fired := q.fired + [q.heap[q.phase.batch[q.phase.next].address].sequence],
               phase := Firing(q.phase.batch, q.phase.next + 1, q.phase.now, q.phase.since))
  {
    hide SoundHeap, IndexesAgree, Partitioned, Sorted;
  }

  lemma {:induction false} ResetLeavesOthers(q: Queue, held: seq<Entry>, now: Time, a: nat)
    requires Owned(q, held) && a in q.heap && !InBatch(held, a)
    ensures ResetAll(q, held, now).Ok?
    ensures var r := ResetAll(q, held, now).value; a in r.heap && r.heap[a] == q.heap[a]
    decreases |held|
  {
    hide Owned, ResetOne;
    if held != [] {
      ResetOneKeeps(q, held, now);
      ResetOneLeavesOthers(q, held, now, a);
      assert forall i :: 0 <= i < |held[1..]| ==> held[1..][i] == held[i + 1];
      ResetLeavesOthers(ResetOne(q, held[0].address, now).value, held[1..], now, a);
    }
  }

  lemma ResetOneLeavesOthers(q: Queue, held: seq<Entry>, now: Time, a: nat)
    requires Owned(q, held) && held != [] && a in q.heap && !InBatch(held, a)
    ensures ResetOne(q, held[0].address, now).Ok?
    ensures var r := ResetOne(q, held[0].address, now).value; a in r.heap && r.heap[a] == q.heap[a]
  {
    hide Owned;
    assert held[0].address != a;
    HeadIsAlive(q, held);
    ResetOneKeeps(q, held, now);
  }

  /** When a timer that repeats runs again, after a batch taken at `now`. */
  ghost function Again(t: Timer, now: Time): Timer { t.(expiration := now + (t.interval * 1000000.0).Floor) }

  /** A batch timer that repeats and was not cancelled goes on; any other is freed. */
  ghost predicate GoesOn(q: Queue, a: nat)
    requires a in q.heap
  {
    q.heap[a].interval > 0.0 && TimerId(a, q.heap[a].sequence) !in q.canceling
  }

  lemma ResetHead(q: Queue, held: seq<Entry>, now: Time)
    requires Owned(q, held) && held != []
    ensures held[0].address in q.heap && ResetOne(q, held[0].address, now).Ok?
    ensures var a, r := held[0].address, ResetOne(q, held[0].address, now).value;
            if GoesOn(q, a) then a in r.heap && r.heap[a] == Again(q.heap[a], now) else a !in r.heap
  {
    hide Owned, Insert;
    HeadIsAlive(q, held);
    ResetOneKeeps(q, held, now);
    InsertKeepsHeap(q.(heap := q.heap[held[0].address := q.heap[held[0].address].Restarted(now)]), held[0].address);
  }

  lemma NotInRest(held: seq<Entry>)
    requires DistinctAddresses(held) && held != []
    ensures !InBatch(held[1..], held[0].address)
  {
  }

  lemma {:induction false} ResetAllDoes(q: Queue, held: seq<Entry>, now: Time, k: nat)
    requires Owned(q, held) && k < |held|
    ensures held[k].address in q.heap && ResetAll(q, held, now).Ok?
    ensures var a, r := held[k].address, ResetAll(q, held, now).value;
            if GoesOn(q, a) then a in r.heap && r.heap[a] == Again(q.heap[a], now) else a !in r.heap
    decreases |held|
  {
    hide Owned, ResetOne, GoesOn;
    KthIsAlive(q, held, k);
    ResetOneKeeps(q, held, now);
    var r := ResetOne(q, held[0].address, now).value;
    ResetAllKeeps(r, held[1..], now);
    HeldIsDistinct(q, held);
    if k == 0 {
      ResetHead(q, held, now);
      NotInRest(held);
      if held[0].address in r.heap { ResetLeavesOthers(r, held[1..], now, held[0].address); }
    } else {
      assert held[1..][k - 1] == held[k] && held[k].address != held[0].address;
      ResetOneLeaves(q, held, now, held[k].address);
      ResetAllDoes(r, held[1..], now, k - 1);
      SameGoesOn(q, r, held[k].address);
    }
  }

  lemma HeldIsDistinct(q: Queue, held: seq<Entry>)
    requires Owned(q, held)
    ensures DistinctAddresses(held)
  {
  }

  lemma SameGoesOn(q: Queue, r: Queue, a: nat)
    requires a in q.heap && a in r.heap && r.heap[a] == q.heap[a] && r.canceling == q.canceling
    ensures GoesOn(r, a) == GoesOn(q, a)
  {
  }

  lemma ResetOneLeaves(q: Queue, held: seq<Entry>, now: Time, b: nat)
    requires Owned(q, held) && held != [] && b in q.heap && b != held[0].address
    ensures ResetOne(q, held[0].address, now).Ok?
    ensures var r := ResetOne(q, held[0].address, now).value; b in r.heap && r.heap[b] == q.heap[b]
  {
    hide Owned, Insert;
    HeadIsAlive(q, held);
    ResetOneKeeps(q, held, now);
    InsertKeepsHeap(q.(heap := q.heap[held[0].address := q.heap[held[0].address].Restarted(now)]), held[0].address);
  }

  /** The alarm after the batch: for the first timer left, unless there is none or its expiration is not valid. */
  ghost predicate AlarmAfterBatch(q: Queue, r: Queue, at: Time) {
    if r.timers != [] && r.timers[0].when > 0 then SetFor(r.alarm, r.timers[0].when, at) else r.alarm == q.alarm
  }

  lemma ResetArms(q: Queue, held: seq<Entry>, now: Time, at: Time)
    requires Owned(q, held) && q.phase.Idle?
    ensures Reset(q, held, now, at).Ok? && AlarmAfterBatch(q, Reset(q, held, now, at).value, at)
    ensures ResetAll(q, held, now).Ok? && Reset(q, held, now, at).value.heap == ResetAll(q, held, now).value.heap
  {
    hide SoundHeap, Partitioned, ResetAll, Sorted;
    ResetAllKeeps(q, held, now);
    FirstIsAlive(ResetAll(q, held, now).value);
    ResetKeeps(q, held, now, at);
  }

  /** handleRead ends: each timer of the batch that repeats and was not cancelled is in both indexes again, one
      interval after the time of the batch; every other timer of the batch is freed; no other timer changes. */
  lemma EndEffect(q: Queue, at: Time, a: nat)
    requires Inv(q) && q.phase.Firing? && q.phase.next == |q.phase.batch| && a in q.heap
    ensures Step(q, HandleReadEnds(at)).Ok?
    ensures var r := Step(q, HandleReadEnds(at)).value; var t := q.heap[a];
            && (if !InBatch(q.phase.batch, a) then a in r.heap && r.heap[a] == t && IsActive(r, a) == IsActive(q, a)
                else if GoesOn(q, a) then
                  && a in r.heap && r.heap[a] == Again(t, q.phase.now)
                  && TimerId(a, t.sequence) in r.active
                  && Entry(q.phase.now + (t.interval * 1000000.0).Floor, a) in r.timers
                else a !in r.heap)
            && r.heap.Keys <= q.heap.Keys && AlarmAfterBatch(q, r, at)
            && r == q.(phase := Idle, heap := r.heap, timers := r.timers, active := r.active, alarm := r.alarm)
  {
    hide Inv, Owned, ResetAll, GoesOn, Reset;
    var p := q.(phase := Idle);
    BatchIsOwned(q);
    ResetKeeps(p, q.phase.batch, q.phase.now, at);
    ResetArms(p, q.phase.batch, q.phase.now, at);
    var r := Step(q, HandleReadEnds(at)).value;
    if InBatch(q.phase.batch, a) {
      var k :| 0 <= k < |q.phase.batch| && q.phase.batch[k].address == a;
      ResetAllDoes(p, q.phase.batch, q.phase.now, k);
      SameGoesOn(q, p, a);
      NotQueued(q, a);
      if a in r.heap { ActiveUnlessQueued(r, a); }
    } else {
      ResetLeavesOthers(p, q.phase.batch, q.phase.now, a);
      SameActivity(q, r, a);
    }
  }

  lemma NotQueued(q: Queue, a: nat)
    requires Inv(q) && InBatch(Held(q), a)
    ensures a !in q.queued
  {
  }

  lemma ActiveUnlessQueued(r: Queue, a: nat)
    requires Inv(r) && r.phase.Idle? && a in r.heap && a !in r.queued
    ensures TimerId(a, r.heap[a].sequence) in r.active && Entry(r.heap[a].expiration, a) in r.timers
  {
  }

  lemma SameActivity(q: Queue, r: Queue, a: nat)
    requires Inv(q) && Inv(r) && r.phase.Idle? && r.queued == q.queued && a in q.heap && a in r.heap && !InBatch(Held(q), a)
    ensures IsActive(r, a) == IsActive(q, a)
  {
    hide SoundHeap, IndexesAgree, BatchRecorded;
  }
}
