/** What a user of the timer queue may rely on, over every run. */
module TimerTheorems {
  import opened Outcomes
  import opened Timers
  import opened TimerSafety

  /** How many times the callback of timer `s` was run. */
  ghost function Count(fired: seq<nat>, s: nat): nat {
    if fired == [] then 0 else Count(fired[..|fired| - 1], s) + if fired[|fired| - 1] == s then 1 else 0
  }

  /** No live timer carries the sequence number `s`, and none ever will. */
  ghost predicate Gone(q: Queue, s: nat) {
    s <= q.created && forall a :: a in q.heap ==> q.heap[a].sequence != s
  }

  lemma CountAppend(fired: seq<nat>, more: seq<nat>, s: nat)
    requires |more| <= 1
    ensures Count(fired + more, s) == Count(fired, s) + if more == [s] then 1 else 0
  {
    if more == [] {
      assert fired + more == fired;
    } else {
      assert (fired + more)[..|fired|] == fired;
    }
  }

  // ---------------------------------------------------------------------------
  // Sequence numbers

  /** Different live timers have different sequence numbers. */
  ghost predicate Numbered(q: Queue) {
    forall a, b :: a in q.heap && b in q.heap && q.heap[a].sequence == q.heap[b].sequence ==> a == b
  }

  lemma StepNumbers(q: Queue, e: Event)
    requires Inv(q) && Numbered(q)
    ensures Step(q, e).Ok? && Numbered(Step(q, e).value)
  {
    StepKeeps(q, e);
  }

  /** Sequence numbers are unique over the whole run. */
  lemma {:induction false} NumbersStayUnique(q: Queue, es: seq<Event>)
    requires Inv(q) && Numbered(q)
    ensures Run(q, es).Ok? && Numbered(Run(q, es).value)
    decreases |es|
  {
    hide Inv, Numbered, NumbersKept;
    if es != [] {
      StepKeeps(q, es[0]);
      StepNumbers(q, es[0]);
      NumbersStayUnique(Step(q, es[0]).value, es[1..]);
    }
  }

  /** A timer that is gone is never run and never comes back, even if its address is reused. */
  lemma {:induction false} GoneForever(q: Queue, es: seq<Event>, s: nat)
    requires Inv(q) && Gone(q, s)
    ensures Run(q, es).Ok? && Gone(Run(q, es).value, s)
    ensures Count(Run(q, es).value.fired, s) == Count(q.fired, s)
    decreases |es|
  {
    hide Inv;
    if es != [] {
      StepKeeps(q, es[0]);
      CountAppend(q.fired, RunBy(q, es[0]), s);
      GoneForever(Step(q, es[0]).value, es[1..], s);
    }
  }

  // ---------------------------------------------------------------------------
  // Cancel is final

  lemma CancelFrees(q: Queue, id: TimerId)
    requires Inv(q) && Numbered(q) && id in q.active
    ensures var o := CancelInLoop(q, id); o.Ok? && Inv(o.value) && Gone(o.value, id.sequence) && o.value.fired == q.fired
  {
    CancelStepKeeps(q, id);
  }

  /** Cancelling an inserted timer that is not part of a running batch: it never runs again. */
  lemma CancelIsFinal(q: Queue, id: TimerId, es: seq<Event>)
    requires Inv(q) && Numbered(q) && id in q.active
    ensures var o := Run(q, [Cancel(id)] + es);
            o.Ok? && Gone(o.value, id.sequence) && Count(o.value.fired, id.sequence) == Count(q.fired, id.sequence)
  {
    hide Inv, Numbered, Gone, Count, Advances;
    CancelFrees(q, id);
    RunCons(q, Cancel(id), es);
    GoneForever(CancelInLoop(q, id).value, es, id.sequence);
  }

  /** The batch timer at position `k` has been cancelled by a callback of its own batch. */
  ghost predicate Doomed(q: Queue, k: nat, id: TimerId) {
    && q.phase.Firing? && k < |q.phase.batch| && q.phase.batch[k].address == id.address
    && id.address in q.heap && IdOf(q, id.address) == id && id in q.canceling
  }

  /** How often a doomed timer can still run: once, if its turn in the batch is still to come. */
  ghost function TurnsLeft(q: Queue, k: nat, id: TimerId): nat {
    if Doomed(q, k, id) && q.phase.next <= k then 1 else 0
  }

  /** `reset` will not restart this timer: it is one-shot, or it was cancelled. */
  ghost predicate Spent(q: Queue, a: nat) {
    a in q.heap && (!q.heap[a].Repeats() || IdOf(q, a) in q.canceling)
  }

  /** One round of `reset` frees a spent timer and leaves the rest of the batch alone. */
  lemma ResetOneFrees(q: Queue, held: seq<Entry>, now: Time, k: nat)
    requires Owned(q, held) && Numbered(q) && k < |held| && Spent(q, held[k].address)
    ensures ResetOne(q, held[0].address, now).Ok?
    ensures var r := ResetOne(q, held[0].address, now).value;
            && Numbered(r) && r.canceling == q.canceling && r.created == q.created
            && (k == 0 ==> Gone(r, q.heap[held[0].address].sequence))
            && (k > 0 ==> held[k].address in r.heap && r.heap[held[k].address] == q.heap[held[k].address])
  {
    hide IndexesAgree, Insert;
    ResetOneKeeps(q, held, now);
    assert k > 0 ==> held[k].address != held[0].address;
    InsertKeepsHeap(q.(heap := q.heap[held[0].address := q.heap[held[0].address].Restarted(now)]), held[0].address);
  }

  lemma InsertKeepsHeap(q: Queue, a: nat)
    ensures Insert(q, a).Ok? ==> Insert(q, a).value.heap == q.heap
  {
  }

  /** `reset` frees a spent batch timer and brings no other timer with its number to life. */
  lemma {:induction false} ResetFreesSpent(q: Queue, held: seq<Entry>, now: Time, k: nat)
    requires Owned(q, held) && Numbered(q) && k < |held| && Spent(q, held[k].address)
    ensures ResetAll(q, held, now).Ok?
    ensures Gone(ResetAll(q, held, now).value, q.heap[held[k].address].sequence)
    decreases |held|
  {
    hide Owned, ResetOne, Numbered;
    HeadIsAlive(q, held);
    KthIsAlive(q, held, k);
    ResetOneKeeps(q, held, now);
    ResetOneFrees(q, held, now, k);
    var r := ResetOne(q, held[0].address, now).value;
    if k == 0 {
      ResetAllKeeps(r, held[1..], now);
    } else {
      assert held[1..][k - 1] == held[k];
      ResetFreesSpent(r, held[1..], now, k - 1);
    }
  }

  lemma DoomedStep(q: Queue, e: Event, k: nat, id: TimerId)
    requires Inv(q) && Numbered(q) && Doomed(q, k, id)
    ensures Step(q, e).Ok?
    ensures var r := Step(q, e).value;
            && (Doomed(r, k, id) || Gone(r, id.sequence))
            && (r.phase.Idle? ==> Gone(r, id.sequence))
            && Count(r.fired, id.sequence) + TurnsLeft(r, k, id) <= Count(q.fired, id.sequence) + TurnsLeft(q, k, id)
  {
    hide Inv, Numbered, NumbersKept, Gone, Count, Doomed, Reset, Fire;
    DoomedIsFiring(q, k, id);
    match e
    case RunNextCallback =>
      DoomedFires(q, k, id);
      DoomedIsFiring(Step(q, e).value, k, id);
    case HandleReadEnds(at) =>
      if q.phase.next == |q.phase.batch| {
        EndFreesDoomed(q, at, k, id);
        GoneIsNotDoomed(Step(q, e).value, k, id);
      }
    case _ =>
      StepKeeps(q, e);
      DoomedSurvives(q, e, k, id);
      assert q.fired + [] == q.fired;
  }

  lemma DoomedIsFiring(q: Queue, k: nat, id: TimerId)
    requires Doomed(q, k, id)
    ensures q.phase.Firing?
  {
  }

  lemma GoneIsNotDoomed(q: Queue, k: nat, id: TimerId)
    requires Gone(q, id.sequence)
    ensures TurnsLeft(q, k, id) == 0
  {
  }

  lemma DoomedFires(q: Queue, k: nat, id: TimerId)
    requires Inv(q) && Numbered(q) && Doomed(q, k, id)
    ensures var o := Step(q, RunNextCallback);
            && o.Ok? && Doomed(o.value, k, id)
            && Count(o.value.fired, id.sequence) + TurnsLeft(o.value, k, id) <= Count(q.fired, id.sequence) + TurnsLeft(q, k, id)
  {
    hide SoundHeap, IndexesAgree, Count, Sorted;
    if q.phase.next < |q.phase.batch| {
      FireKeeps(q);
      var a := q.phase.batch[q.phase.next].address;
      CountAppend(q.fired, [q.heap[a].sequence], id.sequence);
      if q.phase.next != k {
        assert a != id.address && q.heap[a].sequence != id.sequence;
      }
    }
  }

  /** Nothing but the end of the batch touches a doomed timer. */
  lemma DoomedSurvives(q: Queue, e: Event, k: nat, id: TimerId)
    requires Inv(q) && Doomed(q, k, id) && !e.RunNextCallback? && !e.HandleReadEnds?
    ensures Step(q, e).Ok? && Doomed(Step(q, e).value, k, id)
    ensures Step(q, e).value.phase == q.phase
  {
    match e
    case Add(a, when, interval, at) =>
      if Allocatable(q, a) { AddKeeps(q, a, when, interval, at); }
    case Cancel(x) => CancelStepKeeps(q, x);
    case _ =>
  }

  lemma EndFreesDoomed(q: Queue, at: Time, k: nat, id: TimerId)
    requires Inv(q) && Numbered(q) && Doomed(q, k, id)
    ensures var o := Reset(q.(phase := Idle), q.phase.batch, q.phase.now, at);
            o.Ok? && o.value.phase.Idle? && Gone(o.value, id.sequence) && o.value.fired == q.fired
  {
    SameOwners(q, q.(phase := Idle), q.phase.batch);
    ResetFreesSpent(q.(phase := Idle), q.phase.batch, q.phase.now, k);
    EndReadKeeps(q, at);
  }

  /** Cancelling a timer of the running batch from a callback of that batch: the only further run it
      can have is its own turn in this batch; once `handleRead` returns it is gone for good. */
  lemma {:induction false} CancelInBatchIsFinal(q: Queue, k: nat, id: TimerId, es: seq<Event>)
    requires Inv(q) && Numbered(q) && Doomed(q, k, id)
    ensures Run(q, es).Ok?
    ensures var r := Run(q, es).value;
            && (Doomed(r, k, id) || Gone(r, id.sequence))
            && (r.phase.Idle? ==> Gone(r, id.sequence))
            && Count(r.fired, id.sequence) <= Count(q.fired, id.sequence) + TurnsLeft(q, k, id)
    decreases |es|
  {
    hide Inv, Numbered, NumbersKept, Gone;
    if es != [] {
      StepKeeps(q, es[0]);
      StepNumbers(q, es[0]);
      DoomedStep(q, es[0], k, id);
      var r := Step(q, es[0]).value;
      if Gone(r, id.sequence) {
        GoneForever(r, es[1..], id.sequence);
      } else {
        CancelInBatchIsFinal(r, k, id, es[1..]);
      }
    }
  }

  /** Cancelling a live timer takes effect (at once, or at the end of its running batch) exactly when
      its insertion is not still waiting in the functor queue. */
  lemma CancelTakesEffectIff(q: Queue, id: TimerId)
    requires Inv(q) && Numbered(q) && id.address in q.heap && IdOf(q, id.address) == id
    ensures CancelInLoop(q, id).Ok?
    ensures var r := CancelInLoop(q, id).value;
            (Gone(r, id.sequence) || exists k: nat :: Doomed(r, k, id)) <==> id.address !in q.queued
  {
    hide Inv, Numbered;
    CancelStepKeeps(q, id);
    OneOwner(q, id);
    if id in q.active {
      CancelFrees(q, id);
    } else if InBatch(Held(q), id.address) {
      var k: nat :| 0 <= k < |Held(q)| && Held(q)[k].address == id.address;
      assert Doomed(CancelInLoop(q, id).value, k, id);
    } else {
      var r := CancelInLoop(q, id).value;
      assert id.address in r.heap && r.heap[id.address].sequence == id.sequence;
    }
  }

  /** A live timer is active, or in the running batch, or waiting to be inserted; never two of these. */
  lemma OneOwner(q: Queue, id: TimerId)
    requires Inv(q) && id.address in q.heap && IdOf(q, id.address) == id
    ensures id in q.active || InBatch(Held(q), id.address) || id.address in q.queued
    ensures id.address in q.queued ==> id !in q.active && !InBatch(Held(q), id.address)
    ensures id in q.active ==> !InBatch(Held(q), id.address)
  {
    assert IsActive(q, id.address) == (id in q.active);
  }

  /** A cancel that overtakes the queued insertion of its timer is lost: the timer becomes active all the same. */
  lemma OvertakingCancelIsLost(q: Queue, at: Time)
    requires Inv(q) && q.phase.Idle? && q.queued != [] && q.queued[0] in q.heap
    ensures var id := IdOf(q, q.queued[0]);
            var o := Run(q, [Cancel(id)] + [RunQueuedAdd(at)]);
            o.Ok? && id in o.value.active
  {
    var a := q.queued[0];
    var id := IdOf(q, a);
    assert a in q.queued;
    OneOwner(q, id);
    assert CancelInLoop(q, id) == Ok(q) by { CancelStepKeeps(q, id); }
    RunCons(q, Cancel(id), [RunQueuedAdd(at)]);
    assert [RunQueuedAdd(at)] + [] == [RunQueuedAdd(at)];
    RunQueuedAddKeeps(q, at);
    RunCons(q, RunQueuedAdd(at), []);
    QueuedHead(q);
    InsertKeeps(q.(queued := q.queued[1..]), a);
  }

  // ---------------------------------------------------------------------------
  // Stale ids are harmless

  /** An id that was handed out in the past and no longer names a live timer. */
  ghost predicate Stale(q: Queue, id: TimerId) {
    id.sequence <= q.created && !(id.address in q.heap && IdOf(q, id.address) == id)
  }

  /** The two queues differ at most in stale ids remembered in `cancelingTimers_`. */
  ghost predicate SameButStale(q: Queue, r: Queue) {
    && r == q.(canceling := r.canceling)
    && (forall id :: (id in q.canceling) != (id in r.canceling) ==> Stale(q, id))
  }

  lemma {:induction false} ResetAllAlike(q: Queue, r: Queue, held: seq<Entry>, now: Time)
    requires Owned(q, held) && SameButStale(q, r)
    ensures ResetAll(q, held, now).Ok? && ResetAll(r, held, now).Ok?
    ensures SameButStale(ResetAll(q, held, now).value, ResetAll(r, held, now).value)
    decreases |held|
  {
    hide Owned, ResetOne;
    if held != [] {
      var a := held[0].address;
      ResetOneKeeps(q, held, now);
      ResetOneAlike(q, r, held, now);
      ResetAllAlike(ResetOne(q, a, now).value, ResetOne(r, a, now).value, held[1..], now);
    }
  }

  lemma KthIsAlive(q: Queue, held: seq<Entry>, k: nat)
    requires Owned(q, held) && k < |held|
    ensures held[k].address in q.heap
  {
  }

  lemma HeadIsAlive(q: Queue, held: seq<Entry>)
    requires Owned(q, held) && held != []
    ensures held[0].address in q.heap
  {
  }

  lemma SameOwned(q: Queue, r: Queue, held: seq<Entry>)
    requires Owned(q, held) && r == q.(canceling := r.canceling, phase := r.phase)
    ensures Owned(r, held)
  {
    SameOwners(q, r, held);
  }

  lemma ResetOneAlike(q: Queue, r: Queue, held: seq<Entry>, now: Time)
    requires Owned(q, held) && held != [] && SameButStale(q, r)
    ensures ResetOne(q, held[0].address, now).Ok? && ResetOne(r, held[0].address, now).Ok?
    ensures SameButStale(ResetOne(q, held[0].address, now).value, ResetOne(r, held[0].address, now).value)
  {
    hide Owned;
    assert held[0].address in q.heap by { HeadIsAlive(q, held); }
    SameOwned(q, r, held);
    ResetOneKeeps(q, held, now);
    ResetOneKeeps(r, held, now);
    assert (IdOf(q, held[0].address) in q.canceling) == (IdOf(q, held[0].address) in r.canceling);
  }

  lemma InsertIgnoresCanceling(q: Queue, c: set<TimerId>, a: nat)
    requires Insert(q, a).Ok?
    ensures Insert(q.(canceling := c), a) == Ok(Insert(q, a).value.(canceling := c))
    ensures Insert(q, a).value.canceling == q.canceling
  {
  }

  lemma AddIgnoresCanceling(q: Queue, c: set<TimerId>, a: nat, at: Time)
    requires AddTimerInLoop(q, a, at).Ok?
    ensures AddTimerInLoop(q.(canceling := c), a, at) == Ok(AddTimerInLoop(q, a, at).value.(canceling := c))
    ensures AddTimerInLoop(q, a, at).value.canceling == q.canceling
  {
    hide Insert;
    InsertIgnoresCanceling(q, c, a);
  }

  lemma BeginReadIgnoresCanceling(q: Queue, c: set<TimerId>, now: Time)
    ensures BeginRead(q.(canceling := c), now) == BeginRead(q, now)
  {
  }

  /** Apart from `reset`, no operation looks at `cancelingTimers_`. */
  lemma SameEffect(q: Queue, r: Queue, e: Event)
    requires r == q.(canceling := r.canceling) && !e.HandleReadEnds? && Step(q, e).Ok?
    ensures Step(r, e).Ok?
    ensures var q', r' := Step(q, e).value, Step(r, e).value;
            && r' == q'.(canceling := r'.canceling)
            && forall id :: (id in q'.canceling) != (id in r'.canceling) ==> (id in q.canceling) != (id in r.canceling)
  {
    hide AddTimerInLoop;
    match e
    case Add(a, when, interval, at) =>
      if Allocatable(q, a) { AddIgnoresCanceling(Allocate(q, a, when, interval), r.canceling, a, at); }
    case RunQueuedAdd(at) =>
      if q.phase.Idle? && q.queued != [] {
        AddIgnoresCanceling(q.(queued := q.queued[1..]), r.canceling, q.queued[0], at);
      }
    case HandleReadBegins(now) =>
      if q.phase.Idle? {
        BeginReadIgnoresCanceling(q, r.canceling, now);
        assert Step(q, e) == BeginRead(q, now) && Step(r, e) == BeginRead(r, now);
      }
    case _ =>
  }

  lemma StaleStays(q: Queue, e: Event, id: TimerId)
    requires Inv(q) && Stale(q, id)
    ensures Step(q, e).Ok? && Stale(Step(q, e).value, id)
  {
    StepKeeps(q, e);
  }

  /** The same event on two such queues has the same effect. */
  lemma StepAlike(q: Queue, r: Queue, e: Event)
    requires Inv(q) && SameButStale(q, r)
    ensures Step(q, e).Ok? && Step(r, e).Ok? && SameButStale(Step(q, e).value, Step(r, e).value)
  {
    hide Inv, NumbersKept;
    if e.HandleReadEnds? {
      EndAlike(q, r, e);
    } else {
      StepKeeps(q, e);
      SameEffect(q, r, e);
      forall id | (id in Step(q, e).value.canceling) != (id in Step(r, e).value.canceling)
        ensures Stale(Step(q, e).value, id)
      {
        StaleStays(q, e, id);
      }
    }
  }

  lemma RearmAlike(q: Queue, r: Queue, at: Time)
    requires SameButStale(q, r) && Rearm(q, at).Ok?
    ensures Rearm(r, at).Ok? && SameButStale(Rearm(q, at).value, Rearm(r, at).value)
  {
    var p := Rearm(q, at).value;
    assert p == q.(alarm := p.alarm);
    assert forall id :: Stale(q, id) == Stale(p, id);
  }

  lemma EndAlike(q: Queue, r: Queue, e: Event)
    requires Inv(q) && SameButStale(q, r) && e.HandleReadEnds?
    ensures Step(q, e).Ok? && Step(r, e).Ok? && SameButStale(Step(q, e).value, Step(r, e).value)
  {
    hide Inv, Owned, ResetAll, Rearm, Stale;
    if q.phase.Firing? && q.phase.next == |q.phase.batch| {
      var p, s := q.(phase := Idle), r.(phase := Idle);
      BatchIsOwned(q);
      SameWhenIdle(q, r);
      ResetKeeps(p, q.phase.batch, q.phase.now, e.at);
      ResetAllAlike(p, s, q.phase.batch, q.phase.now);
      RearmAlike(ResetAll(p, q.phase.batch, q.phase.now).value, ResetAll(s, q.phase.batch, q.phase.now).value, e.at);
    }
  }

  lemma SameWhenIdle(q: Queue, r: Queue)
    requires SameButStale(q, r)
    ensures SameButStale(q.(phase := Idle), r.(phase := Idle))
  {
    assert forall id :: Stale(q, id) == Stale(q.(phase := Idle), id);
  }

  lemma StaleCancelAlike(q: Queue, id: TimerId)
    requires Inv(q) && Stale(q, id)
    ensures var o := Step(q, Cancel(id)); o.Ok? && SameButStale(q, o.value)
  {
    hide Partitioned, BatchRecorded, Sorted;
    assert id !in q.active;
  }

  /** Cancelling a stale id changes nothing that any later event can see: every later state has the
      same timers, the same indexes, the same alarm and the same callbacks run as without it. */
  lemma {:induction false} StaleCancelIsInvisible(q: Queue, id: TimerId, es: seq<Event>)
    requires Inv(q) && Stale(q, id)
    ensures var without, with := Run(q, es), Run(q, [Cancel(id)] + es);
            without.Ok? && with.Ok? && SameButStale(without.value, with.value)
  {
    hide Inv, SameButStale, Stale, Step, Run;
    StaleCancelAlike(q, id);
    RunCons(q, Cancel(id), es);
    AlikeForever(q, Step(q, Cancel(id)).value, es);
  }

  lemma {:induction false} AlikeForever(q: Queue, r: Queue, es: seq<Event>)
    requires Inv(q) && SameButStale(q, r)
    ensures Run(q, es).Ok? && Run(r, es).Ok? && SameButStale(Run(q, es).value, Run(r, es).value)
    decreases |es|
  {
    hide Inv, NumbersKept, SameButStale;
    if es != [] {
      StepKeeps(q, es[0]);
      StepAlike(q, r, es[0]);
      AlikeForever(Step(q, es[0]).value, Step(r, es[0]).value, es[1..]);
    }
  }
}
