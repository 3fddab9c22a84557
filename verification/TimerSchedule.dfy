/** When timers run: each batch is exactly what has expired, and the timerfd is always armed early enough. */
module TimerSchedule {
  import opened Outcomes
  import opened Timers
  import opened TimerSafety

  // ---------------------------------------------------------------------------
  // A batch is exactly what has expired

  /** The entries due at `now`, in order: the reference definition of a batch. */
  function Expired(timers: seq<Entry>, now: Time): seq<Entry> {
    if timers == [] then []
    else (if timers[0].when <= now then [timers[0]] else []) + Expired(timers[1..], now)
  }

  lemma {:induction false} ExpiredOfSplit(batch: seq<Entry>, rest: seq<Entry>, now: Time)
    requires forall i :: 0 <= i < |batch| ==> batch[i].when <= now
    requires forall i :: 0 <= i < |rest| ==> rest[i].when > now
    ensures Expired(batch + rest, now) == batch
    decreases |batch| + |rest|
  {
    if batch != [] {
      assert (batch + rest)[1..] == batch[1..] + rest;
      ExpiredOfSplit(batch[1..], rest, now);
    } else if rest != [] {
      assert batch + rest == rest;
      assert rest[1..] == [] + rest[1..];
      ExpiredOfSplit([], rest[1..], now);
    }
  }

  /** The sequence numbers of the timers that the entries point to. */
  ghost function Numbers(q: Queue, s: seq<Entry>): seq<nat> {
    seq(|s|, i requires 0 <= i < |s| => if s[i].address in q.heap then q.heap[s[i].address].sequence else 0)
  }

  /** What the callbacks of a batch, or other threads, can do while the batch runs. */
  ghost predicate WithinBatch(es: seq<Event>) {
    forall i :: 0 <= i < |es| ==> !es[i].HandleReadBegins? && !es[i].HandleReadEnds?
  }

  lemma AddKeepsPhase(q: Queue, a: nat, at: Time)
    requires AddTimerInLoop(q, a, at).Ok?
    ensures AddTimerInLoop(q, a, at).value.phase == q.phase
  {
  }

  /** Only the two ends of `handleRead` change the batch. */
  lemma BatchFixed(q: Queue, e: Event)
    requires q.phase.Firing? && !e.HandleReadBegins? && !e.HandleReadEnds? && Step(q, e).Ok?
    ensures var r := Step(q, e).value; r.phase.Firing? && r.phase == q.phase.(next := r.phase.next)
  {
    match e
    case Add(a, when, interval, at) =>
      if Allocatable(q, a) { AddKeepsPhase(Allocate(q, a, when, interval), a, at); }
    case _ =>
  }

  lemma BatchStable(q: Queue, e: Event)
    requires Inv(q) && q.phase.Firing? && !e.HandleReadBegins? && !e.HandleReadEnds?
    ensures Step(q, e).Ok?
    ensures var r := Step(q, e).value;
            && Inv(r) && r.phase.Firing? && r.phase == q.phase.(next := r.phase.next)
            && Numbers(r, r.phase.batch) == Numbers(q, q.phase.batch)
            && q.fired <= r.fired
  {
    StepKeeps(q, e);
    BatchFixed(q, e);
    SameNumbers(q, Step(q, e).value, NewAddress(e), q.phase.batch);
  }

  lemma SameNumbers(q: Queue, r: Queue, newcomer: nat, s: seq<Entry>)
    requires NumbersKept(q, r, newcomer)
    requires forall i :: 0 <= i < |s| ==> s[i].address in q.heap && s[i].address in r.heap
    ensures Numbers(r, s) == Numbers(q, s)
  {
  }

  lemma {:induction false} BatchStableOverRun(q: Queue, es: seq<Event>)
    requires Inv(q) && q.phase.Firing? && WithinBatch(es)
    ensures Run(q, es).Ok?
    ensures var r := Run(q, es).value;
            && Inv(r) && r.phase.Firing? && r.phase == q.phase.(next := r.phase.next)
            && Numbers(r, r.phase.batch) == Numbers(q, q.phase.batch)
            && q.fired <= r.fired
    decreases |es|
  {
    if es != [] {
      BatchStable(q, es[0]);
      BatchStableOverRun(Step(q, es[0]).value, es[1..]);
    }
  }

  /** `getExpired` takes exactly the expired timers and leaves only later ones. */
  lemma BatchIsExpired(q: Queue, now: Time)
    requires Inv(q) && q.phase.Idle?
    ensures BeginRead(q, now).Ok?
    ensures var b := BeginRead(q, now).value;
            && b.phase.Firing? && b.phase.batch == Expired(q.timers, now)
            && (forall i :: 0 <= i < |b.phase.batch| ==> b.phase.batch[i].address in q.heap)
            && (forall i :: 0 <= i < |b.timers| ==> b.timers[i].when > now)
  {
    hide SoundHeap, IndexesAgree, Partitioned, Sorted, BeginRead, NumbersKept;
    BeginReadKeeps(q, now);
    var b := BeginRead(q, now).value;
    assert BatchRecorded(b);
    ExpiredOfSplit(b.phase.batch, b.timers, now);
  }

  /** A whole `handleRead`, whatever its callbacks and other threads do meanwhile: if it comes to its
      end it has run exactly the timers that had expired at its start, each once, in order. */
  lemma RunsExactlyTheExpired(q: Queue, now: Time, es: seq<Event>, at: Time)
    requires Inv(q) && q.phase.Idle? && WithinBatch(es)
    ensures forall i :: 0 <= i < |Expired(q.timers, now)| ==> Expired(q.timers, now)[i].address in q.heap
    ensures var o := Run(q, [HandleReadBegins(now)] + (es + [HandleReadEnds(at)]));
            && o.Ok?
            && (o.value.phase.Idle? ==> o.value.fired == q.fired + Numbers(q, Expired(q.timers, now)))
  {
    BatchIsExpired(q, now);
    BeginReadKeeps(q, now);
    var b := BeginRead(q, now).value;
    RunCons(q, HandleReadBegins(now), es + [HandleReadEnds(at)]);
    BatchRuns(b, es, at);
  }

  /** The same, from the moment the batch has been taken. */
  lemma BatchRuns(b: Queue, es: seq<Event>, at: Time)
    requires Inv(b) && b.phase.Firing? && b.phase.next == 0 && WithinBatch(es)
    ensures var o := Run(b, es + [HandleReadEnds(at)]);
            && o.Ok?
            && (o.value.phase.Idle? ==> o.value.fired == b.fired + Numbers(b, b.phase.batch))
  {
    BatchStableOverRun(b, es);
    var r := Run(b, es).value;
    RunConcat(b, es, [HandleReadEnds(at)]);
    BatchEnds(r, at);
    if Run(r, [HandleReadEnds(at)]).value.phase.Idle? {
      BatchComplete(b, r);
    }
  }

  lemma BatchEnds(r: Queue, at: Time)
    requires Inv(r) && r.phase.Firing?
    ensures var o := Run(r, [HandleReadEnds(at)]);
            o.Ok? && o.value.fired == r.fired && (o.value.phase.Idle? ==> r.phase.next == |r.phase.batch|)
  {
    hide Inv, NumbersKept, Reset;
    StepKeeps(r, HandleReadEnds(at));
    RunCons(r, HandleReadEnds(at), []);
    assert [HandleReadEnds(at)] + [] == [HandleReadEnds(at)];
    assert r.fired + [] == r.fired;
  }

  lemma BatchComplete(b: Queue, r: Queue)
    requires BatchRecorded(b) && b.phase.Firing? && b.phase.next == 0 && b.fired <= r.fired
    requires BatchRecorded(r) && r.phase == b.phase.(next := |b.phase.batch|)
    requires Numbers(r, r.phase.batch) == Numbers(b, b.phase.batch)
    ensures r.fired == b.fired + Numbers(b, b.phase.batch)
  {
    var n := Numbers(r, r.phase.batch);
    assert forall i :: 0 <= i < |n| ==> r.fired[|b.fired| + i] == n[i];
    assert r.fired == b.fired + r.fired[|b.fired|..];
  }

  // ---------------------------------------------------------------------------
  // The timerfd is armed early enough

  /** If anything waits, the alarm is set, and goes off no later than the earliest expiration or
      `MIN_DELAY` after it was set, whichever is later. */
  ghost predicate WellArmed(q: Queue) {
    q.timers != [] ==>
      && q.alarm.Armed?
      && (q.alarm.deadline <= q.timers[0].when || q.alarm.deadline <= q.alarm.armedAt + MIN_DELAY)
  }

  /** Inside a batch the alarm may be stale, but not with respect to timers that are already due. */
  ghost predicate Scheduled(q: Queue) {
    if q.phase.Firing?
    then q.phase.now > 0 && (q.timers != [] && q.timers[0].when <= q.phase.now ==> WellArmed(q))
    else WellArmed(q)
  }

  /** The clock has passed the epoch whenever it is read. */
  ghost predicate ClockPositive(es: seq<Event>) {
    forall i :: 0 <= i < |es| ==> es[i].HandleReadBegins? ==> es[i].now > 0
  }

  lemma AddSchedules(q: Queue, a: nat, at: Time)
    requires SoundHeap(q) && IndexesAgree(q) && a in q.heap && !IsActive(q, a) && Scheduled(q)
    ensures AddTimerInLoop(q, a, at).Ok? && Scheduled(AddTimerInLoop(q, a, at).value)
  {
    InsertKeeps(q, a);
  }

  lemma CancelSchedules(q: Queue, held: seq<Entry>, id: TimerId)
    requires Owned(q, held) && Scheduled(q)
    ensures CancelInLoop(q, id).Ok? && Scheduled(CancelInLoop(q, id).value)
  {
    CancelKeeps(q, held, id);
    if id in q.active {
      EraseEntryOrdered(q.timers, Entry(q.heap[id.address].expiration, id.address));
    }
  }

  /** `reset` inserts nothing earlier than `now`; anything earlier was already first. */
  lemma {:induction false} ResetInsertsLater(q: Queue, held: seq<Entry>, now: Time)
    requires Owned(q, held)
    ensures ResetAll(q, held, now).Ok?
    ensures var r := ResetAll(q, held, now).value;
            && r.alarm == q.alarm
            && (r.timers != [] && r.timers[0].when < now ==>
                  q.timers != [] && r.timers[0].when == q.timers[0].when)
    decreases |held|
  {
    if held != [] {
      ResetOneKeeps(q, held, now);
      ResetOneInsertsLater(q, held, now);
      ResetInsertsLater(ResetOne(q, held[0].address, now).value, held[1..], now);
    }
  }

  lemma ResetOneInsertsLater(q: Queue, held: seq<Entry>, now: Time)
    requires Owned(q, held) && held != []
    ensures ResetOne(q, held[0].address, now).Ok?
    ensures var r := ResetOne(q, held[0].address, now).value;
            && r.alarm == q.alarm
            && (r.timers != [] && r.timers[0].when < now ==>
                  q.timers != [] && r.timers[0].when == q.timers[0].when)
  {
    ResetOneKeeps(q, held, now);
    var a := held[0].address;
    if q.heap[a].Repeats() && IdOf(q, a) !in q.canceling {
      RestartKeepsIndexes(q, a, now);
      InsertKeeps(q.(heap := q.heap[a := q.heap[a].Restarted(now)]), a);
    }
  }

  lemma EndSchedules(q: Queue, at: Time)
    requires Inv(q) && q.phase.Firing? && Scheduled(q)
    ensures var o := Reset(q.(phase := Idle), q.phase.batch, q.phase.now, at); o.Ok? && Scheduled(o.value)
  {
    var p := q.(phase := Idle);
    SameOwners(q, p, q.phase.batch);
    ResetAllKeeps(p, q.phase.batch, q.phase.now);
    ResetInsertsLater(p, q.phase.batch, q.phase.now);
    var r := ResetAll(p, q.phase.batch, q.phase.now).value;
    if r.timers != [] {
      assert r.timers[0] in r.timers;
    }
  }

  lemma AddEventSchedules(q: Queue, a: nat, when: Time, interval: real, at: Time)
    requires Inv(q) && Scheduled(q) && Allocatable(q, a)
    ensures var o := AddTimerInLoop(Allocate(q, a, when, interval), a, at); o.Ok? && Scheduled(o.value)
  {
    hide AddTimerInLoop, IndexesAgree, Partitioned;
    AllocateKeeps(q, Held(q), a, when, interval);
    AddSchedules(Allocate(q, a, when, interval), a, at);
  }

  lemma QueuedAddSchedules(q: Queue, at: Time)
    requires Inv(q) && Scheduled(q) && q.phase.Idle? && q.queued != []
    ensures var o := AddTimerInLoop(q.(queued := q.queued[1..]), q.queued[0], at); o.Ok? && Scheduled(o.value)
  {
    hide AddTimerInLoop, IndexesAgree, SoundHeap;
    assert q.queued[0] in q.queued;
    QueueIrrelevant(q, q.(queued := q.queued[1..]));
    AddSchedules(q.(queued := q.queued[1..]), q.queued[0], at);
  }

  lemma BeginSchedules(q: Queue, now: Time)
    requires Inv(q) && Scheduled(q) && q.phase.Idle? && now > 0
    ensures BeginRead(q, now).Ok? && Scheduled(BeginRead(q, now).value)
  {
    hide Inv, BeginRead;
    BeginReadKeeps(q, now);
  }

  lemma StepSchedules(q: Queue, e: Event)
    requires Inv(q) && Scheduled(q) && (e.HandleReadBegins? ==> e.now > 0)
    ensures Step(q, e).Ok? && Scheduled(Step(q, e).value)
  {
    hide SoundHeap, IndexesAgree, Partitioned, BatchRecorded, AddTimerInLoop, CancelInLoop, BeginRead, Fire, Reset;
    match e
    case Add(a, when, interval, at) => if Allocatable(q, a) { AddEventSchedules(q, a, when, interval, at); }
    case RunQueuedAdd(at) => if q.phase.Idle? && q.queued != [] { QueuedAddSchedules(q, at); }
    case Cancel(id) => CancelSchedules(q, Held(q), id);
    case HandleReadBegins(now) => if q.phase.Idle? { BeginSchedules(q, now); }
    case RunNextCallback =>
      if q.phase.Firing? && q.phase.next < |q.phase.batch| { FireSchedules(q); }
    case HandleReadEnds(at) =>
      if q.phase.Firing? && q.phase.next == |q.phase.batch| { EndSchedules(q, at); }
    case _ =>
  }

  lemma FireSchedules(q: Queue)
    requires Inv(q) && Scheduled(q) && q.phase.Firing? && q.phase.next < |q.phase.batch|
    ensures Fire(q).Ok? && Scheduled(Fire(q).value)
  {
    hide Inv, Advances;
    FireSucceeds(q);
  }

  lemma FireSucceeds(q: Queue)
    requires Inv(q) && q.phase.Firing? && q.phase.next < |q.phase.batch|
    ensures Fire(q).Ok?
  {
    FireKeeps(q);
  }

  /** In every run, whenever control is outside `handleRead` and a timer waits, the timerfd becomes
      readable no later than the earliest expiration, or `MIN_DELAY` after it was last armed. */
  lemma {:induction false} AlwaysArmed(q: Queue, es: seq<Event>)
    requires Inv(q) && Scheduled(q) && ClockPositive(es)
    ensures Run(q, es).Ok? && Scheduled(Run(q, es).value)
    ensures var r := Run(q, es).value;
            r.phase.Idle? && r.timers != [] ==>
              && r.alarm.Armed?
              && (forall clock :: r.timers[0].when <= clock && r.alarm.armedAt + MIN_DELAY <= clock ==> Readable(r.alarm, clock))
    decreases |es|
  {
    if es != [] {
      assert es[0].HandleReadBegins? ==> es[0].now > 0;
      StepKeeps(q, es[0]);
      StepSchedules(q, es[0]);
      AlwaysArmed(Step(q, es[0]).value, es[1..]);
    }
  }
}
