/** The timer queue as the source writes it: one object whose methods update its fields in place.
    Every method is proved to do what the step function of the same name says. */
module TimerQueueClass {
  import opened Outcomes
  import opened Timers
  import opened TimerSafety
  import opened TimerSchedule

  /** What a callback, or another thread meanwhile, may do to the queue. */
  predicate IsCommand(e: Event) {
    e.Add? || e.AddElsewhere? || e.Cancel? || e.OtherQueueCreates?
  }

  /** What the callback of the batch timer number `i` does. */
  function CommandsOf(script: seq<seq<Event>>, i: nat): seq<Event> {
    if i < |script| then script[i] else []
  }

  /** The events of the first `n` callbacks. */
  ghost function CallbackEvents(n: nat, script: seq<seq<Event>>): seq<Event> {
    if n == 0 then [] else CallbackEvents(n - 1, script) + ([RunNextCallback] + CommandsOf(script, n - 1))
  }

  lemma {:induction false} CallbackEventsWithinBatch(n: nat, script: seq<seq<Event>>)
    requires forall i, j :: 0 <= i < |script| && 0 <= j < |script[i]| ==> IsCommand(script[i][j])
    ensures WithinBatch(CallbackEvents(n, script))
  {
    if n > 0 {
      CallbackEventsWithinBatch(n - 1, script);
      var commands := CommandsOf(script, n - 1);
      assert forall j :: 0 <= j < |commands| ==> IsCommand(commands[j]);
    }
  }

  lemma AllocatedIsFree(q: Queue, a: nat, when: Time, interval: real)
    requires Inv(q) && Allocatable(q, a)
    ensures var r := Allocate(q, a, when, interval); SoundHeap(r) && IndexesAgree(r) && !IsActive(r, a)
  {
    AllocateKeeps(q, Held(q), a, when, interval);
  }

  class TimerQueue {
    var heap: map<nat, Timer>
    var created: nat
    var timers: seq<Entry>
    var active: set<TimerId>
    var canceling: set<TimerId>
    var callingExpiredTimers: bool
    var queued: seq<nat>
    var alarm: Alarm
    ghost var fired: seq<nat>

    /** The queue as a value; the phase is where control is, which the object itself does not store. */
    ghost function State(phase: Phase): Queue
      reads this
    {
      Queue(heap, created, timers, active, canceling, queued, phase, alarm, fired)
    }

    ghost predicate Valid(phase: Phase)
      reads this
    {
      Inv(State(phase)) && callingExpiredTimers == phase.Firing?
    }

    constructor ()
      ensures Valid(Idle) && State(Idle) == Init() && Scheduled(State(Idle))
    {
      heap, created, timers, active, canceling := map[], 0, [], {}, {};
      callingExpiredTimers, queued, alarm, fired := false, [], Disarmed, [];
    }

    method Insert(a: nat, ghost phase: Phase) returns (earliestChanged: bool)
      requires SoundHeap(State(phase)) && IndexesAgree(State(phase)) && a in heap && !IsActive(State(phase), a)
      modifies this`timers, this`active
      ensures Timers.Insert(old(State(phase)), a) == Ok(State(phase))
      ensures earliestChanged == EarliestChanged(old(State(phase)), heap[a].expiration)
    {
      hide SoundHeap, IndexesAgree, LowerBound, InsertEntry;
      InsertKeeps(State(phase), a);
      assert |timers| == |active|;
      var when := heap[a].expiration;
      earliestChanged := timers == [] || when < timers[0].when;
      var entry, id := Entry(when, a), TimerId(a, heap[a].sequence);
      assert entry !in timers;
      timers := InsertEntry(timers, entry);
      assert id !in active;
      active := active + {id};
      assert |timers| == |active|;
    }

    method AddTimerInLoop(a: nat, at: Time, ghost phase: Phase)
      requires SoundHeap(State(phase)) && IndexesAgree(State(phase)) && a in heap && !IsActive(State(phase), a)
      modifies this`timers, this`active, this`alarm
      ensures Timers.AddTimerInLoop(old(State(phase)), a, at) == Ok(State(phase))
    {
      var earliestChanged := Insert(a, phase);
      if earliestChanged {
        alarm := ArmedFor(heap[a].expiration, at);
      }
    }

    method CancelInLoop(id: TimerId, ghost phase: Phase)
      requires Valid(phase)
      modifies this`heap, this`timers, this`active, this`canceling
      ensures Valid(phase) && Timers.CancelInLoop(old(State(phase)), id) == Ok(State(phase))
    {
      hide Inv;
      CancelStepKeeps(State(phase), id);
      assert |timers| == |active|;
      if id in active {
        var entry := Entry(heap[id.address].expiration, id.address);
        assert entry in timers;
        timers := EraseEntry(timers, entry);
        heap := heap - {id.address};
        active := active - {id};
      } else if callingExpiredTimers {
        canceling := canceling + {id};
      }
      assert |timers| == |active|;
    }

    /** One command of a callback, or of another thread. */
    method Do(e: Event, ghost phase: Phase)
      requires Valid(phase) && IsCommand(e)
      modifies this`heap, this`created, this`timers, this`active, this`canceling, this`queued, this`alarm
      ensures Valid(phase) && Step(old(State(phase)), e) == Ok(State(phase))
    {
      hide Inv, NumbersKept, Timers.AddTimerInLoop, Timers.CancelInLoop, BeginRead, Timers.Reset;
      StepKeeps(State(phase), e);
      match e
      case Add(a, when, interval, at) =>
        if 0 < a < MAX_POINTER && a !in heap {
          AllocatedIsFree(State(phase), a, when, interval);
          ghost var withTimer := Allocate(State(phase), a, when, interval);
          created := created + 1;
          heap := heap[a := Timer(when, interval, created)];
          assert State(phase) == withTimer;
          AddTimerInLoop(a, at, phase);
        }
      case AddElsewhere(a, when, interval) =>
        if 0 < a < MAX_POINTER && a !in heap {
          created := created + 1;
          heap := heap[a := Timer(when, interval, created)];
          queued := queued + [a];
        }
      case Cancel(id) =>
        CancelInLoop(id, phase);
      case OtherQueueCreates =>
        created := created + 1;
    }

    /** Takes the expired timers out of both indexes. */
    method GetExpired(now: Time) returns (expired: seq<Entry>)
      requires Owned(State(Idle), [])
      modifies this`timers, this`active
      ensures Timers.GetExpired(old(State(Idle)), now) == Ok((expired, State(Idle)))
      ensures Owned(State(Idle), expired)
    {
      hide Owned, LowerBound, Sorted;
      ghost var before := State(Idle);
      GetExpiredSplits(before, now);
      assert |timers| == |active|;
      var end := LowerBound(timers, Entry(now, MAX_POINTER));
      assert end == |timers| || now < timers[end].when;
      expired := timers[..end];
      timers := timers[end..];
      EraseFromActive(expired);
      assert |timers| == |active|;
    }

    /** The loop of `getExpired`. */
    method EraseFromActive(expired: seq<Entry>)
      requires EraseActive(active, expired, heap).Ok?
      modifies this`active
      ensures Ok(active) == EraseActive(old(active), expired, heap)
    {
      var i := 0;
      while i < |expired|
        invariant 0 <= i <= |expired|
        invariant EraseActive(old(active), expired, heap) == EraseActive(active, expired[i..], heap)
      {
        assert expired[i..][0] == expired[i] && expired[i..][1..] == expired[i + 1..];
        assert expired[i].address in heap;
        var id := TimerId(expired[i].address, heap[expired[i].address].sequence);
        assert id in active;
        active := active - {id};
        i := i + 1;
      }
      assert expired[i..] == [];
    }

    /** Restarts the periodic timers of the batch that were not cancelled, frees the others, and programs
        the timerfd for the earliest timer left. */
    method Reset(expired: seq<Entry>, now: Time, at: Time)
      requires Owned(State(Idle), expired)
      modifies this`heap, this`timers, this`active, this`alarm
      ensures Timers.Reset(old(State(Idle)), expired, now, at) == Ok(State(Idle))
      ensures Owned(State(Idle), [])
    {
      ghost var before := State(Idle);
      ResetKeeps(before, expired, now, at);
      var i := 0;
      while i < |expired|
        invariant 0 <= i <= |expired|
        invariant Owned(State(Idle), expired[i..])
        invariant ResetAll(before, expired, now) == ResetAll(State(Idle), expired[i..], now)
      {
        assert expired[i..][0] == expired[i] && expired[i..][1..] == expired[i + 1..];
        ResetOneKeeps(State(Idle), expired[i..], now);
        ResetRound(expired[i].address, now);
        i := i + 1;
      }
      assert expired[i..] == [];
      if timers != [] {
        assert timers[0] in timers;
        var nextExpire := heap[timers[0].address].expiration;
        if nextExpire > 0 {
          alarm := ArmedFor(nextExpire, at);
        }
      }
    }

    method ResetRound(a: nat, now: Time)
      requires SoundHeap(State(Idle)) && IndexesAgree(State(Idle)) && a in heap && !IsActive(State(Idle), a)
      modifies this`heap, this`timers, this`active
      ensures ResetOne(old(State(Idle)), a, now) == Ok(State(Idle))
    {
      if heap[a].Repeats() && TimerId(a, heap[a].sequence) !in canceling {
        RestartKeepsIndexes(State(Idle), a, now);
        ghost var restarted := State(Idle).(heap := heap[a := heap[a].Restarted(now)]);
        heap := heap[a := heap[a].Restarted(now)];
        assert State(Idle) == restarted;
        var _ := Insert(a, Idle);
      } else {
        heap := heap - {a};
      }
    }

    /** The commands of one callback. */
    method DoAll(commands: seq<Event>, ghost phase: Phase)
      requires Valid(phase) && forall j :: 0 <= j < |commands| ==> IsCommand(commands[j])
      modifies this`heap, this`created, this`timers, this`active, this`canceling, this`queued, this`alarm
      ensures Valid(phase) && Run(old(State(phase)), commands) == Ok(State(phase))
    {
      hide Inv, Step;
      ghost var before := State(phase);
      var j := 0;
      while j < |commands|
        invariant 0 <= j <= |commands|
        invariant Valid(phase)
        invariant Run(before, commands[..j]) == Ok(State(phase))
      {
        ghost var here := State(phase);
        Do(commands[j], phase);
        RunSnoc(before, commands[..j], commands[j]);
        assert commands[..j] + [commands[j]] == commands[..j + 1];
        j := j + 1;
      }
      assert commands[..j] == commands;
    }

    /** A whole `handleRead`: the object ends up in the state of the corresponding run, and the
        callbacks run are exactly those of the timers that had expired, in order. */
    method HandleRead(now: Time, script: seq<seq<Event>>, at: Time)
      requires Valid(Idle)
      requires forall i, j :: 0 <= i < |script| && 0 <= j < |script[i]| ==> IsCommand(script[i][j])
      modifies this
      ensures Valid(Idle)
      ensures Run(old(State(Idle)), [HandleReadBegins(now)]
                + (CallbackEvents(|Expired(old(timers), now)|, script) + [HandleReadEnds(at)])) == Ok(State(Idle))
      ensures fired == old(fired) + Numbers(old(State(Idle)), Expired(old(timers), now))
    {
      hide Inv, Owned, Step, Run, Timers.Reset, Timers.GetExpired, Expired, Numbers;
      ghost var before := State(Idle);
      alarm := ReadAlarm(alarm, now);
      BeginIsGood(before, now);
      var expired := GetExpired(now);
      callingExpiredTimers := true;
      canceling := {};
      ghost var begun := State(Firing(expired, 0, now, |fired|));
      BeginMatches(before, now, expired, begun);
      RunCallbacks(expired, script, begun);
      ghost var ran := State(Firing(expired, |expired|, now, begun.phase.since));
      callingExpiredTimers := false;
      EndIsGood(ran, at);
      assert State(Idle) == ran.(phase := Idle);
      Reset(expired, now, at);
      WholeRead(before, begun, ran, State(Idle), script, at);
    }

    /** The callback loop of `handleRead`. */
    method RunCallbacks(expired: seq<Entry>, script: seq<seq<Event>>, ghost begun: Queue)
      requires begun.phase.Firing? && begun.phase.batch == expired && begun.phase.next == 0
      requires begun == State(begun.phase) && Valid(begun.phase)
      requires forall i, j :: 0 <= i < |script| && 0 <= j < |script[i]| ==> IsCommand(script[i][j])
      modifies this`heap, this`created, this`timers, this`active, this`canceling, this`queued, this`alarm, this`fired
      ensures Valid(begun.phase.(next := |expired|))
      ensures Run(begun, CallbackEvents(|expired|, script)) == Ok(State(begun.phase.(next := |expired|)))
    {
      hide Inv, Step, Run;
      RunNothing(begun);
      var i := 0;
      while i < |expired|
        invariant 0 <= i <= |expired|
        invariant Valid(begun.phase.(next := i))
        invariant Run(begun, CallbackEvents(i, script)) == Ok(State(begun.phase.(next := i)))
      {
        ghost var here := State(begun.phase.(next := i));
        FireMatches(here);
        fired := fired + [heap[expired[i].address].sequence];
        ghost var there := State(begun.phase.(next := i + 1));
        assert there == here.(fired := fired, phase := here.phase.(next := i + 1));
        var commands := CommandsOf(script, i);
        DoAll(commands, begun.phase.(next := i + 1));
        RunCons(here, RunNextCallback, commands);
        RunConcat(begun, CallbackEvents(i, script), [RunNextCallback] + commands);
        i := i + 1;
      }
    }
  }

  lemma BeginIsGood(q: Queue, now: Time)
    requires Inv(q) && q.phase.Idle?
    ensures Owned(q.(alarm := ReadAlarm(q.alarm, now)), [])
  {
    SameOwners(q, q.(alarm := ReadAlarm(q.alarm, now)), []);
  }

  lemma BeginMatches(q: Queue, now: Time, batch: seq<Entry>, begun: Queue)
    requires Inv(q) && q.phase.Idle?
    requires Timers.GetExpired(q.(alarm := ReadAlarm(q.alarm, now)), now)
          == Ok((batch, begun.(phase := Idle, canceling := q.canceling)))
    requires begun.phase == Firing(batch, 0, now, |q.fired|) && begun.canceling == {}
    ensures Step(q, HandleReadBegins(now)) == Ok(begun) && Inv(begun) && batch == Expired(q.timers, now)
  {
    hide SoundHeap, IndexesAgree, Partitioned, BatchRecorded, Timers.GetExpired;
    BeginReadKeeps(q, now);
    BatchIsExpired(q, now);
    assert begun.(phase := Idle, canceling := q.canceling).(canceling := {}, phase := begun.phase) == begun;
    assert BeginRead(q, now) == Ok(begun);
  }

  lemma FireMatches(q: Queue)
    requires Inv(q) && q.phase.Firing? && q.phase.next < |q.phase.batch|
    ensures var a := q.phase.batch[q.phase.next].address;
            && a in q.heap
            && Step(q, RunNextCallback) == Ok(q.(fired := q.fired + [q.heap[a].sequence],
                                                 phase := q.phase.(next := q.phase.next + 1)))
            && Inv(Step(q, RunNextCallback).value)
  {
    FireKeeps(q);
  }

  lemma EndIsGood(q: Queue, at: Time)
    requires Inv(q) && q.phase.Firing? && q.phase.next == |q.phase.batch|
    ensures Owned(q.(phase := Idle), q.phase.batch)
    ensures Step(q, HandleReadEnds(at)) == Timers.Reset(q.(phase := Idle), q.phase.batch, q.phase.now, at)
    ensures Step(q, HandleReadEnds(at)).Ok? && Inv(Step(q, HandleReadEnds(at)).value)
  {
    hide Inv, Owned, Timers.Reset;
    BatchIsOwned(q);
    StepKeeps(q, HandleReadEnds(at));
  }

  /** The pieces of one `handleRead` put together. */
  lemma WholeRead(q: Queue, begun: Queue, ran: Queue, done: Queue, script: seq<seq<Event>>, at: Time)
    requires Inv(q) && q.phase.Idle? && begun.phase.Firing? && done.phase.Idle?
    requires begun.phase.batch == Expired(q.timers, begun.phase.now)
    requires Step(q, HandleReadBegins(begun.phase.now)) == Ok(begun)
    requires Run(begun, CallbackEvents(|begun.phase.batch|, script)) == Ok(ran)
    requires Step(ran, HandleReadEnds(at)) == Ok(done)
    requires forall i, j :: 0 <= i < |script| && 0 <= j < |script[i]| ==> IsCommand(script[i][j])
    ensures var now := begun.phase.now;
            var events := CallbackEvents(|Expired(q.timers, now)|, script) + [HandleReadEnds(at)];
            && Run(q, [HandleReadBegins(now)] + events) == Ok(done)
            && done.fired == q.fired + Numbers(q, Expired(q.timers, now))
  {
    hide Inv, Step, Run, Expired, Numbers;
    var now := begun.phase.now;
    var events := CallbackEvents(|begun.phase.batch|, script);
    RunSnoc(begun, events, HandleReadEnds(at));
    RunCons(q, HandleReadBegins(now), events + [HandleReadEnds(at)]);
    CallbackEventsWithinBatch(|begun.phase.batch|, script);
    RunsExactlyTheExpired(q, now, events, at);
  }

  lemma RunNothing(q: Queue)
    ensures Run(q, []) == Ok(q)
  {
  }

  lemma RunSnoc(q: Queue, es: seq<Event>, e: Event)
    requires Run(q, es).Ok? && Step(Run(q, es).value, e).Ok?
    ensures Run(q, es + [e]) == Step(Run(q, es).value, e)
  {
    RunConcat(q, es, [e]);
    RunCons(Run(q, es).value, e, []);
    assert [e] + [] == [e];
  }
}
