/** `addTimer` as its caller sees it (src/TimerQueue.cc:98-103): on another thread it allocates the timer and
    queues the insertion, and only then reads the number of the timer for the id it returns. By that time the
    loop may have run the timer and freed it. */
module TimerCalls {
  import opened Outcomes
  import opened Timers
  import opened TimerSafety
  import opened TimerTheorems
  import opened TimerEffects

  datatype Calls = Calls(
    queue: Queue,
    owed: set<TimerId>,         // calls of addTimer that have queued their insertion and not yet read the number
    returned: set<TimerId>)     // the ids that callers hold

  datatype Event =
    | Core(event: Timers.Event)
    | ReadNumber(id: TimerId)   // the call returns

  function Start(): Calls { Calls(Init(), {}, {}) }

  /** The id of the timer that the event creates. */
  function NewId(q: Queue, a: nat): TimerId { TimerId(a, q.created + 1) }

  /** Timers are cancelled by ids that `addTimer` has returned. */
  predicate Happens(w: Calls, e: Timers.Event) { e.Cancel? ==> e.id in w.returned }

  function Step(w: Calls, e: Event): Outcome<Calls> {
    match e
    case Core(c) =>
      if !Happens(w, c) then Ok(w)
      else
        var q :- Timers.Step(w.queue, c);
        Ok(if c.AddElsewhere? && Allocatable(w.queue, c.address) then
             Calls(q, w.owed + {NewId(w.queue, c.address)}, w.returned)
           else if c.Add? && Allocatable(w.queue, c.address) then
             Calls(q, w.owed, w.returned + {NewId(w.queue, c.address)})
           else w.(queue := q))
    case ReadNumber(id) =>
      if id !in w.owed then Ok(w)
      else if Alive(w.queue, id) then Ok(w.(owed := w.owed - {id}, returned := w.returned + {id}))
      else Fault(102)
  }

  predicate Alive(q: Queue, id: TimerId) { id.address in q.heap && IdOf(q, id.address) == id }

  function Run(w: Calls, es: seq<Event>): Outcome<Calls>
    decreases |es|
  {
    if es == [] then Ok(w)
    else
      var v :- Step(w, es[0]);
      Run(v, es[1..])
  }

  lemma RunCons(w: Calls, e: Event, es: seq<Event>)
    requires Step(w, e).Ok?
    ensures Run(w, [e] + es) == Run(Step(w, e).value, es)
  {
    assert ([e] + es)[0] == e && ([e] + es)[1..] == es;
  }

  // ---------------------------------------------------------------------------
  // What every step keeps

  ghost predicate Good(w: Calls) {
    && Inv(w.queue) && Numbered(w.queue)
    && w.owed !! w.returned
    && w.queue.canceling <= w.returned
    && (forall id :: id in w.owed || id in w.returned ==> id.sequence <= w.queue.created)
  }

  lemma AddKeepsCanceling(q: Queue, a: nat, at: Time)
    requires AddTimerInLoop(q, a, at).Ok?
    ensures AddTimerInLoop(q, a, at).value.canceling == q.canceling && AddTimerInLoop(q, a, at).value.created == q.created
  {
  }

  lemma CancelRemembers(q: Queue, id: TimerId)
    requires CancelInLoop(q, id).Ok?
    ensures CancelInLoop(q, id).value.canceling <= q.canceling + {id}
  {
  }

  lemma EndKeepsCanceling(q: Queue, at: Time)
    requires Inv(q) && q.phase.Firing?
    ensures var o := Reset(q.(phase := Idle), q.phase.batch, q.phase.now, at); o.Ok? && o.value.canceling == q.canceling
  {
    hide Inv, Owned;
    BatchIsOwned(q);
    ResetKeeps(q.(phase := Idle), q.phase.batch, q.phase.now, at);
  }

  lemma BeginForgets(q: Queue, now: Time)
    requires BeginRead(q, now).Ok?
    ensures BeginRead(q, now).value.canceling == {}
  {
  }

  /** Only cancels and the start of a batch change what is being cancelled. */
  lemma CancelingOf(q: Queue, e: Timers.Event)
    requires Inv(q)
    ensures Timers.Step(q, e).Ok?
    ensures Timers.Step(q, e).value.canceling <= q.canceling + if e.Cancel? then {e.id} else {}
    ensures q.created <= Timers.Step(q, e).value.created
    ensures (e.Add? || e.AddElsewhere?) && Allocatable(q, e.address) ==> Timers.Step(q, e).value.created == q.created + 1
  {
    hide Inv, AddTimerInLoop, CancelInLoop, BeginRead, Reset, Fire;
    StepKeeps(q, e);
    match e
    case Add(a, when, interval, at) =>
      if Allocatable(q, a) { AddKeepsCanceling(Allocate(q, a, when, interval), a, at); }
    case RunQueuedAdd(at) =>
      if q.phase.Idle? && q.queued != [] { AddKeepsCanceling(q.(queued := q.queued[1..]), q.queued[0], at); }
    case Cancel(id) => CancelRemembers(q, id);
    case HandleReadBegins(now) => if q.phase.Idle? { BeginForgets(q, now); }
    case RunNextCallback => FireKeepsCanceling(q);
    case HandleReadEnds(at) =>
      if q.phase.Firing? && q.phase.next == |q.phase.batch| { EndKeepsCanceling(q, at); }
    case _ =>
  }

  lemma FireKeepsCanceling(q: Queue)
    ensures q.phase.Firing? && q.phase.next < |q.phase.batch| && Fire(q).Ok? ==> Fire(q).value.canceling == q.canceling
  {
  }

  lemma StepGood(w: Calls, e: Event)
    requires Good(w)
    ensures Step(w, e).Ok? ==> Good(Step(w, e).value)
    ensures Step(w, e).Fault? ==> e.ReadNumber? && e.id in w.owed && !Alive(w.queue, e.id) && Step(w, e) == Fault(102)
  {
    hide Inv, Numbered, Timers.Step, NumbersKept;
    if e.Core? {
      StepKeeps(w.queue, e.event);
      StepNumbers(w.queue, e.event);
      CancelingOf(w.queue, e.event);
    }
  }

  /** In every run, with any callbacks and any number of callers, the only thing that can go wrong is that a
      call of `addTimer` reads the number of a timer that has been freed. */
  lemma {:induction false} OnlyTheReadFaults(w: Calls, es: seq<Event>)
    requires Good(w)
    ensures Run(w, es).Ok? ==> Good(Run(w, es).value)
    ensures Run(w, es).Fault? ==> Run(w, es) == Fault(102)
    decreases |es|
  {
    hide Good, Step;
    if es != [] {
      StepGood(w, es[0]);
      if Step(w, es[0]).Ok? { OnlyTheReadFaults(Step(w, es[0]).value, es[1..]); }
    }
  }

  /** The event creates the timer that `id` now names. */
  ghost predicate Names(q: Queue, r: Queue, e: Timers.Event, id: TimerId) {
    (e.Add? || e.AddElsewhere?) && e.address == id.address && Allocatable(q, id.address) && Alive(r, id)
  }

  /** On the loop thread a call returns the id of the timer that it has created; on another thread it returns that
      id once it has read the number, and is under way from the allocation until then. */
  lemma CallsReturn(w: Calls, e: Event, id: TimerId)
    requires Good(w) && Step(w, e).Ok?
    ensures var v := Step(w, e).value;
            && (id in v.returned <==>
                  || id in w.returned
                  || (id in w.owed && e == ReadNumber(id))
                  || (e.Core? && e.event.Add? && Names(w.queue, v.queue, e.event, id)))
            && (id in v.owed <==>
                  || (id in w.owed && e != ReadNumber(id))
                  || (e.Core? && e.event.AddElsewhere? && Names(w.queue, v.queue, e.event, id)))
  {
    hide Inv, Numbered, Timers.Step;
    if e.Core? {
      var q, c := w.queue, e.event;
      if c.Add? && Allocatable(q, c.address) { AddEffect(q, c.address, c.when, c.interval, c.at); }
      if c.AddElsewhere? && Allocatable(q, c.address) { AddElsewhereEffect(q, c.address, c.when, c.interval); }
    }
  }

  lemma StartIsGood()
    ensures Good(Start())
  {
    InitIsGood();
  }

  /** As far as the queue is concerned, a run with callers is a run of the queue. */
  lemma {:induction false} CallsAreRuns(w: Calls, es: seq<Event>)
    requires Run(w, es).Ok?
    ensures exists cs :: Timers.Run(w.queue, cs) == Ok(Run(w, es).value.queue)
    decreases |es|
  {
    hide Timers.Step;
    if es == [] {
      assert Timers.Run(w.queue, []) == Ok(w.queue);
    } else {
      var v := Step(w, es[0]).value;
      CallsAreRuns(v, es[1..]);
      var cs :| Timers.Run(v.queue, cs) == Ok(Run(v, es[1..]).value.queue);
      if es[0].Core? && Happens(w, es[0].event) {
        Timers.RunCons(w.queue, es[0].event, cs);
        assert Timers.Run(w.queue, [es[0].event] + cs) == Ok(Run(w, es).value.queue);
      } else {
        assert Timers.Run(w.queue, cs) == Ok(Run(w, es).value.queue);
      }
    }
  }

  // ---------------------------------------------------------------------------
  // A periodic timer outlives the call that creates it

  ghost predicate Periodic(q: Queue, id: TimerId) { Alive(q, id) && q.heap[id.address].Repeats() }

  lemma ResetOneKeepsPeriodic(q: Queue, held: seq<Entry>, now: Time, id: TimerId)
    requires Owned(q, held) && held != [] && Periodic(q, id) && id !in q.canceling
    ensures ResetOne(q, held[0].address, now).Ok? && Periodic(ResetOne(q, held[0].address, now).value, id)
  {
    hide Owned;
    HeadIsAlive(q, held);
    ResetOneKeeps(q, held, now);
  }

  lemma {:induction false} ResetKeepsPeriodic(q: Queue, held: seq<Entry>, now: Time, id: TimerId)
    requires Owned(q, held) && Periodic(q, id) && id !in q.canceling
    ensures ResetAll(q, held, now).Ok? && Periodic(ResetAll(q, held, now).value, id)
    decreases |held|
  {
    hide Owned, ResetOne, Periodic;
    if held != [] {
      ResetOneKeeps(q, held, now);
      ResetOneKeepsPeriodic(q, held, now, id);
      ResetKeepsPeriodic(ResetOne(q, held[0].address, now).value, held[1..], now, id);
    }
  }

  lemma EndKeepsPeriodic(q: Queue, at: Time, id: TimerId)
    requires Inv(q) && Periodic(q, id) && id !in q.canceling && q.phase.Firing?
    ensures var o := Reset(q.(phase := Idle), q.phase.batch, q.phase.now, at); o.Ok? && Periodic(o.value, id)
  {
    hide Inv, Owned, ResetAll;
    BatchIsOwned(q);
    ResetKeepsPeriodic(q.(phase := Idle), q.phase.batch, q.phase.now, id);
    ResetKeeps(q.(phase := Idle), q.phase.batch, q.phase.now, at);
  }

  lemma CancelKeepsOthers(q: Queue, x: TimerId, id: TimerId)
    requires Inv(q) && Alive(q, id) && x != id
    ensures CancelInLoop(q, x).Ok? && Alive(CancelInLoop(q, x).value, id)
    ensures CancelInLoop(q, x).value.heap[id.address] == q.heap[id.address]
  {
    hide SoundHeap, Partitioned, BatchRecorded, Sorted;
    CancelStepKeeps(q, x);
  }

  /** Nothing but its own cancellation frees a periodic timer. */
  lemma CoreKeepsPeriodic(q: Queue, e: Timers.Event, id: TimerId)
    requires Inv(q) && Periodic(q, id) && id !in q.canceling && e != Cancel(id)
    ensures Timers.Step(q, e).Ok? && Periodic(Timers.Step(q, e).value, id)
  {
    hide Inv, Reset, CancelInLoop, NumbersKept;
    StepKeeps(q, e);
    match e
    case HandleReadEnds(at) => if q.phase.Firing? && q.phase.next == |q.phase.batch| { EndKeepsPeriodic(q, at, id); }
    case Cancel(x) => CancelKeepsOthers(q, x, id);
    case _ =>
  }

  lemma StepKeepsPeriodic(w: Calls, e: Event, id: TimerId)
    requires Good(w) && id in w.owed && Periodic(w.queue, id) && Step(w, e).Ok?
    ensures var v := Step(w, e).value; id in v.owed ==> Periodic(v.queue, id)
  {
    hide Inv, Numbered, Timers.Step, Periodic;
    if e.Core? && Happens(w, e.event) { CoreKeepsPeriodic(w.queue, e.event, id); }
  }

  /** The read of this call is safe, whenever it comes. */
  lemma {:induction false} PeriodicIsReadInTime(w: Calls, es: seq<Event>, id: TimerId)
    requires Good(w) && (id in w.owed ==> Periodic(w.queue, id)) && id.sequence <= w.queue.created
    ensures Run(w, es).Ok? ==> Step(Run(w, es).value, ReadNumber(id)).Ok?
    decreases |es|
  {
    hide Good, Periodic;
    if es == [] {
      if id in w.owed { PeriodicIsAlive(w.queue, id); }
    } else if Step(w, es[0]).Ok? {
      var v := Step(w, es[0]).value;
      StepGood(w, es[0]);
      if id in w.owed { StepKeepsPeriodic(w, es[0], id); }
      NoNewOwed(w, es[0], id);
      PeriodicIsReadInTime(v, es[1..], id);
    }
  }

  lemma PeriodicIsAlive(q: Queue, id: TimerId)
    requires Periodic(q, id)
    ensures Alive(q, id)
  {
  }

  lemma NoNewOwed(w: Calls, e: Event, id: TimerId)
    requires Good(w) && id.sequence <= w.queue.created && Step(w, e).Ok?
    ensures id in Step(w, e).value.owed ==> id in w.owed
    ensures id.sequence <= Step(w, e).value.queue.created
  {
    hide Inv, Numbered, Timers.Step;
    if e.Core? { CancelingOf(w.queue, e.event); }
  }

  // ---------------------------------------------------------------------------
  // A one-shot timer may not

  /** Some run makes the call read the number of a freed timer. */
  ghost predicate ReadCanFault(w: Calls, id: TimerId) {
    exists es :: Run(w, es).Ok? && Step(Run(w, es).value, ReadNumber(id)) == Fault(102)
  }

  /** Whenever the event reads the clock, it reads `m`. */
  predicate ReadsClock(e: Event, m: Time) {
    match e
    case Core(Add(_, _, _, at)) => at == m
    case Core(RunQueuedAdd(at)) => at == m
    case Core(HandleReadBegins(now)) => now == m
    case Core(HandleReadEnds(at)) => at == m
    case _ => true
  }

  /** The same with a clock that stands at `m`. */
  ghost predicate ReadCanFaultAt(w: Calls, id: TimerId, m: Time) {
    exists es :: Steady(es, m) && Run(w, es).Ok? && Step(Run(w, es).value, ReadNumber(id)) == Fault(102)
  }

  ghost predicate Steady(es: seq<Event>, m: Time) { forall i :: 0 <= i < |es| ==> ReadsClock(es[i], m) }

  lemma FaultsLater(w: Calls, e: Event, id: TimerId, m: Time)
    requires Step(w, e).Ok? && ReadsClock(e, m) && ReadCanFaultAt(Step(w, e).value, id, m)
    ensures ReadCanFaultAt(w, id, m)
  {
    hide Step;
    var v := Step(w, e).value;
    var es :| Steady(es, m) && Run(v, es).Ok? && Step(Run(v, es).value, ReadNumber(id)) == Fault(102);
    RunCons(w, e, es);
    assert Steady([e] + es, m) && Run(w, [e] + es) == Run(v, es);
  }

  lemma FaultsNow(w: Calls, id: TimerId, m: Time)
    requires id in w.owed && !Alive(w.queue, id)
    ensures ReadCanFaultAt(w, id, m)
  {
    assert Steady([], m) && Run(w, []) == Ok(w);
  }

  lemma FaultsAtAll(w: Calls, id: TimerId, m: Time)
    requires ReadCanFaultAt(w, id, m)
    ensures ReadCanFault(w, id)
  {
    var es :| Steady(es, m) && Run(w, es).Ok? && Step(Run(w, es).value, ReadNumber(id)) == Fault(102);
  }

  /** A live one-shot timer that is due at `m`. */
  ghost predicate OneShot(q: Queue, id: TimerId, m: Time) {
    Alive(q, id) && !q.heap[id.address].Repeats() && q.heap[id.address].expiration <= m
  }

  /** The end of a batch frees a one-shot timer of the batch, and leaves any other alone. */
  lemma EndOfBatch(q: Queue, id: TimerId, m: Time)
    requires Inv(q) && Numbered(q) && OneShot(q, id, m) && q.phase.Firing? && q.phase.next == |q.phase.batch|
    ensures var o := Timers.Step(q, HandleReadEnds(m));
            && o.Ok? && o.value.phase.Idle?
            && (if InBatch(q.phase.batch, id.address) then !Alive(o.value, id) else OneShot(o.value, id, m))
  {
    hide Inv, Owned, Numbered, ResetAll;
    var p := q.(phase := Idle);
    BatchIsOwned(q);
    SameNumbered(q, p);
    ResetKeeps(p, q.phase.batch, q.phase.now, m);
    if InBatch(q.phase.batch, id.address) {
      var k :| 0 <= k < |q.phase.batch| && q.phase.batch[k].address == id.address;
      ResetFreesSpent(p, q.phase.batch, q.phase.now, k);
    } else {
      ResetLeavesOthers(p, q.phase.batch, q.phase.now, id.address);
    }
  }

  lemma SameNumbered(q: Queue, p: Queue)
    requires Numbered(q) && p.heap == q.heap
    ensures Numbered(p)
  {
  }

  /** A batch begun when the timer is due contains it. */
  lemma BatchHasIt(q: Queue, id: TimerId, m: Time)
    requires Inv(q) && q.phase.Idle? && OneShot(q, id, m) && id in q.active
    ensures var o := Timers.Step(q, HandleReadBegins(m));
            o.Ok? && o.value.phase.Firing? && OneShot(o.value, id, m) && InBatch(o.value.phase.batch, id.address)
  {
    hide BeginRead, Inv, NumbersKept, InBatch;
    ActiveIsIndexed(q, id);
    BeginReadKeeps(q, m);
    var r := BeginRead(q, m).value;
    var e := Entry(q.heap[id.address].expiration, id.address);
    assert e in r.phase.batch + r.timers;
    FoundInBatch(r.phase.batch, r.timers, e, m);
  }

  lemma ActiveIsIndexed(q: Queue, id: TimerId)
    requires Inv(q) && id in q.active && id.address in q.heap
    ensures Entry(q.heap[id.address].expiration, id.address) in q.timers
  {
  }

  lemma FoundInBatch(batch: seq<Entry>, rest: seq<Entry>, e: Entry, m: Time)
    requires e in batch + rest && e.when <= m && forall i :: 0 <= i < |rest| ==> rest[i].when > m
    ensures InBatch(batch, e.address)
  {
    var i :| 0 <= i < |batch + rest| && (batch + rest)[i] == e;
    assert i < |batch| ==> batch[i].address == e.address;
  }

  ghost function Stage(q: Queue, id: TimerId): nat {
    if q.phase.Firing? then (if InBatch(q.phase.batch, id.address) then 0 else 3)
    else if id in q.active then 1 else 2
  }

  ghost function Work(q: Queue): nat {
    if q.phase.Firing? then (if q.phase.next <= |q.phase.batch| then |q.phase.batch| - q.phase.next else 0) else |q.queued|
  }

  /** The event that brings the timer nearer to its end. */
  ghost function Nearer(q: Queue, id: TimerId, m: Time): Timers.Event {
    if q.phase.Firing? then (if q.phase.next < |q.phase.batch| then RunNextCallback else HandleReadEnds(m))
    else if id in q.active then HandleReadBegins(m)
    else RunQueuedAdd(m)
  }

  lemma NearerIsNearer(q: Queue, id: TimerId, m: Time)
    requires Inv(q) && Numbered(q) && OneShot(q, id, m)
    ensures var o := Timers.Step(q, Nearer(q, id, m));
            && o.Ok?
            && (Alive(o.value, id) ==>
                  OneShot(o.value, id, m) && (Stage(o.value, id) < Stage(q, id)
                                           || (Stage(o.value, id) == Stage(q, id) && Work(o.value) < Work(q))))
  {
    hide Inv, Numbered, NumbersKept, AddTimerInLoop, Reset, Fire, BeginRead;
    StepKeeps(q, Nearer(q, id, m));
    if q.phase.Firing? {
      if q.phase.next < |q.phase.batch| { FiresOn(q, id, m); } else { EndsOn(q, id, m); }
    } else if id in q.active {
      BatchHasIt(q, id, m);
    } else {
      QueuedComesNearer(q, id, m);
    }
  }

  lemma EndsOn(q: Queue, id: TimerId, m: Time)
    requires Inv(q) && Numbered(q) && OneShot(q, id, m) && q.phase.Firing? && q.phase.next >= |q.phase.batch|
    ensures var o := Timers.Step(q, HandleReadEnds(m));
            o.Ok? && (Alive(o.value, id) ==> OneShot(o.value, id, m) && Stage(o.value, id) < Stage(q, id))
  {
    hide Owned, Reset, Numbered;
    assert q.phase.next == |q.phase.batch|;
    EndOfBatch(q, id, m);
  }

  lemma FiresOn(q: Queue, id: TimerId, m: Time)
    requires Inv(q) && OneShot(q, id, m) && q.phase.Firing? && q.phase.next < |q.phase.batch|
    ensures var o := Fire(q);
            o.Ok? && OneShot(o.value, id, m) && Stage(o.value, id) == Stage(q, id) && Work(o.value) < Work(q)
  {
    hide SoundHeap, IndexesAgree, Partitioned;
  }

  lemma QueuedComesNearer(q: Queue, id: TimerId, m: Time)
    requires Inv(q) && q.phase.Idle? && OneShot(q, id, m) && id !in q.active
    ensures q.queued != []
    ensures var o := AddTimerInLoop(q.(queued := q.queued[1..]), q.queued[0], m);
            o.Ok? && OneShot(o.value, id, m) && o.value.phase.Idle? && |o.value.queued| < |q.queued|
  {
    hide SoundHeap, IndexesAgree, Partitioned, BatchRecorded;
    OneOwner(q, id);
    NotInNoBatch(q, id);
    RunQueuedAddKeeps(q, m);
  }

  lemma NotInNoBatch(q: Queue, id: TimerId)
    requires q.phase.Idle?
    ensures !InBatch(Held(q), id.address)
  {
  }

  /** However far the loop has got, it can run and free a one-shot timer before its number is read. */
  lemma {:induction false} OneShotIsLost(w: Calls, id: TimerId, m: Time)
    requires Good(w) && id in w.owed && OneShot(w.queue, id, m)
    ensures ReadCanFaultAt(w, id, m)
    decreases Stage(w.queue, id), Work(w.queue)
  {
    hide Inv, Numbered, Timers.Step, ReadCanFaultAt, OneShot, Alive, Stage, Work;
    var e := Core(Nearer(w.queue, id, m));
    NearerIsNearer(w.queue, id, m);
    StepGood(w, e);
    var v := Step(w, e).value;
    if Alive(v.queue, id) {
      OneShotIsLost(v, id, m);
    } else {
      FaultsNow(v, id, m);
    }
    FaultsLater(w, e, id, m);
  }

  // ---------------------------------------------------------------------------
  // Exactly when

  /** A call of `addTimer` on another thread can read the number of a freed timer if and only if the timer is
      one-shot, that is, the interval is not positive; and then at any time of the clock from its expiration on. */
  lemma ReadFaultsIff(w: Calls, a: nat, when: Time, interval: real)
    requires Good(w) && Allocatable(w.queue, a)
    ensures var o := Step(w, Core(AddElsewhere(a, when, interval)));
            && o.Ok? && (ReadCanFault(o.value, NewId(w.queue, a)) <==> !(interval > 0.0))
            && (!(interval > 0.0) ==> forall m :: m >= when ==> ReadCanFaultAt(o.value, NewId(w.queue, a), m))
  {
    hide Inv, Numbered;
    var e := Core(AddElsewhere(a, when, interval));
    StepGood(w, e);
    var v, id := Step(w, e).value, NewId(w.queue, a);
    if interval > 0.0 {
      forall es
        ensures !(Run(v, es).Ok? && Step(Run(v, es).value, ReadNumber(id)) == Fault(102))
      {
        PeriodicIsReadInTime(v, es, id);
      }
    } else {
      forall m | m >= when
        ensures ReadCanFaultAt(v, id, m)
      {
        OneShotIsLost(v, id, m);
      }
      FaultsAtAll(v, id, when);
    }
  }

  ghost predicate AllPeriodic(es: seq<Event>) {
    forall i :: 0 <= i < |es| && es[i].Core? && es[i].event.AddElsewhere? ==> es[i].event.interval > 0.0
  }

  lemma StepKeepsAllPeriodic(w: Calls, e: Event)
    requires Good(w) && (forall id :: id in w.owed ==> Periodic(w.queue, id))
    requires e.Core? && e.event.AddElsewhere? ==> e.event.interval > 0.0
    ensures Step(w, e).Ok? && forall id :: id in Step(w, e).value.owed ==> Periodic(Step(w, e).value.queue, id)
  {
    hide Inv, Numbered;
    StepGood(w, e);
    if e.ReadNumber? && e.id in w.owed { assert Periodic(w.queue, e.id); }
    var v := Step(w, e).value;
    forall id | id in v.owed
      ensures Periodic(v.queue, id)
    {
      if id in w.owed { StepKeepsPeriodic(w, e, id); }
    }
  }

  /** So in every run in which other threads add only periodic timers, nothing goes wrong at all. */
  lemma {:induction false} PeriodicCallsAreSafe(w: Calls, es: seq<Event>)
    requires Good(w) && (forall id :: id in w.owed ==> Periodic(w.queue, id)) && AllPeriodic(es)
    ensures Run(w, es).Ok?
    decreases |es|
  {
    hide Good, Periodic, Step;
    if es != [] {
      assert es[0].Core? && es[0].event.AddElsewhere? ==> es[0].event.interval > 0.0;
      StepGood(w, es[0]);
      StepKeepsAllPeriodic(w, es[0]);
      assert AllPeriodic(es[1..]);
      PeriodicCallsAreSafe(Step(w, es[0]).value, es[1..]);
    }
  }

  // ---------------------------------------------------------------------------
  // A run that gets there

  const ADDRESS: nat := 7
  const ID := TimerId(ADDRESS, 1)

  ghost const TIMER := Timer(5, 0.0, 1)
  ghost const QUEUED := Queue(map[ADDRESS := TIMER], 1, [], {}, {}, [ADDRESS], Idle, Disarmed, [])
  ghost const INSERTED := Queue(map[ADDRESS := TIMER], 1, [Entry(5, ADDRESS)], {ID}, {}, [], Idle, ArmedFor(5, 1), [])

  lemma Queueing()
    ensures Timers.Step(Init(), AddElsewhere(ADDRESS, 5, 0.0)) == Ok(QUEUED)
  {
    var r := Timers.Step(Init(), AddElsewhere(ADDRESS, 5, 0.0)).value;
    assert r.heap == QUEUED.heap && r.queued == QUEUED.queued;
  }

  lemma Inserting()
    ensures Timers.Step(QUEUED, RunQueuedAdd(1)) == Ok(INSERTED)
  {
    assert [ADDRESS][1..] == [];
    assert InsertEntry([], Entry(5, ADDRESS)) == [Entry(5, ADDRESS)];
    assert {} + {ID} == {ID};
  }

  ghost const DUE := [Entry(5, ADDRESS)]
  ghost const AFTER := ReadAlarm(ArmedFor(5, 1), 200)
  ghost const FIRING := Queue(map[ADDRESS := TIMER], 1, [], {}, {}, [], Firing(DUE, 0, 200, 0), AFTER, [])
  ghost const FIRED := Queue(map[ADDRESS := TIMER], 1, [], {}, {}, [], Firing(DUE, 1, 200, 0), AFTER, [1])
  ghost const FREED := Queue(map[], 1, [], {}, {}, [], Idle, AFTER, [1])

  lemma Expiring()
    ensures Timers.Step(INSERTED, HandleReadBegins(200)) == Ok(FIRING)
  {
    assert LowerBound(DUE, Entry(200, MAX_POINTER)) == 1 by { assert DUE[1..] == []; }
    assert DUE[..1] == DUE && DUE[1..] == [];
    assert EraseActive({ID}, DUE, INSERTED.heap) == Ok({}) by { assert {ID} - {ID} == {}; }
  }

  lemma Freeing()
    ensures Timers.Step(FIRING, RunNextCallback) == Ok(FIRED)
    ensures Timers.Step(FIRED, HandleReadEnds(201)) == Ok(FREED)
  {
    assert [] + [1] == [1];
    var p := FIRED.(phase := Idle);
    assert DUE[1..] == [];
    assert ResetOne(p, ADDRESS, 200) == Ok(FREED) by { assert p.heap - {ADDRESS} == map[]; }
    assert ResetAll(FREED, [], 200) == Ok(FREED);
    assert ResetAll(p, DUE, 200) == Ok(FREED);
  }

  lemma Then(q: Queue, e: Timers.Event, r: Queue, es: seq<Event>)
    requires Timers.Step(q, e) == Ok(r) && (e.RunQueuedAdd? || e.HandleReadBegins? || e.RunNextCallback? || e.HandleReadEnds?)
    ensures Run(Calls(q, {ID}, {}), [Core(e)] + es) == Run(Calls(r, {ID}, {}), es)
  {
    hide Timers.Step;
    RunCons(Calls(q, {ID}, {}), Core(e), es);
  }

  lemma LastRead()
    ensures Run(Calls(FREED, {ID}, {}), [ReadNumber(ID)]) == Fault(102)
  {
  }

  /** The shortest story: a one-shot timer is added by another thread, inserted, found due, run and freed by the
      loop, and only then does the caller read its number. */
  lemma ReadAfterFree()
    ensures Run(Start(), [Core(AddElsewhere(ADDRESS, 5, 0.0))] + ([Core(RunQueuedAdd(1))] + ([Core(HandleReadBegins(200))] +
              ([Core(RunNextCallback)] + ([Core(HandleReadEnds(201))] + [ReadNumber(ID)]))))) == Fault(102)
  {
    hide Timers.Step, Run;
    Queueing();
    Inserting();
    Expiring();
    Freeing();
    var e5 := [Core(HandleReadEnds(201))] + [ReadNumber(ID)];
    var e4 := [Core(RunNextCallback)] + e5;
    var e3 := [Core(HandleReadBegins(200))] + e4;
    var e2 := [Core(RunQueuedAdd(1))] + e3;
    assert {} + {ID} == {ID};
    RunCons(Start(), Core(AddElsewhere(ADDRESS, 5, 0.0)), e2);
    Then(QUEUED, RunQueuedAdd(1), INSERTED, e3);
    Then(INSERTED, HandleReadBegins(200), FIRING, e4);
    Then(FIRING, RunNextCallback, FIRED, e5);
    Then(FIRED, HandleReadEnds(201), FREED, [ReadNumber(ID)]);
    LastRead();
  }

  /** A timer added by another thread, its id returned, and cancelled on the loop thread before its insertion
      has run: the cancel is lost. */
  lemma OvertakingCancelInARun()
    ensures var o := Run(Start(), [Core(AddElsewhere(ADDRESS, 5, 0.0))] +
                           ([ReadNumber(ID)] + ([Core(Cancel(ID))] + ([Core(RunQueuedAdd(1))] + []))));
            o.Ok? && o.value.queue == INSERTED && ID in o.value.queue.active
  {
    hide Timers.Step, Run;
    Queueing();
    Inserting();
    CancelTooEarly();
    var e4 := [Core(RunQueuedAdd(1))] + [];
    var e3 := [Core(Cancel(ID))] + e4;
    var e2 := [ReadNumber(ID)] + e3;
    assert {} + {ID} == {ID} && {ID} - {ID} == {};
    RunCons(Start(), Core(AddElsewhere(ADDRESS, 5, 0.0)), e2);
    RunCons(Calls(QUEUED, {ID}, {}), ReadNumber(ID), e3);
    RunCons(Calls(QUEUED, {}, {ID}), Core(Cancel(ID)), e4);
    RunCons(Calls(QUEUED, {}, {ID}), Core(RunQueuedAdd(1)), []);
    RunNone(Calls(INSERTED, {}, {ID}));
  }

  lemma CancelTooEarly()
    ensures Timers.Step(QUEUED, Cancel(ID)) == Ok(QUEUED)
  {
  }

  lemma RunNone(w: Calls)
    ensures Run(w, []) == Ok(w)
  {
  }
}
