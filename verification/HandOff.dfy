/** The hand-off of functors from any number of threads to one event loop (src/EventLoop.cc): a queue
    filled under a mutex, an eventfd written in a separate step, and a loop that polls, dispatches,
    swaps the queue and drains it. Every step below is atomic in the source; runs are arbitrary
    interleavings of them. */
module HandOff {

  /** The thread that runs the loop. */
  const LOOP := 0

  /** The largest value an eventfd counter can hold; a write that would exceed it fails with EAGAIN. */
  const EVENTFD_MAX: nat := 0xFFFF_FFFF_FFFF_FFFE

  /** The `number`-th functor queued by thread `owner`. */
  datatype Functor = Functor(owner: nat, number: nat)

  /** Where the loop thread is. `woken`: the wakeup channel was reported by the poll and not yet handled. */
  datatype Phase =
    | Outside                                             // not inside loop()
    | Checking                                            // at while (!quit_)
    | Polling
    | Dispatching(woken: bool)
    | Swapping                                            // callingPendingFunctors_ set, queue not yet swapped
    | Draining(snapshot: seq<Functor>, done: nat, since: nat)

  datatype Loop = Loop(
    phase: Phase,
    pending: seq<Functor>,       // pendingFunctors_
    eventfd: nat,
    quit: bool,                  // quit_
    wakers: set<nat>,            // threads between a push (or quit_ = true) and their wakeup()
    issued: map<nat, nat>,       // how many functors each thread has queued
    enqueued: seq<Functor>,      // history of pushes
    executed: seq<Functor>,      // history of functors started by a drain
    early: bool,                 // the loop thread has queued a functor outside loop(), and no drain has taken it yet
    unread: nat)                 // calls that write a wakeup: those begun since the counter was last read, and
                                 // those that were under way then

  function Init(): Loop {
    Loop(Outside, [], 0, false, {}, map[], [], [], false, 0)
  }

  function Calling(s: Loop): bool { s.phase.Swapping? || s.phase.Draining? }

  function Issued(s: Loop, t: nat): nat { if t in s.issued then s.issued[t] else 0 }

  /** The locked part of `queueInLoop`. */
  function Push(s: Loop, t: nat): Loop {
    var f := Functor(t, Issued(s, t));
    s.(pending := s.pending + [f], enqueued := s.enqueued + [f], issued := s.issued[t := Issued(s, t) + 1])
  }

  /** `wakeup`: an eight-byte write of 1. */
  function Wakeup(s: Loop): Loop {
    if s.eventfd < EVENTFD_MAX then s.(eventfd := s.eventfd + 1) else s
  }

  datatype Step =
    // any other thread
    | ForeignPush(t: nat)        // queueInLoop up to the unlock
    | ForeignQuit(t: nat)        // quit() up to its wakeup
    | ForeignWake(t: nat)        // the wakeup that ends either
    // the loop thread
    | Enter                      // loop() starts: quit_ is reset
    | CheckQuit
    | PollReturns(woken: bool)
    | HandleWakeup               // handleRead of the wakeup channel: the counter is read and becomes 0
    | LoopPush                   // queueInLoop called on the loop thread
    | LoopWake                   // and its wakeup, written only while draining
    | LoopQuit
    | BeginDrain
    | Swap
    | RunNext
    | EndDrain

  /** Handlers run while dispatching; functors run while draining, once the first has started. */
  predicate UserCodeRuns(s: Loop) {
    s.phase.Outside? || s.phase.Dispatching? || (s.phase.Draining? && s.phase.done > 0)
  }

  /** The loop thread is not inside its own `queueInLoop`, about to write the wakeup. */
  predicate LoopFree(s: Loop) { LOOP !in s.wakers }

  predicate Enabled(s: Loop, e: Step) {
    match e
    case ForeignPush(t) => t != LOOP && t !in s.wakers
    case ForeignQuit(t) => t != LOOP && t !in s.wakers
    case ForeignWake(t) => t != LOOP && t in s.wakers
    case LoopWake => LOOP in s.wakers
    case Enter => LoopFree(s) && s.phase.Outside?
    case CheckQuit => LoopFree(s) && s.phase.Checking?
    case PollReturns(woken) => LoopFree(s) && s.phase.Polling? && (woken ==> s.eventfd > 0)
    case HandleWakeup => LoopFree(s) && s.phase == Dispatching(true)
    case LoopPush => LoopFree(s) && UserCodeRuns(s)
    case LoopQuit => LoopFree(s) && UserCodeRuns(s)
    case BeginDrain => LoopFree(s) && s.phase == Dispatching(false)
    case Swap => LoopFree(s) && s.phase.Swapping?
    case RunNext => LoopFree(s) && s.phase.Draining? && s.phase.done < |s.phase.snapshot|
    case EndDrain => LoopFree(s) && s.phase.Draining? && s.phase.done == |s.phase.snapshot|
  }

  function Apply(s: Loop, e: Step): Loop
    requires Enabled(s, e)
  {
    match e
    case ForeignPush(t) => Push(s, t).(wakers := s.wakers + {t}, unread := s.unread + 1)
    case ForeignQuit(t) => s.(quit := true, wakers := s.wakers + {t}, unread := s.unread + 1)
    case ForeignWake(t) => Wakeup(s).(wakers := s.wakers - {t})
    case LoopWake => Wakeup(s).(wakers := s.wakers - {LOOP})
    case Enter => s.(phase := Checking, quit := false)
    case CheckQuit => s.(phase := if s.quit then Outside else Polling)
    case PollReturns(woken) => s.(phase := Dispatching(woken))
    case HandleWakeup => s.(phase := Dispatching(false), eventfd := 0, unread := |s.wakers|)
    case LoopPush =>
      Push(s, LOOP).(wakers := if Calling(s) then s.wakers + {LOOP} else s.wakers,
                     unread := if Calling(s) then s.unread + 1 else s.unread,
                     early := s.early || s.phase.Outside?)
    case LoopQuit => s.(quit := true)
    case BeginDrain => s.(phase := Swapping)
    case Swap => s.(phase := Draining(s.pending, 0, |s.executed|), pending := [], early := false)
    case RunNext =>
      s.(executed := s.executed + [s.phase.snapshot[s.phase.done]], phase := s.phase.(done := s.phase.done + 1))
    case EndDrain => s.(phase := Checking)
  }

  /** An interleaving; a step that is not enabled does not happen. */
  function Run(s: Loop, es: seq<Step>): Loop
    decreases |es|
  {
    if es == [] then s else Run(if Enabled(s, es[0]) then Apply(s, es[0]) else s, es[1..])
  }

  // ---------------------------------------------------------------------------
  // No lost wakeup

  /** Something will make the next poll return: the counter, or a thread about to write it. */
  ghost predicate WakeupComing(s: Loop) { s.eventfd > 0 || s.wakers != {} }

  /** Once the queue has been swapped, and until poll returns, a queued functor implies a wakeup. */
  ghost predicate NoLostWakeup(s: Loop) {
    !s.phase.Dispatching? && !s.phase.Swapping? && s.pending != [] ==> WakeupComing(s)
  }

  /** A quit requested while the loop is blocked in poll implies a wakeup. */
  ghost predicate NoLostQuit(s: Loop) { s.phase.Polling? && s.quit ==> WakeupComing(s) }

  lemma StepWakes(s: Loop, e: Step)
    requires Enabled(s, e) && (s.early || NoLostWakeup(s)) && NoLostQuit(s)
    ensures Apply(s, e).early || NoLostWakeup(Apply(s, e))
    ensures NoLostQuit(Apply(s, e))
  {
    match e
    case ForeignPush(t) => assert t in Apply(s, e).wakers;
    case ForeignQuit(t) => assert t in Apply(s, e).wakers;
    case LoopPush => assert Calling(s) ==> LOOP in Apply(s, e).wakers;
    case _ =>
  }

  /** In every interleaving no quit is lost, and no wakeup either unless the loop thread has queued a functor
      outside loop() that no drain has taken yet. */
  lemma {:induction false} NothingIsLost(s: Loop, es: seq<Step>)
    requires (s.early || NoLostWakeup(s)) && NoLostQuit(s)
    ensures var r := Run(s, es); (r.early || NoLostWakeup(r)) && NoLostQuit(r)
    decreases |es|
  {
    if es != [] {
      if Enabled(s, es[0]) { StepWakes(s, es[0]); }
      NothingIsLost(if Enabled(s, es[0]) then Apply(s, es[0]) else s, es[1..]);
    }
  }

  /** The counter shows the calls not yet read but those still under way, as far as it can count. */
  ghost predicate Counted(s: Loop) {
    && |s.wakers| <= s.unread
    && s.eventfd == if s.unread - |s.wakers| < EVENTFD_MAX then s.unread - |s.wakers| else EVENTFD_MAX
  }

  lemma StepCounts(s: Loop, e: Step)
    requires Counted(s) && Enabled(s, e)
    ensures Counted(Apply(s, e))
  {
    var r := Apply(s, e);
    match e
    case ForeignPush(t) => assert t in r.wakers;
    case ForeignQuit(t) => assert t in r.wakers;
    case ForeignWake(t) => assert r.wakers < s.wakers;
    case LoopWake => assert r.wakers < s.wakers;
    case LoopPush => assert Calling(s) ==> LOOP in r.wakers;
    case HandleWakeup => assert r.wakers == {} <==> |r.wakers| == 0;
    case _ =>
  }

  lemma {:induction false} WakeupsAreCounted(s: Loop, es: seq<Step>)
    requires Counted(s)
    ensures Counted(Run(s, es))
    decreases |es|
  {
    hide Counted, Apply, Enabled;
    if es != [] {
      if Enabled(s, es[0]) { StepCounts(s, es[0]); }
      WakeupsAreCounted(if Enabled(s, es[0]) then Apply(s, es[0]) else s, es[1..]);
    }
  }

  /** In every interleaving, at every moment: the counter holds the number of calls that wrote it since it was last
      read, as far as it can count, and a wakeup is on its way if and only if some call that writes one was made,
      or was still under way, since then. So a queue is stranded exactly if
      there was no such call; and outside a dispatch that can only be functors that the loop thread queued
      before loop(). */
  lemma StrandedIff(es: seq<Step>)
    ensures var s := Run(Init(), es);
            && |s.wakers| <= s.unread
            && s.eventfd == (if s.unread - |s.wakers| < EVENTFD_MAX then s.unread - |s.wakers| else EVENTFD_MAX)
            && (WakeupComing(s) <==> s.unread > 0)
            && (!s.phase.Dispatching? && !s.phase.Swapping? && s.pending != [] && s.unread == 0 ==> s.early)
  {
    WakeupsAreCounted(Init(), es);
    NothingIsLost(Init(), es);
  }

  lemma InitIsGood()
    ensures Conserved(Init()) && NoLostWakeup(Init()) && NoLostQuit(Init()) && Counted(Init())
  {
  }

  /** Such an interleaving exists: a functor queued on the loop thread before loop() waits for a timeout. */
  lemma EarlyFunctorIsStranded()
    ensures var s := Run(Init(), [LoopPush, Enter, CheckQuit]);
            s.phase.Polling? && s.pending != [] && !WakeupComing(s)
  {
    var s1 := Apply(Init(), LoopPush);
    var s2 := Apply(s1, Enter);
    assert Run(s2, [CheckQuit]) == Apply(s2, CheckQuit) by { assert [CheckQuit][1..] == []; }
    assert Run(s1, [Enter, CheckQuit]) == Run(s2, [CheckQuit]) by { assert [Enter, CheckQuit][1..] == [CheckQuit]; }
    assert [LoopPush, Enter, CheckQuit][1..] == [Enter, CheckQuit];
  }

  /** A quit requested inside loop() stays requested until the loop is left. */
  lemma {:induction false} QuitSticks(s: Loop, es: seq<Step>)
    requires s.quit && !s.phase.Outside?
    ensures var r := Run(s, es);
            || (r.quit && !r.phase.Outside?)
            || exists k :: 0 <= k <= |es| && Run(s, es[..k]).phase.Outside?
    decreases |es|
  {
    if es != [] {
      var r := if Enabled(s, es[0]) then Apply(s, es[0]) else s;
      if r.phase.Outside? {
        assert es[..1][1..] == [];
        assert Run(s, es[..1]) == r;
      } else {
        QuitSticks(r, es[1..]);
        if !(Run(r, es[1..]).quit && !Run(r, es[1..]).phase.Outside?) {
          var k :| 0 <= k <= |es[1..]| && Run(r, es[1..][..k]).phase.Outside?;
          assert es[..k + 1][0] == es[0] && es[..k + 1][1..] == es[1..][..k];
          assert Run(s, es[..k + 1]).phase.Outside?;
        }
      }
    }
  }

  /** A quit requested before loop() is forgotten: entering the loop resets the flag, and it polls. */
  lemma EarlyQuitIsForgotten(s: Loop)
    requires s.phase.Outside? && LoopFree(s)
    ensures var r := Run(s, [Enter] + [CheckQuit]); r.phase.Polling? && !r.quit
  {
    RunOne(s, Enter);
    RunOne(Apply(s, Enter), CheckQuit);
    RunConcat(s, [Enter], [CheckQuit]);
  }

  /** The next time the loop looks at the flag, it goes on to poll. */
  ghost predicate PollsOn(s: Loop, es: seq<Step>)
    decreases |es|
  {
    es != [] &&
    if !Enabled(s, es[0]) then PollsOn(s, es[1..])
    else if es[0].CheckQuit? then Apply(s, es[0]).phase.Polling?
    else PollsOn(Apply(s, es[0]), es[1..])
  }

  lemma {:induction false} RequestedInside(s: Loop, es: seq<Step>)
    requires s.quit && !s.phase.Outside?
    ensures !PollsOn(s, es)
    decreases |es|
  {
    if es != [] {
      if !Enabled(s, es[0]) {
        RequestedInside(s, es[1..]);
      } else if !es[0].CheckQuit? {
        RequestedInside(Apply(s, es[0]), es[1..]);
      }
    }
  }

  /** No run gets to another poll without having left the loop first. */
  ghost predicate QuitTakesEffect(s: Loop) { forall es :: !PollsOn(s, es) }

  /** A requested quit takes effect if and only if it is requested inside loop(). */
  lemma QuitTakesEffectIff(s: Loop)
    requires s.quit
    ensures QuitTakesEffect(s) <==> !s.phase.Outside?
  {
    if s.phase.Outside? {
      var r := if LoopFree(s) then s else Apply(s, LoopWake);
      var go := [Enter] + [CheckQuit];
      assert go[1..] == [CheckQuit];
      assert PollsOn(Apply(r, Enter), [CheckQuit]);
      assert PollsOn(r, go);
      var es := if LoopFree(s) then go else [LoopWake] + go;
      assert !LoopFree(s) ==> es[1..] == go;
      assert PollsOn(s, es);
    } else {
      forall es
        ensures !PollsOn(s, es)
      {
        RequestedInside(s, es);
      }
    }
  }

  /** A call of quit, from any thread, is honoured if and only if the loop is running. */
  lemma QuitIsHonouredIff(s: Loop, e: Step)
    requires Enabled(s, e) && (e.LoopQuit? || e.ForeignQuit?)
    ensures QuitTakesEffect(Apply(s, e)) <==> !s.phase.Outside?
  {
    QuitTakesEffectIff(Apply(s, e));
  }

  // ---------------------------------------------------------------------------
  // Functor conservation

  ghost function Unstarted(s: Loop): seq<Functor> {
    if s.phase.Draining? && s.phase.done <= |s.phase.snapshot| then s.phase.snapshot[s.phase.done..] else []
  }

  /** The numbers of the functors of one thread, in the order of `fs`. */
  ghost function NumbersOf(fs: seq<Functor>, t: nat): seq<nat> {
    if fs == [] then []
    else NumbersOf(fs[..|fs| - 1], t) + if fs[|fs| - 1].owner == t then [fs[|fs| - 1].number] else []
  }

  ghost function UpTo(n: nat): seq<nat> { seq(n, i => i) }

  /** Executed, then the rest of the current batch, then the queue: the order of the pushes. */
  ghost predicate InOrder(s: Loop) { s.executed + (Unstarted(s) + s.pending) == s.enqueued }

  /** The pushes of each thread are numbered consecutively. */
  ghost predicate Numbered(s: Loop) { forall t :: NumbersOf(s.enqueued, t) == UpTo(Issued(s, t)) }

  /** What a drain has executed so far is the beginning of its snapshot. */
  ghost predicate SnapshotRecorded(s: Loop) {
    s.phase.Draining? ==>
      && s.phase.done <= |s.phase.snapshot|
      && |s.executed| == s.phase.since + s.phase.done
      && s.executed[s.phase.since..] == s.phase.snapshot[..s.phase.done]
  }

  ghost predicate Conserved(s: Loop) { InOrder(s) && Numbered(s) && SnapshotRecorded(s) }

  lemma PushNumbers(s: Loop, t: nat)
    requires Numbered(s)
    ensures Numbered(Push(s, t))
  {
    var r := Push(s, t);
    assert r.enqueued[..|r.enqueued| - 1] == s.enqueued;
    forall u
      ensures NumbersOf(r.enqueued, u) == UpTo(Issued(r, u))
    {
      assert NumbersOf(s.enqueued, u) == UpTo(Issued(s, u));
      assert UpTo(Issued(s, t) + 1) == UpTo(Issued(s, t)) + [Issued(s, t)];
    }
  }

  lemma PushConserves(s: Loop, t: nat)
    requires Conserved(s)
    ensures Conserved(Push(s, t))
  {
    hide Numbered;
    PushNumbers(s, t);
    var r := Push(s, t);
    assert Unstarted(r) + r.pending == (Unstarted(s) + s.pending) + [Functor(t, Issued(s, t))];
  }

  lemma SameNumbers(s: Loop, r: Loop)
    requires Numbered(s) && r.issued == s.issued && r.enqueued == s.enqueued
    ensures Numbered(r)
  {
    assert forall t :: Issued(r, t) == Issued(s, t);
  }

  /** Changes of phase, wakeups and quits move functors without reordering them. */
  lemma SameBooks(s: Loop, r: Loop)
    requires Conserved(s)
    requires r.issued == s.issued && r.enqueued == s.enqueued && r.executed == s.executed
    requires Unstarted(r) + r.pending == Unstarted(s) + s.pending
    requires r.phase == s.phase || !r.phase.Draining? || (r.phase.done == 0 && r.phase.since == |r.executed|)
    ensures Conserved(r)
  {
    hide Numbered;
    SameNumbers(s, r);
  }

  lemma RunNextConserves(s: Loop)
    requires Conserved(s) && Enabled(s, RunNext)
    ensures Conserved(Apply(s, RunNext))
  {
    hide Numbered;
    var r := Apply(s, RunNext);
    SameNumbers(s, r);
    var f := s.phase.snapshot[s.phase.done];
    assert Unstarted(s) == [f] + Unstarted(r);
    assert r.executed + (Unstarted(r) + r.pending) == s.executed + (Unstarted(s) + s.pending);
    assert r.phase.snapshot[..r.phase.done] == s.phase.snapshot[..s.phase.done] + [f];
    assert r.executed[r.phase.since..] == s.executed[s.phase.since..] + [f];
  }

  lemma StepConserves(s: Loop, e: Step)
    requires Conserved(s) && Enabled(s, e)
    ensures Conserved(Apply(s, e))
  {
    hide InOrder, Numbered;
    var r := Apply(s, e);
    match e
    case ForeignPush(t) => PushConserves(s, t); SameBooks(Push(s, t), r);
    case LoopPush => PushConserves(s, LOOP); SameBooks(Push(s, LOOP), r);
    case RunNext => RunNextConserves(s);
    case Swap =>
      assert Unstarted(r) == s.pending && Unstarted(s) == [];
      SameBooks(s, r);
    case EndDrain =>
      assert Unstarted(s) == [];
      SameBooks(s, r);
    case _ => SameBooks(s, r);
  }

  lemma {:induction false} NumbersOfPrefix(a: seq<Functor>, b: seq<Functor>, t: nat)
    ensures NumbersOf(a, t) <= NumbersOf(a + b, t)
    decreases |b|
  {
    if b == [] {
      assert a + b == a;
    } else {
      assert (a + b)[..|a + b| - 1] == a + b[..|b| - 1];
      NumbersOfPrefix(a, b[..|b| - 1], t);
    }
  }

  /** In every interleaving: what was executed, then the rest of the batch, then the queue, is the order
      of the pushes; and the functors of each thread have started in the order it issued them, each once. */
  lemma {:induction false} FunctorsAreConserved(s: Loop, es: seq<Step>)
    requires Conserved(s)
    ensures var r := Run(s, es);
            && Conserved(r)
            && (forall t :: NumbersOf(r.executed, t) == UpTo(|NumbersOf(r.executed, t)|)
                            && |NumbersOf(r.executed, t)| <= Issued(r, t))
    decreases |es|
  {
    if es == [] {
      forall t
        ensures NumbersOf(s.executed, t) == UpTo(|NumbersOf(s.executed, t)|)
        ensures |NumbersOf(s.executed, t)| <= Issued(s, t)
      {
        NumbersOfPrefix(s.executed, Unstarted(s) + s.pending, t);
        assert NumbersOf(s.executed, t) <= UpTo(Issued(s, t));
      }
    } else {
      hide Conserved;
      if Enabled(s, es[0]) { StepConserves(s, es[0]); }
      FunctorsAreConserved(if Enabled(s, es[0]) then Apply(s, es[0]) else s, es[1..]);
    }
  }

  /** A drain executes exactly the functors that were queued when it swapped, whatever is queued meanwhile,
      by any thread and even if every functor requeues itself. */
  lemma {:induction false} DrainRunsItsSnapshot(s: Loop, es: seq<Step>)
    requires Conserved(s) && s.phase.Draining?
    requires forall i :: 0 <= i < |es| ==> !es[i].EndDrain?
    ensures var r := Run(s, es);
            && r.phase.Draining? && r.phase.snapshot == s.phase.snapshot && r.phase.since == s.phase.since <= |s.executed|
            && r.phase.done <= |s.phase.snapshot|
            && r.executed == s.executed[..s.phase.since] + s.phase.snapshot[..r.phase.done]
    decreases |es|
  {
    hide InOrder, Numbered;
    assert s.executed == s.executed[..s.phase.since] + s.executed[s.phase.since..];
    if es != [] {
      var r := if Enabled(s, es[0]) then Apply(s, es[0]) else s;
      if Enabled(s, es[0]) { StepConserves(s, es[0]); }
      DrainRunsItsSnapshot(r, es[1..]);
      assert r.executed[..s.phase.since] == s.executed[..s.phase.since];
    }
  }

  lemma RunNothing(s: Loop)
    ensures Run(s, []) == s
  {
  }

  lemma RunOne(s: Loop, e: Step)
    requires Enabled(s, e)
    ensures Run(s, [e]) == Apply(s, e)
  {
    assert [e][1..] == [];
    assert Run(Apply(s, e), []) == Apply(s, e);
  }

  lemma {:induction false} RunConcat(s: Loop, es: seq<Step>, fs: seq<Step>)
    ensures Run(s, es + fs) == Run(Run(s, es), fs)
    decreases |es|
  {
    if es == [] {
      assert es + fs == fs;
    } else {
      assert (es + fs)[0] == es[0] && (es + fs)[1..] == es[1..] + fs;
      RunConcat(if Enabled(s, es[0]) then Apply(s, es[0]) else s, es[1..], fs);
    }
  }

  // ---------------------------------------------------------------------------
  // A round of the loop

  /** The first `n` functors ever queued have been executed once the round is over. */
  ghost predicate Served(s: Loop, n: nat) {
    && Conserved(s) && n <= |s.enqueued|
    && match s.phase
       case Draining(snapshot, _, since) => n <= since + |snapshot|
       case Checking => n <= |s.executed|
       case Outside => n <= |s.executed|
       case _ => true
  }

  lemma StepServes(s: Loop, e: Step, n: nat)
    requires Served(s, n) && Enabled(s, e)
    ensures Served(Apply(s, e), n) && s.enqueued <= Apply(s, e).enqueued
  {
    hide Numbered;
    StepConserves(s, e);
  }

  lemma {:induction false} RunServes(s: Loop, es: seq<Step>, n: nat)
    requires Served(s, n)
    ensures Served(Run(s, es), n) && s.enqueued <= Run(s, es).enqueued
    decreases |es|
  {
    hide Served, Apply, Enabled;
    if es != [] {
      if Enabled(s, es[0]) { StepServes(s, es[0], n); }
      RunServes(if Enabled(s, es[0]) then Apply(s, es[0]) else s, es[1..], n);
    }
  }

  /** In every interleaving: whatever was queued, by any thread, before the loop swapped its queue has been
      executed when it next looks at `quit_`, and ever after. */
  lemma EveryRoundRunsTheQueue(s: Loop, es: seq<Step>)
    requires Conserved(s) && (s.phase.Polling? || s.phase.Dispatching? || s.phase.Swapping?)
    ensures var r := Run(s, es); r.phase.Checking? || r.phase.Outside? ==> s.enqueued <= r.executed
  {
    hide Numbered;
    RunServes(s, es, |s.enqueued|);
    var r := Run(s, es);
    if r.phase.Checking? || r.phase.Outside? {
      assert r.enqueued == r.executed + (Unstarted(r) + r.pending);
    }
  }

  ghost function Turns(n: nat): seq<Step> { seq(n, _ => RunNext) }

  /** One round that nobody disturbs. */
  ghost function Round(n: nat): seq<Step> {
    [PollReturns(true)] + ([HandleWakeup] + ([BeginDrain] + ([Swap] + (Turns(n) + [EndDrain]))))
  }

  lemma {:induction false} TurnsRun(s: Loop, n: nat)
    requires LoopFree(s) && s.phase.Draining? && s.phase.done + n == |s.phase.snapshot|
    ensures Run(s, Turns(n)) ==
              s.(executed := s.executed + s.phase.snapshot[s.phase.done..], phase := s.phase.(done := |s.phase.snapshot|))
    decreases n
  {
    if n == 0 {
      assert s.executed + [] == s.executed;
    } else {
      var r := Apply(s, RunNext);
      assert Turns(n)[0] == RunNext && Turns(n)[1..] == Turns(n - 1);
      TurnsRun(r, n - 1);
      assert s.phase.snapshot[s.phase.done..] == [s.phase.snapshot[s.phase.done]] + s.phase.snapshot[s.phase.done + 1..];
      assert s.executed + s.phase.snapshot[s.phase.done..] == r.executed + r.phase.snapshot[r.phase.done..];
    }
  }

  lemma RunsOn(s: Loop, e: Step, es: seq<Step>)
    requires Enabled(s, e)
    ensures Run(s, [e] + es) == Run(Apply(s, e), es)
  {
    assert ([e] + es)[0] == e && ([e] + es)[1..] == es;
  }

  /** Once a wakeup is written, a round is possible; it reads the counter, runs the queue and comes back. */
  lemma RoundRuns(s: Loop)
    requires LoopFree(s) && s.phase.Polling? && s.eventfd > 0
    ensures Run(s, Round(|s.pending|)) ==
              s.(phase := Checking, pending := [], eventfd := 0, unread := |s.wakers|, early := false,
                 executed := s.executed + s.pending)
  {
    hide Run;
    var n := |s.pending|;
    var s1 := Apply(s, PollReturns(true));
    var s2 := Apply(s1, HandleWakeup);
    var s3 := Apply(s2, BeginDrain);
    var s4 := Apply(s3, Swap);
    RunsOn(s, PollReturns(true), [HandleWakeup] + ([BeginDrain] + ([Swap] + (Turns(n) + [EndDrain]))));
    RunsOn(s1, HandleWakeup, [BeginDrain] + ([Swap] + (Turns(n) + [EndDrain])));
    RunsOn(s2, BeginDrain, [Swap] + (Turns(n) + [EndDrain]));
    RunsOn(s3, Swap, Turns(n) + [EndDrain]);
    TurnsRun(s4, n);
    RunConcat(s4, Turns(n), [EndDrain]);
    assert s4.phase.snapshot[0..] == s.pending;
    RunOne(Run(s4, Turns(n)), EndDrain);
  }

  /** A quit from another thread reaches a loop that waits in poll: after its wakeup one round ends the loop,
      and the queue has been run. */
  lemma QuitEndsTheLoop(s: Loop, t: nat)
    requires LoopFree(s) && s.phase.Polling? && t != LOOP && t !in s.wakers
    ensures var r := Run(s, [ForeignQuit(t)] + ([ForeignWake(t)] + (Round(|s.pending|) + [CheckQuit])));
            r.phase.Outside? && r.quit && r.pending == [] && r.executed == s.executed + s.pending
  {
    hide Run, Round;
    var s1 := Apply(s, ForeignQuit(t));
    var s2 := Apply(s1, ForeignWake(t));
    RunsOn(s, ForeignQuit(t), [ForeignWake(t)] + (Round(|s.pending|) + [CheckQuit]));
    RunsOn(s1, ForeignWake(t), Round(|s.pending|) + [CheckQuit]);
    RoundRuns(s2);
    RunConcat(s2, Round(|s.pending|), [CheckQuit]);
    RunOne(Run(s2, Round(|s.pending|)), CheckQuit);
  }
}
