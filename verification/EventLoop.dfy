/** The event loop object: its fields, and the methods that queue, wake and drain. Each call is proved to
    be an uninterrupted sequence of the atomic steps of the hand-off protocol. */
module EventLoopClass {
  import opened HandOff

  /** The steps of one `queueInLoop` made by thread `t`. */
  ghost function QueueSteps(s: Loop, t: nat): seq<Step> {
    if t != LOOP then [ForeignPush(t)] + [ForeignWake(t)]
    else if Calling(s) then [LoopPush] + [LoopWake]
    else [LoopPush]
  }

  /** What can happen while a functor runs: its own calls into the loop, and steps of other threads. */
  predicate DuringFunctor(e: Step) {
    e.ForeignPush? || e.ForeignQuit? || e.ForeignWake? || e.LoopPush? || e.LoopWake? || e.LoopQuit?
  }

  /** Each step is possible when its turn comes. */
  ghost predicate Feasible(s: Loop, es: seq<Step>)
    decreases |es|
  {
    es == [] || (DuringFunctor(es[0]) && Enabled(s, es[0]) && Feasible(Apply(s, es[0]), es[1..]))
  }

  /** `turns[i]` is what happens during the `i`-th functor of the rest of a drain. */
  ghost predicate Drains(s: Loop, turns: seq<seq<Step>>)
    decreases |turns|
  {
    && LoopFree(s) && s.phase.Draining?
    && if turns == [] then s.phase.done == |s.phase.snapshot|
       else s.phase.done < |s.phase.snapshot| && Feasible(Apply(s, RunNext), turns[0])
            && Drains(Run(Apply(s, RunNext), turns[0]), turns[1..])
  }

  ghost function DrainSteps(turns: seq<seq<Step>>): seq<Step> {
    if turns == [] then [] else DrainSteps(turns[..|turns| - 1]) + ([RunNext] + turns[|turns| - 1])
  }

  /** Once the queue is swapped, a queued functor has its wakeup. */
  ghost predicate Awake(s: Loop) { !s.early && (s.pending != [] ==> WakeupComing(s)) }

  lemma StepDuring(s: Loop, e: Step)
    requires DuringFunctor(e) && Enabled(s, e)
    ensures var r := Apply(s, e);
            && r.phase == s.phase && r.executed == s.executed && s.pending <= r.pending
            && (Awake(s) && s.phase.Draining? ==> Awake(r))
  {
    match e
    case ForeignPush(t) => assert t in Apply(s, e).wakers;
    case LoopPush => assert Calling(s) ==> LOOP in Apply(s, e).wakers;
    case _ =>
  }

  /** The pieces of one drain put together. */
  lemma DrainAssembled(before: Loop, meanwhile: seq<Step>, steps: seq<Step>, drained: Loop)
    requires Conserved(before) && Enabled(before, BeginDrain)
    requires var called := Run(Apply(before, BeginDrain), meanwhile);
             Enabled(called, Swap) && drained == Run(Apply(called, Swap), steps) && Enabled(drained, EndDrain)
    ensures var r := Apply(drained, EndDrain);
            Conserved(r) && r == Run(before, [BeginDrain] + (meanwhile + ([Swap] + (steps + [EndDrain]))))
  {
    hide Run, Conserved, Apply, Enabled;
    var calling := Apply(before, BeginDrain);
    var called := Run(calling, meanwhile);
    var swapped := Apply(called, Swap);
    RunOne(drained, EndDrain);
    RunConcat(swapped, steps, [EndDrain]);
    RunOne(called, Swap);
    RunConcat(called, [Swap], steps + [EndDrain]);
    RunConcat(calling, meanwhile, [Swap] + (steps + [EndDrain]));
    RunOne(before, BeginDrain);
    RunConcat(before, [BeginDrain], meanwhile + ([Swap] + (steps + [EndDrain])));
    FunctorsAreConserved(before, [BeginDrain] + (meanwhile + ([Swap] + (steps + [EndDrain]))));
  }

  class EventLoop {
    var pendingFunctors: seq<Functor>
    var eventfd: nat
    var quit: bool
    var callingPendingFunctors: bool
    var issued: map<nat, nat>      // tickets that tell the functors apart
    ghost var protocol: Loop

    ghost predicate Valid()
      reads this
    {
      && pendingFunctors == protocol.pending && eventfd == protocol.eventfd && quit == protocol.quit
      && callingPendingFunctors == Calling(protocol) && issued == protocol.issued
    }

    constructor ()
      ensures Valid() && protocol == Init()
    {
      pendingFunctors, eventfd, quit, callingPendingFunctors, issued := [], 0, false, false, map[];
      protocol := Init();
    }

    /** `wakeup` of thread `t`, which has just pushed a functor or set `quit_`. */
    method Wakeup(t: nat)
      requires Valid() && t in protocol.wakers
      modifies this`eventfd, this`protocol
      ensures Valid()
      ensures protocol == Apply(old(protocol), if t == LOOP then LoopWake else ForeignWake(t))
    {
      if eventfd < EVENTFD_MAX {
        eventfd := eventfd + 1;
      }
      protocol := Apply(protocol, if t == LOOP then LoopWake else ForeignWake(t));
    }

    /** A whole `queueInLoop`: the functor is queued last, and the loop is woken unless it is the loop
        thread itself, outside a drain, that queues. */
    method QueueInLoop(t: nat)
      requires Valid() && t !in protocol.wakers && (t == LOOP ==> UserCodeRuns(protocol))
      modifies this`pendingFunctors, this`eventfd, this`issued, this`quit, this`protocol
      ensures Valid() && quit == old(quit)
      ensures protocol == Run(old(protocol), QueueSteps(old(protocol), t))
      ensures pendingFunctors == old(pendingFunctors) + [Functor(t, Issued(old(protocol), t))]
      ensures eventfd >= old(eventfd) && (t != LOOP || callingPendingFunctors ==> eventfd > 0)
      ensures protocol.phase == old(protocol.phase) && protocol.wakers == old(protocol.wakers)
      ensures protocol.executed == old(protocol.executed)
    {
      hide Run;
      ghost var before := protocol;
      ghost var push := if t == LOOP then LoopPush else ForeignPush(t);
      RunOne(before, push);
      Take(if t == LOOP then LoopPush else ForeignPush(t));
      if t != LOOP || callingPendingFunctors {
        ghost var pushed := protocol;
        ghost var wake := if t == LOOP then LoopWake else ForeignWake(t);
        RunOne(pushed, wake);
        RunConcat(before, [push], [wake]);
        Wakeup(t);
      }
    }

    /** `quit`, called by thread `t`. */
    method Quit(t: nat)
      requires Valid() && t !in protocol.wakers && (t == LOOP ==> UserCodeRuns(protocol))
      modifies this`quit, this`eventfd, this`protocol
      ensures Valid() && quit && (t != LOOP ==> eventfd > 0)
      ensures protocol == Run(old(protocol), if t == LOOP then [LoopQuit] else [ForeignQuit(t)] + [ForeignWake(t)])
    {
      hide Run;
      ghost var before := protocol;
      quit := true;
      ghost var set_ := if t == LOOP then LoopQuit else ForeignQuit(t);
      protocol := Apply(protocol, set_);
      RunOne(before, set_);
      if t != LOOP {
        ghost var asked := protocol;
        Wakeup(t);
        RunOne(asked, ForeignWake(t));
        RunConcat(before, [set_], [ForeignWake(t)]);
      }
    }

    /** `handleRead` of the wakeup channel. */
    method HandleRead()
      requires Valid() && Enabled(protocol, HandleWakeup)
      modifies this`eventfd, this`protocol
      ensures Valid() && eventfd == 0 && protocol == Run(old(protocol), [HandleWakeup])
    {
      RunOne(protocol, HandleWakeup);
      eventfd := 0;
      protocol := Apply(protocol, HandleWakeup);
    }

    /** One step of the running functor or of another thread. */
    method Take(e: Step)
      requires Valid() && DuringFunctor(e) && Enabled(protocol, e)
      modifies this`pendingFunctors, this`eventfd, this`issued, this`quit, this`protocol
      ensures Valid() && protocol == Apply(old(protocol), e)
    {
      if e.ForeignPush? || e.LoopPush? {
        var t := if e.ForeignPush? then e.t else LOOP;
        var ticket := if t in issued then issued[t] else 0;
        issued := issued[t := ticket + 1];
        pendingFunctors := pendingFunctors + [Functor(t, ticket)];
      } else if e.ForeignQuit? || e.LoopQuit? {
        quit := true;
      } else if eventfd < EVENTFD_MAX {
        eventfd := eventfd + 1;
      }
      protocol := Apply(protocol, e);
    }

    /** Everything that happens while a functor runs, in any interleaving. */
    method Endure(steps: seq<Step>)
      requires Valid() && Feasible(protocol, steps)
      modifies this`pendingFunctors, this`eventfd, this`issued, this`quit, this`protocol
      ensures Valid() && protocol == Run(old(protocol), steps)
      ensures protocol.phase == old(protocol.phase) && protocol.executed == old(protocol.executed)
      ensures old(pendingFunctors) <= pendingFunctors
      ensures old(Awake(protocol) && protocol.phase.Draining?) ==> Awake(protocol)
    {
      hide Run, Apply, Enabled, Awake;
      ghost var start := protocol;
      RunNothing(start);
      var j := 0;
      while j < |steps|
        invariant 0 <= j <= |steps| && Valid() && Feasible(protocol, steps[j..])
        invariant protocol == Run(start, steps[..j])
        invariant protocol.phase == start.phase && protocol.executed == start.executed
        invariant old(pendingFunctors) <= pendingFunctors
        invariant Awake(start) && start.phase.Draining? ==> Awake(protocol)
      {
        assert steps[j..][0] == steps[j] && steps[j..][1..] == steps[j + 1..];
        StepDuring(protocol, steps[j]);
        RunOne(protocol, steps[j]);
        RunConcat(start, steps[..j], [steps[j]]);
        assert steps[..j + 1] == steps[..j] + [steps[j]];
        Take(steps[j]);
        j := j + 1;
      }
      assert steps[..j] == steps;
    }

    /** The loop of `doPendingFunctors`. */
    method RunAll(functors: seq<Functor>, turns: seq<seq<Step>>)
      requires Valid() && Drains(protocol, turns) && Awake(protocol) && |turns| == |functors|
      requires protocol.phase == Draining(functors, 0, |protocol.executed|)
      modifies this`pendingFunctors, this`eventfd, this`issued, this`quit, this`protocol
      ensures Valid() && LoopFree(protocol) && Awake(protocol)
      ensures protocol == Run(old(protocol), DrainSteps(turns))
      ensures protocol.phase == old(protocol.phase.(done := |functors|))
      ensures protocol.executed == old(protocol.executed) + functors
    {
      hide Run, Enabled, Awake, Feasible;
      ghost var swapped := protocol;
      RunNothing(swapped);
      var i := 0;
      while i < |functors|
        invariant 0 <= i <= |functors| && Valid() && Drains(protocol, turns[i..]) && Awake(protocol)
        invariant protocol == Run(swapped, DrainSteps(turns[..i]))
        invariant protocol.phase == swapped.phase.(done := i)
        invariant protocol.executed == swapped.executed + functors[..i]
      {
        assert turns[i..][0] == turns[i] && turns[i..][1..] == turns[i + 1..];
        ghost var now := protocol;
        NextTurn(swapped, now, turns, i);
        protocol := Apply(protocol, RunNext);
        Endure(turns[i]);
        assert functors[..i + 1] == functors[..i] + [functors[i]];
        i := i + 1;
      }
      assert turns[..i] == turns && turns[i..] == [];
    }

    /** `doPendingFunctors`, with other threads pushing, waking and quitting at any point: what it runs is exactly
        what was queued when it swapped, in order, beginning with what was queued on entry; what is queued
        later is left in the queue with a wakeup written or on its way. */
    method DoPendingFunctors(meanwhile: seq<Step>, turns: seq<seq<Step>>)
      requires Valid() && Enabled(protocol, BeginDrain) && Conserved(protocol)
      requires Feasible(Apply(protocol, BeginDrain), meanwhile)
      requires var called := Run(Apply(protocol, BeginDrain), meanwhile);
               Enabled(called, Swap) && Drains(Apply(called, Swap), turns) && |turns| == |called.pending|
      modifies this
      ensures Valid() && Conserved(protocol) && protocol.phase.Checking?
      ensures protocol == Run(old(protocol),
                [BeginDrain] + (meanwhile + ([Swap] + (DrainSteps(turns) + [EndDrain]))))
      ensures var taken := Run(Apply(old(protocol), BeginDrain), meanwhile).pending;
              old(pendingFunctors) <= taken && protocol.executed == old(protocol.executed) + taken
      ensures pendingFunctors != [] ==> WakeupComing(protocol)
    {
      hide Run, Conserved, DrainSteps, Feasible, Drains, WakeupComing, Apply, Awake;
      ghost var before := protocol;
      var functors := TakeQueue(meanwhile);
      RunAll(functors, turns);
      DrainAssembled(before, meanwhile, DrainSteps(turns), protocol);
      callingPendingFunctors := false;
      Ends(protocol);
      protocol := Apply(protocol, EndDrain);
    }

    /** The flag is set, other threads may still push, and the queue is swapped out. */
    method TakeQueue(meanwhile: seq<Step>) returns (functors: seq<Functor>)
      requires Valid() && Enabled(protocol, BeginDrain) && Feasible(Apply(protocol, BeginDrain), meanwhile)
      requires Enabled(Run(Apply(protocol, BeginDrain), meanwhile), Swap)
      modifies this
      ensures Valid() && Awake(protocol) && pendingFunctors == [] && callingPendingFunctors
      ensures var called := Run(Apply(old(protocol), BeginDrain), meanwhile);
              && protocol == Apply(called, Swap) && functors == called.pending && old(pendingFunctors) <= functors
              && protocol.executed == old(protocol.executed)
              && protocol.phase == Draining(functors, 0, |protocol.executed|)
    {
      hide Run, Feasible, WakeupComing, Apply, Awake;
      callingPendingFunctors := true;
      Begins(protocol);
      protocol := Apply(protocol, BeginDrain);
      Endure(meanwhile);
      functors := pendingFunctors;
      pendingFunctors := [];
      Swaps(protocol);
      protocol := Apply(protocol, Swap);
    }
  }

  lemma Begins(s: Loop)
    requires Enabled(s, BeginDrain)
    ensures Apply(s, BeginDrain) == s.(phase := Swapping)
  {
  }

  lemma Swaps(s: Loop)
    requires Enabled(s, Swap)
    ensures var r := Apply(s, Swap); Awake(r) && r == s.(phase := Draining(s.pending, 0, |s.executed|), pending := [], early := false)
  {
  }

  lemma Ends(s: Loop)
    requires Enabled(s, EndDrain) && Awake(s)
    ensures var r := Apply(s, EndDrain); r == s.(phase := Checking) && (r.pending != [] ==> WakeupComing(r))
  {
  }

  /** The next functor and what happens during it, as steps of the whole drain. */
  lemma NextTurn(swapped: Loop, now: Loop, turns: seq<seq<Step>>, i: nat)
    requires i < |turns| && now == Run(swapped, DrainSteps(turns[..i])) && Drains(now, turns[i..]) && Awake(now)
    ensures Enabled(now, RunNext) && Feasible(Apply(now, RunNext), turns[i]) && Awake(Apply(now, RunNext))
    ensures Run(Apply(now, RunNext), turns[i]) == Run(swapped, DrainSteps(turns[..i + 1]))
    ensures Drains(Run(Apply(now, RunNext), turns[i]), turns[i + 1..])
  {
    hide Run, Feasible;
    assert turns[i..][0] == turns[i] && turns[i..][1..] == turns[i + 1..];
    assert turns[..i + 1][..i] == turns[..i] && turns[..i + 1][i] == turns[i];
    RunOne(now, RunNext);
    RunConcat(now, [RunNext], turns[i]);
    RunConcat(swapped, DrainSteps(turns[..i]), [RunNext] + turns[i]);
  }
}
