/** A run from the start of a server to a state in which a late call is too late. */
module LateCallRun {
  import opened Outcomes
  import opened Lifecycles
  import opened LifecycleSteps
  import opened LifecycleTheorems
  import opened LateCalls
  import P = Pollers
  import S = Connections

  const FD := 7

  /** The poller of the io loop: the channel new, registered, and disabled by handleClose. */
  ghost const FRESH: P.Poller<nat> := P.Poller(map[0 := P.Chan(FD, P.NONE, P.NONE, P.New)], map[], map[], 0)
  ghost const OPEN: P.Poller<nat> :=
    P.Poller(map[0 := P.Chan(FD, P.READ, P.NONE, P.Added)], map[FD := 0], map[FD := P.Interest(P.READ, 0)], 0)
  ghost const SHUT: P.Poller<nat> := P.Poller(map[0 := P.Chan(FD, P.NONE, P.NONE, P.Deleted)], map[FD := 0], map[], 0)

  ghost const NEWBORN := Conn(1, FD, S.Connecting, false, 0, 0, 0)
  ghost const IN_USE := Conn(1, FD, S.Connected, true, 0, 0, 0)
  ghost const CLOSED := Conn(1, FD, S.Disconnected, true, 1, 0, 0)
  ghost const ERASED := Conn(1, FD, S.Disconnected, true, 1, 1, 0)

  const HANG_UP := [P.Report(FD, {P.Hup})]

  /** The server with its two loops and the one connection. */
  ghost function Two(main: Reactor, io: Reactor, n: Conn, listed: set<nat>, log: seq<Act>): World {
    World([main, io], [n], listed, log)
  }

  ghost function Main(phase: Phase, pending: seq<Task>): Reactor { Reactor(phase, pending, P.Empty()) }

  /** Replacing one part of such a server. */
  lemma TwoParts(main: Reactor, io: Reactor, n: Conn, listed: set<nat>, log: seq<Act>, r: Reactor, m: Conn)
    ensures var w := Two(main, io, n, listed, log);
            && WithReactor(w, 0, r) == Two(r, io, n, listed, log)
            && WithReactor(w, 1, r) == Two(main, r, n, listed, log)
            && WithConn(w, 0, m) == Two(main, io, m, listed, log)
  {
    assert [main, io][0 := r] == [r, io] && [main, io][1 := r] == [main, r];
    assert [n][0 := m] == [m];
  }

  lemma Then(w: World, e: Step, v: World, es: seq<Step>)
    requires Enabled(w, e) && Apply(w, e) == Ok(v)
    ensures Run(w, [e] + es) == Run(v, es)
  {
    hide Apply, Enabled;
    assert ([e] + es)[0] == e && ([e] + es)[1..] == es;
  }

  /** The states of the run. */
  ghost const LOG0: seq<Act> := []
  ghost const LOG1 := [Established(0)]
  ghost const LOG2 := [Established(0), Closed(0)]
  ghost const STARTED := World([Main(Polling, []), Main(Polling, [])], [], {}, LOG0)
  ghost const ACCEPTING := World([Main(Dispatching([]), []), Main(Polling, [])], [], {}, LOG0)
  ghost const ACCEPTED := Two(Main(Dispatching([]), []), Reactor(Polling, [Establish(0)], FRESH), NEWBORN, {0}, LOG0)
  ghost const WOKEN := Two(Main(Dispatching([]), []), Reactor(Dispatching([]), [Establish(0)], FRESH), NEWBORN, {0}, LOG0)
  ghost const TAKEN := Two(Main(Dispatching([]), []), Reactor(Draining([Establish(0)], []), [], FRESH), NEWBORN, {0}, LOG0)
  ghost const READY := Two(Main(Dispatching([]), []), Reactor(Draining([], [Establish(0)]), [], OPEN), IN_USE, {0}, LOG1)
  ghost const POLLING := Two(Main(Dispatching([]), []), Reactor(Polling, [], OPEN), IN_USE, {0}, LOG1)
  ghost const HUNG_UP := Two(Main(Dispatching([]), []), Reactor(Dispatching([0]), [], OPEN), IN_USE, {0}, LOG1)
  ghost const HANDLED := Two(Main(Dispatching([]), [Erase(0)]), Reactor(Dispatching([0]), [], SHUT), CLOSED, {0}, LOG2)
  ghost const PASSED := Two(Main(Dispatching([]), [Erase(0)]), Reactor(Dispatching([]), [], SHUT), CLOSED, {0}, LOG2)
  ghost const ERASING := Two(Main(Draining([Erase(0)], []), []), Reactor(Dispatching([]), [], SHUT), CLOSED, {0}, LOG2)
  ghost const UNLISTED := Two(Main(Draining([], [Erase(0)]), []), Reactor(Dispatching([]), [Destroy(0)], SHUT), ERASED, {}, LOG2)
  ghost const DOOMED := Two(Main(Draining([], [Erase(0)]), []), Reactor(Draining([Destroy(0)], []), [], SHUT), ERASED, {}, LOG2)

  lemma StepStart()
    ensures Init(2) == STARTED
    ensures Enabled(STARTED, PollReturns(0, [])) && Apply(STARTED, PollReturns(0, [])) == Ok(ACCEPTING)
  {
    assert Init(2).reactors == STARTED.reactors;
    PhaseIsStep(STARTED, 0);
    assert SetPhase(STARTED, 0, Dispatching([])).reactors == ACCEPTING.reactors;
  }

  lemma StepAccept()
    ensures Enabled(ACCEPTING, Accept(1, FD)) && Apply(ACCEPTING, Accept(1, FD)) == Ok(ACCEPTED)
  {
    var p := P.Step(ACCEPTING.reactors[1].poller, P.Create(0, FD)).value;
    assert p.chans == FRESH.chans;
    var r := Apply(ACCEPTING, Accept(1, FD)).value;
    assert r.reactors[1].pending == [Establish(0)];
    assert r.reactors == ACCEPTED.reactors;
    assert r.conns == ACCEPTED.conns && r.connections == {0};
  }

  lemma StepWake()
    ensures Enabled(ACCEPTED, PollReturns(1, [])) && Apply(ACCEPTED, PollReturns(1, [])) == Ok(WOKEN)
    ensures Enabled(WOKEN, BeginDrain(1)) && Apply(WOKEN, BeginDrain(1)) == Ok(TAKEN)
  {
    PhaseIsStep(ACCEPTED, 1);
    TwoParts(Main(Dispatching([]), []), ACCEPTED.reactors[1], NEWBORN, {0}, LOG0, WOKEN.reactors[1], NEWBORN);
    TwoParts(Main(Dispatching([]), []), WOKEN.reactors[1], NEWBORN, {0}, LOG0, TAKEN.reactors[1], NEWBORN);
  }

  lemma StepEstablish()
    ensures Enabled(TAKEN, RunFunctor(1)) && Apply(TAKEN, RunFunctor(1)) == Ok(READY)
  {
    Enabling();
    var done := Reactor(Draining([], [Establish(0)]), [], FRESH);
    assert TAKEN.reactors[1].phase.batch[1..] == [] && [] + [Establish(0)] == [Establish(0)];
    TwoParts(Main(Dispatching([]), []), TAKEN.reactors[1], NEWBORN, {0}, LOG0, done, NEWBORN);
    TwoParts(Main(Dispatching([]), []), done, NEWBORN, {0}, LOG0, done, IN_USE);
    TwoParts(Main(Dispatching([]), []), done, IN_USE, {0}, LOG0, READY.reactors[1], IN_USE);
    assert LOG0 + [Established(0)] == LOG1;
  }

  lemma Enabling()
    ensures P.Step(FRESH, P.Set(0, P.EnableReading)) == Ok(OPEN)
  {
    assert P.NONE + P.READ == P.READ;
    var q := P.Step(FRESH, P.Set(0, P.EnableReading)).value;
    assert q.chans == OPEN.chans && q.channels == OPEN.channels && q.kernel == OPEN.kernel;
  }

  lemma Disabling()
    ensures P.Step(OPEN, P.Set(0, P.DisableAll)) == Ok(SHUT)
  {
    var q := P.Step(OPEN, P.Set(0, P.DisableAll)).value;
    assert q.chans == SHUT.chans && q.channels == SHUT.channels && q.kernel == SHUT.kernel;
  }

  lemma StepHangUp()
    ensures Enabled(READY, EndDrain(1)) && Apply(READY, EndDrain(1)) == Ok(POLLING)
    ensures Enabled(POLLING, PollReturns(1, HANG_UP)) && Apply(POLLING, PollReturns(1, HANG_UP)) == Ok(HUNG_UP)
  {
    TwoParts(Main(Dispatching([]), []), READY.reactors[1], IN_USE, {0}, LOG1, POLLING.reactors[1], IN_USE);
    TwoParts(Main(Dispatching([]), []), POLLING.reactors[1], IN_USE, {0}, LOG1, HUNG_UP.reactors[1], IN_USE);
    assert P.MayReport(OPEN, HANG_UP);
    assert P.ActiveOf(OPEN, HANG_UP) == [0];
  }

  lemma StepClose()
    ensures Enabled(HUNG_UP, OnClose(1)) && Apply(HUNG_UP, OnClose(1)) == Ok(HANDLED)
    ensures Enabled(HANDLED, NextChannel(1)) && Apply(HANDLED, NextChannel(1)) == Ok(PASSED)
  {
    hide P.Step;
    Disabling();
    var io := HUNG_UP.reactors[1];
    TwoParts(Main(Dispatching([]), []), io, IN_USE, {0}, LOG1, io, CLOSED);
    TwoParts(Main(Dispatching([]), []), io, CLOSED, {0}, LOG1, HANDLED.reactors[1], CLOSED);
    TwoParts(Main(Dispatching([]), []), HANDLED.reactors[1], CLOSED, {0}, LOG2, HANDLED.reactors[0], CLOSED);
    TwoParts(HANDLED.reactors[0], HANDLED.reactors[1], CLOSED, {0}, LOG2, PASSED.reactors[1], CLOSED);
    assert LOG1 + [Closed(0)] == LOG2 && [] + [Erase(0)] == [Erase(0)];
    assert [0][1..] == [];
  }

  lemma StepErase()
    ensures Enabled(PASSED, BeginDrain(0)) && Apply(PASSED, BeginDrain(0)) == Ok(ERASING)
    ensures Enabled(ERASING, RunFunctor(0)) && Apply(ERASING, RunFunctor(0)) == Ok(UNLISTED)
    ensures Enabled(UNLISTED, BeginDrain(1)) && Apply(UNLISTED, BeginDrain(1)) == Ok(DOOMED)
  {
    var io := PASSED.reactors[1];
    TwoParts(PASSED.reactors[0], io, CLOSED, {0}, LOG2, ERASING.reactors[0], CLOSED);
    assert ERASING.reactors[0].phase.batch[1..] == [] && [] + [Erase(0)] == [Erase(0)];
    assert [] + [Destroy(0)] == [Destroy(0)];
    TwoParts(ERASING.reactors[0], io, CLOSED, {0}, LOG2, UNLISTED.reactors[0], CLOSED);
    assert {0} - {0} == {};
    TwoParts(UNLISTED.reactors[0], io, CLOSED, {}, LOG2, io, ERASED);
    TwoParts(UNLISTED.reactors[0], io, ERASED, {}, LOG2, UNLISTED.reactors[1], ERASED);
    TwoParts(UNLISTED.reactors[0], UNLISTED.reactors[1], ERASED, {}, LOG2, DOOMED.reactors[1], ERASED);
  }

  /** Accepted and established; closed by its peer; erased, with the destruction in the batch of the io loop. */
  ghost const END: seq<Step> := [BeginDrain(0)] + ([RunFunctor(0)] + ([BeginDrain(1)] + []))
  ghost const MIDDLE: seq<Step> := [EndDrain(1)] + ([PollReturns(1, HANG_UP)] + ([OnClose(1)] + ([NextChannel(1)] + END)))
  ghost const WHOLE: seq<Step> :=
    [PollReturns(0, [])] + ([Accept(1, FD)] + ([PollReturns(1, [])] + ([BeginDrain(1)] + ([RunFunctor(1)] + MIDDLE))))

  lemma RunsWhole()
    ensures Run(Init(2), WHOLE) == Run(READY, MIDDLE)
  {
    hide Apply, Enabled, Run, Init, Two;
    StepStart();
    StepAccept();
    StepWake();
    StepEstablish();
    Then(STARTED, PollReturns(0, []), ACCEPTING, [Accept(1, FD)] + ([PollReturns(1, [])] + ([BeginDrain(1)] + ([RunFunctor(1)] + MIDDLE))));
    Then(ACCEPTING, Accept(1, FD), ACCEPTED, [PollReturns(1, [])] + ([BeginDrain(1)] + ([RunFunctor(1)] + MIDDLE)));
    Then(ACCEPTED, PollReturns(1, []), WOKEN, [BeginDrain(1)] + ([RunFunctor(1)] + MIDDLE));
    Then(WOKEN, BeginDrain(1), TAKEN, [RunFunctor(1)] + MIDDLE);
    Then(TAKEN, RunFunctor(1), READY, MIDDLE);
  }

  lemma RunsMiddle()
    ensures Run(READY, MIDDLE) == Run(PASSED, END)
  {
    hide Apply, Enabled, Run, Two;
    StepHangUp();
    StepClose();
    Then(READY, EndDrain(1), POLLING, [PollReturns(1, HANG_UP)] + ([OnClose(1)] + ([NextChannel(1)] + END)));
    Then(POLLING, PollReturns(1, HANG_UP), HUNG_UP, [OnClose(1)] + ([NextChannel(1)] + END));
    Then(HUNG_UP, OnClose(1), HANDLED, [NextChannel(1)] + END);
    Then(HANDLED, NextChannel(1), PASSED, END);
  }

  lemma RunsEnd()
    ensures Run(PASSED, END) == Ok(DOOMED)
  {
    hide Apply, Enabled, Two;
    StepErase();
    Then(PASSED, BeginDrain(0), ERASING, [RunFunctor(0)] + ([BeginDrain(1)] + []));
    Then(ERASING, RunFunctor(0), UNLISTED, [BeginDrain(1)] + []);
    Then(UNLISTED, BeginDrain(1), DOOMED, []);
  }

  lemma DoomedIsTooLate(writes: bool)
    ensures |DOOMED.reactors| == 2 && Live(DOOMED, 0) && DOOMED.conns[0] == ERASED && TooLate(DOOMED, 0, writes)
  {
  }

  /** From the start of a server there is a run after which a call queued late, of either kind, can touch a
      freed connection. */
  lemma LateCallFaultsInARun(writes: bool)
    ensures var r := Run(Init(2), WHOLE);
            && r.Ok? && Live(r.value, 0) && r.value.conns[0].established
            && Faulty(Post(r.value, r.value.conns[0].loop, Call(0, writes)))
  {
    hide Apply, Enabled, Run, Faulty, TooLate, Inv, Guarded, Init, Two;
    RunsWhole();
    RunsMiddle();
    RunsEnd();
    InitIsGood(2);
    EveryRunIsSafe(Init(2), WHOLE);
    InvIsGuarded(DOOMED);
    DoomedIsTooLate(writes);
    LateCallFaultsIff(DOOMED, 0, writes);
  }
}
