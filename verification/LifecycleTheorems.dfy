/** What holds in every interleaving of the main loop, the io loops and other threads. */
module LifecycleTheorems {
  import opened Outcomes
  import opened Lifecycles
  import opened LifecycleViews
  import opened LifecycleSafety
  import opened LifecycleSteps
  import P = Pollers

  /** One entry of the log is in order with what precedes it. */
  ghost predicate ActOk(before: seq<Act>, a: Act) {
    match a
    case Established(c) => a !in before
    case Handled(c) => Established(c) in before && Destroyed(c) !in before
    case Closed(c) => Established(c) in before && Destroyed(c) !in before
    case Destroyed(c) => Closed(c) in before
  }

  ghost predicate LogOk(log: seq<Act>) {
    forall i :: 0 <= i < |log| ==> ActOk(log[..i], log[i])
  }

  ghost predicate LogKnown(w: World) { forall a :: a in w.log ==> a.conn < |w.conns| }

  /** And every life has been lived in order. */
  ghost predicate InOrder(w: World)
    requires Sized(w)
  {
    && (forall c :: 0 <= c < |w.conns| ==> Ordered(ViewOf(w, c)))
    && LogOk(w.log) && LogKnown(w)
  }

  ghost predicate Inv(w: World) { Guarded(w) && InOrder(w) }

  // ---------------------------------------------------------------------------
  // No freed connection is touched

  lemma NewIsWeak(w: World, io: nat, fd: int)
    ensures Weak(BornView(w, io, fd))
  {
    CountOne(Establish(|w.conns|));
    assert [] + [Establish(|w.conns|)] == [Establish(|w.conns|)];
  }

  /** Every step that can happen succeeds and leaves every connection guarded. */
  lemma StepKeepsGuard(w: World, e: Step)
    requires Guarded(w) && Enabled(w, e)
    ensures Apply(w, e).Ok? && Guarded(Apply(w, e).value)
  {
    hide Base, ViewOf, Weak, Apply, Enabled, MoveOf, Can, After, BornView;
    GuardedIsBase(w);
    StepSucceeds(w, e);
    var v := Apply(w, e).value;
    forall c | 0 <= c < |v.conns|
      ensures Weak(ViewOf(v, c))
    {
      if c < |w.conns| {
        MoveKeepsWeak(ViewOf(w, c), MoveOf(w, e, c, ViewOf(v, c).watch));
      } else {
        AcceptSucceeds(w, e.io, e.fd);
        NewIsWeak(w, e.io, e.fd);
      }
    }
  }

  /** From a guarded state no run touches a freed connection or fails in epoll_ctl. */
  lemma {:induction false} GuardedRunIsSafe(w: World, es: seq<Step>)
    requires Guarded(w)
    ensures Run(w, es).Ok? && Guarded(Run(w, es).value)
    decreases |es|
  {
    hide Guarded, Apply, Enabled;
    if es != [] {
      if Enabled(w, es[0]) {
        StepKeepsGuard(w, es[0]);
        GuardedRunIsSafe(Apply(w, es[0]).value, es[1..]);
      } else {
        GuardedRunIsSafe(w, es[1..]);
      }
    }
  }

  // ---------------------------------------------------------------------------
  // Open connections are listened to

  ghost predicate AllListen(w: World)
    requires Sized(w)
  {
    forall c :: 0 <= c < |w.conns| ==> Listening(ViewOf(w, c))
  }

  lemma StepKeepsListening(w: World, e: Step)
    requires Guarded(w) && Sized(w) && AllListen(w) && Enabled(w, e)
    ensures Apply(w, e).Ok? && Sized(Apply(w, e).value) && AllListen(Apply(w, e).value)
  {
    hide Base, ViewOf, Weak, Apply, Enabled, MoveOf, Can, After, BornView, Listening;
    StepSucceeds(w, e);
    var v := Apply(w, e).value;
    forall c | 0 <= c < |v.conns|
      ensures Listening(ViewOf(v, c))
    {
      if c < |w.conns| {
        MoveKeepsListening(ViewOf(w, c), MoveOf(w, e, c, ViewOf(v, c).watch));
      } else {
        AcceptSucceeds(w, e.io, e.fd);
        NewListens(w, e.io, e.fd);
      }
    }
  }

  lemma NewListens(w: World, io: nat, fd: int)
    ensures Listening(BornView(w, io, fd))
  {
  }

  lemma InitListens(loops: nat)
    requires loops > 0
    ensures Sized(Init(loops)) && AllListen(Init(loops))
  {
  }

  lemma {:induction false} RunKeepsListening(w: World, es: seq<Step>)
    requires Guarded(w) && Sized(w) && AllListen(w)
    ensures Run(w, es).Ok? && Sized(Run(w, es).value) && AllListen(Run(w, es).value)
    decreases |es|
  {
    hide Guarded, Apply, Enabled, Sized, AllListen;
    if es != [] {
      if Enabled(w, es[0]) {
        StepKeepsListening(w, es[0]);
        StepKeepsGuard(w, es[0]);
        RunKeepsListening(Apply(w, es[0]).value, es[1..]);
      } else {
        RunKeepsListening(w, es[1..]);
      }
    }
  }

  /** In every reachable state, an established connection that no handleClose has run for is watched by the kernel
      on its own loop, for reading at least, whatever was sent, shut down or queued meanwhile. */
  lemma OpenConnectionsAreHeard(loops: nat, es: seq<Step>, c: nat)
    requires loops > 0 && Run(Init(loops), es).Ok? && c < |Run(Init(loops), es).value.conns|
    ensures var w := Run(Init(loops), es).value; var n := w.conns[c];
            n.established && n.closes == 0 ==>
              && n.loop < |w.reactors| && n.fd in w.reactors[n.loop].poller.kernel
              && w.reactors[n.loop].poller.kernel[n.fd].channel == c
              && {P.In, P.Pri} <= w.reactors[n.loop].poller.kernel[n.fd].mask
  {
    hide Run, Inv, Guarded, AllListen;
    InitIsGood(loops);
    InitListens(loops);
    InvIsGuarded(Init(loops));
    RunKeepsListening(Init(loops), es);
    GuardedRunIsSafe(Init(loops), es);
    var w := Run(Init(loops), es).value;
    GuardedIsBase(w);
    ListensAt(w, c);
    GuardedView(w, c);
    if w.conns[c].established && w.conns[c].closes == 0 { AddedIsWatched(w, c); }
  }

  lemma ListensAt(w: World, c: nat)
    requires Sized(w) && AllListen(w) && c < |w.conns|
    ensures Listening(ViewOf(w, c))
  {
  }

  lemma AddedIsWatched(w: World, c: nat)
    requires Guarded(w) && c < |w.conns| && Known(w, c) && WatchOf(w, c).index.Added?
    ensures var n := w.conns[c]; var p := w.reactors[n.loop].poller;
            n.fd in p.kernel && p.kernel[n.fd] == P.Interest(WatchOf(w, c).mask, c)
  {
    hide P.Agrees, Queues, Dispatches, Distinct, ViewOf;
    var l := w.conns[c].loop;
    assert PollerOk(w, l) && ChanOk(w, l, c);
    AgreesAt(w.reactors[l].poller, c);
  }

  lemma AgreesAt(p: P.Poller<nat>, c: nat)
    requires P.Agrees(p) && c in p.chans
    ensures P.ChanAgrees(p, c)
  {
  }

  ghost predicate Open(w: World, c: nat) { c < |w.conns| && w.conns[c].established && w.conns[c].closes == 0 }

  /** The kernel watches the descriptor of `c`, for `c`, and for writing too. */
  ghost predicate WaitsToWrite(w: World, c: nat)
    requires Known(w, c)
  {
    var n := w.conns[c]; var p := w.reactors[n.loop].poller;
    n.fd in p.kernel && p.kernel[n.fd].channel == c && P.Out in p.kernel[n.fd].mask
  }

  /** A send that leaves a remainder: on the io thread, or as a functor there. */
  ghost predicate LeavesRemainder(w: World, e: Step, c: nat)
    requires Enabled(w, e) && c < |w.conns|
  {
    || (e == Send(c, true) && w.conns[c].state.Connected?)
    || (e.RunFunctor? && w.reactors[e.l].phase.batch[0] == Call(c, true))
  }

  ghost predicate DrainsBuffer(w: World, e: Step, c: nat)
    requires Enabled(w, e)
  {
    e.OnWrite? && e.drained && w.reactors[e.l].phase.rest[0] == c
  }

  lemma OpenIsWatched(w: World, c: nat)
    requires Guarded(w) && Sized(w) && AllListen(w) && Open(w, c)
    ensures Known(w, c) && Weak(ViewOf(w, c)) && ViewOf(w, c).conn == w.conns[c]
    ensures WaitsToWrite(w, c) <==> P.Out in ViewOf(w, c).watch.mask
  {
    hide Guarded, Weak, AllListen, ViewOf;
    ListensAt(w, c);
    GuardedView(w, c);
    AddedIsWatched(w, c);
  }

  lemma MoveSetsInterest(v: View, m: Move, asks: bool, drains: bool)
    requires Weak(v) && Can(v, m) && v.conn.established && v.conn.closes == 0 && After(v, m).conn.closes == 0
    requires asks <==> m.Sends? || (m.Runs? && v.share.batch[0].Call? && v.share.batch[0].writes)
    requires drains <==> m.Handles? && m.drained
    requires After(v, m).watch.index.Added?
    ensures P.Out in After(v, m).watch.mask <==> asks || (P.Out in v.watch.mask && !drains)
  {
    hide Destroys, Establishes, HasCall, WritesCovered, CallsFirst, CallsCovered, Covered, Waiting;
    if m.Runs? { RunsCounts(v); }
  }

  lemma FunctorShows(w: World, l: nat, c: nat)
    requires Guarded(w) && Sized(w) && Enabled(w, RunFunctor(l)) && c < |w.conns|
    ensures var t := w.reactors[l].phase.batch[0]; var b := ViewOf(w, c).share.batch;
            t.conn == c && !t.Erase? ==> b != [] && b[0] == t
  {
    hide Base, ViewOf, Popped;
    GuardedIsBase(w);
    FunctorFinds(w, l);
    PopKeeps(w, l);
  }

  /** In every step: the kernel reports room to write to an open connection exactly if this step leaves a remainder,
      or it did before and this step does not drain the buffer. */
  lemma WriteInterestIff(w: World, e: Step, c: nat)
    requires Guarded(w) && Sized(w) && AllListen(w) && Enabled(w, e) && Open(w, c)
    ensures Known(w, c) && Apply(w, e).Ok?
    ensures var v := Apply(w, e).value; Open(v, c) ==>
              && Known(v, c)
              && (WaitsToWrite(v, c) <==> LeavesRemainder(w, e, c) || (WaitsToWrite(w, c) && !DrainsBuffer(w, e, c)))
  {
    hide Guarded, Weak, AllListen, Base, ViewOf, Apply, Can, After, WaitsToWrite;
    StepSucceeds(w, e);
    StepKeepsListening(w, e);
    StepKeepsGuard(w, e);
    OpenIsWatched(w, c);
    var v := Apply(w, e).value;
    if Open(v, c) {
      OpenIsWatched(v, c);
      ListensAt(v, c);
      var m := MoveOf(w, e, c, ViewOf(v, c).watch);
      assert MovesTo(ViewOf(w, c), m, ViewOf(v, c));
      if e.RunFunctor? { FunctorShows(w, e.l, c); }
      MoveSetsInterest(ViewOf(w, c), m, LeavesRemainder(w, e, c), DrainsBuffer(w, e, c));
    }
  }

  // ---------------------------------------------------------------------------
  // Every life is lived in order

  lemma LogExtends(log: seq<Act>, a: Act)
    requires LogOk(log) && ActOk(log, a)
    ensures LogOk(log + [a])
  {
    var after := log + [a];
    assert after[..|log|] == log;
    assert forall i :: 0 <= i < |log| ==> after[..i] == log[..i];
  }

  lemma InvView(w: World, c: nat)
    requires Inv(w) && c < |w.conns|
    ensures Base(w) && Sized(w) && Known(w, c) && Weak(ViewOf(w, c)) && Ordered(ViewOf(w, c))
    ensures var v := ViewOf(w, c);
            && v.id == c && v.conn == w.conns[c] && v.live == Live(w, c) && v.watch == WatchOf(w, c)
            && v.listed == (c in w.connections)
            && v.wasEstablished == (Established(c) in w.log)
            && v.wasClosed == (Closed(c) in w.log)
            && v.wasDestroyed == (Destroyed(c) in w.log)
  {
    hide Queues, Dispatches, Polled, Distinct, Weak, Ordered, ShareOf, LogOk;
  }

  lemma InvIsGuarded(w: World)
    requires Inv(w)
    ensures Guarded(w)
  {
  }

  /** What a step adds to the log is in order. */
  lemma LogInOrder(w: World, e: Step)
    requires Inv(w) && Enabled(w, e)
    ensures |LogOf(w, e)| <= 1
    ensures forall a :: a in LogOf(w, e) ==> ActOk(w.log, a) && (a.conn < |w.conns| || (e.Accept? && a.conn == |w.conns|))
  {
    hide Base, ViewOf, LogOk;
    GuardedIsBase(w);
    match e
    case OnClose(l) => HandlerInOrder(w, l);
    case OnWrite(l, _) => HandlerInOrder(w, l);
    case OnRead(l) => HandlerInOrder(w, l);
    case RunFunctor(l) =>
      FunctorFinds(w, l);
      InvView(w, w.reactors[l].phase.batch[0].conn);
    case _ =>
  }

  /** A handler runs after the establishment and before the destruction of its connection. */
  lemma HandlerInOrder(w: World, l: nat)
    requires Inv(w) && Handling(w, l)
    ensures var c := w.reactors[l].phase.rest[0];
            && Live(w, c) && w.conns[c].loop == l && w.conns[c].established && w.conns[c].destroys == 0
            && ActOk(w.log, Handled(c)) && ActOk(w.log, Closed(c))
  {
    hide Base, ViewOf, LogOk;
    HandlerFinds(w, l);
    InvView(w, w.reactors[l].phase.rest[0]);
  }

  lemma NewIsOrdered(w: World, io: nat, fd: int)
    requires LogKnown(w)
    ensures Ordered(BornView(w, io, fd))
  {
    var c := |w.conns|;
    assert Established(c) !in w.log && Closed(c) !in w.log && Destroyed(c) !in w.log;
    CountOne(Establish(c));
    assert [] + [Establish(c)] == [Establish(c)] && [Establish(c)][1..] == [];
  }

  lemma StepKeepsOrder(w: World, e: Step, c: nat)
    requires Inv(w) && Enabled(w, e) && Sized(w) && Succeeds(w, e) && c < |Apply(w, e).value.conns|
    ensures Ordered(ViewOf(Apply(w, e).value, c))
  {
    hide Base, ViewOf, Weak, Ordered, Apply, Enabled, MoveOf, Can, After, BornView, LogOk;
    var v := Apply(w, e).value;
    if c < |w.conns| {
      InvView(w, c);
      MoveKeepsOrder(ViewOf(w, c), MoveOf(w, e, c, ViewOf(v, c).watch));
    } else {
      AcceptSucceeds(w, e.io, e.fd);
      NewIsOrdered(w, e.io, e.fd);
    }
  }

  /** Every step that can happen succeeds and keeps the invariant. */
  lemma StepKeeps(w: World, e: Step)
    requires Inv(w) && Enabled(w, e)
    ensures var r := Apply(w, e); r.Ok? && Inv(r.value)
  {
    hide Guarded, Base, ViewOf, Ordered, Apply, Enabled, AllMove, LogOf, LogOk;
    GuardedIsBase(w);
    StepSucceeds(w, e);
    StepKeepsGuard(w, e);
    var v := Apply(w, e).value;
    GuardedIsBase(v);
    forall c | 0 <= c < |v.conns|
      ensures Ordered(ViewOf(v, c))
    {
      StepKeepsOrder(w, e, c);
    }
    LogInOrder(w, e);
    Longer(w, e);
    var more := LogOf(w, e);
    if more == [] {
      assert w.log + more == w.log;
    } else {
      assert more == [more[0]] && more[0] in more;
      LogExtends(w.log, more[0]);
    }
  }

  lemma Longer(w: World, e: Step)
    requires Guarded(w) && Enabled(w, e) && Sized(w) && Succeeds(w, e)
    ensures |Apply(w, e).value.conns| == |w.conns| + if e.Accept? then 1 else 0
  {
    hide Base, ViewOf, Apply, AllMove, LogOf;
    if e.Accept? { AcceptSucceeds(w, e.io, e.fd); }
  }

  /** In every interleaving of the main loop, the io loops and other threads: no handler and no functor
      touches a freed connection, no epoll_ctl fails, and the invariant holds at the end. */
  lemma {:induction false} EveryRunIsSafe(w: World, es: seq<Step>)
    requires Inv(w)
    ensures Run(w, es).Ok? && Inv(Run(w, es).value)
    decreases |es|
  {
    hide Inv, Apply, Enabled;
    if es != [] {
      if Enabled(w, es[0]) {
        StepKeeps(w, es[0]);
        EveryRunIsSafe(Apply(w, es[0]).value, es[1..]);
      } else {
        EveryRunIsSafe(w, es[1..]);
      }
    }
  }

  lemma InitIsGood(loops: nat)
    requires loops > 0
    ensures Inv(Init(loops))
  {
  }

  /** The order of every life: established once and before any handler, no handler after destruction, and
      destruction only after a handleClose. */
  lemma LivesAreInOrder(loops: nat, es: seq<Step>, i: nat)
    requires loops > 0 && Run(Init(loops), es).Ok? && i < |Run(Init(loops), es).value.log|
    ensures var log := Run(Init(loops), es).value.log;
            match log[i]
            case Established(c) => Established(c) !in log[..i]
            case Handled(c) => Established(c) in log[..i] && Destroyed(c) !in log[..i]
            case Closed(c) => Established(c) in log[..i] && Destroyed(c) !in log[..i]
            case Destroyed(c) => Closed(c) in log[..i]
  {
    hide Run, Guarded, ViewOf, Ordered;
    InitIsGood(loops);
    EveryRunIsSafe(Init(loops), es);
    assert ActOk(Run(Init(loops), es).value.log[..i], Run(Init(loops), es).value.log[i]);
  }

  lemma {:induction false} CallOf(q: seq<Task>, c: nat, writes: bool)
    requires Call(c, writes) in q
    ensures HasCall(Of(q, c))
  {
    OfOne(q[0], c);
    if q[0] != Call(c, writes) {
      assert Call(c, writes) in q[1..];
      CallOf(q[1..], c, writes);
      CountConcat(Of([q[0]], c), Of(q[1..], c));
      assert Of(q, c) == Of([q[0]], c) + Of(q[1..], c);
    }
  }

  /** A connection that is not destroyed is held; what is registered is not destroyed. */
  lemma NotDestroyedIsHeld(w: World, c: nat)
    requires Inv(w)
    ensures c < |w.conns| && w.conns[c].destroys == 0 ==> Live(w, c) && Held(w, c)
    ensures Live(w, c) && !IndexOf(w, c).New? ==> w.conns[c].established && w.conns[c].destroys == 0
  {
    hide Queues, Dispatches, Polled, Distinct, LogOk, Of, CallsCovered;
    if c < |w.conns| {
      InvView(w, c);
      if w.conns[c].destroys == 0 && c !in w.connections {
        var r := w.reactors[w.conns[c].loop];
        SameErasing(w, w.conns[c].loop, c);
        WaitingCounts(ViewOf(w, c));
        OfHas(Batch(r), c, Destroy(c));
        OfHas(r.pending, c, Destroy(c));
        assert HoldsConn(Ran(r) + Queue(r), c);
      }
    }
  }

  /** In every reachable state a connection that is not destroyed is held; and a channel that is registered,
      waits to be dispatched or is meant by a queued bare pointer belongs to such a connection. */
  lemma InUseIsHeld(loops: nat, es: seq<Step>, c: nat, l: nat, writes: bool)
    requires loops > 0 && Run(Init(loops), es).Ok?
    ensures var w := Run(Init(loops), es).value;
            c < |w.conns| && w.conns[c].destroys == 0 ==> Live(w, c) && Held(w, c)
    ensures var w := Run(Init(loops), es).value;
            Live(w, c) && !IndexOf(w, c).New? ==> w.conns[c].established && w.conns[c].destroys == 0
    ensures var w := Run(Init(loops), es).value;
            l < |w.reactors| && w.reactors[l].phase.Dispatching? && c in w.reactors[l].phase.rest ==>
              Known(w, c) && w.conns[c].loop == l && w.conns[c].established && w.conns[c].destroys == 0
    ensures var w := Run(Init(loops), es).value;
            l < |w.reactors| && Call(c, writes) in Queue(w.reactors[l]) ==>
              Known(w, c) && w.conns[c].loop == l && w.conns[c].established && w.conns[c].destroys == 0
  {
    hide *;
    InitIsGood(loops);
    EveryRunIsSafe(Init(loops), es);
    var w := Run(Init(loops), es).value;
    NotDestroyedIsHeld(w, c);
    if l < |w.reactors| && w.reactors[l].phase.Dispatching? && c in w.reactors[l].phase.rest { ActiveInTime(w, l, c); }
    if l < |w.reactors| && Call(c, writes) in Queue(w.reactors[l]) { CallInTime(w, l, c, writes); }
  }

  lemma ActiveInTime(w: World, l: nat, c: nat)
    requires Inv(w) && l < |w.reactors| && w.reactors[l].phase.Dispatching? && c in w.reactors[l].phase.rest
    ensures Known(w, c) && w.conns[c].loop == l && w.conns[c].established && w.conns[c].destroys == 0
  {
    hide Queues, Polled, Distinct, Of, LogOk, Queued;
    assert DispatchOk(w, l);
    assert Resident(w, l, c);
    InvView(w, c);
  }

  lemma CallInTime(w: World, l: nat, c: nat, writes: bool)
    requires Inv(w) && l < |w.reactors| && Call(c, writes) in Queue(w.reactors[l])
    ensures Known(w, c) && w.conns[c].loop == l && w.conns[c].established && w.conns[c].destroys == 0
  {
    hide Dispatches, Polled, Distinct, Of, LogOk, Queued, Destroys;
    assert QueueOk(w, l);
    assert TaskAt(w, l, Call(c, writes));
    InvView(w, c);
    var r := w.reactors[l];
    if Call(c, writes) in Batch(r) { CallOf(Batch(r), c, writes); } else { CallOf(r.pending, c, writes); }
    WaitingCounts(ViewOf(w, c));
  }

  /** connectDestroyed runs only while its io loop drains its queue, and only after a handleClose; it then
      finds the connection kDisconnected, so its own kConnected branch is never taken. */
  lemma DestroyedOnlyInDrain(w: World, e: Step, c: nat)
    requires Inv(w) && Enabled(w, e) && c < |w.conns|
    requires Apply(w, e).Ok? && c < |Apply(w, e).value.conns|
    requires Apply(w, e).value.conns[c].destroys != w.conns[c].destroys
    ensures Known(w, c) && w.conns[c].closes > 0 && w.conns[c].state.Disconnected?
    ensures e == RunFunctor(w.conns[c].loop) && w.reactors[w.conns[c].loop].phase.batch[0] == Destroy(c)
  {
    hide Base, ViewOf, Weak, Ordered, Apply, LogOk, Can, After;
    GuardedIsBase(w);
    StepSucceeds(w, e);
    var v := Apply(w, e).value;
    ViewFields(w, c);
    ViewFields(v, c);
    var m := MoveOf(w, e, c, ViewOf(v, c).watch);
    assert MovesTo(ViewOf(w, c), m, ViewOf(v, c));
    OnlyRunsDestroy(ViewOf(w, c), m);
    FunctorFinds(w, e.l);
    PopKeeps(w, e.l);
  }

  lemma OnlyRunsDestroy(v: View, m: Move)
    requires Can(v, m) && After(v, m).conn.destroys != v.conn.destroys
    ensures m.Runs? && v.share.batch != [] && v.share.batch[0].Destroy?
  {
    hide Destroys, Establishes, HasCall, Waiting, SetTo;
  }

  /** When every queue is empty, each handleClose has been followed by one erasure and one destruction, and
      `connections_` lists exactly the connections never closed. */
  lemma NothingIsLeftOver(loops: nat, es: seq<Step>, c: nat)
    requires loops > 0 && Run(Init(loops), es).Ok? && c < |Run(Init(loops), es).value.conns|
    requires forall l :: 0 <= l < |Run(Init(loops), es).value.reactors| ==>
               Queue(Run(Init(loops), es).value.reactors[l]) == []
    ensures var w := Run(Init(loops), es).value;
            && w.conns[c].established
            && w.conns[c].destroys == w.conns[c].erases == w.conns[c].closes
            && (c in w.connections <==> w.conns[c].closes == 0)
  {
    hide Run, P.Agrees, Queues, Dispatches, Polled, Distinct, LogOk;
    InitIsGood(loops);
    EveryRunIsSafe(Init(loops), es);
    var w := Run(Init(loops), es).value;
    InvView(w, c);
    assert Queue(w.reactors[w.conns[c].loop]) == [] && Queue(w.reactors[MAIN]) == [];
    CountNone();
  }
}
