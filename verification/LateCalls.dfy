/** `send` and `shutdown` called from another thread check the state first and queue a bare pointer later.
    Exactly when can what is queued late meet a connection that has been freed? */
module LateCalls {
  import opened Outcomes
  import opened Lifecycles
  import opened LifecycleViews
  import opened LifecycleSafety
  import opened LifecycleSteps
  import opened LifecycleTheorems
  import P = Pollers
  import S = Connections

  /** A handler (src/EventLoop.cc:88) or a functor (src/EventLoop.cc:207) met a freed connection. */
  predicate TouchesFreed(o: Outcome<World>) { o == Fault(88) || o == Fault(207) }

  /** Some run from here touches a freed connection. */
  ghost predicate Faulty(w: World) { exists es :: TouchesFreed(Run(w, es)) }

  lemma FaultyStep(w: World, e: Step)
    requires Enabled(w, e) && (TouchesFreed(Apply(w, e)) || (Apply(w, e).Ok? && Faulty(Apply(w, e).value)))
    ensures Faulty(w)
  {
    hide Apply, Enabled;
    if Apply(w, e).Fault? {
      assert [e][0] == e;
      assert TouchesFreed(Run(w, [e]));
    } else {
      var es :| TouchesFreed(Run(Apply(w, e).value, es));
      assert ([e] + es)[1..] == es && ([e] + es)[0] == e;
      assert TouchesFreed(Run(w, [e] + es));
    }
  }

  // ---------------------------------------------------------------------------
  // No call of epoll_ctl fails on the way

  /** Enough of the agreement for epoll_ctl to succeed, and not lost when a registered channel is freed. */
  ghost predicate Sturdy(p: P.Poller<nat>) {
    && (forall d :: d in p.chans ==> (p.chans[d].fd in p.kernel <==> p.chans[d].index.Added?))
    && (forall d, e :: d in p.chans && e in p.chans && d != e ==> p.chans[d].fd != p.chans[e].fd)
  }

  lemma SturdyStep(p: P.Poller<nat>, e: P.Event<nat>)
    requires Sturdy(p) && (e.Set? || e.Remove?) && e.channel in p.chans
    ensures P.Step(p, e).Ok? && Sturdy(P.Step(p, e).value)
  {
    hide P.OnlyDescriptor;
    if e.Set? { SturdySet(p, e.channel, e.change); } else { SturdyRemove(p, e.channel); }
  }

  lemma SturdySet(p: P.Poller<nat>, c: nat, change: P.Change)
    requires Sturdy(p) && c in p.chans
    ensures P.Step(p, P.Set(c, change)).Ok? && Sturdy(P.Step(p, P.Set(c, change)).value)
  {
    hide P.Changed;
  }

  lemma SturdyRemove(p: P.Poller<nat>, c: nat)
    requires Sturdy(p) && c in p.chans
    ensures P.Step(p, P.Remove(c)).Ok? && Sturdy(P.Step(p, P.Remove(c)).value)
  {
  }

  lemma SturdyFree(p: P.Poller<nat>, c: nat)
    requires Sturdy(p) && c in p.chans
    ensures Sturdy(P.Step(p, P.Destroy(c)).value)
  {
  }

  ghost predicate AllSturdy(w: World) { forall k :: 0 <= k < |w.reactors| ==> Sturdy(w.reactors[k].poller) }

  lemma SturdyTouch(w: World, c: nat, e: P.Event<nat>)
    requires AllSturdy(w) && Live(w, c) && (e.Set? || e.Remove?) && e.channel == c
    ensures Touch(w, c, e).Ok? && AllSturdy(Touch(w, c, e).value)
  {
    hide P.Step, Sturdy;
    SturdyStep(w.reactors[w.conns[c].loop].poller, e);
  }

  /** A functor fails only if its connection has been freed. */
  lemma SturdyPerform(w: World, t: Task)
    requires AllSturdy(w)
    ensures var o := Perform(w, t); if Live(w, t.conn) then o.Ok? && AllSturdy(o.value) else o == Fault(207)
  {
    hide P.Step, Sturdy, Touch;
    var c := t.conn;
    if Live(w, c) {
      match t
      case Establish(_) =>
        SturdyTouch(WithConn(w, c, w.conns[c].(state := S.Connected, established := true)), c, P.Set(c, P.EnableReading));
      case Erase(_) =>
      case Destroy(_) => SturdyDestroy(w, c);
      case Call(_, writes) => if writes { SturdyTouch(w, c, P.Set(c, P.EnableWriting)); }
    }
  }

  lemma SturdyDestroy(w: World, c: nat)
    requires AllSturdy(w) && Live(w, c)
    ensures ConnectDestroyed(w, c).Ok? && AllSturdy(ConnectDestroyed(w, c).value)
  {
    hide P.Step, Sturdy, Touch;
    var x := WithConn(w, c, w.conns[c].(state := S.Disconnected));
    if w.conns[c].state.Connected? {
      SturdyTouch(x, c, P.Set(c, P.DisableAll));
      SturdyTouch(Touch(x, c, P.Set(c, P.DisableAll)).value, c, P.Remove(c));
    } else {
      SturdyTouch(w, c, P.Remove(c));
    }
  }

  lemma SturdyRun(w: World, k: nat)
    requires AllSturdy(w) && Enabled(w, RunFunctor(k))
    ensures var o := Apply(w, RunFunctor(k)); TouchesFreed(o) || (o.Ok? && AllSturdy(o.value))
  {
    hide Perform, Sturdy;
    SturdyPerform(Popped(w, k), w.reactors[k].phase.batch[0]);
  }

  lemma SturdyPhase(w: World, k: nat, phase: Phase)
    requires AllSturdy(w) && k < |w.reactors|
    ensures AllSturdy(SetPhase(w, k, phase))
  {
    hide Sturdy;
  }

  lemma BaseIsSturdy(w: World)
    requires Base(w)
    ensures AllSturdy(w)
  {
    hide P.Agrees, Queues, Dispatches, P.Shared;
    forall k | 0 <= k < |w.reactors|
      ensures Sturdy(w.reactors[k].poller)
    {
      var p := w.reactors[k].poller;
      assert PollerOk(w, k);
      forall d | d in p.chans
        ensures p.chans[d].fd in p.kernel <==> p.chans[d].index.Added?
      {
        assert ChanOk(w, k, d) && Live(w, d);
        AloneInPoller(w, d);
        P.AloneOnDescriptor(p, d);
      }
      forall d, e | d in p.chans && e in p.chans && d != e
        ensures p.chans[d].fd != p.chans[e].fd
      {
        assert ChanOk(w, k, d) && ChanOk(w, k, e) && Live(w, d) && Live(w, e);
      }
    }
  }

  // ---------------------------------------------------------------------------
  // What performing a functor leaves alone

  ghost predicate SameChannels(p: P.Poller<nat>, q: P.Poller<nat>) {
    p.chans.Keys == q.chans.Keys && forall d :: d in p.chans ==> q.chans[d].fd == p.chans[d].fd
  }

  ghost predicate SameShape(w: World, v: World) {
    && |v.reactors| == |w.reactors| && |v.conns| == |w.conns|
    && v.connections <= w.connections
    && (forall c :: 0 <= c < |w.conns| ==> v.conns[c].loop == w.conns[c].loop)
    && (forall k :: 0 <= k < |w.reactors| ==>
          && v.reactors[k].phase == w.reactors[k].phase
          && SameChannels(w.reactors[k].poller, v.reactors[k].poller))
  }

  lemma TouchShape(w: World, c: nat, e: P.Event<nat>)
    requires Live(w, c) && (e.Set? || e.Remove?) && e.channel == c && Touch(w, c, e).Ok?
    ensures var v := Touch(w, c, e).value;
            && SameShape(w, v)
            && v.conns == w.conns
            && forall k :: 0 <= k < |w.reactors| ==> v.reactors[k].pending == w.reactors[k].pending
  {
    hide P.Step;
    StepChannels(w.reactors[w.conns[c].loop].poller, e);
  }

  lemma StepChannels(p: P.Poller<nat>, e: P.Event<nat>)
    requires (e.Set? || e.Remove?) && e.channel in p.chans && P.Step(p, e).Ok?
    ensures SameChannels(p, P.Step(p, e).value)
  {
    hide P.Changed;
  }

  /** The only functor that posts another is an erasure. */
  ghost predicate PostsAtMost(w: World, t: Task, v: World)
    requires |v.reactors| == |w.reactors|
  {
    forall k :: 0 <= k < |w.reactors| ==>
      || v.reactors[k].pending == w.reactors[k].pending
      || (t.Erase? && v.reactors[k].pending == w.reactors[k].pending + [Destroy(t.conn)])
  }

  lemma PerformShape(w: World, t: Task)
    requires Perform(w, t).Ok?
    ensures SameShape(w, Perform(w, t).value) && PostsAtMost(w, t, Perform(w, t).value)
  {
    hide P.Step, Touch;
    var c := t.conn;
    match t
    case Establish(_) =>
      TouchShape(WithConn(w, c, w.conns[c].(state := S.Connected, established := true)), c, P.Set(c, P.EnableReading));
    case Erase(_) =>
    case Destroy(_) => DestroyShape(w, c);
    case Call(_, writes) => if writes { TouchShape(w, c, P.Set(c, P.EnableWriting)); }
  }

  lemma DestroyShape(w: World, c: nat)
    requires Live(w, c) && ConnectDestroyed(w, c).Ok?
    ensures var v := ConnectDestroyed(w, c).value; SameShape(w, v) && PostsAtMost(w, Destroy(c), v)
  {
    hide P.Step, Touch;
    var n := w.conns[c];
    var x := WithConn(w, c, n.(state := S.Disconnected));
    if n.state.Connected? {
      TouchShape(x, c, P.Set(c, P.DisableAll));
      TouchShape(Touch(x, c, P.Set(c, P.DisableAll)).value, c, P.Remove(c));
    } else {
      TouchShape(w, c, P.Remove(c));
    }
  }

  // ---------------------------------------------------------------------------
  // A connection that nothing will hold much longer

  /** `c` is not listed, no erasure of it is to come, and what still holds it is at its own loop `l` or among
      the functors that the main loop has run. */
  ghost predicate Fading(w: World, c: nat, l: nat) {
    && Known(w, c) && w.conns[c].loop == l && MAIN < |w.reactors| && c !in w.connections
    && (forall k :: 0 <= k < |w.reactors| ==> Erase(c) !in Queue(w.reactors[k]))
    && (forall k :: 0 <= k < |w.reactors| && k != l ==> !HoldsConn(w.reactors[k].pending, c))
    && (forall k :: 0 <= k < |w.reactors| && k != l && k != MAIN ==> !HoldsConn(Ran(w.reactors[k]) + Queue(w.reactors[k]), c))
  }

  /** The call is queued, and of the connection nothing is queued behind it. */
  ghost predicate CallWaits(q: seq<Task>, p: nat, t: Task) {
    p < |q| && q[p] == t && forall i :: p < i < |q| ==> q[i].conn != t.conn
  }

  ghost predicate Unheld(q: seq<Task>, p: nat, c: nat) { p <= |q| && !HoldsConn(q[..p], c) }

  lemma HoldsParts(a: seq<Task>, b: seq<Task>, c: nat)
    ensures HoldsConn(a + b, c) <==> HoldsConn(a, c) || HoldsConn(b, c)
  {
  }

  /** One functor of loop `k` runs: either it faults, or the situation stays. */
  lemma RunKeepsFading(w: World, c: nat, l: nat, k: nat)
    requires Fading(w, c, l) && Enabled(w, RunFunctor(k)) && Apply(w, RunFunctor(k)).Ok?
    ensures var v := Apply(w, RunFunctor(k)).value;
            && Fading(v, c, l)
            && |v.reactors| == |w.reactors|
            && v.reactors[k].phase == Popped(w, k).reactors[k].phase
            && (forall j :: 0 <= j < |w.reactors| && j != k ==> v.reactors[j].phase == w.reactors[j].phase)
            && Live(v, c) == Live(w, c)
            && (v.reactors[l].pending == w.reactors[l].pending
                || exists d :: d != c && v.reactors[l].pending == w.reactors[l].pending + [Destroy(d)])
            && SameChannels(w.reactors[l].poller, v.reactors[l].poller)
  {
    hide Perform;
    var u := Popped(w, k);
    var t := w.reactors[k].phase.batch[0];
    var v := Perform(u, t).value;
    PerformShape(u, t);
    assert Queue(w.reactors[k]) == [t] + Queue(u.reactors[k]);
    assert t in Queue(w.reactors[k]);
    assert t != Erase(c);
    forall j | 0 <= j < |w.reactors|
      ensures Erase(c) !in Queue(v.reactors[j])
      ensures j != l ==> !HoldsConn(v.reactors[j].pending, c)
      ensures j != l && j != MAIN ==> !HoldsConn(Ran(v.reactors[j]) + Queue(v.reactors[j]), c)
    {
      assert Batch(v.reactors[j]) == Batch(u.reactors[j]) && Ran(v.reactors[j]) == Ran(u.reactors[j]);
      HoldsParts(w.reactors[j].pending, [Destroy(t.conn)], c);
      FadingAt(w, u, v, t, j, k, c);
    }
  }

  lemma FadingAt(w: World, u: World, v: World, t: Task, j: nat, k: nat, c: nat)
    requires Enabled(w, RunFunctor(k)) && u == Popped(w, k) && t == w.reactors[k].phase.batch[0] && t != Erase(c)
    requires j < |w.reactors| && |v.reactors| == |w.reactors|
    requires v.reactors[j].phase == u.reactors[j].phase
    requires || v.reactors[j].pending == u.reactors[j].pending
             || (t.Erase? && v.reactors[j].pending == u.reactors[j].pending + [Destroy(t.conn)])
    ensures HoldsConn(Ran(v.reactors[j]) + Queue(v.reactors[j]), c) ==> HoldsConn(Ran(w.reactors[j]) + Queue(w.reactors[j]), c)
    ensures Erase(c) in Queue(v.reactors[j]) ==> Erase(c) in Queue(w.reactors[j])
  {
    assert forall x :: x in Ran(u.reactors[j]) + Queue(u.reactors[j]) ==> x in Ran(w.reactors[j]) + Queue(w.reactors[j]);
    assert forall x :: x in v.reactors[j].pending ==> x in u.reactors[j].pending || (x == Destroy(t.conn) && t.Erase?);
  }

  /** No other channel of the poller has the descriptor of `c`. */
  ghost predicate Lonely(p: P.Poller<nat>, c: nat) {
    c in p.chans ==> forall d :: d in p.chans && d != c ==> p.chans[d].fd != p.chans[c].fd
  }

  /** The call `t` waits at place `p` among the pending functors of loop `l`. */
  ghost predicate Ready(w: World, c: nat, l: nat, p: nat, t: Task) {
    && Fading(w, c, l) && t.Call? && t.conn == c
    && CallWaits(w.reactors[l].pending, p, t)
    && (t.writes || Unheld(w.reactors[l].pending, p, c))
    && Lonely(w.reactors[l].poller, c) && AllSturdy(w)
  }

  lemma LonelyStays(p: P.Poller<nat>, q: P.Poller<nat>, c: nat)
    requires Lonely(p, c) && SameChannels(p, q)
    ensures Lonely(q, c)
  {
  }

  lemma WaitsLonger(q: seq<Task>, p: nat, t: Task, d: nat)
    requires CallWaits(q, p, t) && d != t.conn
    ensures CallWaits(q + [Destroy(d)], p, t)
    ensures Unheld(q, p, t.conn) ==> Unheld(q + [Destroy(d)], p, t.conn)
  {
    assert (q + [Destroy(d)])[..p] == q[..p];
  }

  lemma RunKeepsReady(w: World, c: nat, l: nat, p: nat, t: Task, k: nat)
    requires Ready(w, c, l, p, t) && Enabled(w, RunFunctor(k)) && Apply(w, RunFunctor(k)).Ok?
    ensures Ready(Apply(w, RunFunctor(k)).value, c, l, p, t)
  {
    hide Apply, CallWaits, Unheld, Lonely, SameChannels, AllSturdy;
    RunKeepsFading(w, c, l, k);
    SturdyRun(w, k);
    var v := Apply(w, RunFunctor(k)).value;
    LonelyStays(w.reactors[l].poller, v.reactors[l].poller, c);
    if v.reactors[l].pending != w.reactors[l].pending {
      var d :| d != c && v.reactors[l].pending == w.reactors[l].pending + [Destroy(d)];
      WaitsLonger(w.reactors[l].pending, p, t, d);
    }
  }

  /** A phase change of loop `k` that keeps its queue and drops what has run. */
  lemma PhaseKeepsFading(w: World, c: nat, l: nat, k: nat, phase: Phase)
    requires Fading(w, c, l) && k < |w.reactors| && Batch(w.reactors[k]) == [] && !phase.Draining?
    ensures var v := SetPhase(w, k, phase); Fading(v, c, l) && Live(v, c) == Live(w, c)
  {
    var v := SetPhase(w, k, phase);
    forall j | 0 <= j < |w.reactors|
      ensures Erase(c) !in Queue(v.reactors[j])
      ensures j != l && j != MAIN ==> !HoldsConn(Ran(v.reactors[j]) + Queue(v.reactors[j]), c)
    {
      assert Queue(v.reactors[j]) == Queue(w.reactors[j]);
      HoldsParts(Ran(w.reactors[j]), Queue(w.reactors[j]), c);
      HoldsParts(Ran(v.reactors[j]), Queue(v.reactors[j]), c);
    }
  }

  lemma PhaseKeepsReady(w: World, c: nat, l: nat, p: nat, t: Task, k: nat, phase: Phase)
    requires Ready(w, c, l, p, t) && k < |w.reactors| && Batch(w.reactors[k]) == [] && !phase.Draining?
    ensures Ready(SetPhase(w, k, phase), c, l, p, t)
  {
    hide Fading, CallWaits, Unheld, Lonely, AllSturdy;
    FadingIsKnown(w, c, l);
    PhaseKeepsFading(w, c, l, k, phase);
    SturdyPhase(w, k, phase);
  }

  lemma FadingIsKnown(w: World, c: nat, l: nat)
    requires Fading(w, c, l)
    ensures Known(w, c) && w.conns[c].loop == l && l < |w.reactors| && MAIN < |w.reactors|
  {
  }

  ghost predicate Settled(w: World, l: nat) {
    MAIN < |w.reactors| && (l == MAIN || !w.reactors[MAIN].phase.Draining?)
  }

  /** First the main loop finishes its drain ... */
  lemma {:induction false} MainSettles(w: World, c: nat, l: nat, p: nat, t: Task)
    requires Ready(w, c, l, p, t)
    ensures Faulty(w)
    decreases |Batch(w.reactors[MAIN])|
  {
    hide Ready, Apply, Faulty, AllSturdy;
    ReadyIsKnown(w, c, l, p, t);
    if Settled(w, l) {
      LoopSettles(w, c, l, p, t);
    } else if w.reactors[MAIN].phase.batch != [] {
      var e := RunFunctor(MAIN);
      SturdyRun(w, MAIN);
      if Apply(w, e).Ok? {
        RunKeepsReady(w, c, l, p, t, MAIN);
        RunsOn(w, c, l, p, t, MAIN);
        MainSettles(Apply(w, e).value, c, l, p, t);
      }
      FaultyStep(w, e);
    } else {
      PhaseKeepsReady(w, c, l, p, t, MAIN, Polling);
      LoopSettles(SetPhase(w, MAIN, Polling), c, l, p, t);
      PhaseIsStep(w, MAIN);
      FaultyStep(w, EndDrain(MAIN));
    }
  }

  lemma ReadyIsKnown(w: World, c: nat, l: nat, p: nat, t: Task)
    requires Ready(w, c, l, p, t)
    ensures Known(w, c) && w.conns[c].loop == l && l < |w.reactors| && MAIN < |w.reactors| && AllSturdy(w)
  {
  }

  lemma RunsOn(w: World, c: nat, l: nat, p: nat, t: Task, k: nat)
    requires Ready(w, c, l, p, t) && Enabled(w, RunFunctor(k)) && Apply(w, RunFunctor(k)).Ok?
    ensures var v := Apply(w, RunFunctor(k)).value;
            && |v.reactors| == |w.reactors| && v.reactors[k].phase == Popped(w, k).reactors[k].phase
            && Batch(v.reactors[k]) == Batch(w.reactors[k])[1..]
            && (forall j :: 0 <= j < |w.reactors| && j != k ==> v.reactors[j].phase == w.reactors[j].phase)
  {
    hide Apply, CallWaits, Unheld, Lonely, SameChannels;
    RunKeepsFading(w, c, l, k);
  }

  /** The simple phase changes, as steps. */
  lemma PhaseIsStep(w: World, l: nat)
    requires l < |w.reactors|
    ensures Enabled(w, EndDrain(l)) ==> Apply(w, EndDrain(l)) == Ok(SetPhase(w, l, Polling))
    ensures Enabled(w, NextChannel(l)) ==> Apply(w, NextChannel(l)) == Ok(SetPhase(w, l, Dispatching(w.reactors[l].phase.rest[1..])))
    ensures w.reactors[l].phase.Polling? ==>
              Enabled(w, PollReturns(l, [])) && Apply(w, PollReturns(l, [])) == Ok(SetPhase(w, l, Dispatching([])))
  {
    if w.reactors[l].phase.Polling? { assert P.ActiveOf(w.reactors[l].poller, []) == []; }
  }

  ghost function Distance(r: Reactor): nat {
    match r.phase
    case Draining(batch, _) => |batch| + 2
    case Polling => 1
    case Dispatching(rest) => |rest|
  }

  /** ... then the loop of the connection gets to where it begins its next drain. */
  lemma {:induction false} LoopSettles(w: World, c: nat, l: nat, p: nat, t: Task)
    requires Ready(w, c, l, p, t) && Settled(w, l) && l < |w.reactors|
    ensures Faulty(w)
    decreases Distance(w.reactors[l])
  {
    hide Ready, Apply, Faulty, AllSturdy;
    ReadyIsKnown(w, c, l, p, t);
    PhaseIsStep(w, l);
    if w.reactors[l].phase == Dispatching([]) {
      CallMeetsItsEnd(w, c, l, p, t);
    } else if w.reactors[l].phase.Draining? && w.reactors[l].phase.batch != [] {
      var e := RunFunctor(l);
      SturdyRun(w, l);
      if Apply(w, e).Ok? {
        RunKeepsReady(w, c, l, p, t, l);
        RunsOn(w, c, l, p, t, l);
        LoopSettles(Apply(w, e).value, c, l, p, t);
      }
      FaultyStep(w, e);
    } else {
      var e := if w.reactors[l].phase.Draining? then EndDrain(l)
               else if w.reactors[l].phase.Polling? then PollReturns(l, []) else NextChannel(l);
      var phase := if w.reactors[l].phase.Draining? then Polling
                   else if w.reactors[l].phase.Polling? then Dispatching([]) else Dispatching(w.reactors[l].phase.rest[1..]);
      PhaseKeepsReady(w, c, l, p, t, l, phase);
      LoopSettles(SetPhase(w, l, phase), c, l, p, t);
      FaultyStep(w, e);
    }
  }

  // ---------------------------------------------------------------------------
  // The call comes after the end: the connection is freed before the drain begins

  lemma {:induction false} CallOnFreed(w: World, c: nat, l: nat, t: Task)
    requires Known(w, c) && !Live(w, c) && AllSturdy(w) && t.conn == c
    requires l < |w.reactors| && w.reactors[l].phase.Draining? && t in w.reactors[l].phase.batch
    ensures Faulty(w)
    decreases |Batch(w.reactors[l])|
  {
    hide Faulty, Perform, Sturdy;
    var e := RunFunctor(l);
    SturdyRun(w, l);
    var u := Popped(w, l);
    var head := w.reactors[l].phase.batch[0];
    if Apply(w, e).Ok? {
      var v := Perform(u, head).value;
      PerformShape(u, head);
      assert Live(u, c) == Live(w, c);
      DeadIsNotPerformed(u, head);
      assert t in w.reactors[l].phase.batch[1..];
      CallOnFreed(v, c, l, t);
    }
    FaultyStep(w, e);
  }

  lemma DeadIsNotPerformed(w: World, t: Task)
    requires Perform(w, t).Ok?
    ensures Live(w, t.conn)
  {
  }

  lemma DrainOnFreed(w: World, c: nat, l: nat, t: Task)
    requires Known(w, c) && !Live(w, c) && AllSturdy(w) && t.conn == c
    requires l < |w.reactors| && w.reactors[l].phase == Dispatching([]) && t in w.reactors[l].pending
    ensures Faulty(w)
  {
    hide Faulty, Sturdy;
    CallOnFreed(Apply(w, BeginDrain(l)).value, c, l, t);
    FaultyStep(w, BeginDrain(l));
  }

  /** Nothing holds the connection any more. */
  lemma NobodyHolds(w: World, c: nat, l: nat)
    requires Fading(w, c, l) && Settled(w, l) && !w.reactors[l].phase.Draining? && !HoldsConn(w.reactors[l].pending, c)
    ensures !Held(w, c)
  {
    forall k | 0 <= k < |w.reactors|
      ensures !HoldsConn(Ran(w.reactors[k]) + Queue(w.reactors[k]), c)
    {
      if k == l || k == MAIN {
        assert Ran(w.reactors[k]) + Queue(w.reactors[k]) == w.reactors[k].pending;
      }
    }
  }

  lemma WaitingHoldsNot(q: seq<Task>, p: nat, t: Task)
    requires CallWaits(q, p, t) && t.Call? && Unheld(q, p, t.conn)
    ensures !HoldsConn(q, t.conn) && t in q
  {
    forall x | x in q && x.conn == t.conn
      ensures x.Call?
    {
      var i :| 0 <= i < |q| && q[i] == x;
      if i < p { assert x in q[..p]; }
    }
  }

  lemma CallMeetsItsEnd(w: World, c: nat, l: nat, p: nat, t: Task)
    requires Ready(w, c, l, p, t) && Settled(w, l) && l < |w.reactors| && w.reactors[l].phase == Dispatching([])
    ensures Faulty(w)
  {
    hide Faulty, CallWaits, Unheld, Lonely, Sturdy;
    if Unheld(w.reactors[l].pending, p, c) {
      WaitingHoldsNot(w.reactors[l].pending, p, t);
      NobodyHolds(w, c, l);
      if Live(w, c) {
        SturdyFree(w.reactors[l].poller, c);
        DrainOnFreed(Apply(w, Free(c)).value, c, l, t);
        FaultyStep(w, Free(c));
      } else {
        DrainOnFreed(w, c, l, t);
      }
    } else {
      var v := Apply(w, BeginDrain(l)).value;
      BeginKeepsFading(w, c, l);
      CallRegisters(v, c, l, p, t);
      FaultyStep(w, BeginDrain(l));
    }
  }

  // ---------------------------------------------------------------------------
  // The call comes in the drain of the destruction: it registers the channel again, and for good

  ghost predicate Watched(p: P.Poller<nat>, c: nat) {
    c in p.chans && p.chans[c].fd in p.kernel && p.kernel[p.chans[c].fd].channel == c
  }

  lemma StepKeepsWatched(p: P.Poller<nat>, e: P.Event<nat>, c: nat)
    requires Watched(p, c) && Lonely(p, c) && (e.Set? || e.Remove?) && e.channel in p.chans && e.channel != c
    requires P.Step(p, e).Ok?
    ensures Watched(P.Step(p, e).value, c)
  {
  }

  lemma EnablingWatches(p: P.Poller<nat>, c: nat)
    requires c in p.chans && P.Step(p, P.Set(c, P.EnableWriting)).Ok?
    ensures Watched(P.Step(p, P.Set(c, P.EnableWriting)).value, c)
  {
    assert P.Out in P.WRITE;
    assert P.Changed(p.chans[c].events, P.EnableWriting) != P.NONE;
  }

  lemma TouchKeepsWatched(w: World, d: nat, e: P.Event<nat>, c: nat, l: nat)
    requires Live(w, d) && (e.Set? || e.Remove?) && e.channel == d && d != c && Touch(w, d, e).Ok? && l < |w.reactors|
    requires Watched(w.reactors[l].poller, c) && Lonely(w.reactors[l].poller, c)
    ensures var v := Touch(w, d, e).value;
            |v.reactors| == |w.reactors| && Watched(v.reactors[l].poller, c) && Lonely(v.reactors[l].poller, c)
  {
    hide P.Step, Watched, Lonely;
    TouchShape(w, d, e);
    if w.conns[d].loop == l { StepKeepsWatched(w.reactors[l].poller, e, c); }
    LonelyStays(w.reactors[l].poller, Touch(w, d, e).value.reactors[l].poller, c);
  }

  lemma PerformKeepsWatched(w: World, t: Task, c: nat, l: nat)
    requires Perform(w, t).Ok? && t.conn != c && l < |w.reactors|
    requires Watched(w.reactors[l].poller, c) && Lonely(w.reactors[l].poller, c)
    ensures var v := Perform(w, t).value;
            |v.reactors| == |w.reactors| && Watched(v.reactors[l].poller, c) && Lonely(v.reactors[l].poller, c)
  {
    hide P.Step, Touch, Watched, Lonely;
    var d := t.conn;
    match t
    case Establish(_) =>
      TouchKeepsWatched(WithConn(w, d, w.conns[d].(state := S.Connected, established := true)), d, P.Set(d, P.EnableReading), c, l);
    case Erase(_) =>
    case Destroy(_) =>
      var n := w.conns[d];
      var x := WithConn(w, d, n.(state := S.Disconnected));
      if n.state.Connected? {
        TouchKeepsWatched(x, d, P.Set(d, P.DisableAll), c, l);
        TouchKeepsWatched(Touch(x, d, P.Set(d, P.DisableAll)).value, d, P.Remove(d), c, l);
      } else {
        TouchKeepsWatched(w, d, P.Remove(d), c, l);
      }
    case Call(_, writes) => if writes { TouchKeepsWatched(w, d, P.Set(d, P.EnableWriting), c, l); }
  }

  lemma BeginKeepsFading(w: World, c: nat, l: nat)
    requires Fading(w, c, l) && Enabled(w, BeginDrain(l))
    ensures Fading(Apply(w, BeginDrain(l)).value, c, l)
  {
    var v := Apply(w, BeginDrain(l)).value;
    assert Queue(v.reactors[l]) == Queue(w.reactors[l]);
  }

  /** Loop `l` drains, and behind the functors of its batch nothing holds `c`. */
  ghost predicate LastDrain(w: World, c: nat, l: nat) {
    && Fading(w, c, l) && Settled(w, l) && w.reactors[l].phase.Draining?
    && !HoldsConn(w.reactors[l].pending, c) && Lonely(w.reactors[l].poller, c) && AllSturdy(w)
  }

  lemma RunKeepsLastDrain(w: World, c: nat, l: nat)
    requires LastDrain(w, c, l) && Enabled(w, RunFunctor(l)) && Apply(w, RunFunctor(l)).Ok?
    ensures var v := Apply(w, RunFunctor(l)).value;
            LastDrain(v, c, l) && v.reactors[l].phase.batch == w.reactors[l].phase.batch[1..] && |v.reactors| == |w.reactors|
  {
    hide Apply, Lonely, SameChannels, AllSturdy;
    RunKeepsFading(w, c, l, l);
    SturdyRun(w, l);
    var v := Apply(w, RunFunctor(l)).value;
    LonelyStays(w.reactors[l].poller, v.reactors[l].poller, c);
    if v.reactors[l].pending != w.reactors[l].pending {
      var d :| d != c && v.reactors[l].pending == w.reactors[l].pending + [Destroy(d)];
      HoldsParts(w.reactors[l].pending, [Destroy(d)], c);
    }
  }

  lemma {:induction false} CallRegisters(w: World, c: nat, l: nat, p: nat, t: Task)
    requires LastDrain(w, c, l) && t == Call(c, true) && l < |w.reactors| && CallWaits(w.reactors[l].phase.batch, p, t)
    ensures Faulty(w)
    decreases p
  {
    hide Faulty, Apply, Perform, Fading, HoldsConn, Lonely, AllSturdy;
    FadingIsKnown(w, c, l);
    var e := RunFunctor(l);
    SturdyRun(w, l);
    if Apply(w, e).Ok? {
      var v := Apply(w, e).value;
      RunKeepsLastDrain(w, c, l);
      if p > 0 {
        CallRegisters(v, c, l, p - 1, t);
      } else {
        CallWatches(w, c, l);
        StaysRegistered(v, c, l);
      }
    }
    FaultyStep(w, e);
  }

  lemma CallWatches(w: World, c: nat, l: nat)
    requires LastDrain(w, c, l) && l < |w.reactors| && Enabled(w, RunFunctor(l)) && w.reactors[l].phase.batch[0] == Call(c, true)
    requires Apply(w, RunFunctor(l)).Ok?
    ensures var v := Apply(w, RunFunctor(l)).value; l < |v.reactors| && Watched(v.reactors[l].poller, c)
  {
    hide P.Step, Watched, Lonely;
    EnablingWatches(w.reactors[l].poller, c);
  }

  lemma {:induction false} StaysRegistered(w: World, c: nat, l: nat)
    requires LastDrain(w, c, l) && l < |w.reactors| && Watched(w.reactors[l].poller, c)
    requires forall x :: x in w.reactors[l].phase.batch ==> x.conn != c
    ensures Faulty(w)
    decreases |w.reactors[l].phase.batch|
  {
    hide Faulty, Apply, Watched, Lonely, HoldsConn, AllSturdy;
    if w.reactors[l].phase.batch == [] {
      PhaseKeepsFading(w, c, l, l, Polling);
      PhaseIsStep(w, l);
      ReportedThenFreed(SetPhase(w, l, Polling), c, l);
      FaultyStep(w, EndDrain(l));
    } else {
      var e := RunFunctor(l);
      SturdyRun(w, l);
      if Apply(w, e).Ok? {
        RunKeepsLastDrain(w, c, l);
        RunKeepsWatched(w, c, l);
        StaysRegistered(Apply(w, e).value, c, l);
      }
      FaultyStep(w, e);
    }
  }

  lemma RunKeepsWatched(w: World, c: nat, l: nat)
    requires LastDrain(w, c, l) && l < |w.reactors| && Watched(w.reactors[l].poller, c) && Enabled(w, RunFunctor(l))
    requires w.reactors[l].phase.batch[0].conn != c && Apply(w, RunFunctor(l)).Ok?
    ensures var v := Apply(w, RunFunctor(l)).value; l < |v.reactors| && Watched(v.reactors[l].poller, c)
  {
    hide Perform, Watched, Lonely;
    PerformKeepsWatched(Popped(w, l), w.reactors[l].phase.batch[0], c, l);
  }

  lemma ReportedThenFreed(w: World, c: nat, l: nat)
    requires Fading(w, c, l) && Settled(w, l) && w.reactors[l].phase.Polling? && Watched(w.reactors[l].poller, c)
    requires !HoldsConn(w.reactors[l].pending, c)
    ensures Faulty(w)
  {
    hide Faulty, HoldsConn;
    var reports := [P.Report(w.reactors[l].poller.chans[c].fd, {})];
    var e := PollReturns(l, reports);
    var v := Apply(w, e).value;
    assert v == SetPhase(w, l, Dispatching([c])) by { assert P.ActiveOf(w.reactors[l].poller, reports) == [c]; }
    PhaseKeepsFading(w, c, l, l, Dispatching([c]));
    NobodyHolds(v, c, l);
    var u := Apply(v, Free(c)).value;
    assert Apply(u, OnRead(l)) == Fault(88);
    FaultyStep(u, OnRead(l));
    FaultyStep(v, Free(c));
    FaultyStep(w, e);
  }

  // ---------------------------------------------------------------------------
  // Exactly when

  /** The connection is no longer listed, no erasure of it is queued, and nothing outlives the call: a call
      that writes has no destruction behind it, any other has none in its own drain. */
  ghost predicate TooLate(w: World, c: nat, writes: bool)
    requires Known(w, c) && MAIN < |w.reactors|
  {
    && c !in w.connections && Erase(c) !in Queue(w.reactors[MAIN])
    && (writes || Destroy(c) !in w.reactors[w.conns[c].loop].pending)
  }

  lemma NotTooLateIsGuarded(w: World, c: nat, writes: bool)
    requires Guarded(w) && Live(w, c) && w.conns[c].established && MAIN < |w.reactors| && !TooLate(w, c, writes)
    ensures Guarded(Post(w, w.conns[c].loop, Call(c, writes)))
  {
    hide Base, ViewOf, Weak, HasCall, Of;
    var l := w.conns[c].loop;
    var t := Call(c, writes);
    GuardedView(w, c);
    SameErasing(w, MAIN, c);
    SameErasing(w, l, c);
    OfHas(w.reactors[l].pending, c, Destroy(c));
    CallIsSafeUnlessHarmful(ViewOf(w, c), writes);
    PostKeeps(w, l, t);
    var v := Post(w, l, t);
    forall d | 0 <= d < |v.conns|
      ensures Weak(ViewOf(v, d))
    {
      if d != c { GuardedView(w, d); }
    }
  }

  lemma TasksAtHome(w: World, c: nat, k: nat)
    requires Guarded(w) && Known(w, c) && k < |w.reactors|
    ensures var q := Ran(w.reactors[k]) + Queue(w.reactors[k]);
            && (Erase(c) in q ==> k == MAIN)
            && (Establish(c) in q || Destroy(c) in q ==> k == w.conns[c].loop)
  {
    hide Dispatches, Polled, Distinct, ViewOf;
    assert QueueOk(w, k);
    assert !TaskAt(w, k, Erase(c)) || k == MAIN;
    assert !TaskAt(w, k, Establish(c)) || k == w.conns[c].loop;
    assert !TaskAt(w, k, Destroy(c)) || k == w.conns[c].loop;
  }

  lemma TooLateIsFading(w: World, c: nat, writes: bool)
    requires Guarded(w) && Live(w, c) && w.conns[c].established && MAIN < |w.reactors| && TooLate(w, c, writes)
    ensures Fading(w, c, w.conns[c].loop)
    ensures Establish(c) !in w.reactors[w.conns[c].loop].pending && Lonely(w.reactors[w.conns[c].loop].poller, c)
  {
    hide Guarded;
    var l := w.conns[c].loop;
    forall k | 0 <= k < |w.reactors|
      ensures Erase(c) !in Queue(w.reactors[k])
      ensures k != l ==> !HoldsConn(w.reactors[k].pending, c)
      ensures k != l && k != MAIN ==> !HoldsConn(Ran(w.reactors[k]) + Queue(w.reactors[k]), c)
    {
      TasksAtHome(w, c, k);
    }
    EstablishedIsNotQueued(w, c);
    AloneOnFd(w, c);
  }

  lemma EstablishedIsNotQueued(w: World, c: nat)
    requires Guarded(w) && c < |w.conns| && w.conns[c].established
    ensures Known(w, c) && Establish(c) !in w.reactors[w.conns[c].loop].pending
  {
    hide Base, Of, Destroys, HasCall, CallsCovered;
    GuardedView(w, c);
    SameErasing(w, w.conns[c].loop, c);
    OfHas(w.reactors[w.conns[c].loop].pending, c, Establish(c));
    WaitingCounts(ViewOf(w, c));
  }

  lemma AloneOnFd(w: World, c: nat)
    requires Guarded(w) && Live(w, c)
    ensures Lonely(w.reactors[w.conns[c].loop].poller, c)
  {
    hide P.Agrees, Queues, Dispatches, ViewOf;
    var l := w.conns[c].loop;
    var p := w.reactors[l].poller;
    assert PollerOk(w, l);
    forall d | d in p.chans && d != c
      ensures p.chans[d].fd != p.chans[c].fd
    {
      assert ChanOk(w, l, c) && ChanOk(w, l, d) && Live(w, d);
    }
  }

  lemma SturdyPost(w: World, l: nat, t: Task)
    requires AllSturdy(w) && l < |w.reactors|
    ensures AllSturdy(Post(w, l, t))
  {
    hide Sturdy;
  }

  lemma TooLateIsReady(w: World, c: nat, writes: bool)
    requires Guarded(w) && Live(w, c) && w.conns[c].established && MAIN < |w.reactors| && TooLate(w, c, writes)
    ensures var l := w.conns[c].loop;
            Ready(Post(w, l, Call(c, writes)), c, l, |w.reactors[l].pending|, Call(c, writes))
  {
    hide Guarded, Lonely, AllSturdy;
    var l := w.conns[c].loop;
    TooLateIsFading(w, c, writes);
    GuardedIsBase(w);
    BaseIsSturdy(w);
    var v := Post(w, l, Call(c, writes));
    SturdyPost(w, l, Call(c, writes));
    var q := v.reactors[l].pending;
    assert q[..|w.reactors[l].pending|] == w.reactors[l].pending;
    assert Queue(v.reactors[l]) == Queue(w.reactors[l]) + [Call(c, writes)];
    assert !writes ==> Unheld(q, |w.reactors[l].pending|, c) by {
      assert Erase(c) !in Queue(w.reactors[l]);
    }
  }

  /** A call of an established connection, queued however late by another thread, can lead to a freed
      connection being touched if and only if it is too late. */
  lemma LateCallFaultsIff(w: World, c: nat, writes: bool)
    requires Guarded(w) && Live(w, c) && w.conns[c].established
    ensures MAIN < |w.reactors|
    ensures Faulty(Post(w, w.conns[c].loop, Call(c, writes))) <==> TooLate(w, c, writes)
  {
    hide Guarded, Ready, TooLate;
    var l := w.conns[c].loop;
    var v := Post(w, l, Call(c, writes));
    GuardedView(w, c);
    if TooLate(w, c, writes) {
      TooLateIsReady(w, c, writes);
      MainSettles(v, c, l, |w.reactors[l].pending|, Call(c, writes));
    } else {
      NotTooLateIsGuarded(w, c, writes);
      forall es
        ensures !TouchesFreed(Run(v, es))
      {
        GuardedRunIsSafe(v, es);
      }
    }
  }

  // ---------------------------------------------------------------------------
  // Any number of late calls

  /** A step of the server, or a call that another thread queues however long after its check. */
  datatype Happening = Usual(step: Step) | Late(conn: nat, writes: bool)

  predicate Possible(w: World, h: Happening) {
    match h
    case Usual(e) => Enabled(w, e)
    case Late(c, _) => MAIN < |w.reactors| && Live(w, c) && w.conns[c].established
  }

  function Happens(w: World, h: Happening): Outcome<World>
    requires Possible(w, h)
  {
    match h
    case Usual(e) => Apply(w, e)
    case Late(c, writes) => Ok(Post(w, w.conns[c].loop, Call(c, writes)))
  }

  function RunLate(w: World, hs: seq<Happening>): Outcome<World>
    decreases |hs|
  {
    if hs == [] then Ok(w)
    else if !Possible(w, hs[0]) then RunLate(w, hs[1..])
    else
      var v :- Happens(w, hs[0]);
      RunLate(v, hs[1..])
  }

  /** None of the late calls is too late at its moment. */
  ghost predicate InTime(w: World, hs: seq<Happening>)
    decreases |hs|
  {
    hs == [] ||
    if !Possible(w, hs[0]) then InTime(w, hs[1..])
    else
      && (hs[0].Late? ==> !TooLate(w, hs[0].conn, hs[0].writes))
      && (Happens(w, hs[0]).Ok? ==> InTime(Happens(w, hs[0]).value, hs[1..]))
  }

  /** At no moment of the run can the server go on to touch a freed connection. */
  ghost predicate NeverFaulty(w: World, hs: seq<Happening>)
    decreases |hs|
  {
    && !Faulty(w)
    && (hs == [] ||
        if !Possible(w, hs[0]) then NeverFaulty(w, hs[1..])
        else Happens(w, hs[0]).Ok? && NeverFaulty(Happens(w, hs[0]).value, hs[1..]))
  }

  lemma GuardedIsNotFaulty(w: World)
    requires Guarded(w)
    ensures !Faulty(w)
  {
    hide Guarded;
    forall es
      ensures !TouchesFreed(Run(w, es))
    {
      GuardedRunIsSafe(w, es);
    }
  }

  lemma HappeningKeepsGuard(w: World, h: Happening)
    requires Guarded(w) && Possible(w, h) && (h.Late? ==> !TooLate(w, h.conn, h.writes))
    ensures Happens(w, h).Ok? && Guarded(Happens(w, h).value)
  {
    hide Guarded, Apply, Enabled, TooLate;
    match h
    case Usual(e) => StepKeepsGuard(w, e);
    case Late(c, writes) => NotTooLateIsGuarded(w, c, writes);
  }

  /** In every interleaving with any number of late calls: no step fails and the guard holds at the end, if none
      of the calls is too late at its moment; and exactly then does the server never get into a state from
      which it can touch a freed connection. */
  lemma {:induction false} LateRunIsSafeIff(w: World, hs: seq<Happening>)
    requires Guarded(w)
    ensures InTime(w, hs) ==> RunLate(w, hs).Ok? && Guarded(RunLate(w, hs).value)
    ensures NeverFaulty(w, hs) <==> InTime(w, hs)
    decreases |hs|
  {
    hide Guarded, Happens, TooLate, Faulty, Enabled;
    GuardedIsNotFaulty(w);
    if hs != [] {
      if !Possible(w, hs[0]) {
        LateRunIsSafeIff(w, hs[1..]);
      } else if hs[0].Late? && TooLate(w, hs[0].conn, hs[0].writes) {
        TooLateHappens(w, hs[0]);
      } else {
        HappeningKeepsGuard(w, hs[0]);
        LateRunIsSafeIff(Happens(w, hs[0]).value, hs[1..]);
      }
    }
  }

  lemma TooLateHappens(w: World, h: Happening)
    requires Guarded(w) && Possible(w, h) && h.Late? && TooLate(w, h.conn, h.writes)
    ensures Happens(w, h).Ok? && Faulty(Happens(w, h).value)
  {
    hide Guarded, TooLate, Faulty;
    LateCallFaultsIff(w, h.conn, h.writes);
  }
}
