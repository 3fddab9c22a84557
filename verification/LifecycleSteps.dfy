/** Every step of every loop succeeds, and moves each connection as its view allows. */
module LifecycleSteps {
  import opened Outcomes
  import opened Lifecycles
  import opened LifecycleViews
  import opened LifecycleSafety
  import P = Pollers
  import S = Connections

  // ---------------------------------------------------------------------------
  // The invariants

  /** No freed connection can be touched. */
  ghost predicate Guarded(w: World) {
    Base(w) && forall c :: 0 <= c < |w.conns| ==> Weak(ViewOf(w, c))
  }

  lemma GuardedView(w: World, c: nat)
    requires Guarded(w) && c < |w.conns|
    ensures Base(w) && Sized(w) && Known(w, c) && Weak(ViewOf(w, c))
    ensures var v := ViewOf(w, c);
            && v.id == c && v.conn == w.conns[c] && v.live == Live(w, c) && v.watch == WatchOf(w, c)
            && v.listed == (c in w.connections)
  {
    hide Queues, Dispatches, Polled, Distinct, Weak, ShareOf;
  }

  // ---------------------------------------------------------------------------
  // What a step means for one connection

  ghost function MoveOf(w: World, e: Step, c: nat, watch: Watch): Move
    requires Enabled(w, e) && c < |w.conns|
  {
    match e
    case Accept(_, _) => Stays
    case PollReturns(l, reports) =>
      if w.conns[c].loop == l then Activates(c in P.ActiveOf(w.reactors[l].poller, reports)) else Stays
    case OnClose(l) => if w.reactors[l].phase.rest[0] == c then Closes(l == MAIN, watch) else Stays
    case OnWrite(l, drained) => if w.reactors[l].phase.rest[0] == c then Handles(drained, watch) else Stays
    case OnRead(l) => if w.reactors[l].phase.rest[0] == c then Handles(false, watch) else Stays
    case NextChannel(l) =>
      if w.conns[c].loop == l then Activates(c in w.reactors[l].phase.rest[1..]) else Stays
    case BeginDrain(l) => if w.conns[c].loop == l then Swaps else Stays
    case RunFunctor(l) =>
      var t := w.reactors[l].phase.batch[0];
      if t.conn != c then Stays else if t.Erase? then IsErased else Runs(watch)
    case EndDrain(l) => if w.conns[c].loop == l then Ends else Stays
    case Send(d, here) =>
      if d != c || !w.conns[c].state.Connected? then Stays else if here then Sends(watch) else Calls(true)
    case Shutdown(d, here) => if d != c || !w.conns[c].state.Connected? then Stays else Shuts(!here)
    case LateCall(d, writes) => if d != c then Stays else Calls(writes)
    case Free(d) => if d != c then Stays else Frees
  }

  ghost predicate MovesTo(v: View, m: Move, u: View) { Can(v, m) && u == After(v, m) }

  /** Every connection of `w` makes its move. */
  ghost predicate AllMove(w: World, e: Step, v: World)
    requires Sized(w) && Enabled(w, e)
  {
    && Sized(v) && |w.conns| <= |v.conns|
    && forall c :: 0 <= c < |w.conns| ==>
         MovesTo(ViewOf(w, c), MoveOf(w, e, c, ViewOf(v, c).watch), ViewOf(v, c))
  }

  ghost function LogOf(w: World, e: Step): seq<Act>
    requires Enabled(w, e)
  {
    match e
    case Accept(io, _) => if io == MAIN then [Established(|w.conns|)] else []
    case OnClose(l) => [Closed(w.reactors[l].phase.rest[0])]
    case OnWrite(l, _) => [Handled(w.reactors[l].phase.rest[0])]
    case OnRead(l) => [Handled(w.reactors[l].phase.rest[0])]
    case RunFunctor(l) =>
      (match w.reactors[l].phase.batch[0]
       case Establish(c) => [Established(c)]
       case Destroy(c) => [Destroyed(c)]
       case _ => [])
    case _ => []
  }

  ghost predicate Succeeds(w: World, e: Step)
    requires Sized(w) && Enabled(w, e)
  {
    var r := Apply(w, e);
    r.Ok? && Base(r.value) && AllMove(w, e, r.value) && r.value.log == w.log + LogOf(w, e)
    && (!e.Accept? ==> |r.value.conns| == |w.conns|)
  }

  /** A step that concerns one connection. */
  lemma OneMoves(w: World, e: Step, c: nat, v: World)
    requires Sized(w) && Enabled(w, e) && !e.Accept? && OthersKeep(w, v, c) && c < |w.conns|
    requires MovesTo(ViewOf(w, c), MoveOf(w, e, c, ViewOf(v, c).watch), ViewOf(v, c))
    requires forall d, watch :: 0 <= d < |w.conns| && d != c ==> MoveOf(w, e, d, watch) == Stays
    ensures AllMove(w, e, v)
  {
    hide MoveOf, ViewOf;
    forall d | 0 <= d < |w.conns|
      ensures MovesTo(ViewOf(w, d), MoveOf(w, e, d, ViewOf(v, d).watch), ViewOf(v, d))
    {
      if d != c { assert MoveOf(w, e, d, ViewOf(v, d).watch) == Stays; }
    }
  }

  // ---------------------------------------------------------------------------
  // Functors

  lemma EstablishEffect(w: World, c: nat)
    requires Base(w) && Live(w, c)
    ensures var r := ConnectEstablished(w, c);
            && r.Ok? && Base(r.value) && OthersKeep(w, r.value, c)
            && r.value.log == w.log + [Established(c)]
            && ViewOf(r.value, c).watch == SetTo(ViewOf(w, c).watch, ViewOf(w, c).watch.mask + {P.In, P.Pri})
            && ViewOf(r.value, c) == Performed(ViewOf(w, c), Establish(c), ViewOf(r.value, c).watch)
  {
    hide Base, ViewOf, OthersKeep, Touch;
    BaseIsSized(w);
    var n := w.conns[c].(state := S.Connected, established := true);
    var u := WithConn(w, c, n);
    WithConnKeeps(w, c, n);
    TouchKeeps(u, c, P.Set(c, P.EnableReading));
    var v := Touch(u, c, P.Set(c, P.EnableReading)).value;
    NoteKeeps(v, Established(c));
    ViewFields(w, c);
    BaseIsSized(u);
    BaseIsSized(v);
    OthersKeepTrans(w, u, v, c);
    OthersKeepTrans(w, v, Note(v, Established(c)), c);
  }

  lemma RemoveEffect(w: World, c: nat)
    requires Base(w) && Known(w, c)
    ensures var v := RemoveConnectionInLoop(w, c);
            Base(v) && OthersKeep(w, v, c) && v.log == w.log && ViewOf(v, c) == Erased(ViewOf(w, c))
  {
    hide Base, ViewOf, OthersKeep;
    BaseIsSized(w);
    ViewFields(w, c);
    var n := w.conns[c].(erases := w.conns[c].erases + 1);
    var t := w.(connections := w.connections - {c});
    UnlistKeeps(w, c);
    BaseIsSized(t);
    var u := WithConn(t, c, n);
    WithConnKeeps(t, c, n);
    BaseIsSized(u);
    PostKeeps(u, n.loop, Destroy(c));
    OthersKeepTrans(w, t, u, c);
    OthersKeepTrans(w, u, Post(u, n.loop, Destroy(c)), c);
  }

  lemma DestroyEffect(w: World, c: nat)
    requires Base(w) && Live(w, c) && !w.conns[c].state.Connected?
    ensures var r := ConnectDestroyed(w, c);
            && r.Ok? && Base(r.value) && OthersKeep(w, r.value, c)
            && r.value.log == w.log + [Destroyed(c)]
            && ViewOf(r.value, c) == Performed(ViewOf(w, c), Destroy(c), ViewOf(r.value, c).watch)
            && ViewOf(r.value, c).watch.index.New?
  {
    hide Base, ViewOf, OthersKeep, Touch;
    BaseIsSized(w);
    ViewFields(w, c);
    TouchKeeps(w, c, P.Remove(c));
    var u := Touch(w, c, P.Remove(c)).value;
    BaseIsSized(u);
    var n := w.conns[c].(destroys := w.conns[c].destroys + 1);
    var v := WithConn(u, c, n);
    WithConnKeeps(u, c, n);
    BaseIsSized(v);
    NoteKeeps(v, Destroyed(c));
    OthersKeepTrans(w, u, v, c);
    OthersKeepTrans(w, v, Note(v, Destroyed(c)), c);
  }

  /** Performing functor `t` of connection `c`, just taken off the queue of `w`. */
  lemma PerformEffect(w: World, u: World, t: Task)
    requires Sized(w) && Base(u) && OthersKeep(w, u, t.conn) && Live(u, t.conn) && u.log == w.log
    requires t.Destroy? ==> !u.conns[t.conn].state.Connected?
    ensures var r := Perform(u, t);
            && r.Ok? && Base(r.value) && OthersKeep(w, r.value, t.conn)
            && r.value.log == w.log + (match t case Establish(c) => [Established(c)] case Destroy(c) => [Destroyed(c)] case _ => [])
            && var watch := ViewOf(r.value, t.conn).watch;
               && ViewOf(r.value, t.conn) == (if t.Erase? then Erased(ViewOf(u, t.conn)) else Performed(ViewOf(u, t.conn), t, watch))
               && (t.Establish? ==> watch == SetTo(ViewOf(u, t.conn).watch, ViewOf(u, t.conn).watch.mask + {P.In, P.Pri}))
               && (t.Call? && t.writes ==> watch == SetTo(ViewOf(u, t.conn).watch, ViewOf(u, t.conn).watch.mask + {P.Out}))
               && (t.Destroy? ==> watch.index.New?)
               && (t.Call? && !t.writes ==> watch == ViewOf(u, t.conn).watch)
  {
    hide Base, ViewOf, OthersKeep, Touch, ConnectEstablished, ConnectDestroyed, RemoveConnectionInLoop;
    var c := t.conn;
    BaseIsSized(u);
    ViewFields(u, c);
    assert w.log == w.log + [];
    match t
    case Establish(_) =>
      EstablishEffect(u, c);
      OthersKeepTrans(w, u, ConnectEstablished(u, c).value, c);
    case Erase(_) =>
      RemoveEffect(u, c);
      OthersKeepTrans(w, u, RemoveConnectionInLoop(u, c), c);
    case Destroy(_) =>
      DestroyEffect(u, c);
      OthersKeepTrans(w, u, ConnectDestroyed(u, c).value, c);
    case Call(_, writes) =>
      if writes {
        TouchKeeps(u, c, P.Set(c, P.EnableWriting));
        var v := Touch(u, c, P.Set(c, P.EnableWriting)).value;
        BaseIsSized(v);
        ViewFields(v, c);
        OthersKeepTrans(w, u, v, c);
      }
  }

  /** The functor about to run finds its connection alive, and in the stage it is meant for. */
  lemma FunctorFinds(w: World, l: nat)
    requires Guarded(w) && Enabled(w, RunFunctor(l))
    ensures var t := w.reactors[l].phase.batch[0];
            && Live(w, t.conn)
            && (t.Establish? ==> !w.conns[t.conn].established && w.conns[t.conn].destroys == 0)
            && (t.Destroy? ==> w.conns[t.conn].state.Disconnected? && w.conns[t.conn].closes > 0)
  {
    hide Base, ViewOf, OthersKeep;
    PopKeeps(w, l);
    var t := w.reactors[l].phase.batch[0];
    GuardedView(w, t.conn);
    var v := ViewOf(w, t.conn);
    WeakIsReady(v);
    if !t.Erase? { RunsCounts(v); }
  }

  lemma RunFunctorSucceeds(w: World, l: nat)
    requires Guarded(w) && Sized(w) && Enabled(w, RunFunctor(l))
    ensures Succeeds(w, RunFunctor(l))
  {
    hide Base, ViewOf, OthersKeep, Perform, Weak;
    var t := w.reactors[l].phase.batch[0];
    var c, u := t.conn, Popped(w, l);
    GuardedIsBase(w);
    PopKeeps(w, l);
    FunctorFinds(w, l);
    GuardedView(w, c);
    PerformEffect(w, u, t);
    var v := Perform(u, t).value;
    BaseIsSized(v);
    BaseIsSized(u);
    ViewFields(u, c);
    OthersSized(w, v, c);
    OneMoves(w, RunFunctor(l), c, v);
  }

  lemma OthersSized(w: World, v: World, c: nat)
    requires Sized(w) && OthersKeep(w, v, c)
    ensures |v.conns| == |w.conns| && Sized(v)
  {
  }

  lemma GuardedIsBase(w: World)
    requires Guarded(w)
    ensures Base(w) && Sized(w)
  {
  }

  // ---------------------------------------------------------------------------
  // Handlers

  /** A handler finds its connection alive and established, on this loop. */
  lemma HandlerFinds(w: World, l: nat)
    requires Guarded(w) && Handling(w, l)
    ensures var c := w.reactors[l].phase.rest[0];
            Live(w, c) && Sized(w) && w.conns[c].loop == l && w.conns[c].established && ViewOf(w, c).share.active
  {
    hide Queues, Polled, Distinct, Of, Queued;
    assert DispatchOk(w, l);
    var c := w.reactors[l].phase.rest[0];
    assert Resident(w, l, c);
    GuardedView(w, c);
    WeakIsReady(ViewOf(w, c));
  }

  lemma CloseEffect(w: World, c: nat)
    requires Base(w) && Live(w, c)
    ensures var n := w.conns[c].(state := S.Disconnected, closes := w.conns[c].closes + 1);
            var r := Touch(WithConn(w, c, n), c, P.Set(c, P.DisableAll));
            && r.Ok? && Base(Note(r.value, Closed(c))) && OthersKeep(w, Note(r.value, Closed(c)), c)
            && r.value.log == w.log && r.value.conns == w.conns[c := n]
            && |r.value.reactors| == |w.reactors|
            && ViewOf(Note(r.value, Closed(c)), c).watch == SetTo(ViewOf(w, c).watch, {})
            && ViewOf(Note(r.value, Closed(c)), c) == ViewOf(w, c).(
                 conn := n, watch := ViewOf(Note(r.value, Closed(c)), c).watch, wasClosed := true)
  {
    hide Base, ViewOf, OthersKeep, Touch;
    BaseIsSized(w);
    var n := w.conns[c].(state := S.Disconnected, closes := w.conns[c].closes + 1);
    var u := WithConn(w, c, n);
    WithConnKeeps(w, c, n);
    BaseIsSized(u);
    ViewFields(w, c);
    ViewFields(u, c);
    TouchKeeps(u, c, P.Set(c, P.DisableAll));
    var v := Touch(u, c, P.Set(c, P.DisableAll)).value;
    BaseIsSized(v);
    NoteKeeps(v, Closed(c));
    OthersKeepTrans(w, u, v, c);
    OthersKeepTrans(w, v, Note(v, Closed(c)), c);
  }

  lemma HandleCloseEffect(w: World, l: nat, c: nat)
    requires Base(w) && Live(w, c) && MAIN < |w.reactors|
    ensures var r := HandleClose(w, l, c);
            && r.Ok? && Base(r.value) && OthersKeep(w, r.value, c)
            && r.value.log == w.log + [Closed(c)]
            && ViewOf(r.value, c).watch == SetTo(ViewOf(w, c).watch, {})
            && ViewOf(r.value, c) == After(ViewOf(w, c), Closes(l == MAIN, ViewOf(r.value, c).watch))
  {
    hide Base, ViewOf, OthersKeep, Touch, RemoveConnectionInLoop;
    BaseIsSized(w);
    ViewFields(w, c);
    CloseEffect(w, c);
    var n := w.conns[c].(state := S.Disconnected, closes := w.conns[c].closes + 1);
    var u := Note(Touch(WithConn(w, c, n), c, P.Set(c, P.DisableAll)).value, Closed(c));
    BaseIsSized(u);
    ViewFields(u, c);
    if l == MAIN {
      RemoveEffect(u, c);
      OthersKeepTrans(w, u, RemoveConnectionInLoop(u, c), c);
    } else {
      PostKeeps(u, MAIN, Erase(c));
      OthersKeepTrans(w, u, Post(u, MAIN, Erase(c)), c);
    }
  }

  lemma OnCloseSucceeds(w: World, l: nat)
    requires Guarded(w) && Sized(w) && Enabled(w, OnClose(l))
    ensures Succeeds(w, OnClose(l))
  {
    hide Base, ViewOf, OthersKeep, HandleClose, Weak, After;
    var c := w.reactors[l].phase.rest[0];
    HandlerFinds(w, l);
    GuardedIsBase(w);
    HandleCloseEffect(w, l, c);
    var v := HandleClose(w, l, c).value;
    OthersSized(w, v, c);
    OneMoves(w, OnClose(l), c, v);
  }

  lemma HandleWriteEffect(w: World, c: nat, drained: bool)
    requires Base(w) && Live(w, c)
    ensures var r := HandleWrite(w, c, drained);
            && r.Ok? && Base(r.value) && OthersKeep(w, r.value, c)
            && r.value.log == w.log + [Handled(c)]
            && ViewOf(r.value, c) == ViewOf(w, c).(watch := ViewOf(r.value, c).watch)
            && var before, after := ViewOf(w, c).watch, ViewOf(r.value, c).watch;
               after == if drained && P.Out in before.mask then SetTo(before, before.mask - {P.Out}) else before
  {
    hide Base, ViewOf, OthersKeep, Touch;
    BaseIsSized(w);
    ViewFields(w, c);
    var writing := P.Out in w.reactors[w.conns[c].loop].poller.chans[c].events;
    if writing && drained {
      TouchKeeps(w, c, P.Set(c, P.DisableWriting));
      var u := Touch(w, c, P.Set(c, P.DisableWriting)).value;
      BaseIsSized(u);
      ViewFields(u, c);
      NoteKeeps(u, Handled(c));
      OthersKeepTrans(w, u, Note(u, Handled(c)), c);
    } else {
      NoteKeeps(w, Handled(c));
    }
  }

  lemma OnWriteSucceeds(w: World, l: nat, drained: bool)
    requires Guarded(w) && Sized(w) && Enabled(w, OnWrite(l, drained))
    ensures Succeeds(w, OnWrite(l, drained))
  {
    hide Base, ViewOf, OthersKeep, HandleWrite, Weak;
    var c := w.reactors[l].phase.rest[0];
    HandlerFinds(w, l);
    GuardedIsBase(w);
    HandleWriteEffect(w, c, drained);
    var v := HandleWrite(w, c, drained).value;
    OthersSized(w, v, c);
    OneMoves(w, OnWrite(l, drained), c, v);
  }

  lemma OnReadSucceeds(w: World, l: nat)
    requires Guarded(w) && Sized(w) && Enabled(w, OnRead(l))
    ensures Succeeds(w, OnRead(l))
  {
    hide Base, ViewOf, OthersKeep, Weak;
    var c := w.reactors[l].phase.rest[0];
    HandlerFinds(w, l);
    GuardedIsBase(w);
    NoteKeeps(w, Handled(c));
    OthersSized(w, Note(w, Handled(c)), c);
    OneMoves(w, OnRead(l), c, Note(w, Handled(c)));
  }

  // ---------------------------------------------------------------------------
  // Calls by users

  lemma SendSucceeds(w: World, c: nat, here: bool)
    requires Guarded(w) && Sized(w) && Enabled(w, Send(c, here))
    ensures Succeeds(w, Send(c, here))
  {
    hide Base, ViewOf, OthersKeep, Touch;
    GuardedIsBase(w);
    GuardedView(w, c);
    assert w.log + [] == w.log;
    TouchKeeps(w, c, P.Set(c, P.EnableWriting));
    var v := Apply(w, Send(c, here)).value;
    if w.conns[c].state.Connected? {
      if here {
        BaseIsSized(v);
        ViewFields(v, c);
      } else {
        PostKeeps(w, w.conns[c].loop, Call(c, true));
      }
    } else {
      NothingMoves(w, c);
    }
    OthersSized(w, v, c);
    OneMoves(w, Send(c, here), c, v);
  }

  lemma NothingMoves(w: World, c: nat)
    requires Sized(w)
    ensures OthersKeep(w, w, c)
  {
  }

  lemma ShutdownSucceeds(w: World, c: nat, here: bool)
    requires Guarded(w) && Sized(w) && Enabled(w, Shutdown(c, here))
    ensures Succeeds(w, Shutdown(c, here))
  {
    hide Base, ViewOf, OthersKeep;
    GuardedIsBase(w);
    GuardedView(w, c);
    assert w.log + [] == w.log;
    var v := Apply(w, Shutdown(c, here)).value;
    if w.conns[c].state.Connected? {
      var n := w.conns[c].(state := S.Disconnecting);
      var u := WithConn(w, c, n);
      WithConnKeeps(w, c, n);
      BaseIsSized(u);
      if !here {
        PostKeeps(u, n.loop, Call(c, false));
        OthersKeepTrans(w, u, v, c);
      }
    } else {
      NothingMoves(w, c);
    }
    OthersSized(w, v, c);
    OneMoves(w, Shutdown(c, here), c, v);
  }

  lemma LateCallSucceeds(w: World, c: nat, writes: bool)
    requires Guarded(w) && Sized(w) && Enabled(w, LateCall(c, writes))
    ensures Succeeds(w, LateCall(c, writes))
  {
    hide Base, ViewOf, OthersKeep;
    GuardedIsBase(w);
    GuardedView(w, c);
    assert w.log + [] == w.log;
    var v := Apply(w, LateCall(c, writes)).value;
    PostKeeps(w, w.conns[c].loop, Call(c, writes));
    OthersSized(w, v, c);
    OneMoves(w, LateCall(c, writes), c, v);
  }

  // ---------------------------------------------------------------------------
  // Phases

  /** What a poll reports is registered, so it is established and on this loop. */
  lemma ReportedAreInUse(w: World, l: nat, reports: seq<P.Report>, c: nat)
    requires Guarded(w) && Enabled(w, PollReturns(l, reports))
    requires c in P.ActiveOf(w.reactors[l].poller, reports)
    ensures Resident(w, l, c) && Live(w, c) && IndexOf(w, c).Added? && w.conns[c].established
  {
    hide Queues, Dispatches, Distinct, ViewOf, P.Agrees, P.MayReport;
    var p := w.reactors[l].poller;
    var i :| 0 <= i < |reports| && P.ActiveOf(p, reports)[i] == c;
    assert PollerOk(w, l);
    P.ActiveAreWatched(p, reports, i, i);
    assert ChanOk(w, l, c);
    GuardedView(w, c);
  }

  /** Each phase change means the same for all connections of the loop. */
  lemma PhaseSucceeds(w: World, e: Step, l: nat, r: Reactor)
    requires Guarded(w) && Sized(w) && Enabled(w, e) && l < |w.reactors| && !e.Accept?
    requires r.poller == w.reactors[l].poller && Queue(r) == Queue(w.reactors[l]) && Ran(r) == []
    requires DispatchOk(WithReactor(w, l, r), l)
    requires Apply(w, e) == Ok(WithReactor(w, l, r)) && LogOf(w, e) == []
    requires forall d, watch :: 0 <= d < |w.conns| && w.conns[d].loop != l ==> MoveOf(w, e, d, watch) == Stays
    requires forall d, watch :: 0 <= d < |w.conns| && w.conns[d].loop == l ==>
               MovesTo(ViewOf(w, d), MoveOf(w, e, d, watch), ViewOf(w, d).(share := ShareOf(r, d)))
    ensures Succeeds(w, e)
  {
    hide Base, MoveOf, ViewOf, ShareOf, Can, After, Apply, Weak, LogOf;
    GuardedIsBase(w);
    PhaseKeeps(w, l, r);
    var v := WithReactor(w, l, r);
    BaseIsSized(v);
    assert v.log == w.log + [];
    forall d | 0 <= d < |w.conns|
      ensures MovesTo(ViewOf(w, d), MoveOf(w, e, d, ViewOf(v, d).watch), ViewOf(v, d))
    {
      if w.conns[d].loop != l {
        assert MoveOf(w, e, d, ViewOf(v, d).watch) == Stays;
        StayMoves(ViewOf(w, d));
      }
    }
  }

  lemma StayMoves(v: View)
    ensures MovesTo(v, Stays, v)
  {
  }

  /** The share of a connection whose loop is not draining, or drains nothing more. */
  lemma IdleShare(w: World, l: nat, d: nat)
    requires Sized(w) && l < |w.reactors| && d < |w.conns| && w.conns[d].loop == l && Batch(w.reactors[l]) == []
    ensures ViewOf(w, d).share == ShareOf(w.reactors[l], d)
    ensures ViewOf(w, d).share.batch == []
    ensures !w.reactors[l].phase.Draining? ==> ViewOf(w, d).share.ran == []
  {
  }

  lemma PollReturnsSucceeds(w: World, l: nat, reports: seq<P.Report>)
    requires Guarded(w) && Sized(w) && Enabled(w, PollReturns(l, reports))
    ensures Succeeds(w, PollReturns(l, reports))
  {
    hide Guarded, ViewOf, Of, P.MayReport;
    var active := P.ActiveOf(w.reactors[l].poller, reports);
    var r := w.reactors[l].(phase := Dispatching(active));
    var e := PollReturns(l, reports);
    forall c | c in active
      ensures Resident(w, l, c) && Live(w, c) && IndexOf(w, c).Added?
    {
      ReportedAreInUse(w, l, reports, c);
    }
    assert forall c :: Resident(WithReactor(w, l, r), l, c) == Resident(w, l, c);
    forall d, watch | 0 <= d < |w.conns| && w.conns[d].loop == l
      ensures MovesTo(ViewOf(w, d), MoveOf(w, e, d, watch), ViewOf(w, d).(share := ShareOf(r, d)))
    {
      IdleShare(w, l, d);
      ViewFields(w, d);
    }
    PhaseSucceeds(w, e, l, r);
  }

  lemma NextChannelSucceeds(w: World, l: nat)
    requires Guarded(w) && Sized(w) && Enabled(w, NextChannel(l))
    ensures Succeeds(w, NextChannel(l))
  {
    hide ViewOf, Of, Queues, Polled, Distinct, Weak;
    var r := w.reactors[l].(phase := Dispatching(w.reactors[l].phase.rest[1..]));
    assert DispatchOk(w, l);
    assert forall c :: Resident(WithReactor(w, l, r), l, c) == Resident(w, l, c);
    forall d, watch | 0 <= d < |w.conns| && w.conns[d].loop == l
      ensures MovesTo(ViewOf(w, d), MoveOf(w, NextChannel(l), d, watch), ViewOf(w, d).(share := ShareOf(r, d)))
    {
      IdleShare(w, l, d);
    }
    PhaseSucceeds(w, NextChannel(l), l, r);
  }

  lemma BeginDrainSucceeds(w: World, l: nat)
    requires Guarded(w) && Sized(w) && Enabled(w, BeginDrain(l))
    ensures Succeeds(w, BeginDrain(l))
  {
    hide Guarded, ViewOf;
    var r := w.reactors[l].(phase := Draining(w.reactors[l].pending, []), pending := []);
    forall d, watch | 0 <= d < |w.conns| && w.conns[d].loop == l
      ensures MovesTo(ViewOf(w, d), MoveOf(w, BeginDrain(l), d, watch), ViewOf(w, d).(share := ShareOf(r, d)))
    {
      IdleShare(w, l, d);
    }
    PhaseSucceeds(w, BeginDrain(l), l, r);
  }

  lemma EndDrainSucceeds(w: World, l: nat)
    requires Guarded(w) && Sized(w) && Enabled(w, EndDrain(l))
    ensures Succeeds(w, EndDrain(l))
  {
    hide Guarded, ViewOf;
    var r := w.reactors[l].(phase := Polling);
    forall d, watch | 0 <= d < |w.conns| && w.conns[d].loop == l
      ensures MovesTo(ViewOf(w, d), MoveOf(w, EndDrain(l), d, watch), ViewOf(w, d).(share := ShareOf(r, d)))
    {
      IdleShare(w, l, d);
    }
    PhaseSucceeds(w, EndDrain(l), l, r);
  }

  // ---------------------------------------------------------------------------
  // Birth

  /** The world with the new connection constructed and listed, before connectEstablished is posted. */
  ghost function Constructed(w: World, io: nat, fd: int): World
    requires Enabled(w, Accept(io, fd))
  {
    WithReactor(w.(conns := w.conns + [Conn(io, fd, S.Connecting, false, 0, 0, 0)],
                   connections := w.connections + {|w.conns|}),
                io, w.reactors[io].(poller := P.Step(w.reactors[io].poller, P.Create(|w.conns|, fd)).value))
  }

  lemma ConstructedQueues(w: World, io: nat, fd: int)
    requires Base(w) && Enabled(w, Accept(io, fd))
    ensures var v := Constructed(w, io, fd); Sized(v) && Queues(v) && Dispatches(v)
  {
    hide P.Agrees, P.Step, Polled, Distinct;
    var v := Constructed(w, io, fd);
    assert forall d: nat :: Known(w, d) ==> Known(v, d) && v.conns[d] == w.conns[d];
    assert forall d :: 0 <= d < |w.conns| ==> Known(w, d);
    assert Known(v, |w.conns|);
    forall k | 0 <= k < |v.reactors|
      ensures QueueOk(v, k) && DispatchOk(v, k)
    {
      assert QueueOk(w, k) && DispatchOk(w, k);
      assert forall t :: TaskAt(w, k, t) ==> TaskAt(v, k, t);
      assert forall d :: Resident(w, k, d) ==> Resident(v, k, d);
    }
  }

  lemma ConstructedPollers(w: World, io: nat, fd: int)
    requires Base(w) && Enabled(w, Accept(io, fd))
    ensures var v := Constructed(w, io, fd); Polled(v) && Distinct(v)
  {
    hide P.Agrees, Queues, Dispatches;
    var v := Constructed(w, io, fd);
    var c := |w.conns|;
    assert PollerOk(w, io);
    P.CreateAgrees(w.reactors[io].poller, c, fd);
    forall k | 0 <= k < |v.reactors|
      ensures PollerOk(v, k)
    {
      assert PollerOk(w, k);
      assert forall d :: d in w.reactors[k].poller.chans ==> ChanOk(w, k, d);
    }
    assert forall d :: 0 <= d < c ==> Live(v, d) == Live(w, d);
  }

  lemma ConstructedSame(w: World, io: nat, fd: int, l: nat)
    requires Enabled(w, Accept(io, fd)) && l < |w.reactors|
    ensures Queue(Constructed(w, io, fd).reactors[l]) == Queue(w.reactors[l])
    ensures forall d :: ShareOf(Constructed(w, io, fd).reactors[l], d) == ShareOf(w.reactors[l], d)
  {
    hide P.Step;
  }

  lemma ConstructedOld(w: World, io: nat, fd: int, d: nat)
    requires Sized(w) && Enabled(w, Accept(io, fd)) && d < |w.conns|
    ensures Sized(Constructed(w, io, fd)) && ViewOf(Constructed(w, io, fd), d) == ViewOf(w, d)
  {
    hide Queue, ShareOf;
    var v := Constructed(w, io, fd);
    assert forall c: nat :: Known(w, c) ==> Known(v, c) && v.conns[c] == w.conns[c];
    assert Known(w, d);
    ConstructedSame(w, io, fd, MAIN);
    ConstructedSame(w, io, fd, w.conns[d].loop);
  }

  ghost function NewView(c: nat, io: nat, fd: int): View {
    View(c, Conn(io, fd, S.Connecting, false, 0, 0, 0), Share([], [], [], false), 0, true, true, UNWATCHED, false, false, false)
  }

  lemma {:induction false} NobodysTasks(q: seq<Task>, c: nat)
    requires forall t :: t in q ==> t.conn != c
    ensures Of(q, c) == [] && multiset(q)[Erase(c)] == 0
  {
    if q != [] {
      assert q[0] in q && forall t :: t in q[1..] ==> t in q;
      NobodysTasks(q[1..], c);
    }
  }

  lemma NotQueuedYet(w: World, l: nat, c: nat)
    requires Base(w) && l < |w.reactors| && c >= |w.conns|
    ensures multiset(Queue(w.reactors[l]))[Erase(c)] == 0
    ensures ShareOf(w.reactors[l], c) == Share([], [], [], false)
  {
    hide P.Agrees, Polled, Distinct;
    var r := w.reactors[l];
    assert QueueOk(w, l) && DispatchOk(w, l);
    forall t | t in Ran(r) || t in Queue(r)
      ensures t.conn != c
    {
      assert TaskAt(w, l, t);
    }
    assert r.phase.Dispatching? && c in r.phase.rest ==> Resident(w, l, c);
    NobodysTasks(Ran(r), c);
    NobodysTasks(Batch(r), c);
    NobodysTasks(r.pending, c);
    NobodysTasks(Queue(r), c);
  }

  lemma ConstructedNew(w: World, io: nat, fd: int)
    requires Base(w) && Enabled(w, Accept(io, fd))
    ensures var c := |w.conns|;
            Sized(Constructed(w, io, fd)) &&
            ViewOf(Constructed(w, io, fd), c) == NewView(c, io, fd).(
              wasEstablished := Established(c) in w.log, wasClosed := Closed(c) in w.log, wasDestroyed := Destroyed(c) in w.log)
  {
    hide Queue, ShareOf, P.Agrees, Queues, Dispatches, Polled, Distinct;
    var c := |w.conns|;
    ConstructedQueues(w, io, fd);
    ConstructedSame(w, io, fd, MAIN);
    ConstructedSame(w, io, fd, io);
    NotQueuedYet(w, MAIN, c);
    NotQueuedYet(w, io, c);
  }

  ghost function BornView(w: World, io: nat, fd: int): View {
    var c := |w.conns|;
    var v := NewView(c, io, fd).(
      wasEstablished := Established(c) in w.log, wasClosed := Closed(c) in w.log, wasDestroyed := Destroyed(c) in w.log);
    if io == MAIN then Performed(v, Establish(c), Watch(P.Added, {P.In, P.Pri})) else Pending(v, Establish(c))
  }

  lemma AcceptSucceeds(w: World, io: nat, fd: int)
    requires Guarded(w) && Sized(w) && Enabled(w, Accept(io, fd))
    ensures Succeeds(w, Accept(io, fd))
    ensures var v := Apply(w, Accept(io, fd)).value;
            |v.conns| == |w.conns| + 1 && ViewOf(v, |w.conns|) == BornView(w, io, fd)
  {
    hide P.Agrees, Queues, Dispatches, Polled, Distinct, ViewOf, ConnectEstablished, Weak;
    var c := |w.conns|;
    var u := Constructed(w, io, fd);
    GuardedIsBase(w);
    ConstructedQueues(w, io, fd);
    ConstructedPollers(w, io, fd);
    ConstructedNew(w, io, fd);
    ViewFields(u, c);
    forall d | 0 <= d < c
      ensures ViewOf(u, d) == ViewOf(w, d)
    {
      ConstructedOld(w, io, fd, d);
    }
    if io == MAIN {
      EstablishEffect(u, c);
    } else {
      assert w.log + [] == w.log;
      PostKeeps(u, io, Establish(c));
    }
    var v := Apply(w, Accept(io, fd)).value;
    assert forall d :: 0 <= d < c ==> ViewOf(v, d) == ViewOf(u, d);
  }

  // ---------------------------------------------------------------------------
  // Death

  lemma UnheldQueues(w: World, l: nat, c: nat)
    requires Enabled(w, Free(c)) && l < |w.reactors|
    ensures var q := Ran(w.reactors[l]) + Queue(w.reactors[l]); Establish(c) !in q && Erase(c) !in q && Destroy(c) !in q
    ensures multiset(Queue(w.reactors[l]))[Erase(c)] == 0 && c !in w.connections
  {
    assert !HoldsConn(Ran(w.reactors[l]) + Queue(w.reactors[l]), c);
  }

  lemma {:induction false} NothingOf(q: seq<Task>, c: nat)
    requires Establish(c) !in q && Destroy(c) !in q
    ensures Destroys(Of(q, c)) == 0 && Establishes(Of(q, c)) == 0
  {
    OfHas(q, c, Destroy(c));
    OfHas(q, c, Establish(c));
  }

  lemma UnheldShare(r: Reactor, c: nat)
    requires var q := Ran(r) + Queue(r); Establish(c) !in q && Destroy(c) !in q
    ensures var s := ShareOf(r, c);
            && Destroys(s.ran) == 0 && Destroys(s.batch) == 0 && Destroys(s.pending) == 0
            && Establishes(s.batch) == 0 && Establishes(s.pending) == 0
  {
    hide Of, Destroys, Establishes;
    NothingOf(Ran(r), c);
    NothingOf(Batch(r), c);
    NothingOf(r.pending, c);
  }

  /** A connection that nothing holds can be freed: its life is over and it is out of its poller. */
  lemma UnheldIsDestroyed(w: World, c: nat)
    requires Guarded(w) && Enabled(w, Free(c))
    ensures w.conns[c].destroys > 0 && IndexOf(w, c).New?
    ensures Sized(w) && Can(ViewOf(w, c), Frees)
  {
    hide Base, Of, Destroys, Establishes, WritesCovered, HasCall, Held;
    GuardedView(w, c);
    UnheldQueues(w, w.conns[c].loop, c);
    UnheldQueues(w, MAIN, c);
    UnheldShare(w.reactors[w.conns[c].loop], c);
    SameErasing(w, w.conns[c].loop, c);
    SameErasing(w, MAIN, c);
    WaitingCounts(ViewOf(w, c));
  }

  lemma FreedPollers(w: World, c: nat)
    requires Guarded(w) && Enabled(w, Free(c))
    ensures var r := Apply(w, Free(c)); r.Ok? && Polled(r.value) && Distinct(r.value)
  {
    hide P.Agrees, Queues, Dispatches, P.Shared, Weak, ViewOf;
    var l := w.conns[c].loop;
    var p := w.reactors[l].poller;
    UnheldIsDestroyed(w, c);
    AloneInPoller(w, c);
    P.AloneOnDescriptor(p, c);
    P.DestroyAgrees(p, c);
    var v := Apply(w, Free(c)).value;
    forall k | 0 <= k < |v.reactors|
      ensures PollerOk(v, k)
    {
      assert PollerOk(w, k);
      assert forall d :: d in w.reactors[k].poller.chans ==> ChanOk(w, k, d);
    }
    assert forall d :: Known(v, d) == Known(w, d);
    assert forall d :: Live(v, d) ==> Live(w, d);
  }

  lemma FreeSucceeds(w: World, c: nat)
    requires Guarded(w) && Sized(w) && Enabled(w, Free(c))
    ensures Succeeds(w, Free(c))
  {
    hide P.Agrees, Queues, Dispatches, Polled, Distinct, ViewOf, Weak, Can;
    var l := w.conns[c].loop;
    var p := P.Step(w.reactors[l].poller, P.Destroy(c)).value;
    GuardedIsBase(w);
    FreedPollers(w, c);
    UnheldIsDestroyed(w, c);
    SameQueue(w, l, p);
    var v := WithPoller(w, l, p);
    assert w.log + [] == w.log;
    forall d | 0 <= d < |w.conns|
      ensures ViewOf(v, d) == if d == c then ViewOf(w, c).(live := false, watch := UNWATCHED) else ViewOf(w, d)
    {
      PollerView(w, l, p, d);
      ViewFields(w, d);
    }
    OneMoves(w, Free(c), c, v);
  }

  // ---------------------------------------------------------------------------
  // Every step

  lemma StepSucceeds(w: World, e: Step)
    requires Guarded(w) && Sized(w) && Enabled(w, e)
    ensures Succeeds(w, e)
  {
    hide *;
    match e
    case Accept(io, fd) => AcceptSucceeds(w, io, fd);
    case PollReturns(l, reports) => PollReturnsSucceeds(w, l, reports);
    case OnClose(l) => OnCloseSucceeds(w, l);
    case OnWrite(l, drained) => OnWriteSucceeds(w, l, drained);
    case OnRead(l) => OnReadSucceeds(w, l);
    case NextChannel(l) => NextChannelSucceeds(w, l);
    case BeginDrain(l) => BeginDrainSucceeds(w, l);
    case RunFunctor(l) => RunFunctorSucceeds(w, l);
    case EndDrain(l) => EndDrainSucceeds(w, l);
    case Send(c, here) => SendSucceeds(w, c, here);
    case Shutdown(c, here) => ShutdownSucceeds(w, c, here);
    case LateCall(c, writes) => LateCallSucceeds(w, c, writes);
    case Free(c) => FreeSucceeds(w, c);
  }
}
