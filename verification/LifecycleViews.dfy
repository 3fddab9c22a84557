/** One connection on its own: all that the state of the server says about it, what can happen to it, and
    what that keeps. The server as a whole moves every such view by one of these moves in each step. */
module LifecycleViews {
  import opened Lifecycles
  import P = Pollers
  import S = Connections

  /** The functors of the connection at its io loop, other than erasures, and whether it waits to be dispatched. */
  datatype Share = Share(ran: seq<Task>, batch: seq<Task>, pending: seq<Task>, active: bool)

  /** The index of the channel and the events it asks for. */
  datatype Watch = Watch(index: P.Index, mask: P.Mask)

  /** A mask setter: the channel is watched afterwards, unless it was and asks for nothing any more. */
  function SetTo(w: Watch, mask: P.Mask): Watch {
    Watch(if w.index.Added? && mask == {} then P.Deleted else P.Added, mask)
  }

  const UNWATCHED := Watch(P.New, {})

  datatype View = View(
    id: nat,
    conn: Conn,
    share: Share,
    erasing: nat,                                       // queued calls of removeConnectionInLoop
    listed: bool,                                       // it is in connections_
    live: bool,
    watch: Watch,
    wasEstablished: bool, wasClosed: bool, wasDestroyed: bool)

  function Waiting(v: View): seq<Task> { v.share.batch + v.share.pending }

  // ---------------------------------------------------------------------------
  // Counting functors

  ghost function Destroys(q: seq<Task>): nat {
    if q == [] then 0 else (if q[0].Destroy? then 1 else 0) + Destroys(q[1..])
  }

  ghost function Establishes(q: seq<Task>): nat {
    if q == [] then 0 else (if q[0].Establish? then 1 else 0) + Establishes(q[1..])
  }

  ghost predicate HasCall(q: seq<Task>) { q != [] && (q[0].Call? || HasCall(q[1..])) }

  /** Behind every call that writes there is a destruction. */
  ghost predicate WritesCovered(q: seq<Task>) {
    q == [] || ((q[0].Call? && q[0].writes ==> Destroys(q[1..]) > 0) && WritesCovered(q[1..]))
  }

  /** No call waits behind a destruction. */
  ghost predicate CallsFirst(q: seq<Task>) {
    q == [] || ((q[0].Destroy? ==> !HasCall(q[1..])) && CallsFirst(q[1..]))
  }

  lemma {:induction false} CountConcat(p: seq<Task>, q: seq<Task>)
    ensures Destroys(p + q) == Destroys(p) + Destroys(q)
    ensures Establishes(p + q) == Establishes(p) + Establishes(q)
    ensures HasCall(p + q) <==> HasCall(p) || HasCall(q)
  {
    if p == [] {
      assert p + q == q;
    } else {
      assert (p + q)[1..] == p[1..] + q;
      CountConcat(p[1..], q);
    }
  }

  lemma CountOne(t: Task)
    ensures Destroys([t]) == if t.Destroy? then 1 else 0
    ensures Establishes([t]) == if t.Establish? then 1 else 0
    ensures HasCall([t]) <==> t.Call?
  {
    assert [t][1..] == [];
  }

  lemma {:induction false} CoveredSnoc(q: seq<Task>, t: Task)
    ensures t.Destroy? ==> WritesCovered(q + [t])
    ensures WritesCovered(q) && !(t.Call? && t.writes) ==> WritesCovered(q + [t])
    ensures t.Call? && t.writes ==> !WritesCovered(q + [t])
  {
    if q == [] {
      assert q + [t] == [t] && [t][1..] == [];
    } else {
      assert (q + [t])[1..] == q[1..] + [t];
      CoveredSnoc(q[1..], t);
      CountConcat(q[1..], [t]);
      CountOne(t);
    }
  }

  lemma {:induction false} CallsFirstSnoc(q: seq<Task>, t: Task)
    requires CallsFirst(q) && (t.Call? ==> Destroys(q) == 0)
    ensures CallsFirst(q + [t])
  {
    if q == [] {
      assert q + [t] == [t] && [t][1..] == [];
    } else {
      assert (q + [t])[1..] == q[1..] + [t];
      CallsFirstSnoc(q[1..], t);
      CountConcat(q[1..], [t]);
      CountOne(t);
    }
  }

  // ---------------------------------------------------------------------------
  // Moves

  /** What a step of the server means for one connection; `watch` is how it leaves the channel. */
  datatype Move =
    | Stays
    | Runs(watch: Watch)                    // the first functor of its batch is performed
    | IsErased                              // a queued removeConnectionInLoop is performed
    | Closes(main: bool, watch: Watch)      // handleClose, on the main loop or another
    | Handles(drained: bool, watch: Watch)  // any other handler; the write handler may drain the buffer
    | Sends(watch: Watch)                   // send on the io thread leaves a remainder
    | Calls(writes: bool)                   // another thread queues a call
    | Shuts(late: bool)                     // shutdown, on the io thread or queued
    | Swaps
    | Ends
    | Activates(active: bool)
    | Frees

  ghost predicate Can(v: View, m: Move) {
    match m
    case Stays => true
    case Runs(watch) =>
      && v.live && v.share.batch != []
      && (match v.share.batch[0]
          case Establish(_) => watch == SetTo(v.watch, v.watch.mask + {P.In, P.Pri})
          case Erase(_) => false
          case Destroy(_) => watch.index.New?
          case Call(_, writes) => if writes then watch == SetTo(v.watch, v.watch.mask + {P.Out}) else watch == v.watch)
    case IsErased => v.erasing > 0
    case Closes(_, watch) => v.share.active && watch == SetTo(v.watch, {})
    case Handles(drained, watch) =>
      && v.share.active
      && watch == if drained && P.Out in v.watch.mask then SetTo(v.watch, v.watch.mask - {P.Out}) else v.watch
    case Sends(watch) => v.conn.state.Connected? && watch == SetTo(v.watch, v.watch.mask + {P.Out})
    case Calls(_) => v.conn.established && v.listed
    case Shuts(_) => v.conn.state.Connected?
    case Swaps => v.share.batch == [] && v.share.ran == [] && !v.share.active
    case Ends => v.share.batch == [] && !v.share.active
    case Activates(active) => active ==> v.share.active || (v.watch.index.Added? && v.share.batch == [] && v.share.ran == [])
    case Frees =>
      && !v.listed && v.erasing == 0
      && Destroys(v.share.ran) == 0 && Destroys(Waiting(v)) == 0 && Establishes(Waiting(v)) == 0
  }

  function Pending(v: View, t: Task): View { v.(share := v.share.(pending := v.share.pending + [t])) }

  function Erased(v: View): View {
    Pending(v.(conn := v.conn.(erases := v.conn.erases + 1), listed := false), Destroy(v.id))
  }

  /** The effect of the functor itself, once it is off the batch. */
  function Performed(v: View, t: Task, watch: Watch): View {
    match t
    case Establish(_) =>
      v.(conn := v.conn.(state := S.Connected, established := true), watch := watch, wasEstablished := true)
    case Erase(_) => v
    case Destroy(_) =>
      v.(conn := v.conn.(state := if v.conn.state.Connected? then S.Disconnected else v.conn.state,
                         destroys := v.conn.destroys + 1),
         watch := watch, wasDestroyed := true)
    case Call(_, writes) => v.(watch := watch)
  }

  function TakenOff(v: View): View
    requires v.share.batch != []
  {
    v.(share := v.share.(ran := v.share.ran + [v.share.batch[0]], batch := v.share.batch[1..]))
  }

  function After(v: View, m: Move): View
    requires m.Runs? ==> v.share.batch != []
    requires m.IsErased? ==> v.erasing > 0
  {
    match m
    case Stays => v
    case Runs(watch) => Performed(TakenOff(v), v.share.batch[0], watch)
    case IsErased => Erased(v.(erasing := v.erasing - 1))
    case Closes(main, watch) =>
      var u := v.(conn := v.conn.(state := S.Disconnected, closes := v.conn.closes + 1), watch := watch, wasClosed := true);
      if main then Erased(u) else u.(erasing := u.erasing + 1)
    case Handles(_, watch) => v.(watch := watch)
    case Sends(watch) => v.(watch := watch)
    case Calls(writes) => Pending(v, Call(v.id, writes))
    case Shuts(late) =>
      var u := v.(conn := v.conn.(state := S.Disconnecting));
      if late then Pending(u, Call(v.id, false)) else u
    case Swaps => v.(share := v.share.(batch := v.share.pending, pending := []))
    case Ends => v.(share := v.share.(ran := []))
    case Activates(active) => v.(share := v.share.(active := active))
    case Frees => v.(live := false, watch := UNWATCHED)
  }

  // ---------------------------------------------------------------------------
  // What keeps a connection alive

  /** It is listed, or its erasure or its destruction is still to come. */
  ghost predicate Covered(v: View) { v.listed || v.erasing > 0 || Destroys(Waiting(v)) > 0 }

  /** Each handleClose leads to one erasure and each erasure to one destruction. */
  ghost predicate Staged(v: View) {
    var n := v.conn;
    && Establishes(Waiting(v)) == (if n.established then 0 else 1)
    && (!n.established ==> n.closes == 0 && n.state.Connecting?)
    && (n.established && n.closes == 0 ==> n.state.Connected? || n.state.Disconnecting?)
    && (n.closes > 0 ==> n.state.Disconnected?)
    && n.closes == v.erasing + n.erases
    && n.erases == Destroys(Waiting(v)) + n.destroys
    && (v.listed <==> n.erases == 0)
  }

  /** A bare pointer that is still to be used is outlived: one that writes by a destruction behind it, which
      takes the channel out of the poller again; any other by a destruction of the same drain. */
  ghost predicate CallsCovered(v: View) {
    v.listed || v.erasing > 0 ||
    (&& WritesCovered(Waiting(v))
     && (HasCall(v.share.pending) ==> Destroys(v.share.pending) > 0)
     && (HasCall(v.share.batch) ==> Destroys(v.share.ran) > 0 || Destroys(Waiting(v)) > 0))
  }

  /** What it takes for no step to touch a freed connection. */
  ghost predicate Weak(v: View) {
    && Staged(v)
    && (v.watch.index != P.New ==> v.conn.established && Covered(v))
    && (v.share.active ==> v.conn.established && Covered(v) && v.share.batch == [] && v.share.ran == [])
    && (HasCall(Waiting(v)) ==> v.conn.established)
    && CallsCovered(v)
    && (!v.live ==> v.conn.established && !Covered(v) && Destroys(v.share.ran) == 0)
  }

  lemma WeakIsReady(v: View)
    requires Weak(v)
    ensures v.share.active || v.erasing > 0 || (v.share.batch != [] && !v.share.batch[0].Erase?) ==> v.live
    ensures v.live || v.watch.index == P.New
  {
    if v.share.batch != [] {
      CountConcat(v.share.batch, v.share.pending);
      assert v.share.batch == [v.share.batch[0]] + v.share.batch[1..];
    }
  }

  /** Appending a functor that is not an establishment. */
  lemma PendingCounts(v: View, t: Task)
    ensures Waiting(Pending(v, t)) == Waiting(v) + [t]
    ensures Destroys(Waiting(Pending(v, t))) == Destroys(Waiting(v)) + if t.Destroy? then 1 else 0
    ensures Establishes(Waiting(Pending(v, t))) == Establishes(Waiting(v)) + if t.Establish? then 1 else 0
    ensures HasCall(Waiting(Pending(v, t))) <==> HasCall(Waiting(v)) || t.Call?
    ensures HasCall(v.share.pending + [t]) <==> HasCall(v.share.pending) || t.Call?
    ensures Destroys(v.share.pending + [t]) == Destroys(v.share.pending) + if t.Destroy? then 1 else 0
  {
    assert Waiting(Pending(v, t)) == Waiting(v) + [t];
    CountConcat(Waiting(v), [t]);
    CountConcat(v.share.pending, [t]);
    CountOne(t);
  }

  lemma ErasedKeeps(v: View)
    ensures CallsCovered(Erased(v)) && Covered(Erased(v))
    ensures Destroys(Waiting(Erased(v))) == Destroys(Waiting(v)) + 1
    ensures Establishes(Waiting(Erased(v))) == Establishes(Waiting(v))
    ensures HasCall(Waiting(Erased(v))) <==> HasCall(Waiting(v))
  {
    var u := v.(conn := v.conn.(erases := v.conn.erases + 1), listed := false);
    PendingCounts(u, Destroy(v.id));
    CoveredSnoc(Waiting(u), Destroy(v.id));
  }

  lemma RunsCounts(v: View)
    requires v.share.batch != []
    ensures var t := v.share.batch[0]; var u := TakenOff(v);
            && Waiting(v) == [t] + Waiting(u)
            && Destroys(Waiting(v)) == Destroys(Waiting(u)) + (if t.Destroy? then 1 else 0)
            && Establishes(Waiting(v)) == Establishes(Waiting(u)) + (if t.Establish? then 1 else 0)
            && (HasCall(v.share.batch) <==> t.Call? || HasCall(u.share.batch))
            && Destroys(u.share.ran) == Destroys(v.share.ran) + (if t.Destroy? then 1 else 0)
            && (WritesCovered(Waiting(v)) ==> WritesCovered(Waiting(u)))
            && (WritesCovered(Waiting(v)) && t.Call? && t.writes ==> Destroys(Waiting(u)) > 0)
            && (CallsFirst(Waiting(v)) ==> CallsFirst(Waiting(u)) && (t.Destroy? ==> !HasCall(Waiting(u))))
            && (HasCall(Waiting(v)) <==> t.Call? || HasCall(Waiting(u)))
  {
    var t := v.share.batch[0];
    var u := TakenOff(v);
    assert Waiting(v) == [t] + Waiting(u);
    assert Waiting(v)[1..] == Waiting(u) && Waiting(v)[0] == t;
    CountConcat(v.share.ran, [t]);
    CountOne(t);
  }

  lemma RunsKeeps(v: View, watch: Watch)
    requires Weak(v) && Can(v, Runs(watch))
    ensures Weak(After(v, Runs(watch)))
  {
    hide Destroys, Establishes, HasCall, WritesCovered, CallsFirst, Waiting;
    RunsCounts(v);
    SameWaiting(TakenOff(v), After(v, Runs(watch)));
  }

  lemma EraseKeeps(v: View, m: Move)
    requires Weak(v) && Can(v, m) && (m.IsErased? || (m.Closes? && m.main))
    ensures Weak(After(v, m))
  {
    hide Destroys, Establishes, HasCall, WritesCovered, CallsFirst, Waiting, CallsCovered, Covered;
    var u := if m.IsErased? then v.(erasing := v.erasing - 1)
             else v.(conn := v.conn.(state := S.Disconnected, closes := v.conn.closes + 1), watch := m.watch, wasClosed := true);
    ErasedKeeps(u);
    WeakIsReady(v);
    SameWaiting(v, u);
  }

  lemma SameWaiting(v: View, u: View)
    requires v.share == u.share
    ensures Waiting(v) == Waiting(u)
  {
  }

  lemma CallKeeps(v: View, u: View, writes: bool)
    requires Weak(v) && v.conn.established && v.listed && u == v.(conn := v.conn.(state := u.conn.state))
    requires Weak(u)
    ensures Weak(Pending(u, Call(v.id, writes)))
  {
    hide Destroys, Establishes, HasCall, WritesCovered, CallsFirst, Waiting;
    PendingCounts(u, Call(v.id, writes));
  }

  lemma SwapKeeps(v: View)
    requires Weak(v) && Can(v, Swaps)
    ensures Weak(After(v, Swaps))
  {
    assert Waiting(v) == v.share.pending && Waiting(After(v, Swaps)) == v.share.pending;
  }

  /** Every move keeps a connection from being touched after it was freed. */
  lemma MoveKeepsWeak(v: View, m: Move)
    requires Weak(v) && Can(v, m)
    ensures Weak(After(v, m))
  {
    hide Destroys, Establishes, HasCall, WritesCovered, CallsFirst;
    match m
    case Runs(watch) => RunsKeeps(v, watch);
    case IsErased => EraseKeeps(v, m);
    case Closes(main, _) => if main { EraseKeeps(v, m); }
    case Calls(writes) => CallKeeps(v, v, writes);
    case Shuts(late) =>
      var u := v.(conn := v.conn.(state := S.Disconnecting));
      if late { CallKeeps(v, u, false); }
    case Swaps => SwapKeeps(v);
    case Ends => CountNone();
    case _ =>
  }

  lemma CountNone()
    ensures Destroys([]) == 0 && Establishes([]) == 0 && !HasCall([])
  {
  }

  // ---------------------------------------------------------------------------
  // The order of a life

  /** The channel is in use from establishment to the first destruction, and nothing that belongs to this
      time comes after it. */
  ghost predicate Ordered(v: View) {
    var n := v.conn;
    && (v.watch.index.New? <==> !n.established || n.destroys > 0)
    && (v.share.active ==> n.destroys == 0)
    && (HasCall(Waiting(v)) ==> n.destroys == 0)
    && CallsFirst(Waiting(v))
    && v.wasEstablished == n.established
    && v.wasClosed == (n.closes > 0)
    && v.wasDestroyed == (n.destroys > 0)
  }

  lemma RunsOrdered(v: View, watch: Watch)
    requires Weak(v) && Ordered(v) && Can(v, Runs(watch))
    ensures Ordered(After(v, Runs(watch)))
  {
    hide Destroys, Establishes, HasCall, WritesCovered, CallsFirst, Waiting;
    RunsCounts(v);
    SameWaiting(TakenOff(v), After(v, Runs(watch)));
  }

  lemma PendingOrdered(v: View, t: Task)
    requires Ordered(v) && (t.Call? ==> v.conn.destroys == 0 && Destroys(Waiting(v)) == 0)
    ensures Ordered(Pending(v, t))
  {
    hide Destroys, Establishes, HasCall, WritesCovered, CallsFirst, Waiting;
    PendingCounts(v, t);
    CallsFirstSnoc(Waiting(v), t);
  }

  lemma ErasedOrdered(v: View)
    requires Ordered(v)
    ensures Ordered(Erased(v))
  {
    hide Destroys, Establishes, HasCall, WritesCovered, CallsFirst, Waiting;
    var u := v.(conn := v.conn.(erases := v.conn.erases + 1), listed := false);
    SameWaiting(v, u);
    PendingOrdered(u, Destroy(v.id));
  }

  lemma CloseOrdered(v: View, m: Move)
    requires Weak(v) && Ordered(v) && Can(v, m) && m.Closes?
    ensures Ordered(After(v, m))
  {
    hide Destroys, Establishes, HasCall, WritesCovered, CallsFirst, Waiting, CallsCovered;
    var u := v.(conn := v.conn.(state := S.Disconnected, closes := v.conn.closes + 1), watch := m.watch, wasClosed := true);
    SameWaiting(v, u);
    SameWaiting(v, u.(erasing := u.erasing + 1));
    if m.main { ErasedOrdered(u); }
  }

  lemma CallOrdered(v: View, m: Move)
    requires Weak(v) && Ordered(v) && Can(v, m) && (m.Calls? || m.Shuts?)
    ensures Ordered(After(v, m))
  {
    hide Destroys, Establishes, HasCall, WritesCovered, CallsFirst, Waiting, CallsCovered;
    var u := if m.Calls? then v else v.(conn := v.conn.(state := S.Disconnecting));
    SameWaiting(v, u);
    PendingOrdered(u, Call(v.id, m.Calls? && m.writes));
  }

  lemma SwapOrdered(v: View)
    requires Ordered(v) && Can(v, Swaps)
    ensures Ordered(After(v, Swaps))
  {
    assert Waiting(v) == v.share.pending && Waiting(After(v, Swaps)) == v.share.pending;
  }

  lemma MoveKeepsOrder(v: View, m: Move)
    requires Weak(v) && Ordered(v) && Can(v, m)
    ensures Ordered(After(v, m))
  {
    hide Destroys, Establishes, HasCall, WritesCovered, CallsFirst;
    match m
    case Runs(watch) => RunsOrdered(v, watch);
    case IsErased =>
      SameWaiting(v, v.(erasing := v.erasing - 1));
      ErasedOrdered(v.(erasing := v.erasing - 1));
    case Closes(_, _) => CloseOrdered(v, m);
    case Calls(_) => CallOrdered(v, m);
    case Shuts(_) => CallOrdered(v, m);
    case Swaps => SwapOrdered(v);
    case _ =>
  }

  /** A call queued for a guarded connection leaves it guarded unless nothing outlives the call. */
  ghost predicate Harmful(v: View, writes: bool) {
    !v.listed && v.erasing == 0 && (writes || Destroys(v.share.pending) == 0)
  }

  lemma CallIsSafeUnlessHarmful(v: View, writes: bool)
    requires Weak(v) && v.live && v.conn.established && !Harmful(v, writes)
    ensures Weak(Pending(v, Call(v.id, writes)))
  {
    hide Destroys, Establishes, HasCall, WritesCovered, CallsFirst, Waiting;
    var t := Call(v.id, writes);
    PendingCounts(v, t);
    CoveredSnoc(Waiting(v), t);
    WaitingCounts(v);
  }

  lemma WaitingCounts(v: View)
    ensures Destroys(Waiting(v)) == Destroys(v.share.batch) + Destroys(v.share.pending)
    ensures Establishes(Waiting(v)) == Establishes(v.share.batch) + Establishes(v.share.pending)
    ensures HasCall(Waiting(v)) <==> HasCall(v.share.batch) || HasCall(v.share.pending)
  {
    CountConcat(v.share.batch, v.share.pending);
  }

  // ---------------------------------------------------------------------------
  // Listening

  /** An open connection is watched, for reading at least. */
  ghost predicate Listening(v: View) {
    v.conn.established && v.conn.closes == 0 ==> v.watch.index.Added? && P.In in v.watch.mask && P.Pri in v.watch.mask
  }

  /** Nothing but a handleClose ends that. */
  lemma MoveKeepsListening(v: View, m: Move)
    requires Weak(v) && Listening(v) && Can(v, m)
    ensures Listening(After(v, m))
  {
    hide Destroys, Establishes, HasCall, WritesCovered, CallsFirst, CallsCovered, Covered, Waiting;
    if m.Runs? { RunsCounts(v); }
    if !m.Frees? && P.In in After(v, m).watch.mask { assert After(v, m).watch.mask != {}; }
  }
}
