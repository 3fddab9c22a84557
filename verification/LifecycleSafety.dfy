/** How the elementary changes of the server show in the views of its connections. */
module LifecycleSafety {
  import opened Outcomes
  import opened Lifecycles
  import opened LifecycleViews
  import P = Pollers

  // ---------------------------------------------------------------------------
  // The view of one connection

  ghost predicate Mine(t: Task, c: nat) { t.conn == c && !t.Erase? }

  /** The functors of `c` in `q`, other than erasures. */
  ghost function Of(q: seq<Task>, c: nat): seq<Task> {
    if q == [] then [] else (if Mine(q[0], c) then [q[0]] else []) + Of(q[1..], c)
  }

  ghost function ShareOf(r: Reactor, c: nat): Share {
    Share(Of(Ran(r), c), Of(Batch(r), c), Of(r.pending, c), r.phase.Dispatching? && c in r.phase.rest)
  }

  ghost predicate Sized(w: World) {
    MAIN < |w.reactors| && forall c :: 0 <= c < |w.conns| ==> Known(w, c)
  }

  ghost function Queued(w: World, l: nat, t: Task): nat
    requires l < |w.reactors|
  {
    multiset(Queue(w.reactors[l]))[t]
  }

  ghost function IndexOf(w: World, c: nat): P.Index
    requires Known(w, c)
  {
    WatchOf(w, c).index
  }

  ghost function WatchOf(w: World, c: nat): Watch
    requires Known(w, c)
  {
    if Live(w, c) then
      var chan := w.reactors[w.conns[c].loop].poller.chans[c];
      Watch(chan.index, chan.events)
    else UNWATCHED
  }

  ghost function ViewOf(w: World, c: nat): View
    requires Sized(w) && c < |w.conns|
  {
    assert Known(w, c);
    View(c, w.conns[c], ShareOf(w.reactors[w.conns[c].loop], c), Queued(w, MAIN, Erase(c)),
         c in w.connections, Live(w, c), WatchOf(w, c),
         Established(c) in w.log, Closed(c) in w.log, Destroyed(c) in w.log)
  }

  lemma {:induction false} OfConcat(p: seq<Task>, q: seq<Task>, c: nat)
    ensures Of(p + q, c) == Of(p, c) + Of(q, c)
  {
    if p == [] {
      assert p + q == q;
    } else {
      assert (p + q)[1..] == p[1..] + q;
      OfConcat(p[1..], q, c);
    }
  }

  lemma OfOne(t: Task, c: nat)
    ensures Of([t], c) == if Mine(t, c) then [t] else []
  {
    assert [t][1..] == [];
  }

  /** A functor of `c` is in the queue exactly if it is in the part that belongs to `c`. */
  lemma {:induction false} OfHas(q: seq<Task>, c: nat, t: Task)
    requires Mine(t, c)
    ensures t in q <==> t in Of(q, c)
    ensures t.Destroy? ==> (t in q <==> Destroys(Of(q, c)) > 0)
    ensures t.Establish? ==> (t in q <==> Establishes(Of(q, c)) > 0)
  {
    if q != [] {
      OfHas(q[1..], c, t);
      OfOne(q[0], c);
      CountOne(q[0]);
      assert q == [q[0]] + q[1..];
      CountConcat(Of([q[0]], c), Of(q[1..], c));
      assert Of(q, c) == Of([q[0]], c) + Of(q[1..], c);
    }
  }

  // ---------------------------------------------------------------------------
  // Everything is in its place

  /** Functors sit at the loop they belong to. */
  ghost predicate TaskAt(w: World, l: nat, t: Task) {
    Known(w, t.conn) && if t.Erase? then l == MAIN else w.conns[t.conn].loop == l
  }

  ghost predicate QueueOk(w: World, l: nat)
    requires l < |w.reactors|
  {
    forall t :: t in Ran(w.reactors[l]) || t in Queue(w.reactors[l]) ==> TaskAt(w, l, t)
  }

  ghost predicate Resident(w: World, l: nat, c: nat) { Known(w, c) && w.conns[c].loop == l }

  ghost predicate DispatchOk(w: World, l: nat)
    requires l < |w.reactors|
  {
    w.reactors[l].phase.Dispatching? ==> forall c :: c in w.reactors[l].phase.rest ==> Resident(w, l, c)
  }

  ghost predicate ChanOk(w: World, l: nat, c: nat)
    requires l < |w.reactors| && c in w.reactors[l].poller.chans
  {
    c < |w.conns| && w.conns[c].loop == l && w.reactors[l].poller.chans[c].fd == w.conns[c].fd
  }

  ghost predicate PollerOk(w: World, l: nat)
    requires l < |w.reactors|
  {
    && P.Agrees(w.reactors[l].poller)
    && forall c :: c in w.reactors[l].poller.chans ==> ChanOk(w, l, c)
  }

  ghost predicate Queues(w: World) { forall l :: 0 <= l < |w.reactors| ==> QueueOk(w, l) }

  ghost predicate Dispatches(w: World) { forall l :: 0 <= l < |w.reactors| ==> DispatchOk(w, l) }

  ghost predicate Polled(w: World) { forall l :: 0 <= l < |w.reactors| ==> PollerOk(w, l) }

  /** No two connections that still exist have the same descriptor. */
  ghost predicate Distinct(w: World) {
    forall c, d :: 0 <= c < |w.conns| && 0 <= d < |w.conns| && c != d && Live(w, c) && Live(w, d) ==>
      w.conns[c].fd != w.conns[d].fd
  }

  ghost predicate Base(w: World) {
    Sized(w) && Queues(w) && Dispatches(w) && Polled(w) && Distinct(w)
  }

  lemma BaseIsSized(w: World)
    requires Base(w)
    ensures Sized(w)
  {
  }

  lemma ViewFields(w: World, c: nat)
    requires Sized(w) && c < |w.conns|
    ensures Known(w, c)
    ensures var v := ViewOf(w, c);
            && v.id == c && v.conn == w.conns[c] && v.live == Live(w, c) && v.watch == WatchOf(w, c)
            && v.listed == (c in w.connections)
  {
  }

  /** Nothing changes for connections other than `c`. */
  ghost predicate OthersKeep(w: World, v: World, c: nat)
    requires Sized(w)
  {
    && Sized(v) && |v.conns| == |w.conns|
    && forall d :: 0 <= d < |w.conns| && d != c ==> ViewOf(v, d) == ViewOf(w, d)
  }

  lemma OthersKeepTrans(w: World, u: World, v: World, c: nat)
    requires Sized(w) && OthersKeep(w, u, c) && OthersKeep(u, v, c)
    ensures OthersKeep(w, v, c)
  {
  }

  // ---------------------------------------------------------------------------
  // Log and list

  ghost function Noted(v: View, a: Act): View {
    match a
    case Established(_) => v.(wasEstablished := true)
    case Handled(_) => v
    case Closed(_) => v.(wasClosed := true)
    case Destroyed(_) => v.(wasDestroyed := true)
  }

  lemma NoteView(w: World, a: Act, d: nat)
    requires Sized(w) && d < |w.conns|
    ensures Sized(Note(w, a))
    ensures ViewOf(Note(w, a), d) == if d == a.conn then Noted(ViewOf(w, d), a) else ViewOf(w, d)
  {
    hide ShareOf;
    var v := Note(w, a);
    assert forall c :: Known(v, c) == Known(w, c);
    assert forall b :: b in v.log <==> b == a || b in w.log;
  }

  /** The books of the loops do not mention the log or `connections_`. */
  lemma BaseIgnoresLog(w: World, v: World)
    requires Base(w) && v.reactors == w.reactors && v.conns == w.conns
    ensures Base(v)
  {
    hide P.Agrees;
    assert forall c :: Known(v, c) == Known(w, c);
    assert forall c :: Live(v, c) == Live(w, c);
    forall l | 0 <= l < |v.reactors|
      ensures QueueOk(v, l) && DispatchOk(v, l) && PollerOk(v, l)
    {
      assert QueueOk(w, l) && DispatchOk(w, l) && PollerOk(w, l);
      assert forall t :: TaskAt(v, l, t) == TaskAt(w, l, t);
      assert forall c :: Resident(v, l, c) == Resident(w, l, c);
      assert forall c :: c in w.reactors[l].poller.chans ==> ChanOk(w, l, c);
    }
  }

  lemma NoteKeeps(w: World, a: Act)
    requires Base(w) && a.conn < |w.conns|
    ensures var v := Note(w, a);
            Base(v) && OthersKeep(w, v, a.conn) && ViewOf(v, a.conn) == Noted(ViewOf(w, a.conn), a)
  {
    hide Queues, Dispatches, Polled, Distinct, ViewOf, Known;
    BaseIgnoresLog(w, Note(w, a));
    NoteView(w, a, a.conn);
    forall d | 0 <= d < |w.conns|
      ensures d != a.conn ==> ViewOf(Note(w, a), d) == ViewOf(w, d)
    {
      NoteView(w, a, d);
    }
  }

  lemma UnlistKeeps(w: World, c: nat)
    requires Base(w) && c < |w.conns|
    ensures var v := w.(connections := w.connections - {c});
            Base(v) && OthersKeep(w, v, c) && ViewOf(v, c) == ViewOf(w, c).(listed := false)
  {
    hide Queues, Dispatches, Polled, Distinct, ShareOf;
    BaseIgnoresLog(w, w.(connections := w.connections - {c}));
  }

  // ---------------------------------------------------------------------------
  // The record of a connection

  lemma WithConnBase(w: World, c: nat, n: Conn)
    requires Base(w) && c < |w.conns| && n.loop == w.conns[c].loop && n.fd == w.conns[c].fd
    ensures Base(WithConn(w, c, n))
  {
    hide P.Agrees;
    var v := WithConn(w, c, n);
    assert forall d :: Known(v, d) == Known(w, d);
    assert forall d :: Live(v, d) == Live(w, d);
    forall l | 0 <= l < |v.reactors|
      ensures QueueOk(v, l) && DispatchOk(v, l) && PollerOk(v, l)
    {
      assert QueueOk(w, l) && DispatchOk(w, l) && PollerOk(w, l);
      assert forall t :: TaskAt(v, l, t) == TaskAt(w, l, t);
      assert forall d :: Resident(v, l, d) == Resident(w, l, d);
      assert forall d :: d in w.reactors[l].poller.chans ==> ChanOk(w, l, d);
    }
  }

  lemma WithConnKeeps(w: World, c: nat, n: Conn)
    requires Base(w) && c < |w.conns| && n.loop == w.conns[c].loop && n.fd == w.conns[c].fd
    ensures var v := WithConn(w, c, n);
            Base(v) && OthersKeep(w, v, c) && ViewOf(v, c) == ViewOf(w, c).(conn := n)
  {
    hide P.Agrees, Queues, Dispatches, Polled, Distinct, ShareOf;
    WithConnBase(w, c, n);
    var v := WithConn(w, c, n);
    assert forall d :: Known(v, d) == Known(w, d);
    assert forall d :: Live(v, d) == Live(w, d);
  }

  // ---------------------------------------------------------------------------
  // Queues and phases

  /** Replacing the queue or the phase of one loop leaves pollers and descriptors alone. */
  lemma SamePoller(w: World, l: nat, r: Reactor)
    requires Base(w) && l < |w.reactors| && r.poller == w.reactors[l].poller
    requires QueueOk(WithReactor(w, l, r), l) && DispatchOk(WithReactor(w, l, r), l)
    ensures Base(WithReactor(w, l, r))
  {
    hide P.Agrees;
    var v := WithReactor(w, l, r);
    assert forall d :: Known(v, d) == Known(w, d);
    assert forall d :: Live(v, d) == Live(w, d);
    forall k | 0 <= k < |v.reactors|
      ensures QueueOk(v, k) && DispatchOk(v, k) && PollerOk(v, k)
    {
      assert QueueOk(w, k) && DispatchOk(w, k) && PollerOk(w, k);
      assert forall t :: TaskAt(v, k, t) == TaskAt(w, k, t);
      assert forall d :: Resident(v, k, d) == Resident(w, k, d);
      assert forall d :: d in w.reactors[k].poller.chans ==> ChanOk(w, k, d);
    }
  }

  /** The view of `d` after its loop's reactor, or another's, was replaced. */
  lemma ReactorView(w: World, l: nat, r: Reactor, d: nat)
    requires Sized(w) && l < |w.reactors| && d < |w.conns| && r.poller == w.reactors[l].poller
    ensures var v := WithReactor(w, l, r);
            && Sized(v) && Known(w, d)
            && ViewOf(v, d) == ViewOf(w, d).(
                 share := if w.conns[d].loop == l then ShareOf(r, d) else ViewOf(w, d).share,
                 erasing := if l == MAIN then multiset(Queue(r))[Erase(d)] else ViewOf(w, d).erasing)
  {
    hide ShareOf, Queue;
    var v := WithReactor(w, l, r);
    assert forall c :: Known(v, c) == Known(w, c);
    assert Known(w, d);
  }

  /** One more functor at the end of the queue. */
  lemma PostShare(r: Reactor, t: Task, d: nat)
    ensures var q := r.(pending := r.pending + [t]);
            && Queue(q) == Queue(r) + [t]
            && ShareOf(q, d) == ShareOf(r, d).(pending := ShareOf(r, d).pending + if Mine(t, d) then [t] else [])
            && multiset(Queue(q))[Erase(d)] == multiset(Queue(r))[Erase(d)] + if t == Erase(d) then 1 else 0
  {
    hide Of;
    var q := r.(pending := r.pending + [t]);
    assert Queue(q) == Queue(r) + [t];
    TailCount(Queue(r), t, Erase(d));
    OfConcat(r.pending, [t], d);
    OfOne(t, d);
  }

  lemma TailCount(q: seq<Task>, t: Task, u: Task)
    ensures multiset(q + [t])[u] == multiset(q)[u] + if u == t then 1 else 0
  {
  }

  ghost function Posted(v: View, t: Task): View {
    if t.Erase? then v.(erasing := v.erasing + 1) else Pending(v, t)
  }

  lemma PostView(w: World, l: nat, t: Task, d: nat)
    requires Sized(w) && l < |w.reactors| && TaskAt(w, l, t) && d < |w.conns|
    ensures Sized(Post(w, l, t))
    ensures ViewOf(Post(w, l, t), d) == if d == t.conn then Posted(ViewOf(w, d), t) else ViewOf(w, d)
  {
    hide ShareOf, Queue, Of;
    PostShare(w.reactors[l], t, d);
    ReactorView(w, l, w.reactors[l].(pending := w.reactors[l].pending + [t]), d);
    var p := ShareOf(w.reactors[l], d).pending;
    assert p + [] == p;
  }

  lemma PostKeeps(w: World, l: nat, t: Task)
    requires Base(w) && l < |w.reactors| && TaskAt(w, l, t)
    ensures var v := Post(w, l, t);
            Base(v) && OthersKeep(w, v, t.conn) && ViewOf(v, t.conn) == Posted(ViewOf(w, t.conn), t)
  {
    hide P.Agrees, Polled, Distinct, ViewOf, ShareOf;
    var v := Post(w, l, t);
    assert Queue(v.reactors[l]) == Queue(w.reactors[l]) + [t] && Ran(v.reactors[l]) == Ran(w.reactors[l]);
    assert QueueOk(w, l) && DispatchOk(w, l);
    assert forall u :: TaskAt(v, l, u) == TaskAt(w, l, u);
    assert forall d :: Resident(v, l, d) == Resident(w, l, d);
    SamePoller(w, l, v.reactors[l]);
    PostView(w, l, t, t.conn);
    forall d | 0 <= d < |w.conns|
      ensures d != t.conn ==> ViewOf(v, d) == ViewOf(w, d)
    {
      PostView(w, l, t, d);
    }
  }

  lemma HeadCount(t: Task, q: seq<Task>, u: Task)
    ensures multiset([t] + q)[u] == multiset(q)[u] + if u == t then 1 else 0
  {
    assert multiset([t] + q) == multiset([t]) + multiset(q);
  }

  lemma PopQueues(w: World, l: nat)
    requires Enabled(w, RunFunctor(l))
    ensures l < |Popped(w, l).reactors|
    ensures var r, q := w.reactors[l], Popped(w, l).reactors[l]; var t := r.phase.batch[0];
            && Queue(r) == [t] + Queue(q) && Batch(r) == [t] + Batch(q) && Ran(q) == Ran(r) + [t]
            && q.pending == r.pending && q.phase.Draining?
  {
  }

  lemma PopOf(p: seq<Task>, t: Task, d: nat)
    ensures Of([t] + p, d) == (if Mine(t, d) then [t] + Of(p, d) else Of(p, d))
    ensures Of(p + [t], d) == (if Mine(t, d) then Of(p, d) + [t] else Of(p, d))
  {
    OfConcat([t], p, d);
    OfConcat(p, [t], d);
    OfOne(t, d);
  }

  /** The first functor of the batch moves to those that have run. */
  lemma PopShare(w: World, l: nat, d: nat)
    requires Enabled(w, RunFunctor(l))
    ensures var r, q := w.reactors[l], Popped(w, l).reactors[l]; var t := r.phase.batch[0];
            && Queue(r) == [t] + Queue(q) && Ran(q) == Ran(r) + [t]
            && multiset(Queue(r))[Erase(d)] == multiset(Queue(q))[Erase(d)] + (if t == Erase(d) then 1 else 0)
            && (if Mine(t, d) then ShareOf(r, d).batch == [t] + ShareOf(q, d).batch &&
                                   ShareOf(q, d) == ShareOf(r, d).(ran := ShareOf(r, d).ran + [t], batch := ShareOf(r, d).batch[1..])
                else ShareOf(q, d) == ShareOf(r, d))
  {
    hide Of, Queue, Batch, Ran, Popped;
    PopQueues(w, l);
    var r, q := w.reactors[l], Popped(w, l).reactors[l];
    var t := r.phase.batch[0];
    HeadCount(t, Queue(q), Erase(d));
    PopOf(Ran(r), t, d);
    PopOf(Batch(q), t, d);
  }

  /** What taking functor `t` off the batch does to the view of its connection. */
  ghost predicate TookOff(before: View, after: View, t: Task) {
    if t.Erase? then before == after.(erasing := after.erasing + 1)
    else before.share.batch != [] && before.share.batch[0] == t && after == TakenOff(before)
  }

  lemma PopView(w: World, l: nat, d: nat)
    requires Sized(w) && Enabled(w, RunFunctor(l)) && TaskAt(w, l, w.reactors[l].phase.batch[0]) && d < |w.conns|
    ensures var t := w.reactors[l].phase.batch[0];
            && Sized(Popped(w, l))
            && (if d == t.conn then TookOff(ViewOf(w, d), ViewOf(Popped(w, l), d), t)
                else ViewOf(Popped(w, l), d) == ViewOf(w, d))
  {
    hide ShareOf, Queue, Of;
    PopShare(w, l, d);
    ReactorView(w, l, Popped(w, l).reactors[l], d);
  }

  lemma PopKeeps(w: World, l: nat)
    requires Base(w) && Enabled(w, RunFunctor(l))
    ensures var t := w.reactors[l].phase.batch[0];
            var v := Popped(w, l);
            && Base(v) && TaskAt(v, l, t) && OthersKeep(w, v, t.conn)
            && TookOff(ViewOf(w, t.conn), ViewOf(v, t.conn), t)
  {
    hide P.Agrees, Polled, Distinct, ViewOf, Queue, Ran, TookOff;
    var t := w.reactors[l].phase.batch[0];
    var v := Popped(w, l);
    PopShare(w, l, 0);
    assert QueueOk(w, l) && t in Queue(w.reactors[l]);
    assert forall u :: TaskAt(v, l, u) == TaskAt(w, l, u);
    assert QueueOk(v, l);
    SamePoller(w, l, v.reactors[l]);
    PopView(w, l, t.conn);
    forall d | 0 <= d < |w.conns|
      ensures d != t.conn ==> ViewOf(v, d) == ViewOf(w, d)
    {
      PopView(w, l, d);
    }
  }

  /** A change of phase: the queue keeps its order, what has run may be dropped. */
  lemma PhaseKeeps(w: World, l: nat, r: Reactor)
    requires Base(w) && l < |w.reactors|
    requires r.poller == w.reactors[l].poller && Queue(r) == Queue(w.reactors[l]) && Ran(r) == []
    requires DispatchOk(WithReactor(w, l, r), l)
    ensures var v := WithReactor(w, l, r);
            && Base(v) && |v.conns| == |w.conns|
            && forall d :: 0 <= d < |w.conns| ==>
                 ViewOf(v, d) == if w.conns[d].loop == l then ViewOf(w, d).(share := ShareOf(r, d)) else ViewOf(w, d)
  {
    hide P.Agrees, Polled, Distinct, ViewOf, ShareOf;
    var v := WithReactor(w, l, r);
    assert QueueOk(w, l);
    assert forall u :: TaskAt(v, l, u) == TaskAt(w, l, u);
    SamePoller(w, l, r);
    forall d | 0 <= d < |w.conns|
      ensures ViewOf(v, d) == if w.conns[d].loop == l then ViewOf(w, d).(share := ShareOf(r, d)) else ViewOf(w, d)
    {
      ReactorView(w, l, r, d);
      SameErasing(w, l, d);
    }
  }

  lemma SameErasing(w: World, l: nat, d: nat)
    requires Sized(w) && l < |w.reactors| && d < |w.conns|
    ensures Known(w, d) && (w.conns[d].loop == l ==> ViewOf(w, d).share == ShareOf(w.reactors[l], d))
    ensures l == MAIN ==> ViewOf(w, d).erasing == multiset(Queue(w.reactors[l]))[Erase(d)]
  {
  }

  // ---------------------------------------------------------------------------
  // Calls into the poller

  lemma AloneInPoller(w: World, c: nat)
    requires Base(w) && Live(w, c)
    ensures var p := w.reactors[w.conns[c].loop].poller; P.Agrees(p) && !P.Shared(p, c)
  {
    hide P.Agrees, Queues, Dispatches;
    var l := w.conns[c].loop;
    var p := w.reactors[l].poller;
    assert PollerOk(w, l);
    forall d | d in p.chans && d != c
      ensures p.chans[d].fd != p.chans[c].fd
    {
      assert ChanOk(w, l, c) && ChanOk(w, l, d) && Live(w, d);
    }
  }

  ghost function WithPoller(w: World, l: nat, p: P.Poller<nat>): World
    requires l < |w.reactors|
  {
    WithReactor(w, l, w.reactors[l].(poller := p))
  }

  /** Replacing the poller of one loop leaves queues and active channels alone. */
  lemma SameQueue(w: World, l: nat, p: P.Poller<nat>)
    requires Sized(w) && Queues(w) && Dispatches(w) && l < |w.reactors|
    ensures var v := WithPoller(w, l, p); Sized(v) && Queues(v) && Dispatches(v)
  {
    var v := WithPoller(w, l, p);
    assert forall d :: Known(v, d) == Known(w, d);
    forall k | 0 <= k < |v.reactors|
      ensures QueueOk(v, k) && DispatchOk(v, k)
    {
      assert QueueOk(w, k) && DispatchOk(w, k);
      assert forall t :: TaskAt(v, k, t) == TaskAt(w, k, t);
      assert forall d :: Resident(v, k, d) == Resident(w, k, d);
    }
  }

  lemma PollerNotQueued(w: World, l: nat, p: P.Poller<nat>, k: nat)
    requires l < |w.reactors| && k < |w.reactors|
    ensures Queue(WithPoller(w, l, p).reactors[k]) == Queue(w.reactors[k])
    ensures forall d :: ShareOf(WithPoller(w, l, p).reactors[k], d) == ShareOf(w.reactors[k], d)
  {
  }

  /** The view of `d` after a change of the channels in one poller. */
  lemma PollerView(w: World, l: nat, p: P.Poller<nat>, d: nat)
    requires Sized(w) && l < |w.reactors| && d < |w.conns|
    ensures var v := WithPoller(w, l, p);
            && Sized(v) && Known(w, d) && Known(v, d)
            && ViewOf(v, d) == ViewOf(w, d).(live := Live(v, d), watch := WatchOf(v, d))
            && (w.conns[d].loop != l ==> Live(v, d) == Live(w, d) && WatchOf(v, d) == WatchOf(w, d))
            && (w.conns[d].loop == l ==> Live(v, d) == (d in p.chans) && (d in p.chans ==> WatchOf(v, d) == Watch(p.chans[d].index, p.chans[d].events)))
  {
    hide Queue, ShareOf;
    var v := WithPoller(w, l, p);
    assert forall k :: Known(v, k) == Known(w, k);
    assert Known(w, d);
    PollerNotQueued(w, l, p, MAIN);
    PollerNotQueued(w, l, p, w.conns[d].loop);
  }

  /** A poller step that only concerns the channel of `c`. */
  lemma PollerKeeps(w: World, c: nat, p: P.Poller<nat>)
    requires Base(w) && Live(w, c)
    requires P.Agrees(p) && P.OnlyDescriptor(w.reactors[w.conns[c].loop].poller, p, c)
    ensures var v := WithPoller(w, w.conns[c].loop, p);
            Base(v) && OthersKeep(w, v, c) && ViewOf(v, c) == ViewOf(w, c).(watch := Watch(p.chans[c].index, p.chans[c].events))
  {
    hide P.Agrees, Queues, Dispatches, ViewOf;
    var l := w.conns[c].loop;
    var v := WithPoller(w, l, p);
    SameQueue(w, l, p);
    assert forall d :: Known(v, d) == Known(w, d);
    assert forall d :: Live(v, d) == Live(w, d);
    forall k | 0 <= k < |v.reactors|
      ensures PollerOk(v, k)
    {
      assert PollerOk(w, k);
      assert forall d :: d in w.reactors[k].poller.chans ==> ChanOk(w, k, d);
    }
    forall d | 0 <= d < |w.conns|
      ensures ViewOf(v, d) == if d == c then ViewOf(w, c).(watch := Watch(p.chans[c].index, p.chans[c].events)) else ViewOf(w, d)
    {
      PollerView(w, l, p, d);
      ViewFields(w, d);
    }
  }

  /** The events asked for after a mask setter. */
  ghost function NewMask(mask: P.Mask, change: P.Change): P.Mask {
    match change
    case EnableReading => mask + {P.In, P.Pri}
    case DisableReading => mask - {P.In, P.Pri}
    case EnableWriting => mask + {P.Out}
    case DisableWriting => mask - {P.Out}
    case DisableAll => {}
  }

  lemma TouchKeeps(w: World, c: nat, e: P.Event<nat>)
    requires Base(w) && Live(w, c) && (e.Set? || e.Remove?) && e.channel == c
    ensures var r := Touch(w, c, e);
            && r.Ok? && Base(r.value) && OthersKeep(w, r.value, c)
            && r.value.conns == w.conns && r.value.log == w.log && |r.value.reactors| == |w.reactors|
            && ViewOf(r.value, c) == ViewOf(w, c).(watch := WatchOf(r.value, c))
            && (WatchOf(r.value, c).index.New? <==> e.Remove?)
            && (e.Set? ==> WatchOf(r.value, c) == SetTo(WatchOf(w, c), NewMask(WatchOf(w, c).mask, e.change)))
  {
    hide P.Agrees, P.Step, Queues, Dispatches, Polled, Distinct, OthersKeep, ViewOf;
    var p := w.reactors[w.conns[c].loop].poller;
    AloneInPoller(w, c);
    if e.Set? {
      P.SetAgrees(p, c, e.change);
      var mask := p.chans[c].events;
      assert P.Changed(mask, e.change) == NewMask(mask, e.change);
    } else {
      P.RemoveAgrees(p, c);
    }
    PollerKeeps(w, c, P.Step(p, e).value);
  }
}
