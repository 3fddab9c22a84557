/** The life of every connection of a server across its loops (src/TcpServer.cc, src/TcpConnection.cc):
    accepted on the main loop, established on its io loop, closed by a handler there, erased from
    `connections_` on the main loop and destroyed on the io loop. Every loop polls, dispatches and drains
    its queue of functors on its own; runs are arbitrary interleavings of all loops and of other threads.
    Descriptors are reused as soon as the connection that held one is gone. */
module Lifecycles {
  import opened Outcomes
  import P = Pollers
  import S = Connections

  /** The loop that accepts and owns `connections_`; it may also be the io loop of connections. */
  const MAIN := 0

  /** What is queued. `Call` binds the bare `this`; the others hold the connection alive. */
  datatype Task =
    | Establish(conn: nat)               // connectEstablished
    | Erase(conn: nat)                   // removeConnectionInLoop
    | Destroy(conn: nat)                 // connectDestroyed
    | Call(conn: nat, writes: bool)      // sendInLoop that leaves a remainder, or shutdownInLoop

  datatype Phase =
    | Polling
    | Dispatching(rest: seq<nat>)        // activeChannels_ from the channel being handled on
    | Draining(batch: seq<Task>, ran: seq<Task>)   // functors still to run, and those that have run

  datatype Reactor = Reactor(phase: Phase, pending: seq<Task>, poller: P.Poller<nat>)

  datatype Conn = Conn(
    loop: nat,
    fd: int,
    state: S.ConnectionState,
    established: bool,
    closes: nat,                         // how often handleClose ran
    erases: nat,                         // how often removeConnectionInLoop ran
    destroys: nat)                       // how often connectDestroyed ran

  /** What happened to connections, in order. */
  datatype Act = Established(conn: nat) | Handled(conn: nat) | Closed(conn: nat) | Destroyed(conn: nat)

  datatype World = World(reactors: seq<Reactor>, conns: seq<Conn>, connections: set<nat>, log: seq<Act>)

  function Batch(r: Reactor): seq<Task> { if r.phase.Draining? then r.phase.batch else [] }

  /** A functor that has run exists until its drain ends. */
  function Ran(r: Reactor): seq<Task> { if r.phase.Draining? then r.phase.ran else [] }

  /** What is still to be run. */
  function Queue(r: Reactor): seq<Task> { Batch(r) + r.pending }

  predicate Known(w: World, c: nat) { c < |w.conns| && w.conns[c].loop < |w.reactors| }

  /** The connection object, and with it its channel, has not been freed. */
  predicate Live(w: World, c: nat) {
    Known(w, c) && c in w.reactors[w.conns[c].loop].poller.chans
  }

  /** Some shared_ptr to the connection exists: in `connections_` or in a functor that still exists. */
  predicate Held(w: World, c: nat)
    requires Known(w, c)
  {
    || c in w.connections
    || (exists l :: 0 <= l < |w.reactors| && HoldsConn(Ran(w.reactors[l]) + Queue(w.reactors[l]), c))
  }

  predicate HoldsConn(q: seq<Task>, c: nat) { Establish(c) in q || Erase(c) in q || Destroy(c) in q }

  function WithConn(w: World, c: nat, n: Conn): World
    requires c < |w.conns|
  {
    w.(conns := w.conns[c := n])
  }

  function WithReactor(w: World, l: nat, r: Reactor): World
    requires l < |w.reactors|
  {
    w.(reactors := w.reactors[l := r])
  }

  function Post(w: World, l: nat, t: Task): World
    requires l < |w.reactors|
  {
    WithReactor(w, l, w.reactors[l].(pending := w.reactors[l].pending + [t]))
  }

  function Note(w: World, a: Act): World { w.(log := w.log + [a]) }

  /** A call of updateChannel or removeChannel for the channel of `c`. */
  function Touch(w: World, c: nat, e: P.Event<nat>): (r: Outcome<World>)
    requires Live(w, c) && (e.Set? || e.Remove?) && e.channel == c
    ensures r.Ok? ==> Live(r.value, c)
  {
    var l := w.conns[c].loop;
    var p :- P.Step(w.reactors[l].poller, e);
    Ok(WithReactor(w, l, w.reactors[l].(poller := p)))
  }

  function ConnectEstablished(w: World, c: nat): Outcome<World>
    requires Live(w, c)
  {
    var n := w.conns[c].(state := S.Connected, established := true);
    var v :- Touch(WithConn(w, c, n), c, P.Set(c, P.EnableReading));
    Ok(Note(v, Established(c)))
  }

  function RemoveConnectionInLoop(w: World, c: nat): World
    requires Known(w, c)
  {
    var n := w.conns[c].(erases := w.conns[c].erases + 1);
    Post(WithConn(w.(connections := w.connections - {c}), c, n), n.loop, Destroy(c))
  }

  function ConnectDestroyed(w: World, c: nat): Outcome<World>
    requires Live(w, c)
  {
    var n := w.conns[c];
    var u :- if n.state.Connected?
             then Touch(WithConn(w, c, n.(state := S.Disconnected)), c, P.Set(c, P.DisableAll))
             else Ok(w);
    var v :- Touch(u, c, P.Remove(c));
    Ok(Note(WithConn(v, c, v.conns[c].(destroys := n.destroys + 1)), Destroyed(c)))
  }

  /** handleClose on loop `l`, up to and including the close callback of the server. */
  function HandleClose(w: World, l: nat, c: nat): Outcome<World>
    requires Live(w, c) && MAIN < |w.reactors|
  {
    var n := w.conns[c].(state := S.Disconnected, closes := w.conns[c].closes + 1);
    var u :- Touch(WithConn(w, c, n), c, P.Set(c, P.DisableAll));
    var v := Note(u, Closed(c));
    Ok(if l == MAIN then RemoveConnectionInLoop(v, c) else Post(v, MAIN, Erase(c)))
  }

  function HandleWrite(w: World, c: nat, drained: bool): Outcome<World>
    requires Live(w, c)
  {
    var writing := P.Out in w.reactors[w.conns[c].loop].poller.chans[c].events;
    var v :- if writing && drained then Touch(w, c, P.Set(c, P.DisableWriting)) else Ok(w);
    Ok(Note(v, Handled(c)))
  }

  /** The constructor of the connection, its entry in `connections_`, and connectEstablished: at once if
      the io loop is the main loop, else queued. */
  function NewConnection(w: World, io: nat, fd: int): Outcome<World>
    requires io < |w.reactors| && |w.conns| !in w.reactors[io].poller.chans
  {
    var c := |w.conns|;
    var p :- P.Step(w.reactors[io].poller, P.Create(c, fd));
    var v := WithReactor(w.(conns := w.conns + [Conn(io, fd, S.Connecting, false, 0, 0, 0)],
                            connections := w.connections + {c}), io, w.reactors[io].(poller := p));
    if io == MAIN then ConnectEstablished(v, c) else Ok(Post(v, io, Establish(c)))
  }

  /** One functor. All but `Call` keep the connection alive; `Call` on a freed one is a fault. */
  function Perform(w: World, t: Task): Outcome<World> {
    if !Live(w, t.conn) then Fault(207)
    else match t
      case Establish(c) => ConnectEstablished(w, c)
      case Erase(c) => Ok(RemoveConnectionInLoop(w, c))
      case Destroy(c) => ConnectDestroyed(w, c)
      case Call(c, writes) => if writes then Touch(w, c, P.Set(c, P.EnableWriting)) else Ok(w)
  }

  datatype Step =
    | Accept(io: nat, fd: int)                            // on the main loop, while dispatching
    | PollReturns(l: nat, reports: seq<P.Report>)
    | OnClose(l: nat)                                     // handlers of the channel being handled
    | OnWrite(l: nat, drained: bool)
    | OnRead(l: nat)
    | NextChannel(l: nat)
    | BeginDrain(l: nat)
    | RunFunctor(l: nat)
    | EndDrain(l: nat)
    | Send(c: nat, here: bool)                            // on the io thread, or from any other thread
    | Shutdown(c: nat, here: bool)
    | LateCall(c: nat, writes: bool)                      // another thread queues a call that it found permitted earlier
    | Free(c: nat)                                        // the last shared_ptr is gone

  /** Handlers need a channel to handle. */
  predicate Handling(w: World, l: nat) {
    l < |w.reactors| && w.reactors[l].phase.Dispatching? && w.reactors[l].phase.rest != []
  }

  predicate Enabled(w: World, e: Step) {
    match e
    case Accept(io, fd) =>
      && MAIN < |w.reactors| && w.reactors[MAIN].phase.Dispatching?
      && io < |w.reactors| && |w.conns| !in w.reactors[io].poller.chans
      && (forall c :: 0 <= c < |w.conns| && Live(w, c) ==> w.conns[c].fd != fd)
    case PollReturns(l, reports) =>
      l < |w.reactors| && w.reactors[l].phase.Polling? && P.MayReport(w.reactors[l].poller, reports)
    case OnClose(l) => MAIN < |w.reactors| && Handling(w, l)
    case OnWrite(l, _) => Handling(w, l)
    case OnRead(l) => Handling(w, l)
    case NextChannel(l) => Handling(w, l)
    case BeginDrain(l) => l < |w.reactors| && w.reactors[l].phase == Dispatching([])
    case RunFunctor(l) => l < |w.reactors| && w.reactors[l].phase.Draining? && w.reactors[l].phase.batch != []
    case EndDrain(l) => l < |w.reactors| && w.reactors[l].phase.Draining? && w.reactors[l].phase.batch == []
    case Send(c, here) => Live(w, c) && (here ==> !w.reactors[w.conns[c].loop].phase.Polling?)
    case Shutdown(c, here) => Live(w, c) && (here ==> !w.reactors[w.conns[c].loop].phase.Polling?)
    case LateCall(c, _) => Live(w, c) && w.conns[c].established && c in w.connections
    case Free(c) => Live(w, c) && !Held(w, c)
  }

  function SetPhase(w: World, l: nat, phase: Phase): World
    requires l < |w.reactors|
  {
    WithReactor(w, l, w.reactors[l].(phase := phase))
  }

  /** The functor about to run moves from the batch to those that have run. */
  function Popped(w: World, l: nat): World
    requires Enabled(w, RunFunctor(l))
  {
    var p := w.reactors[l].phase;
    SetPhase(w, l, Draining(p.batch[1..], p.ran + [p.batch[0]]))
  }

  /** A handler dereferences the bare `Channel*` found in activeChannels_. */
  function Apply(w: World, e: Step): Outcome<World>
    requires Enabled(w, e)
  {
    match e
    case Accept(io, fd) => NewConnection(w, io, fd)
    case PollReturns(l, reports) =>
      Ok(SetPhase(w, l, Dispatching(P.ActiveOf(w.reactors[l].poller, reports))))
    case OnClose(l) =>
      var c := w.reactors[l].phase.rest[0];
      if Live(w, c) then HandleClose(w, l, c) else Fault(88)
    case OnWrite(l, drained) =>
      var c := w.reactors[l].phase.rest[0];
      if Live(w, c) then HandleWrite(w, c, drained) else Fault(88)
    case OnRead(l) =>
      var c := w.reactors[l].phase.rest[0];
      if Live(w, c) then Ok(Note(w, Handled(c))) else Fault(88)
    case NextChannel(l) => Ok(SetPhase(w, l, Dispatching(w.reactors[l].phase.rest[1..])))
    case BeginDrain(l) => Ok(WithReactor(w, l, w.reactors[l].(phase := Draining(w.reactors[l].pending, []), pending := [])))
    case RunFunctor(l) =>
      Perform(Popped(w, l), w.reactors[l].phase.batch[0])
    case EndDrain(l) => Ok(SetPhase(w, l, Polling))
    case Send(c, here) =>
      if !w.conns[c].state.Connected? then Ok(w)
      else if here then Touch(w, c, P.Set(c, P.EnableWriting))
      else Ok(Post(w, w.conns[c].loop, Call(c, true)))
    case Shutdown(c, here) =>
      if !w.conns[c].state.Connected? then Ok(w)
      else
        var v := WithConn(w, c, w.conns[c].(state := S.Disconnecting));
        Ok(if here then v else Post(v, w.conns[c].loop, Call(c, false)))
    case LateCall(c, writes) => Ok(Post(w, w.conns[c].loop, Call(c, writes)))
    case Free(c) =>
      var l := w.conns[c].loop;
      var p :- P.Step(w.reactors[l].poller, P.Destroy(c));
      Ok(WithReactor(w, l, w.reactors[l].(poller := p)))
  }

  /** A step that is not enabled does not happen; a fault ends the run. */
  function Run(w: World, es: seq<Step>): Outcome<World>
    decreases |es|
  {
    if es == [] then Ok(w)
    else if !Enabled(w, es[0]) then Run(w, es[1..])
    else
      var v :- Apply(w, es[0]);
      Run(v, es[1..])
  }

  /** A server whose loops have just started. */
  function Init(loops: nat): World {
    World(seq(loops, i => Reactor(Polling, [], P.Empty())), [], {}, [])
  }
}
