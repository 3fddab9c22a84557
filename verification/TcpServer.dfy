/** The server object and the connection methods it drives, as code that updates its fields. Every call is
    proved to succeed, to take the step of the lifecycle machine and, where it is a whole step, to keep the
    invariant. */
module TcpServerClass {
  import opened Outcomes
  import opened Lifecycles
  import opened LifecycleSafety
  import opened LifecycleSteps
  import opened LifecycleTheorems
  import P = Pollers
  import S = Connections

  class TcpServer {
    var reactors: seq<Reactor>           // the loops: main first, then the pool
    var conns: seq<Conn>                 // every connection made so far; the next id is the length
    var connections: set<nat>            // connections_
    ghost var log: seq<Act>

    constructor (loops: nat)
      requires loops > 0
      ensures State() == Init(loops) && Inv(State())
    {
      reactors := seq(loops, i => Reactor(Polling, [], P.Empty()));
      conns, connections, log := [], {}, [];
      InitIsGood(loops);
    }

    ghost function State(): World
      reads this
    {
      World(reactors, conns, connections, log)
    }

    method QueueInLoop(l: nat, t: Task)
      requires l < |reactors|
      modifies this`reactors
      ensures State() == Post(old(State()), l, t)
    {
      var r := reactors[l];
      reactors := reactors[l := r.(pending := r.pending + [t])];
    }

    /** Channel::update and Channel::remove of one connection: never fatal. */
    method CallPoller(c: nat, e: P.Event<nat>)
      requires Base(State()) && Live(State(), c) && (e.Set? || e.Remove?) && e.channel == c
      modifies this`reactors
      ensures Base(State()) && Live(State(), c)
      ensures Touch(old(State()), c, e) == Ok(State())
    {
      hide Base, P.Step, OthersKeep, ViewOf;
      TouchKeeps(State(), c, e);
      var l := conns[c].loop;
      var p := P.Step(reactors[l].poller, e);
      reactors := reactors[l := reactors[l].(poller := p.value)];
    }

    method ConnectEstablished(c: nat)
      requires Base(State()) && Live(State(), c)
      modifies this
      ensures Lifecycles.ConnectEstablished(old(State()), c) == Ok(State())
    {
      hide Base, Touch, OthersKeep, ViewOf;
      ghost var n := conns[c].(state := S.Connected, established := true);
      WithConnBase(State(), c, n);
      conns := conns[c := conns[c].(state := S.Connected, established := true)];
      CallPoller(c, P.Set(c, P.EnableReading));
      log := log + [Established(c)];
    }

    method ConnectDestroyed(c: nat)
      requires Base(State()) && Live(State(), c)
      modifies this
      ensures Lifecycles.ConnectDestroyed(old(State()), c) == Ok(State())
    {
      hide Base, P.Step;
      ghost var before := State();
      if conns[c].state.Connected? {
        WithConnBase(State(), c, conns[c].(state := S.Disconnected));
        conns := conns[c := conns[c].(state := S.Disconnected)];
        CallPoller(c, P.Set(c, P.DisableAll));
      }
      assert conns[c].destroys == before.conns[c].destroys;
      CallPoller(c, P.Remove(c));
      conns := conns[c := conns[c].(destroys := conns[c].destroys + 1)];
      log := log + [Destroyed(c)];
    }

    method RemoveConnectionInLoop(c: nat)
      requires Known(State(), c)
      modifies this
      ensures State() == Lifecycles.RemoveConnectionInLoop(old(State()), c)
    {
      connections := connections - {c};
      conns := conns[c := conns[c].(erases := conns[c].erases + 1)];
      QueueInLoop(conns[c].loop, Destroy(c));
    }

    /** removeConnection, called on loop `l`: runInLoop of the main loop. */
    method RemoveConnection(l: nat, c: nat)
      requires Known(State(), c) && MAIN < |reactors|
      modifies this
      ensures State() == if l == MAIN then Lifecycles.RemoveConnectionInLoop(old(State()), c)
                         else Post(old(State()), MAIN, Erase(c))
    {
      if l == MAIN {
        RemoveConnectionInLoop(c);
      } else {
        QueueInLoop(MAIN, Erase(c));
      }
    }

    /** handleClose of the connection that loop `l` is dispatching. */
    method HandleClose(l: nat)
      requires Inv(State()) && Enabled(State(), OnClose(l))
      modifies this
      ensures Inv(State()) && Apply(old(State()), OnClose(l)) == Ok(State())
    {
      hide Inv, Base, P.Step, Lifecycles.RemoveConnectionInLoop, ViewOf;
      StepKeeps(State(), OnClose(l));
      HandlerInOrder(State(), l);
      InvIsBase(State());
      var c := reactors[l].phase.rest[0];
      WithConnBase(State(), c, conns[c].(state := S.Disconnected, closes := conns[c].closes + 1));
      conns := conns[c := conns[c].(state := S.Disconnected, closes := conns[c].closes + 1)];
      CallPoller(c, P.Set(c, P.DisableAll));
      log := log + [Closed(c)];
      RemoveConnection(l, c);
    }

    /** newConnection, on the main loop, with the io loop already chosen by the pool. */
    method NewConnection(io: nat, fd: int)
      requires Inv(State()) && Enabled(State(), Accept(io, fd))
      modifies this
      ensures Inv(State()) && Apply(old(State()), Accept(io, fd)) == Ok(State())
    {
      hide Inv, Base, Touch, ViewOf;
      StepKeeps(State(), Accept(io, fd));
      InvIsBase(State());
      ConstructedIsBase(State(), io, fd);
      var c := |conns|;
      var p := P.Step(reactors[io].poller, P.Create(c, fd)).value;
      reactors := reactors[io := reactors[io].(poller := p)];
      conns := conns + [Conn(io, fd, S.Connecting, false, 0, 0, 0)];
      connections := connections + {c};
      if io == MAIN {
        ConnectEstablished(c);
      } else {
        QueueInLoop(io, Establish(c));
      }
    }

    method Perform(t: Task)
      requires Base(State()) && Live(State(), t.conn)
      modifies this
      ensures Lifecycles.Perform(old(State()), t) == Ok(State())
    {
      hide Base, Touch, Lifecycles.ConnectEstablished, Lifecycles.ConnectDestroyed, Lifecycles.RemoveConnectionInLoop;
      var c := t.conn;
      match t
      case Establish(_) => ConnectEstablished(c);
      case Erase(_) => RemoveConnectionInLoop(c);
      case Destroy(_) => ConnectDestroyed(c);
      case Call(_, writes) => if writes { CallPoller(c, P.Set(c, P.EnableWriting)); }
    }

    /** The write event of the connection that loop `l` is dispatching. */
    method HandleWrite(l: nat, drained: bool)
      requires Inv(State()) && Enabled(State(), OnWrite(l, drained))
      modifies this
      ensures Inv(State()) && Apply(old(State()), OnWrite(l, drained)) == Ok(State())
    {
      hide Inv, Base, P.Step, ViewOf;
      StepKeeps(State(), OnWrite(l, drained));
      HandlerInOrder(State(), l);
      InvIsBase(State());
      var c := reactors[l].phase.rest[0];
      if P.Out in reactors[conns[c].loop].poller.chans[c].events && drained {
        CallPoller(c, P.Set(c, P.DisableWriting));
      }
      log := log + [Handled(c)];
    }

    method Send(c: nat, here: bool)
      requires Inv(State()) && Enabled(State(), Step.Send(c, here))
      modifies this
      ensures Inv(State()) && Apply(old(State()), Step.Send(c, here)) == Ok(State())
    {
      hide Inv, Base, P.Step, ViewOf;
      StepKeeps(State(), Step.Send(c, here));
      InvIsBase(State());
      if conns[c].state.Connected? {
        if here { CallPoller(c, P.Set(c, P.EnableWriting)); } else { QueueInLoop(conns[c].loop, Call(c, true)); }
      }
    }

    method Shutdown(c: nat, here: bool)
      requires Inv(State()) && Enabled(State(), Step.Shutdown(c, here))
      modifies this
      ensures Inv(State()) && Apply(old(State()), Step.Shutdown(c, here)) == Ok(State())
    {
      hide Inv, ViewOf;
      StepKeeps(State(), Step.Shutdown(c, here));
      if conns[c].state.Connected? {
        conns := conns[c := conns[c].(state := S.Disconnecting)];
        if !here { QueueInLoop(conns[c].loop, Call(c, false)); }
      }
    }

    /** The next functor of the drain of loop `l`. */
    method RunFunctor(l: nat)
      requires Inv(State()) && Enabled(State(), Step.RunFunctor(l))
      modifies this
      ensures Inv(State()) && Apply(old(State()), Step.RunFunctor(l)) == Ok(State())
    {
      hide Inv, Base, Lifecycles.Perform;
      StepKeeps(State(), Step.RunFunctor(l));
      FunctorStep(State(), l);
      var p := reactors[l].phase;
      reactors := reactors[l := reactors[l].(phase := Draining(p.batch[1..], p.ran + [p.batch[0]]))];
      Perform(p.batch[0]);
    }

    /** The steps in which a loop only goes on to its next phase or channel. */
    method Advance(e: Step)
      requires Inv(State()) && Enabled(State(), e)
      requires e.PollReturns? || e.NextChannel? || e.BeginDrain? || e.EndDrain?
      modifies this
      ensures Inv(State()) && Apply(old(State()), e) == Ok(State())
    {
      hide Inv;
      StepKeeps(State(), e);
      var r := reactors[e.l];
      match e {
        case PollReturns(_, reports) => r := r.(phase := Dispatching(P.ActiveOf(r.poller, reports)));
        case NextChannel(_) => r := r.(phase := Dispatching(r.phase.rest[1..]));
        case BeginDrain(_) => r := r.(phase := Draining(r.pending, []), pending := []);
        case EndDrain(_) => r := r.(phase := Polling);
      }
      reactors := reactors[e.l := r];
    }

    /** Whatever step comes next, of whichever loop or thread. */
    method Do(e: Step)
      requires Inv(State()) && Enabled(State(), e)
      modifies this
      ensures Inv(State()) && Apply(old(State()), e) == Ok(State())
    {
      hide Inv, P.Step, Lifecycles.NewConnection, Lifecycles.HandleClose, Lifecycles.HandleWrite, Lifecycles.Perform, Touch;
      match e
      case Accept(io, fd) => NewConnection(io, fd);
      case OnClose(l) => HandleClose(l);
      case OnWrite(l, drained) => HandleWrite(l, drained);
      case OnRead(l) =>
        StepKeeps(State(), e);
        log := log + [Handled(reactors[l].phase.rest[0])];
      case RunFunctor(l) => RunFunctor(l);
      case Send(c, here) => Send(c, here);
      case Shutdown(c, here) => Shutdown(c, here);
      case LateCall(c, writes) =>
        StepKeeps(State(), e);
        QueueInLoop(conns[c].loop, Call(c, writes));
      case Free(c) =>
        StepKeeps(State(), e);
        var l := conns[c].loop;
        reactors := reactors[l := reactors[l].(poller := P.Step(reactors[l].poller, P.Destroy(c)).value)];
      case _ => Advance(e);
    }

    /** Any interleaving of all loops and threads; a step that is not possible does not happen. */
    method Serve(es: seq<Step>)
      requires Inv(State())
      modifies this
      ensures Inv(State()) && Run(old(State()), es) == Ok(State())
    {
      hide Inv, Apply, Enabled, Run;
      ghost var start := State();
      RunNone(start);
      var i := 0;
      while i < |es|
        invariant 0 <= i <= |es| && Inv(State())
        invariant Run(start, es[..i]) == Ok(State())
      {
        EnabledIgnoresLog(State(), es[i]);
        assert es[..i + 1] == es[..i] + [es[i]];
        RunOneMore(start, es[..i], es[i]);
        if Enabled(World(reactors, conns, connections, []), es[i]) {
          Do(es[i]);
        }
        i := i + 1;
      }
      assert es[..i] == es;
    }
  }

  lemma EnabledIgnoresLog(w: World, e: Step)
    ensures Enabled(w.(log := []), e) == Enabled(w, e)
  {
    var v := w.(log := []);
    assert forall c :: Live(v, c) == Live(w, c);
  }

  lemma InvIsBase(w: World)
    requires Inv(w)
    ensures Base(w)
  {
  }

  lemma ConstructedIsBase(w: World, io: nat, fd: int)
    requires Base(w) && Enabled(w, Accept(io, fd))
    ensures Base(Constructed(w, io, fd)) && Live(Constructed(w, io, fd), |w.conns|)
  {
    hide Queues, Dispatches, Polled, Distinct;
    ConstructedQueues(w, io, fd);
    ConstructedPollers(w, io, fd);
  }

  lemma RunNone(w: World)
    ensures Run(w, []) == Ok(w)
  {
  }

  lemma {:induction false} RunOneMore(w: World, es: seq<Step>, e: Step)
    requires Run(w, es).Ok?
    ensures var v := Run(w, es).value; Run(w, es + [e]) == if Enabled(v, e) then Apply(v, e) else Ok(v)
    decreases |es|
  {
    hide Apply, Enabled;
    if es == [] {
      assert [] + [e] == [e] && [e][1..] == [];
      if Enabled(w, e) && Apply(w, e).Ok? { RunNone(Apply(w, e).value); } else { RunNone(w); }
    } else {
      assert (es + [e])[0] == es[0] && (es + [e])[1..] == es[1..] + [e];
      RunOneMore(if Enabled(w, es[0]) then Apply(w, es[0]).value else w, es[1..], e);
    }
  }

  /** A functor finds its connection alive and does not change the phase of the loop that runs it. */
  lemma FunctorStep(w: World, l: nat)
    requires Inv(w) && Enabled(w, RunFunctor(l)) && Apply(w, RunFunctor(l)).Ok?
    ensures Base(Popped(w, l)) && Live(Popped(w, l), w.reactors[l].phase.batch[0].conn)
    ensures Apply(w, RunFunctor(l)) == Lifecycles.Perform(Popped(w, l), w.reactors[l].phase.batch[0])
    ensures |Apply(w, RunFunctor(l)).value.reactors| == |w.reactors|
    ensures Apply(w, RunFunctor(l)).value.reactors[l].phase == Popped(w, l).reactors[l].phase
  {
    hide P.Step, Base, ViewOf, OthersKeep, Inv;
    InvIsBase(w);
    PopKeeps(w, l);
    InvIsGuarded(w);
    FunctorFinds(w, l);
  }
}
