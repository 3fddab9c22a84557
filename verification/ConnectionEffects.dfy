/** What each operation of a connection's output side does, in terms of the kernel's answer: which bytes are
    accepted, which are kept, whether the write event is asked for and whether the end is signalled. */
module ConnectionEffects {
  import opened Buffers
  import opened Connections

  // ---------------------------------------------------------------------------
  // Sending

  function Least(a: nat, b: nat): nat { if a < b then a else b }

  /** Giving `data` to the kernel, if nothing waits, and what it does not take to the buffer. */
  ghost predicate Sends(c: Connection, d: Connection, data: seq<byte>, k: Kernel) {
    && d == c.(accepted := d.accepted, output := d.output, writing := d.writing, segments := d.segments,
               dropped := d.dropped, handed := c.handed + data)
    && if c.writing || c.output != [] then
         && d.accepted == c.accepted && d.output == c.output + data && d.writing == (c.writing || data != [])
         && d.segments == c.segments + [Sent(data)] && d.dropped == c.dropped
       else match k
         case Accept(n) =>
           var m := Least(n, |data|);
           && d.accepted == c.accepted + data[..m] && d.output == data[m..] && d.writing == (m < |data|)
           && d.segments == c.segments + [Sent(data)] && d.dropped == c.dropped
         case Broken =>
           && d.accepted == c.accepted && d.output == [] && !d.writing
           && d.segments == c.segments && d.dropped == c.dropped + |data|
         case _ =>
           && d.accepted == c.accepted && d.output == data && d.writing == (data != [])
           && d.segments == c.segments + [Sent(data)] && d.dropped == c.dropped
  }

  lemma SendInLoopEffect(c: Connection, data: seq<byte>, k: Kernel)
    ensures Sends(c, SendInLoop(c, data, k), data, k)
  {
    assert [] + data == data;
    assert c.accepted + [] == c.accepted && data[..0] == [];
  }

  /** A send: at once on the loop thread, last in the queue from another, and refused unless connected. */
  lemma SendEffect(c: Connection, data: seq<byte>, inLoop: bool, k: Kernel)
    requires Inv(c)
    ensures var r := Step(c, Send(data, inLoop, k));
            if !c.state.Connected? then r == c
            else if inLoop then Sends(c.(submitted := c.submitted + |data|), r, data, k)
            else r == c.(submitted := c.submitted + |data|, queue := c.queue + [SendTask(data)])
  {
    SendInLoopEffect(c.(submitted := c.submitted + |data|), data, k);
  }

  // ---------------------------------------------------------------------------
  // The write event

  /** The kernel takes what it can, from the front; when nothing is left the event is no longer asked for, and a
      connection that is to be shut down is. Anything else leaves the connection alone. */
  lemma WriteEffect(c: Connection, k: Kernel)
    requires Inv(c)
    ensures var r := Step(c, Writable(k));
            if c.writing && k.Accept? && k.n > 0 then
              var m := Least(k.n, |c.output|);
              && r == c.(accepted := c.accepted + c.output[..m], output := c.output[m..], writing := m < |c.output|,
                         halfCloses := r.halfCloses)
              && (if m == |c.output| && c.state.Disconnecting? then HalfClosed(c, r) else r.halfCloses == c.halfCloses)
            else r == c
  {
    hide JobsInOrder, Clean;
    if c.writing && k.Accept? && k.n > 0 {
      var m := Least(k.n, |c.output|);
      assert c.output[..m] + c.output[m..] == c.output;
      assert (c.accepted + c.output[..m]) + c.output[m..] == c.accepted + c.output;
      if m == |c.output| { assert c.accepted + c.output[..m] == Flatten(c.segments); }
    }
  }

  /** Exactly one half-close more, issued when the kernel has every byte produced. */
  ghost predicate HalfClosed(c: Connection, d: Connection) {
    && |d.halfCloses| == |c.halfCloses| + 1 && d.halfCloses[..|c.halfCloses|] == c.halfCloses
    && var h := d.halfCloses[|c.halfCloses|];
       h.accepted == d.accepted == Flatten(h.segments) && h.segments == d.segments && h.submitted == d.submitted
  }

  ghost function Writes(ns: seq<nat>): seq<Event> { seq(|ns|, i requires 0 <= i < |ns| => Writable(Accept(ns[i]))) }

  /** Enough write events in which the kernel takes something empty the buffer, in order. */
  lemma {:induction false} EnoughWritesDrain(c: Connection, ns: seq<nat>)
    requires Inv(c) && (c.writing <==> c.output != []) && |c.output| <= |ns|
    requires forall i :: 0 <= i < |ns| ==> ns[i] > 0
    ensures var r := Run(c, Writes(ns)); r.output == [] && !r.writing && r.accepted == c.accepted + c.output
    decreases |ns|
  {
    hide Inv, Step, HalfClosed;
    if ns == [] {
      assert Writes(ns) == [] && c.accepted + [] == c.accepted;
    } else {
      var e := Writable(Accept(ns[0]));
      assert Writes(ns)[1..] == Writes(ns[1..]) && Writes(ns)[0] == e;
      InvIsOrdered(c);
      StepKeeps(c, e);
      WriteEffect(c, e.k);
      var d := Step(c, e);
      if c.writing {
        var m := Least(ns[0], |c.output|);
        assert (c.accepted + c.output[..m]) + c.output[m..] == c.accepted + c.output;
      }
      EnoughWritesDrain(d, ns[1..]);
    }
  }

  lemma InvIsOrdered(c: Connection)
    requires Inv(c)
    ensures JobsInOrder(c)
  {
  }

  // ---------------------------------------------------------------------------
  // Shutdown

  /** The end is signalled at once if nothing waits to be written, and not yet otherwise. */
  ghost predicate Shuts(c: Connection, d: Connection) {
    && d == c.(halfCloses := d.halfCloses)
    && if c.writing then d.halfCloses == c.halfCloses else HalfClosed(c, d)
  }

  lemma ShutdownInLoopEffect(c: Connection)
    requires Flatten(c.segments) == c.accepted + c.output && (!c.writing ==> c.output == [])
    ensures Shuts(c, ShutdownInLoop(c))
  {
    assert c.output == [] ==> c.accepted + c.output == c.accepted;
  }

  /** A shutdown: the state changes first; the end is signalled, or its functor queued last, once. */
  lemma ShutdownEffect(c: Connection, inLoop: bool)
    requires Inv(c)
    ensures var r := Step(c, Shutdown(inLoop));
            if !c.state.Connected? then r == c
            else if inLoop then Shuts(c.(state := Disconnecting), r)
            else r == c.(state := Disconnecting, queue := c.queue + [ShutdownTask])
  {
    hide JobsInOrder, Clean, Flatten, SentBytes;
    if c.state.Connected? { ShutdownInLoopEffect(c.(state := Disconnecting)); }
  }

  /** The end of the stream is signalled, or will be by a queued functor or by the write event that drains the
      buffer. */
  ghost predicate Signalled(c: Connection) {
    c.state.Disconnecting? && ShutdownTask !in c.queue ==> c.halfCloses != [] || (c.writing && c.output != [])
  }

  lemma TaskSignals(c: Connection, k: Kernel)
    requires Inv(c) && Signalled(c) && c.queue != []
    ensures Signalled(Step(c, RunTask(k)))
  {
    hide Balanced, Exact, FileBytes, Clean, QueuedBytes;
    var t := c.queue[0];
    assert Continues(c, t);
    assert c.queue == [t] + c.queue[1..];
    assert ShutdownTask in c.queue <==> t.ShutdownTask? || ShutdownTask in c.queue[1..];
  }

  lemma StepSignals(c: Connection, e: Event)
    requires Inv(c) && Signalled(c) && !e.Close?
    ensures Signalled(Step(c, e))
  {
    hide Balanced, Exact, FileBytes, Clean, QueuedBytes, JobsInOrder;
    InvIsOrdered(c);
    match e
    case RunTask(k) => if c.queue != [] { TaskSignals(c, k); }
    case Shutdown(inLoop) =>
      ShutdownEffect(c, inLoop);
      if c.state.Connected? && !inLoop { assert (c.queue + [ShutdownTask])[|c.queue|] == ShutdownTask; }
    case Writable(k) => WriteEffect(c, k);
    case _ =>
  }

  /** In every run without a close: a connection that was shut down has had its end signalled, unless the functor
      is still queued, or bytes are still buffered with the write event asked for. */
  lemma {:induction false} EndIsSignalled(c: Connection, es: seq<Event>)
    requires Inv(c) && Signalled(c) && NeverClosed(es)
    ensures Signalled(Run(c, es))
    decreases |es|
  {
    hide Inv, Step, Signalled;
    if es != [] {
      InvIsOrdered(c);
      StepKeeps(c, es[0]);
      StepSignals(c, es[0]);
      EndIsSignalled(Step(c, es[0]), es[1..]);
    }
  }

  ghost predicate Ending(c: Connection) { c.state.Disconnecting? || c.state.Disconnected? }

  lemma StepRefuses(c: Connection, e: Event)
    requires Inv(c) && Ending(c)
    ensures var r := Step(c, e); Ending(r) && r.submitted == c.submitted && |r.jobs| == |c.jobs|
  {
    hide Balanced, Exact, FileBytes, Clean, QueuedBytes;
    if e.RunTask? && c.queue != [] { assert Continues(c, c.queue[0]); }
  }

  /** After a shutdown or a close no more data and no more files are taken, whatever is called. */
  lemma {:induction false} NothingAfterTheEnd(c: Connection, es: seq<Event>)
    requires Inv(c) && Ending(c)
    ensures var r := Run(c, es); Ending(r) && r.submitted == c.submitted && |r.jobs| == |c.jobs|
    decreases |es|
  {
    hide Inv, Step, Ending;
    if es != [] {
      InvIsOrdered(c);
      StepKeeps(c, es[0]);
      StepRefuses(c, es[0]);
      NothingAfterTheEnd(Step(c, es[0]), es[1..]);
    }
  }

  // ---------------------------------------------------------------------------
  // File transfer

  /** A turn of the transfer `job` with `remaining` bytes to go: the kernel takes the next bytes of the file if
      nothing waits; what is left is requeued behind everything else, unless the connection is broken. */
  ghost predicate Transfers(c: Connection, d: Connection, job: nat, remaining: nat, k: Kernel)
    requires job < |c.jobs|
  {
    var j := c.jobs[job];
    var idle := !c.writing && c.output == [];
    var m := if idle && k.Accept? && j.at <= |j.file| then Least(k.n, Least(remaining, |j.file| - j.at)) else 0;
    var piece := if m == 0 then [] else j.file[j.at..j.at + m];
    d == c.(accepted := c.accepted + piece, segments := c.segments + [FromFile(job, piece)],
            jobs := c.jobs[job := j.(at := j.at + m)],
            queue := if m < remaining && !(idle && k.Broken?) then c.queue + [FileTask(job, j.at + m, remaining - m)] else c.queue)
  }

  lemma SendFileInLoopEffect(c: Connection, job: nat, remaining: nat, k: Kernel)
    requires job < |c.jobs|
    ensures var d := SendFileInLoop(c, job, c.jobs[job].at, remaining, k);
            if c.state.Disconnecting? then d == c else Transfers(c, d, job, remaining, k)
  {
  }

  /** A sendFile: its first turn at once on the loop thread, queued last from another, refused unless connected. */
  lemma SendFileEffect(c: Connection, file: seq<byte>, offset: nat, count: nat, inLoop: bool, k: Kernel)
    requires Inv(c)
    ensures var r := Step(c, SendFile(file, offset, count, inLoop, k));
            var d := c.(jobs := c.jobs + [Job(file, offset, count, offset)]);
            if !c.state.Connected? then r == c
            else if inLoop then Transfers(d, r, |c.jobs|, count, k)
            else r == d.(queue := d.queue + [FileTask(|c.jobs|, offset, count)])
  {
    SendFileInLoopEffect(c.(jobs := c.jobs + [Job(file, offset, count, offset)]), |c.jobs|, count, k);
  }

  // ---------------------------------------------------------------------------
  // The other events

  /** The first functor is taken off the queue and does what the call it stands for would have done. */
  lemma TaskEffect(c: Connection, k: Kernel)
    requires Inv(c) && c.queue != []
    ensures var r := Step(c, RunTask(k)); var d := c.(queue := c.queue[1..]);
            match c.queue[0]
            case SendTask(data) => Sends(d, r, data, k)
            case ShutdownTask => c.state.Disconnected? || Shuts(d, r)
            case FileTask(job, _, remaining) =>
              job < |d.jobs| && if c.state.Disconnecting? then r == d else Transfers(d, r, job, remaining, k)
  {
    hide Exact, FileBytes, Clean, Flatten, SentBytes, QueuedBytes, Sends, Transfers;
    var d := c.(queue := c.queue[1..]);
    assert Continues(c, c.queue[0]);
    match c.queue[0]
    case SendTask(data) => SendInLoopEffect(d, data, k);
    case ShutdownTask => if !c.state.Disconnected? { ShutdownInLoopEffect(d); }
    case FileTask(job, _, remaining) => SendFileInLoopEffect(d, job, remaining, k);
  }

  /** A queued shutdown of a connection closed meanwhile is still issued, for nothing is waited for. */
  lemma LateShutdownEffect(c: Connection, k: Kernel)
    requires Inv(c) && c.queue != [] && c.queue[0].ShutdownTask?
    ensures var r := Step(c, RunTask(k));
            && r == c.(queue := c.queue[1..], halfCloses := r.halfCloses)
            && |r.halfCloses| == |c.halfCloses| + if c.writing then 0 else 1
  {
  }

  /** A connection is established once, and a close keeps everything but the state and the write interest. */
  lemma OpenAndCloseEffect(c: Connection)
    requires Inv(c)
    ensures Step(c, Establish) == c.(state := if c.state.Connecting? then Connected else c.state)
    ensures Step(c, Close) == c.(state := Disconnected, writing := false)
  {
  }
}
