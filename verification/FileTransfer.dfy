/** Zero-copy file transfers of a connection (src/TcpConnection.cc:273-321): how they resume, wait their turn,
    complete and are given up. */
module FileTransfers {
  import opened Buffers
  import opened Connections

  /** Across all requeues, each transfer has put exactly its own stretch of the file, once and in order,
      into the output, and resumes where it stopped with the rest of its count. */
  lemma FileTransferResumes(c: Connection, es: seq<Event>, job: nat)
    requires Inv(c) && job < |Run(c, es).jobs|
    ensures var r := Run(c, es);
            && Exact(r.jobs[job], FileBytes(r.segments, job))
            && (forall i :: 0 <= i < |r.queue| && r.queue[i].FileTask? && r.queue[i].job == job ==>
                  && r.queue[i].offset == r.jobs[job].at
                  && r.queue[i].offset + r.queue[i].remaining == r.jobs[job].start + r.jobs[job].count)
  {
    RunKeeps(c, es);
    var r := Run(c, es);
    hide Balanced, FileBytes, Exact, Flatten;
    assert forall i :: 0 <= i < |r.queue| ==> Continues(r, r.queue[i]);
  }

  /** No step puts file bytes into the output while bytes are buffered, write interest is set or a shutdown
      has been requested. */
  lemma FileBytesWaitTheirTurn(c: Connection, e: Event, job: nat)
    requires Inv(c) && FileBytes(Step(c, e).segments, job) != FileBytes(c.segments, job)
    ensures c.output == [] && !c.writing && !c.state.Disconnecting?
  {
    hide Balanced, Disciplined, Exact, Flatten, SentBytes, FileBytes, QueuedBytes;
    var r := Step(c, e);
    if e.RunTask? && c.queue != [] { assert Continues(c, c.queue[0]); }
    OneSegment(c, e);
    if r.segments != c.segments {
      var x :| r.segments == c.segments + [x] && (x.FromFile? && x.data != [] ==> Quiet(c));
      Produced(c.segments, x);
      assert FileBytes(c.segments, job) + [] == FileBytes(c.segments, job);
    }
  }

  ghost predicate Quiet(c: Connection) { c.output == [] && !c.writing && !c.state.Disconnecting? }

  lemma OneSegment(c: Connection, e: Event)
    requires Inv(c)
    ensures var s := Step(c, e).segments;
            s == c.segments || exists x: Segment :: s == c.segments + [x] && (x.FromFile? && x.data != [] ==> Quiet(c))
  {
    hide Balanced, Disciplined, Exact, FileBytes, QueuedBytes;
    match e
    case Send(data, _, k) => TaskSegment(c.(submitted := c.submitted + |data|), SendTask(data), k);
    case RunTask(k) =>
      if c.queue != [] {
        assert Continues(c, c.queue[0]);
        TaskSegment(c.(queue := c.queue[1..]), c.queue[0], k);
      }
    case SendFile(file, offset, count, inLoop, k) =>
      var d := c.(jobs := c.jobs + [Job(file, offset, count, offset)]);
      TaskSegment(d, FileTask(|c.jobs|, offset, count), k);
    case _ =>
  }

  lemma TaskSegment(c: Connection, t: Task, k: Kernel)
    requires t.FileTask? ==> t.job < |c.jobs| && t.offset == c.jobs[t.job].at
    ensures t.FileTask? ==>
              var s := SendFileInLoop(c, t.job, t.offset, t.remaining, k).segments;
              s == c.segments || exists x: Segment :: s == c.segments + [x] && (x.FromFile? && x.data != [] ==> Quiet(c))
    ensures t.SendTask? ==>
              var s := SendInLoop(c, t.data, k).segments;
              s == c.segments || exists x: Segment :: s == c.segments + [x] && (x.FromFile? && x.data != [] ==> Quiet(c))
  {
    if t.FileTask? && !c.state.Disconnecting? {
      var n := Transferred(c, c.jobs[t.job], t.remaining, k);
      var x := FromFile(t.job, Piece(c.jobs[t.job], n));
      assert SendFileInLoop(c, t.job, t.offset, t.remaining, k).segments == c.segments + [x];
    }
    if t.SendTask? && Written(c, |t.data|, k) >= 0 {
      assert SendInLoop(c, t.data, k).segments == c.segments + [Sent(t.data)];
    }
  }

  // ---------------------------------------------------------------------------
  // Completion

  /** A continuation of the transfer is among the functors `q`. */
  ghost predicate Waits(q: seq<Task>, job: nat) { exists i :: 0 <= i < |q| && q[i].FileTask? && q[i].job == job }

  lemma WaitsConcat(p: seq<Task>, q: seq<Task>, job: nat)
    ensures Waits(p + q, job) <==> Waits(p, job) || Waits(q, job)
  {
    if Waits(p, job) {
      var i :| 0 <= i < |p| && p[i].FileTask? && p[i].job == job;
      assert (p + q)[i] == p[i];
    }
    if Waits(q, job) {
      var i :| 0 <= i < |q| && q[i].FileTask? && q[i].job == job;
      assert (p + q)[|p| + i] == q[i];
    }
  }

  lemma WaitsOne(t: Task, job: nat)
    ensures Waits([t], job) <==> t.FileTask? && t.job == job
  {
    assert [t][0] == t;
  }

  ghost predicate Complete(j: Job) { j.at == j.start + j.count }

  /** The transfer is complete or will have another turn; otherwise it has stopped short. */
  ghost predicate Served(c: Connection, job: nat) {
    job < |c.jobs| ==> Waits(c.queue, job) || Complete(c.jobs[job])
  }

  /** What ends a turn with bytes left and no further turn: a shutdown has been requested, or the transfer itself
      finds the connection broken. */
  ghost predicate Refused(c: Connection, remaining: nat, k: Kernel) {
    remaining > 0 && (c.state.Disconnecting? || (k.Broken? && !c.writing && c.output == []))
  }

  /** The turn of a transfer that is not in the queue: it stops short exactly if it is refused. */
  lemma TurnServesIff(c: Connection, t: Task, k: Kernel)
    requires t.FileTask? && Continues(c, t) && !Waits(c.queue, t.job)
    ensures Served(SendFileInLoop(c, t.job, t.offset, t.remaining, k), t.job) <==> !Refused(c, t.remaining, k)
  {
    var n := Transferred(c, c.jobs[t.job], t.remaining, k);
    var u := FileTask(t.job, t.offset + n, if n <= t.remaining then t.remaining - n else 0);
    WaitsConcat(c.queue, [u], t.job);
    WaitsOne(u, t.job);
  }

  /** It leaves the other transfers alone. */
  lemma TurnLeavesOthers(c: Connection, t: Task, k: Kernel, job: nat)
    requires t.FileTask? && Continues(c, t) && job != t.job
    ensures Served(SendFileInLoop(c, t.job, t.offset, t.remaining, k), job) <==> Served(c, job)
  {
    var n := Transferred(c, c.jobs[t.job], t.remaining, k);
    var u := FileTask(t.job, t.offset + n, if n <= t.remaining then t.remaining - n else 0);
    WaitsConcat(c.queue, [u], job);
    WaitsOne(u, job);
  }

  /** The event refuses a turn to the transfer. */
  ghost predicate GivenUp(c: Connection, e: Event, job: nat) {
    match e
    case RunTask(k) =>
      c.queue != [] && c.queue[0].FileTask? && c.queue[0].job == job && Refused(c, c.queue[0].remaining, k)
    case SendFile(_, _, count, inLoop, k) => c.state.Connected? && inLoop && job == |c.jobs| && Refused(c, count, k)
    case _ => false
  }

  lemma MoreServed(c: Connection, d: Connection, more: seq<Task>, job: nat)
    requires d.jobs == c.jobs && d.queue == c.queue + more && !Waits(more, job)
    ensures Served(d, job) <==> Served(c, job)
  {
    WaitsConcat(c.queue, more, job);
  }

  lemma SendServed(c: Connection, data: seq<byte>, k: Kernel, job: nat)
    ensures Served(SendInLoop(c, data, k), job) <==> Served(c, job)
  {
  }

  lemma ShutdownServed(c: Connection, job: nat)
    ensures Served(ShutdownInLoop(c), job) <==> Served(c, job)
  {
  }

  lemma HeadServed(c: Connection, job: nat)
    requires JobsInOrder(c) && c.queue != []
    ensures var d, t := c.(queue := c.queue[1..]), c.queue[0];
            && (t.FileTask? ==> Continues(d, t) && !Waits(d.queue, t.job))
            && (!(t.FileTask? && t.job == job) ==> (Served(d, job) <==> Served(c, job)))
            && (t.FileTask? && t.job == job ==> Served(c, job))
  {
    hide Exact, FileBytes;
    var d, t := c.(queue := c.queue[1..]), c.queue[0];
    assert Continues(c, t);
    assert c.queue == [t] + c.queue[1..];
    WaitsConcat([t], c.queue[1..], job);
    WaitsOne(t, job);
    assert forall i :: 0 <= i < |d.queue| ==> d.queue[i] == c.queue[i + 1];
  }

  lemma RunTaskServedIff(c: Connection, k: Kernel, job: nat)
    requires JobsInOrder(c) && c.queue != []
    ensures Served(Step(c, RunTask(k)), job) <==> Served(c, job) && !GivenUp(c, RunTask(k), job)
  {
    hide Exact, FileBytes, Waits, SendInLoop, ShutdownInLoop, SendFileInLoop, Served, JobsInOrder, QueuedBytes;
    HeadServed(c, job);
    var d := c.(queue := c.queue[1..]);
    match c.queue[0]
    case SendTask(data) => SendServed(d, data, k, job);
    case ShutdownTask => ShutdownServed(d, job);
    case FileTask(_, _, _) =>
      if c.queue[0].job == job { TurnServesIff(d, c.queue[0], k); } else { TurnLeavesOthers(d, c.queue[0], k, job); }
  }

  lemma SendFileServedIff(c: Connection, e: Event, job: nat)
    requires JobsInOrder(c) && c.state.Connected? && e.SendFile?
    ensures Served(Step(c, e), job) <==> Served(c, job) && !GivenUp(c, e, job)
  {
    hide Exact, FileBytes, SendFileInLoop;
    var d := c.(jobs := c.jobs + [Job(e.file, e.offset, e.count, e.offset)]);
    var t := FileTask(|c.jobs|, e.offset, e.count);
    assert !Waits(c.queue, t.job) by {
      assert forall i :: 0 <= i < |c.queue| ==> Continues(c, c.queue[i]);
    }
    if e.inLoop {
      if job == t.job { TurnServesIff(d, t, e.k); } else { TurnLeavesOthers(d, t, e.k, job); }
    } else {
      WaitsConcat(d.queue, [t], job);
      WaitsOne(t, job);
    }
  }

  lemma OtherServed(c: Connection, e: Event, job: nat)
    requires JobsInOrder(c) && !e.RunTask? && !e.SendFile?
    ensures Served(Step(c, e), job) <==> Served(c, job)
  {
    hide Exact, FileBytes, Waits, Served, JobsInOrder, QueuedBytes;
    var r := Step(c, e);
    if e.Send? && !e.inLoop && c.state.Connected? {
      WaitsOne(SendTask(e.data), job);
      MoreServed(c, r, [SendTask(e.data)], job);
    } else if e.Shutdown? && !e.inLoop && c.state.Connected? {
      WaitsOne(ShutdownTask, job);
      MoreServed(c, r, [ShutdownTask], job);
    } else {
      assert r.queue == c.queue + [];
      NobodyWaits(job);
      MoreServed(c, r, [], job);
    }
  }

  lemma NobodyWaits(job: nat)
    ensures !Waits([], job)
  {
  }

  /** One event, with any answer of the kernel: a transfer stops short in it exactly if the event refuses it a
      turn, and one that has stopped short stays so. */
  lemma StepServedIff(c: Connection, e: Event, job: nat)
    requires JobsInOrder(c)
    ensures Served(Step(c, e), job) <==> Served(c, job) && !GivenUp(c, e, job)
  {
    hide Exact, FileBytes, Waits, SendInLoop, ShutdownInLoop, SendFileInLoop, Served, JobsInOrder, QueuedBytes;
    if e.RunTask? {
      if c.queue != [] { RunTaskServedIff(c, e.k, job); }
    } else if e.SendFile? {
      if c.state.Connected? { SendFileServedIff(c, e, job); }
    } else {
      OtherServed(c, e, job);
    }
  }

  ghost predicate GivenUpIn(c: Connection, es: seq<Event>, job: nat)
    requires Inv(c)
    decreases |es|
  {
    es != [] && (GivenUp(c, es[0], job) || (StepKeeps(c, es[0]); GivenUpIn(Step(c, es[0]), es[1..], job)))
  }

  /** In every run, with any shutdowns and any broken answers: a transfer has stopped short at the end exactly if
      some turn of it was refused. */
  lemma {:induction false} TransferStopsShortIff(c: Connection, es: seq<Event>, job: nat)
    requires Inv(c)
    ensures Served(Run(c, es), job) <==> Served(c, job) && !GivenUpIn(c, es, job)
    decreases |es|
  {
    hide Balanced, JobsInOrder, Disciplined, Step, Served, GivenUp;
    if es != [] {
      StepKeeps(c, es[0]);
      StepServedIff(c, es[0], job);
      TransferStopsShortIff(Step(c, es[0]), es[1..], job);
    }
  }

  // ---------------------------------------------------------------------------
  // Runs that stop short

  ghost function OneOfTwo(a: byte, b: byte): Connection {
    OPENED.(jobs := [Job([a, b], 0, 2, 1)], accepted := [a], segments := [FromFile(0, [a])], queue := [FileTask(0, 1, 1)])
  }

  lemma SendsOne(a: byte, b: byte)
    requires JobsInOrder(OPENED)
    ensures Step(OPENED, SendFile([a, b], 0, 2, true, Accept(1))) == OneOfTwo(a, b)
  {
    assert [a, b][0..1] == [a] && [] + [a] == [a] && [] + [FromFile(0, [a])] == [FromFile(0, [a])];
    var j := Job([a, b], 0, 2, 0);
    assert [] + [j] == [j] && [j][0 := j.(at := 1)] == [Job([a, b], 0, 2, 1)];
    assert [] + [FileTask(0, 1, 1)] == [FileTask(0, 1, 1)];
  }

  lemma ShutsDown(a: byte, b: byte)
    requires JobsInOrder(OneOfTwo(a, b))
    ensures var d := Step(OneOfTwo(a, b), Shutdown(true));
            d.state.Disconnecting? && d.queue == [FileTask(0, 1, 1)] && d.jobs == OneOfTwo(a, b).jobs
  {
  }

  /** A file of two bytes of which the kernel takes one, and a shutdown: the second byte is never sent. With a
      broken connection in its place, likewise. */
  lemma StopsShortInARun(a: byte, b: byte, shut: bool)
    ensures Inv(Init())
    ensures var r := Run(Init(), [Establish] + ([SendFile([a, b], 0, 2, true, Accept(1))] +
                                 ([if shut then Shutdown(true) else RunTask(Again)] + ([RunTask(if shut then Again else Broken)] + []))));
            !Served(r, 0)
  {
    hide Balanced, JobsInOrder, Disciplined, Step, Run, Served, Refused, OneOfTwo;
    InitIsGood();
    Opening();
    var last := RunTask(if shut then Again else Broken);
    var third := if shut then Shutdown(true) else RunTask(Again);
    Then(Init(), Establish, OPENED, [SendFile([a, b], 0, 2, true, Accept(1))] + ([third] + ([last] + [])));
    SendsOne(a, b);
    Then(OPENED, SendFile([a, b], 0, 2, true, Accept(1)), OneOfTwo(a, b), [third] + ([last] + []));
    var d := Step(OneOfTwo(a, b), third);
    Then(OneOfTwo(a, b), third, d, [last] + []);
    var r := Step(d, last);
    Then(d, last, r, []);
    RunNone(r);
    if shut { ShutsDown(a, b); } else { WaitsItsTurn(a, b); }
    RefusedNow(d, last);
    StepServedIff(d, last, 0);
  }

  lemma WaitsItsTurn(a: byte, b: byte)
    requires JobsInOrder(OneOfTwo(a, b))
    ensures var d := Step(OneOfTwo(a, b), RunTask(Again));
            !d.writing && d.output == [] && d.queue == [FileTask(0, 1, 1)]
  {
    assert [FileTask(0, 1, 1)][1..] == [] && [] + [FileTask(0, 1, 1)] == [FileTask(0, 1, 1)];
  }

  lemma RefusedNow(d: Connection, e: Event)
    requires d.queue == [FileTask(0, 1, 1)] && e.RunTask?
    requires d.state.Disconnecting? || (e.k.Broken? && !d.writing && d.output == [])
    ensures GivenUp(d, e, 0)
  {
  }
}
