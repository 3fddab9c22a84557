/** The output side of a connection (src/TcpConnection.cc): direct writes, a buffered remainder, write
    interest, half-close and zero-copy file transfer, against a kernel that may accept any prefix. */
module Connections {
  import opened Buffers

  datatype ConnectionState = Disconnected | Connecting | Connected | Disconnecting

  /** The answer of `write` or `sendfile`: some bytes accepted; no room (EWOULDBLOCK); another error that the
      code only logs; or EPIPE/ECONNRESET, after which the data is given up. */
  datatype Kernel = Accept(n: nat) | Again | Trouble | Broken

  /** Functors of this connection in the queue of its loop. */
  datatype Task =
    | SendTask(data: seq<byte>)
    | ShutdownTask
    | FileTask(job: nat, offset: nat, remaining: nat)

  /** A call of `sendFile`, and how far it has got. */
  datatype Job = Job(file: seq<byte>, start: nat, count: nat, at: nat)

  /** A piece of the output, in the order in which `sendInLoop` and `sendfile` produced it. */
  datatype Segment = Sent(data: seq<byte>) | FromFile(job: nat, data: seq<byte>)

  /** The moment a `shutdown(SHUT_WR)` was issued. */
  datatype HalfClose = HalfClose(state: ConnectionState, accepted: seq<byte>, segments: seq<Segment>,
                                 submitted: nat, queued: nat, dropped: nat)

  datatype Connection = Connection(
    state: ConnectionState,
    writing: bool,               // the channel asks for EPOLLOUT
    output: seq<byte>,           // readable bytes of outputBuffer_
    queue: seq<Task>,
    jobs: seq<Job>,
    accepted: seq<byte>,         // everything the kernel has taken
    segments: seq<Segment>,      // everything produced, by origin
    handed: seq<byte>,           // everything given to sendInLoop
    dropped: nat,                // of which bytes given up because the peer is gone
    submitted: nat,              // bytes passed to send() on a live connection
    halfCloses: seq<HalfClose>)

  function Min(a: int, b: int): int { if a < b then a else b }

  function QueuedBytes(q: seq<Task>): nat {
    if q == [] then 0 else (if q[0].SendTask? then |q[0].data| else 0) + QueuedBytes(q[1..])
  }

  function Flatten(s: seq<Segment>): seq<byte> {
    if s == [] then [] else Flatten(s[..|s| - 1]) + s[|s| - 1].data
  }

  /** The part of the output that came from `sendInLoop`. */
  function SentBytes(s: seq<Segment>): seq<byte> {
    if s == [] then [] else SentBytes(s[..|s| - 1]) + if s[|s| - 1].Sent? then s[|s| - 1].data else []
  }

  /** The part of the output that came from one file transfer. */
  function FileBytes(s: seq<Segment>, job: nat): seq<byte> {
    if s == [] then []
    else FileBytes(s[..|s| - 1], job)
         + if s[|s| - 1].FromFile? && s[|s| - 1].job == job then s[|s| - 1].data else []
  }

  // ---------------------------------------------------------------------------
  // The operations

  /** How many bytes a direct write takes; `None`-like -1 for a broken connection. */
  function Written(c: Connection, len: nat, k: Kernel): (n: int)
    ensures -1 <= n <= len
  {
    if c.writing || c.output != [] then 0
    else match k
      case Accept(n) => Min(n, len)
      case Again => 0
      case Trouble => 0
      case Broken => -1
  }

  function SendInLoop(c: Connection, data: seq<byte>, k: Kernel): Connection {
    var n := Written(c, |data|, k);
    var d := c.(handed := c.handed + data);
    if n < 0 then d.(dropped := d.dropped + |data|)
    else
      var e := d.(accepted := d.accepted + data[..n], output := d.output + data[n..],
                  segments := d.segments + [Sent(data)]);
      if n < |data| then e.(writing := true) else e
  }

  function ShutdownInLoop(c: Connection): Connection {
    if c.writing then c
    else c.(halfCloses := c.halfCloses + [HalfClose(c.state, c.accepted, c.segments, c.submitted,
                                                    QueuedBytes(c.queue), c.dropped)])
  }

  function HandleWrite(c: Connection, k: Kernel): Connection {
    if !c.writing || !k.Accept? || Min(k.n, |c.output|) == 0 then c
    else
      var n := Min(k.n, |c.output|);
      var d := c.(accepted := c.accepted + c.output[..n], output := c.output[n..]);
      if d.output != [] then d
      else
        var e := d.(writing := false);
        if e.state.Disconnecting? then ShutdownInLoop(e) else e
  }

  /** How many bytes `sendfile` takes. */
  function Transferred(c: Connection, j: Job, remaining: nat, k: Kernel): (n: nat)
    ensures n <= remaining && (n > 0 ==> j.at + n <= |j.file|)
  {
    if c.writing || c.output != [] || !k.Accept? || j.at > |j.file| then 0
    else Min(k.n, Min(remaining, |j.file| - j.at))
  }

  /** The next `n` bytes of a file transfer. */
  function Piece(j: Job, n: nat): seq<byte>
    requires n > 0 ==> j.at + n <= |j.file|
  {
    if n == 0 then [] else j.file[j.at..j.at + n]
  }

  function SendFileInLoop(c: Connection, job: nat, offset: nat, remaining: nat, k: Kernel): Connection
    requires job < |c.jobs| && offset == c.jobs[job].at
  {
    if c.state.Disconnecting? then c
    else
      var j := c.jobs[job];
      var n := Transferred(c, j, remaining, k);
      var d := c.(accepted := c.accepted + Piece(j, n), segments := c.segments + [FromFile(job, Piece(j, n))],
                  jobs := c.jobs[job := j.(at := j.at + n)]);
      var fault := !c.writing && c.output == [] && k.Broken?;
      if !fault && n < remaining then d.(queue := d.queue + [FileTask(job, offset + n, remaining - n)]) else d
  }

  datatype Event =
    | Establish
    | Send(data: seq<byte>, inLoop: bool, k: Kernel)
    | SendFile(file: seq<byte>, offset: nat, count: nat, inLoop: bool, k: Kernel)
    | Shutdown(inLoop: bool)
    | RunTask(k: Kernel)
    | Writable(k: Kernel)        // EPOLLOUT: handleWrite
    | Close                      // handleClose, or connectDestroyed of a live connection

  function Step(c: Connection, e: Event): Connection
    requires JobsInOrder(c)
  {
    match e
    case Establish => if c.state.Connecting? then c.(state := Connected) else c
    case Send(data, inLoop, k) =>
      if !c.state.Connected? then c
      else
        var d := c.(submitted := c.submitted + |data|);
        if inLoop then SendInLoop(d, data, k) else d.(queue := d.queue + [SendTask(data)])
    case SendFile(file, offset, count, inLoop, k) =>
      if !c.state.Connected? then c
      else
        var d := c.(jobs := c.jobs + [Job(file, offset, count, offset)]);
        if inLoop then SendFileInLoop(d, |c.jobs|, offset, count, k)
        else d.(queue := d.queue + [FileTask(|c.jobs|, offset, count)])
    case Shutdown(inLoop) =>
      if !c.state.Connected? then c
      else
        var d := c.(state := Disconnecting);
        if inLoop then ShutdownInLoop(d) else d.(queue := d.queue + [ShutdownTask])
    case RunTask(k) =>
      if c.queue == [] then c
      else
        var d := c.(queue := c.queue[1..]);
        (match c.queue[0]
         case SendTask(data) => SendInLoop(d, data, k)
         case ShutdownTask => ShutdownInLoop(d)
         case FileTask(job, offset, remaining) => SendFileInLoop(d, job, offset, remaining, k))
    case Writable(k) => HandleWrite(c, k)
    case Close => c.(state := Disconnected, writing := false)
  }

  // ---------------------------------------------------------------------------
  // What every step keeps

  /** Nothing is lost between the pieces produced, the kernel and the buffer. `underway` bytes have been
      taken from the caller or the queue and are about to be given to `sendInLoop`. */
  ghost predicate Balanced(c: Connection, underway: nat) {
    && Flatten(c.segments) == c.accepted + c.output
    && |SentBytes(c.segments)| + c.dropped == |c.handed|
    && (c.dropped == 0 ==> SentBytes(c.segments) == c.handed)
    && |c.handed| + underway + QueuedBytes(c.queue) == c.submitted
  }

  /** A queued transfer continues where its job stands. */
  ghost predicate Continues(c: Connection, t: Task) {
    t.FileTask? ==>
      && t.job < |c.jobs|
      && t.offset == c.jobs[t.job].at
      && t.offset + t.remaining == c.jobs[t.job].start + c.jobs[t.job].count
  }

  /** What a job has produced is exactly its part of the file up to where it stands. */
  ghost predicate Exact(j: Job, produced: seq<byte>) {
    && j.start <= j.at <= j.start + j.count
    && (j.at > j.start ==> j.at <= |j.file|)
    && produced == if j.at == j.start then [] else j.file[j.start..j.at]
  }

  ghost predicate JobsInOrder(c: Connection) {
    && (forall i :: 0 <= i < |c.queue| ==> Continues(c, c.queue[i]))
    && (forall i, j :: 0 <= i < j < |c.queue| && c.queue[i].FileTask? && c.queue[j].FileTask? ==>
          c.queue[i].job != c.queue[j].job)
    && (forall j :: 0 <= j < |c.jobs| ==> Exact(c.jobs[j], FileBytes(c.segments, j)))
    && (forall j :: j >= |c.jobs| ==> FileBytes(c.segments, j) == [])
  }

  /** A half-close issued before the connection was closed has overtaken no byte that was produced;
      of the bytes submitted, those missing are the ones still queued and the ones given up. */
  ghost predicate Clean(h: HalfClose) {
    && (!h.state.Disconnected? ==> h.accepted == Flatten(h.segments))
    && |SentBytes(h.segments)| + h.queued + h.dropped == h.submitted
  }

  /** Write interest never outlives the buffered bytes; before the connection is closed it is exactly
      the presence of such bytes. */
  ghost predicate Disciplined(c: Connection) {
    && (c.writing ==> c.output != [])
    && (!c.state.Disconnected? ==> (c.writing <==> c.output != []))
    && (forall i :: 0 <= i < |c.halfCloses| ==> Clean(c.halfCloses[i]))
  }

  ghost predicate Inv(c: Connection) { Balanced(c, 0) && JobsInOrder(c) && Disciplined(c) }

  function Init(): Connection {
    Connection(Connecting, false, [], [], [], [], [], [], 0, 0, [])
  }

  lemma Produced(s: seq<Segment>, x: Segment)
    ensures Flatten(s + [x]) == Flatten(s) + x.data
    ensures SentBytes(s + [x]) == SentBytes(s) + if x.Sent? then x.data else []
    ensures forall j :: FileBytes(s + [x], j) == FileBytes(s, j) + if x.FromFile? && x.job == j then x.data else []
  {
    assert (s + [x])[..|s|] == s;
  }

  lemma {:induction false} QueuedMore(q: seq<Task>, t: Task)
    ensures QueuedBytes(q + [t]) == QueuedBytes(q) + if t.SendTask? then |t.data| else 0
    decreases |q|
  {
    if q == [] {
      assert q + [t] == [t];
    } else {
      assert (q + [t])[1..] == q[1..] + [t];
      QueuedMore(q[1..], t);
    }
  }

  lemma SameJobs(c: Connection, d: Connection)
    requires JobsInOrder(c) && d.queue == c.queue && d.jobs == c.jobs
    requires forall j :: FileBytes(d.segments, j) == FileBytes(c.segments, j)
    ensures JobsInOrder(d)
  {
    hide FileBytes, Exact;
    assert forall t :: Continues(d, t) == Continues(c, t);
  }

  lemma SendBalances(c: Connection, data: seq<byte>, k: Kernel)
    requires Balanced(c, |data|)
    ensures Balanced(SendInLoop(c, data, k), 0)
  {
    hide Flatten, SentBytes, FileBytes, QueuedBytes;
    var n := Written(c, |data|, k);
    var d := SendInLoop(c, data, k);
    Produced(c.segments, Sent(data));
    if n >= 0 {
      assert data[..n] + data[n..] == data;
      assert d.accepted + d.output == (c.accepted + c.output) + data;
    }
  }

  lemma SendInLoopKeeps(c: Connection, data: seq<byte>, k: Kernel)
    requires Balanced(c, |data|) && JobsInOrder(c) && Disciplined(c)
    ensures Inv(SendInLoop(c, data, k))
  {
    hide Balanced, JobsInOrder, Flatten, SentBytes, FileBytes, Clean;
    SendBalances(c, data, k);
    Produced(c.segments, Sent(data));
    SameJobs(c, SendInLoop(c, data, k));
  }

  lemma ShutdownInLoopKeeps(c: Connection)
    requires Inv(c)
    ensures Inv(ShutdownInLoop(c))
  {
    hide Flatten, SentBytes, FileBytes, Exact, QueuedBytes;
    var d := ShutdownInLoop(c);
    SameJobs(c, d);
    assert c.output == [] ==> c.accepted + c.output == c.accepted;
  }

  lemma HandleWriteKeeps(c: Connection, k: Kernel)
    requires Inv(c)
    ensures Inv(HandleWrite(c, k))
  {
    hide Flatten, SentBytes, FileBytes, Exact, QueuedBytes, Clean;
    if c.writing && k.Accept? && Min(k.n, |c.output|) > 0 {
      var n := Min(k.n, |c.output|);
      var d := c.(accepted := c.accepted + c.output[..n], output := c.output[n..], writing := n < |c.output|);
      assert c.output[..n] + c.output[n..] == c.output;
      assert d.accepted + d.output == c.accepted + c.output;
      SameJobs(c, d);
      assert Inv(d);
      ShutdownInLoopKeeps(d);
    }
  }

  lemma PieceBalances(c: Connection, job: nat, piece: seq<byte>)
    requires Balanced(c, 0) && (piece != [] ==> c.output == [])
    ensures Balanced(c.(accepted := c.accepted + piece, segments := c.segments + [FromFile(job, piece)]), 0)
  {
    hide Flatten, SentBytes, FileBytes, QueuedBytes;
    Produced(c.segments, FromFile(job, piece));
    assert (c.accepted + piece) + c.output == (c.accepted + c.output) + piece;
  }

  lemma ExactAdvances(j: Job, produced: seq<byte>, n: nat)
    requires Exact(j, produced) && j.at + n <= j.start + j.count && (n > 0 ==> j.at + n <= |j.file|)
    ensures Exact(j.(at := j.at + n), produced + Piece(j, n))
  {
    assert n > 0 ==> j.file[j.start..j.at + n] == j.file[j.start..j.at] + Piece(j, n);
    assert n == 0 ==> produced + Piece(j, n) == produced;
  }

  lemma PieceAdvances(c: Connection, t: Task, n: nat)
    requires JobsInOrder(c) && t.FileTask? && Continues(c, t) && n <= t.remaining
    requires n > 0 ==> c.jobs[t.job].at + n <= |c.jobs[t.job].file|
    requires forall i :: 0 <= i < |c.queue| && c.queue[i].FileTask? ==> c.queue[i].job != t.job
    ensures var j := c.jobs[t.job];
            var d := c.(segments := c.segments + [FromFile(t.job, Piece(j, n))], jobs := c.jobs[t.job := j.(at := j.at + n)]);
            JobsInOrder(d) && Continues(d, FileTask(t.job, t.offset + n, t.remaining - n))
  {
    hide FileBytes, Exact, Piece, Flatten, SentBytes;
    var j := c.jobs[t.job];
    var d := c.(segments := c.segments + [FromFile(t.job, Piece(j, n))], jobs := c.jobs[t.job := j.(at := j.at + n)]);
    forall i | 0 <= i < |c.queue|
      ensures Continues(d, c.queue[i])
    {
      assert Continues(c, c.queue[i]);
    }
    forall i: nat
      ensures FileBytes(d.segments, i) == FileBytes(c.segments, i) + if i == t.job then Piece(j, n) else []
    {
      Produced(c.segments, FromFile(t.job, Piece(j, n)));
    }
    ExactAdvances(j, FileBytes(c.segments, t.job), n);
    forall i | 0 <= i < |d.jobs|
      ensures Exact(d.jobs[i], FileBytes(d.segments, i))
    {
      if i != t.job { assert FileBytes(c.segments, i) + [] == FileBytes(c.segments, i); }
    }
  }

  /** A transfer that is not in the queue takes its next step. */
  lemma SendFileInLoopKeeps(c: Connection, t: Task, k: Kernel)
    requires Inv(c) && t.FileTask? && Continues(c, t)
    requires forall i :: 0 <= i < |c.queue| && c.queue[i].FileTask? ==> c.queue[i].job != t.job
    ensures Inv(SendFileInLoop(c, t.job, t.offset, t.remaining, k))
  {
    hide Balanced, JobsInOrder, Clean, Flatten, SentBytes, FileBytes;
    if !c.state.Disconnecting? {
      var j := c.jobs[t.job];
      var n := Transferred(c, j, t.remaining, k);
      var d := c.(accepted := c.accepted + Piece(j, n), segments := c.segments + [FromFile(t.job, Piece(j, n))],
                  jobs := c.jobs[t.job := j.(at := j.at + n)]);
      PieceBalances(c, t.job, Piece(j, n));
      OtherFields(c.(accepted := d.accepted, segments := d.segments), d);
      PieceAdvances(c, t, n);
      SameJobs(c.(segments := d.segments, jobs := d.jobs), d);
      if n < t.remaining { Enqueued(d, FileTask(t.job, t.offset + n, t.remaining - n)); }
    }
  }

  lemma OtherFields(c: Connection, d: Connection)
    requires Balanced(c, 0) && d == c.(jobs := d.jobs)
    ensures Balanced(d, 0)
  {
  }

  lemma Enqueued(c: Connection, t: Task)
    requires Balanced(c, if t.SendTask? then |t.data| else 0) && JobsInOrder(c) && Disciplined(c) && Continues(c, t)
    requires t.FileTask? ==> forall i :: 0 <= i < |c.queue| && c.queue[i].FileTask? ==> c.queue[i].job != t.job
    ensures Inv(c.(queue := c.queue + [t]))
  {
    var d := c.(queue := c.queue + [t]);
    QueuedMore(c.queue, t);
    assert forall u :: Continues(d, u) == Continues(c, u);
  }

  lemma Dequeued(c: Connection)
    requires Inv(c) && c.queue != []
    ensures var d, t := c.(queue := c.queue[1..]), c.queue[0];
            && Balanced(d, if t.SendTask? then |t.data| else 0) && JobsInOrder(d) && Disciplined(d) && Continues(d, t)
            && (t.FileTask? ==> forall i :: 0 <= i < |d.queue| && d.queue[i].FileTask? ==> d.queue[i].job != t.job)
  {
    var d, t := c.(queue := c.queue[1..]), c.queue[0];
    assert forall u :: Continues(d, u) == Continues(c, u);
  }

  lemma NewJob(c: Connection, j: Job)
    requires Inv(c) && j.at == j.start
    ensures Inv(c.(jobs := c.jobs + [j]))
    ensures forall i :: 0 <= i < |c.queue| && c.queue[i].FileTask? ==> c.queue[i].job != |c.jobs|
  {
    var d := c.(jobs := c.jobs + [j]);
    assert forall i :: 0 <= i < |c.queue| ==> Continues(c, c.queue[i]) ==> Continues(d, c.queue[i]);
  }

  lemma StateIrrelevant(c: Connection, d: Connection)
    requires d == c.(state := d.state, writing := d.writing, submitted := d.submitted)
    ensures JobsInOrder(c) == JobsInOrder(d)
    ensures d.submitted == c.submitted ==> Balanced(d, 0) == Balanced(c, 0)
    ensures forall n: nat :: d.submitted == c.submitted + n && Balanced(c, 0) ==> Balanced(d, n)
  {
    hide FileBytes, Flatten, SentBytes, Exact;
    assert forall t :: Continues(d, t) == Continues(c, t);
  }

  lemma CallKeeps(c: Connection, e: Event)
    requires Inv(c) && c.state.Connected? && (e.Send? || e.SendFile? || e.Shutdown?)
    ensures Inv(Step(c, e))
  {
    hide Balanced, JobsInOrder, SendInLoop, SendFileInLoop, ShutdownInLoop, Clean;
    match e
    case Send(data, inLoop, k) =>
      var s := c.(submitted := c.submitted + |data|);
      StateIrrelevant(c, s);
      if inLoop { SendInLoopKeeps(s, data, k); } else { Enqueued(s, SendTask(data)); }
    case SendFile(file, offset, count, inLoop, k) =>
      var j := Job(file, offset, count, offset);
      NewJob(c, j);
      var s := c.(jobs := c.jobs + [j]);
      var t := FileTask(|c.jobs|, offset, count);
      if inLoop { SendFileInLoopKeeps(s, t, k); } else { Enqueued(s, t); }
    case Shutdown(inLoop) =>
      var s := c.(state := Disconnecting);
      StateIrrelevant(c, s);
      if inLoop { ShutdownInLoopKeeps(s); } else { Enqueued(s, ShutdownTask); }
  }

  lemma TaskKeeps(c: Connection, k: Kernel)
    requires Inv(c)
    ensures Inv(Step(c, RunTask(k)))
  {
    hide Balanced, SendInLoop, SendFileInLoop, ShutdownInLoop, Clean, Exact;
    if c.queue != [] {
      Dequeued(c);
      var s := c.(queue := c.queue[1..]);
      match c.queue[0]
      case SendTask(data) => SendInLoopKeeps(s, data, k);
      case ShutdownTask => ShutdownInLoopKeeps(s);
      case FileTask(_, _, _) => SendFileInLoopKeeps(s, c.queue[0], k);
    }
  }

  /** One event, with any answer of the kernel, keeps the invariant. */
  lemma StepKeeps(c: Connection, e: Event)
    requires Inv(c)
    ensures Inv(Step(c, e))
  {
    hide Balanced, JobsInOrder, SendInLoop, SendFileInLoop, ShutdownInLoop, HandleWrite, Clean;
    if e.RunTask? {
      TaskKeeps(c, e.k);
    } else if e.Writable? {
      HandleWriteKeeps(c, e.k);
    } else if c.state.Connected? && !e.Close? && !e.Establish? {
      CallKeeps(c, e);
    } else {
      StateIrrelevant(c, Step(c, e));
    }
  }

  function Run(c: Connection, es: seq<Event>): Connection
    requires Inv(c)
    decreases |es|
  {
    if es == [] then c
    else
      StepKeeps(c, es[0]);
      Run(Step(c, es[0]), es[1..])
  }

  lemma {:induction false} RunKeeps(c: Connection, es: seq<Event>)
    requires Inv(c)
    ensures Inv(Run(c, es))
    decreases |es|
  {
    hide Balanced, JobsInOrder, Disciplined, Step;
    if es != [] {
      StepKeeps(c, es[0]);
      RunKeeps(Step(c, es[0]), es[1..]);
    }
  }

  // ---------------------------------------------------------------------------
  // The byte stream

  /** In every run: the kernel's bytes followed by the buffered ones are the pieces produced, whole and
      in order; the pieces given to `sendInLoop` are all there exactly if none was given up; and before
      the connection is closed, write interest is set exactly if bytes are buffered. */
  lemma StreamIsConserved(c: Connection, es: seq<Event>)
    requires Inv(c)
    ensures var r := Run(c, es);
            && r.accepted + r.output == Flatten(r.segments)
            && (SentBytes(r.segments) == r.handed <==> r.dropped == 0)
            && |SentBytes(r.segments)| + r.dropped + QueuedBytes(r.queue) == r.submitted
            && (!r.state.Disconnected? ==> (r.writing <==> r.output != []))
  {
    hide JobsInOrder, Flatten, SentBytes, QueuedBytes, Step, Clean;
    RunKeeps(c, es);
  }

  lemma {:induction false} NoFileBytes(s: seq<Segment>)
    requires forall j :: FileBytes(s, j) == []
    ensures Flatten(s) == SentBytes(s)
    decreases |s|
  {
    if s != [] {
      var x, t := s[|s| - 1], s[..|s| - 1];
      forall j
        ensures FileBytes(t, j) == []
      {
        assert FileBytes(s, j) == [];
      }
      assert x.FromFile? ==> FileBytes(s, x.job) == FileBytes(t, x.job) + x.data;
      NoFileBytes(t);
    }
  }

  ghost predicate NeverBroken(e: Event) {
    match e
    case Send(_, _, k) => !k.Broken?
    case SendFile(_, _, _, _, k) => !k.Broken?
    case RunTask(k) => !k.Broken?
    case _ => true
  }

  lemma BreakageDrops(c: Connection, e: Event)
    requires JobsInOrder(c) && NeverBroken(e)
    ensures Step(c, e).dropped == c.dropped
  {
    hide FileBytes, Exact, Flatten, SentBytes, QueuedBytes;
    if e.RunTask? && c.queue != [] { assert Continues(c, c.queue[0]); }
  }

  /** Bytes are given up only when the kernel reports that the peer is gone. */
  lemma {:induction false} OnlyBreakageDrops(c: Connection, es: seq<Event>)
    requires Inv(c) && forall i :: 0 <= i < |es| ==> NeverBroken(es[i])
    ensures Run(c, es).dropped == c.dropped
    decreases |es|
  {
    hide Balanced, JobsInOrder, Disciplined, Step, NeverBroken;
    if es != [] {
      StepKeeps(c, es[0]);
      assert NeverBroken(es[0]);
      BreakageDrops(c, es[0]);
      OnlyBreakageDrops(Step(c, es[0]), es[1..]);
    }
  }

  lemma NoJobAppears(c: Connection, e: Event)
    requires JobsInOrder(c) && c.jobs == [] && !e.SendFile?
    ensures Step(c, e).jobs == []
  {
    hide FileBytes, Exact, Flatten, SentBytes, QueuedBytes;
    if e.RunTask? && c.queue != [] { assert Continues(c, c.queue[0]); }
  }

  lemma {:induction false} NoJobs(c: Connection, es: seq<Event>)
    requires Inv(c) && c.jobs == [] && forall i :: 0 <= i < |es| ==> !es[i].SendFile?
    ensures Run(c, es).jobs == []
    decreases |es|
  {
    hide Balanced, JobsInOrder, Disciplined, Step;
    if es != [] {
      StepKeeps(c, es[0]);
      NoJobAppears(c, es[0]);
      NoJobs(Step(c, es[0]), es[1..]);
    }
  }

  /** In every run without file transfers and without broken writes, the bytes the kernel has accepted followed
      by the buffered ones are all data given to `sendInLoop`. */
  lemma PlainStream(c: Connection, es: seq<Event>)
    requires Inv(c) && c.jobs == [] && c.dropped == 0
    requires forall i :: 0 <= i < |es| ==> !es[i].SendFile? && NeverBroken(es[i])
    ensures var r := Run(c, es); r.accepted + r.output == r.handed
  {
    hide Step, Disciplined, NeverBroken;
    RunKeeps(c, es);
    OnlyBreakageDrops(c, es);
    NoJobs(c, es);
    NoFileBytes(Run(c, es).segments);
  }

  lemma InitIsGood()
    ensures Inv(Init())
  {
  }

  // ---------------------------------------------------------------------------
  // Half-close

  /** Whenever the write side is shut down before the connection is closed, the kernel has accepted
      every byte produced so far; and it has accepted every byte ever submitted exactly if no send is
      still queued and none was given up. */
  lemma HalfCloseIsSafe(c: Connection, es: seq<Event>, i: nat)
    requires Inv(c) && i < |Run(c, es).halfCloses|
    ensures var h := Run(c, es).halfCloses[i];
            && (!h.state.Disconnected? ==> h.accepted == Flatten(h.segments))
            && (|SentBytes(h.segments)| == h.submitted <==> h.queued == 0 && h.dropped == 0)
  {
    RunKeeps(c, es);
    hide Balanced, JobsInOrder, Flatten, SentBytes;
    assert Clean(Run(c, es).halfCloses[i]);
  }

  /** A half-close can overtake sends that are still queued: with a shutdown requested and the queue not
      empty, the write event that drains the buffer shuts down at once. */
  lemma HalfCloseOvertakesQueuedSends(c: Connection)
    requires Inv(c) && c.state.Disconnecting? && c.writing && QueuedBytes(c.queue) > 0
    ensures var r := Step(c, Writable(Accept(|c.output|)));
            && |r.halfCloses| == |c.halfCloses| + 1
            && |SentBytes(r.halfCloses[|c.halfCloses|].segments)| < r.halfCloses[|c.halfCloses|].submitted
  {
  }

  lemma Then(c: Connection, e: Event, d: Connection, es: seq<Event>)
    requires Inv(c) && Step(c, e) == d
    ensures Inv(d) && Run(c, [e] + es) == Run(d, es)
  {
    hide Balanced, JobsInOrder, Disciplined, Step;
    StepKeeps(c, e);
    assert ([e] + es)[0] == e && ([e] + es)[1..] == es;
  }

  ghost const OPENED := Init().(state := Connected)

  /** Two bytes were sent and the kernel took one. */
  ghost function HalfSent(a: byte, b: byte): Connection {
    OPENED.(submitted := 2, handed := [a, b], accepted := [a], output := [b], segments := [Sent([a, b])], writing := true)
  }

  ghost function ThirdQueued(a: byte, b: byte, c: byte): Connection {
    HalfSent(a, b).(submitted := 3, queue := [SendTask([c])])
  }

  ghost function ToBeShut(a: byte, b: byte, c: byte): Connection {
    ThirdQueued(a, b, c).(state := Disconnecting, queue := [SendTask([c]), ShutdownTask])
  }

  lemma SendsTwo(a: byte, b: byte)
    requires JobsInOrder(OPENED)
    ensures Step(OPENED, Send([a, b], true, Accept(1))) == HalfSent(a, b)
  {
    assert [a, b][..1] == [a] && [a, b][1..] == [b];
    assert [] + [a, b] == [a, b] && [] + [a] == [a] && [] + [b] == [b] && [] + [Sent([a, b])] == [Sent([a, b])];
  }

  lemma QueuesThird(a: byte, b: byte, c: byte)
    requires JobsInOrder(HalfSent(a, b)) && JobsInOrder(ThirdQueued(a, b, c))
    ensures Step(HalfSent(a, b), Send([c], false, Again)) == ThirdQueued(a, b, c)
    ensures Step(ThirdQueued(a, b, c), Shutdown(false)) == ToBeShut(a, b, c)
  {
    assert [] + [SendTask([c])] == [SendTask([c])];
    assert [SendTask([c])] + [ShutdownTask] == [SendTask([c]), ShutdownTask];
  }

  lemma LastByte(a: byte, b: byte, c: byte)
    requires JobsInOrder(ToBeShut(a, b, c))
    ensures var r := Step(ToBeShut(a, b, c), Writable(Accept(1)));
            |r.halfCloses| == 1 && r.halfCloses[0].accepted == [a, b] && r.halfCloses[0].submitted == 3 && r.halfCloses[0].queued == 1
  {
    var q := [SendTask([c]), ShutdownTask];
    assert [b][..1] == [b] && [b][1..] == [] && [a] + [b] == [a, b];
    assert q[1..] == [ShutdownTask] && [ShutdownTask][1..] == [];
    assert QueuedBytes([ShutdownTask]) == 0 && QueuedBytes(q) == 1;
  }

  lemma ThirdIsGood(a: byte, b: byte, c: byte)
    requires Inv(HalfSent(a, b))
    ensures Inv(ThirdQueued(a, b, c)) && Inv(ToBeShut(a, b, c))
  {
    hide Flatten, SentBytes, FileBytes, Exact;
    var q := [SendTask([c])];
    assert q[1..] == [] && QueuedBytes(q) == 1;
    assert [SendTask([c]), ShutdownTask][1..] == [ShutdownTask] && [ShutdownTask][1..] == [];
    assert QueuedBytes([ShutdownTask]) == 0;
  }

  /** Two bytes sent of which the kernel takes one, a third sent from another thread, a shutdown from another
      thread, and the write event: the half-close comes ahead of the third byte. */
  lemma HalfCloseOvertakesInARun(a: byte, b: byte, c: byte)
    ensures Inv(Init())
    ensures var r := Run(Init(), [Establish] + ([Send([a, b], true, Accept(1))] + ([Send([c], false, Again)] +
                                 ([Shutdown(false)] + ([Writable(Accept(1))] + [])))));
            |r.halfCloses| == 1 && r.halfCloses[0].accepted == [a, b] && r.halfCloses[0].submitted == 3 && r.halfCloses[0].queued == 1
  {
    hide Balanced, JobsInOrder, Disciplined, Step, Run, HalfSent, ThirdQueued, ToBeShut;
    InitIsGood();
    Opening();
    var e5 := [Writable(Accept(1))] + [];
    var e4 := [Shutdown(false)] + e5;
    var e3 := [Send([c], false, Again)] + e4;
    Then(Init(), Establish, OPENED, [Send([a, b], true, Accept(1))] + e3);
    SendsTwo(a, b);
    Then(OPENED, Send([a, b], true, Accept(1)), HalfSent(a, b), e3);
    ThirdIsGood(a, b, c);
    QueuesThird(a, b, c);
    Then(HalfSent(a, b), Send([c], false, Again), ThirdQueued(a, b, c), e4);
    Then(ThirdQueued(a, b, c), Shutdown(false), ToBeShut(a, b, c), e5);
    LastByte(a, b, c);
    var last := Step(ToBeShut(a, b, c), Writable(Accept(1)));
    Then(ToBeShut(a, b, c), Writable(Accept(1)), last, []);
    RunNone(last);
  }

  lemma Opening()
    ensures JobsInOrder(Init()) && Step(Init(), Establish) == OPENED
  {
  }

  lemma RunNone(c: Connection)
    requires Inv(c)
    ensures Run(c, []) == c
  {
  }

  ghost predicate NeverClosed(es: seq<Event>) { forall i :: 0 <= i < |es| ==> !es[i].Close? }

  /** One step of a connection that is to be shut down once its buffer is empty: the half-close is issued
      in the very step that empties the buffer, and that step is a write event. */
  lemma DrainStep(c: Connection, e: Event)
    requires Inv(c) && c.state.Disconnecting? && c.writing && !e.Close?
    ensures var r := Step(c, e);
            && r.state.Disconnecting?
            && (r.output == [] ==> e.Writable? && |r.halfCloses| == |c.halfCloses| + 1)
            && (r.output != [] ==> r.writing && r.halfCloses == c.halfCloses)
  {
  }

  /** A shutdown requested while bytes are buffered is carried out when, and only when, they are gone. */
  lemma {:induction false} DrainPerformsHalfClose(c: Connection, es: seq<Event>)
    requires Inv(c) && c.state.Disconnecting? && c.writing && NeverClosed(es)
    ensures var r := Run(c, es);
            || (r.writing && r.output != [] && r.halfCloses == c.halfCloses)
            || exists k :: 0 <= k < |es| && DrainedAt(c, es, k)
    decreases |es|
  {
    if es != [] {
      DrainStep(c, es[0]);
      StepKeeps(c, es[0]);
      hide Inv, Step;
      var r := Step(c, es[0]);
      assert es[..0] == [] && Run(c, []) == c;
      if r.output == [] {
        assert DrainedAt(c, es, 0);
      } else {
        DrainPerformsHalfClose(r, es[1..]);
        if exists k :: 0 <= k < |es[1..]| && DrainedAt(r, es[1..], k) {
          var k :| 0 <= k < |es[1..]| && DrainedAt(r, es[1..], k);
          assert es[..k + 1][0] == es[0] && es[..k + 1][1..] == es[1..][..k];
          RunKeeps(c, es[..k + 1]);
          assert Run(c, es[..k + 1]) == Run(r, es[1..][..k]);
          assert DrainedAt(c, es, k + 1);
        }
      }
    }
  }

  /** The `k`-th event is the write event that empties the buffer and shuts down. */
  ghost predicate DrainedAt(c: Connection, es: seq<Event>, k: nat)
    requires Inv(c) && k < |es|
  {
    var before := Run(c, es[..k]);
    && Inv(before) && es[k].Writable? && before.output != [] && before.halfCloses == c.halfCloses
    && Step(before, es[k]).output == []
    && |Step(before, es[k]).halfCloses| == |c.halfCloses| + 1
  }

  // ---------------------------------------------------------------------------
  // After the close

  /** Write interest is set exactly if bytes are buffered. */
  ghost predicate Tied(c: Connection) { c.writing <==> c.output != [] }

  /** Closing drops the interest and keeps the buffer: the tie survives exactly if the buffer is empty. */
  lemma CloseUntiesIff(c: Connection)
    requires Inv(c)
    ensures Tied(Step(c, Close)) <==> c.output == []
  {
  }

  /** The event hands data to `sendInLoop` of which the kernel leaves a remainder. */
  ghost predicate LeavesRemainder(c: Connection, e: Event) {
    match e
    case Send(data, inLoop, k) => inLoop && c.state.Connected? && 0 <= Written(c, |data|, k) < |data|
    case RunTask(k) => c.queue != [] && c.queue[0].SendTask? && 0 <= Written(c, |c.queue[0].data|, k) < |c.queue[0].data|
    case _ => false
  }

  lemma ClosedStep(c: Connection, e: Event)
    requires Inv(c) && c.state.Disconnected? && !e.Close?
    ensures var r := Step(c, e); r.state.Disconnected? && (Tied(r) <==> Tied(c) || LeavesRemainder(c, e))
  {
    hide Balanced, JobsInOrder, Clean;
  }

  ghost predicate RemainderLeft(c: Connection, es: seq<Event>)
    requires Inv(c)
    decreases |es|
  {
    es != [] &&
    (LeavesRemainder(c, es[0]) || (StepKeeps(c, es[0]); RemainderLeft(Step(c, es[0]), es[1..])))
  }

  lemma {:induction false} TiedAgainIff(c: Connection, es: seq<Event>)
    requires Inv(c) && c.state.Disconnected? && NeverClosed(es)
    ensures Run(c, es).state.Disconnected? && (Tied(Run(c, es)) <==> Tied(c) || RemainderLeft(c, es))
    decreases |es|
  {
    hide Balanced, JobsInOrder, Disciplined, Step, LeavesRemainder, Tied;
    if es != [] {
      StepKeeps(c, es[0]);
      ClosedStep(c, es[0]);
      TiedAgainIff(Step(c, es[0]), es[1..]);
    }
  }

  /** In every run after the last close, since `sendInLoop` goes on when kDisconnected: the interest is tied to
      the buffer if and only if the buffer was empty at the close, or a send since then left a remainder. */
  lemma InterestAfterCloseIff(c: Connection, es: seq<Event>)
    requires Inv(c) && NeverClosed(es)
    ensures Inv(Step(c, Close))
    ensures Tied(Run(Step(c, Close), es)) <==> c.output == [] || RemainderLeft(Step(c, Close), es)
  {
    hide Balanced, JobsInOrder, Disciplined, RemainderLeft;
    StepKeeps(c, Close);
    CloseUntiesIff(c);
    TiedAgainIff(Step(c, Close), es);
  }

  /** Two bytes sent of which the kernel takes one, then the close: a byte stays buffered that nothing watches. */
  lemma CloseUntiesInARun(a: byte, b: byte)
    ensures Inv(Init())
    ensures var r := Run(Init(), [Establish] + ([Send([a, b], true, Accept(1))] + ([Close] + [])));
            r.output == [b] && !r.writing && !Tied(r)
  {
    hide Balanced, JobsInOrder, Disciplined, Step, Run;
    InitIsGood();
    Opening();
    Then(Init(), Establish, OPENED, [Send([a, b], true, Accept(1))] + ([Close] + []));
    SendsTwo(a, b);
    Then(OPENED, Send([a, b], true, Accept(1)), HalfSent(a, b), [Close] + []);
    var last := Step(HalfSent(a, b), Close);
    Then(HalfSent(a, b), Close, last, []);
    RunNone(last);
    Dropped(a, b);
  }

  lemma Dropped(a: byte, b: byte)
    requires JobsInOrder(HalfSent(a, b))
    ensures var r := Step(HalfSent(a, b), Close); r.output == [b] && !r.writing && !Tied(r)
  {
  }
}
