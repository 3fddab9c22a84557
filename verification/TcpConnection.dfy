/** The connection object: its state, its write interest and its compacting output buffer, updated in
    place by handlers and tasks. Every method is proved to take the step of the same name. */
module TcpConnectionClass {
  import opened Buffers
  import opened Connections

  class TcpConnection {
    var state: ConnectionState
    var isWriting: bool
    const outputBuffer: Buffer
    var queue: seq<Task>
    var jobs: seq<Job>
    ghost var accepted: seq<byte>
    ghost var segments: seq<Segment>
    ghost var handed: seq<byte>
    ghost var dropped: nat
    ghost var submitted: nat
    ghost var halfCloses: seq<HalfClose>

    ghost predicate Valid()
      reads this, outputBuffer
    {
      outputBuffer.Valid()
    }

    ghost function State(): Connection
      requires Valid()
      reads this, outputBuffer, outputBuffer.buffer
    {
      Connection(state, isWriting, outputBuffer.Contents(), queue, jobs, accepted, segments, handed, dropped,
                 submitted, halfCloses)
    }

    constructor ()
      ensures Valid() && fresh(outputBuffer) && fresh(outputBuffer.buffer) && State() == Init()
    {
      state, isWriting, queue, jobs := Connecting, false, [], [];
      outputBuffer := new Buffer(1024);
      accepted, segments, handed, dropped, submitted, halfCloses := [], [], [], 0, 0, [];
    }

    /** The direct `write` of `sendInLoop`, attempted only when nothing is waiting; -1 for a broken peer. */
    method TryWrite(len: nat, k: Kernel) returns (nwrote: int)
      requires Valid()
      ensures nwrote == Written(State(), len, k)
    {
      nwrote := 0;
      if !isWriting && outputBuffer.ReadableBytes() == 0 {
        match k
        case Accept(n) => nwrote := Min(n, len);
        case Again =>
        case Trouble =>
        case Broken => nwrote := -1;
      }
    }

    method SendInLoop(data: seq<byte>, k: Kernel)
      requires Valid()
      modifies this, outputBuffer, outputBuffer.buffer
      ensures Valid() && (outputBuffer.buffer == old(outputBuffer.buffer) || fresh(outputBuffer.buffer))
      ensures State() == Connections.SendInLoop(old(State()), data, k)
    {
      hide Written, Appended;
      var nwrote := TryWrite(|data|, k);
      var faultError := nwrote < 0;
      handed := handed + data;
      if faultError {
        dropped := dropped + |data|;
      } else {
        segments := segments + [Sent(data)];
        accepted := accepted + data[..nwrote];
        KeepRemainder(data[nwrote..]);
      }
    }

    /** The last part of `sendInLoop`: what the kernel did not take waits for the write event. */
    method KeepRemainder(rest: seq<byte>)
      requires Valid()
      modifies this`isWriting, outputBuffer, outputBuffer.buffer
      ensures Valid() && (outputBuffer.buffer == old(outputBuffer.buffer) || fresh(outputBuffer.buffer))
      ensures outputBuffer.Contents() == old(outputBuffer.Contents()) + rest
      ensures isWriting == (old(isWriting) || rest != [])
    {
      if |rest| > 0 {
        outputBuffer.Append(rest);
        if !isWriting {
          isWriting := true;
        }
      }
    }

    method ShutdownInLoop()
      requires Valid()
      modifies this`halfCloses
      ensures Valid() && State() == Connections.ShutdownInLoop(old(State()))
    {
      if !isWriting {
        halfCloses := halfCloses + [HalfClose(state, accepted, segments, submitted, QueuedBytes(queue), dropped)];
      }
    }

    /** The write event: drain what the kernel takes, and shut down if that was the last of it. */
    method HandleWrite(k: Kernel)
      requires Valid()
      modifies this, outputBuffer, outputBuffer.buffer
      ensures Valid() && outputBuffer.buffer == old(outputBuffer.buffer)
      ensures State() == Connections.HandleWrite(old(State()), k)
    {
      if isWriting {
        var n := if k.Accept? then Min(k.n, outputBuffer.ReadableBytes()) else -1;
        if n > 0 {
          var written := outputBuffer.RetrieveAsString(n);
          accepted := accepted + written;
          if outputBuffer.ReadableBytes() == 0 {
            isWriting := false;
            if state == Disconnecting {
              ShutdownInLoop();
            }
          }
        }
      }
    }

    /** The `sendfile` call, attempted only when nothing is waiting. */
    method TrySendfile(j: Job, count: nat, k: Kernel) returns (bytesSent: nat, faultError: bool)
      requires Valid()
      ensures bytesSent == Transferred(State(), j, count, k)
      ensures faultError == (!isWriting && State().output == [] && k.Broken?)
    {
      bytesSent, faultError := 0, false;
      if !isWriting && outputBuffer.ReadableBytes() == 0 {
        match k
        case Accept(n) => bytesSent := if j.at > |j.file| then 0 else Min(n, Min(count, |j.file| - j.at));
        case Again =>
        case Trouble =>
        case Broken => faultError := true;
      }
    }

    method SendFileInLoop(job: nat, offset: nat, count: nat, k: Kernel)
      requires Valid() && job < |jobs| && offset == jobs[job].at
      modifies this`accepted, this`segments, this`jobs, this`queue
      ensures Valid() && State() == Connections.SendFileInLoop(old(State()), job, offset, count, k)
    {
      hide Transferred, Piece;
      if state == Disconnecting {
        return;
      }
      var j := jobs[job];
      var bytesSent, faultError := TrySendfile(j, count, k);
      accepted := accepted + Piece(j, bytesSent);
      segments := segments + [FromFile(job, Piece(j, bytesSent))];
      jobs := jobs[job := j.(at := j.at + bytesSent)];
      if !faultError && count - bytesSent > 0 {
        queue := queue + [FileTask(job, offset + bytesSent, count - bytesSent)];
      }
    }

    method Send(data: seq<byte>, inLoop: bool, k: Kernel)
      requires Valid() && JobsInOrder(State())
      modifies this, outputBuffer, outputBuffer.buffer
      ensures Valid() && (outputBuffer.buffer == old(outputBuffer.buffer) || fresh(outputBuffer.buffer))
      ensures State() == Step(old(State()), Event.Send(data, inLoop, k))
    {
      if state == Connected {
        submitted := submitted + |data|;
        if inLoop {
          SendInLoop(data, k);
        } else {
          queue := queue + [SendTask(data)];
        }
      }
    }

    method Shutdown(inLoop: bool)
      requires Valid() && JobsInOrder(State())
      modifies this`state, this`queue, this`halfCloses
      ensures Valid() && State() == Step(old(State()), Event.Shutdown(inLoop))
    {
      if state == Connected {
        state := Disconnecting;
        if inLoop {
          ShutdownInLoop();
        } else {
          queue := queue + [ShutdownTask];
        }
      }
    }

    method SendFile(file: seq<byte>, offset: nat, count: nat, inLoop: bool, k: Kernel)
      requires Valid() && JobsInOrder(State())
      modifies this`accepted, this`segments, this`jobs, this`queue
      ensures Valid() && State() == Step(old(State()), Event.SendFile(file, offset, count, inLoop, k))
    {
      if state == Connected {
        var job := |jobs|;
        jobs := jobs + [Job(file, offset, count, offset)];
        if inLoop {
          SendFileInLoop(job, offset, count, k);
        } else {
          queue := queue + [FileTask(job, offset, count)];
        }
      }
    }

    method HandleClose()
      requires Valid() && JobsInOrder(State())
      modifies this`state, this`isWriting
      ensures Valid() && State() == Step(old(State()), Close)
    {
      state := Disconnected;
      isWriting := false;
    }

    /** The loop runs the next functor of this connection. */
    method RunTask(k: Kernel)
      requires Valid() && JobsInOrder(State())
      modifies this, outputBuffer, outputBuffer.buffer
      ensures Valid() && (outputBuffer.buffer == old(outputBuffer.buffer) || fresh(outputBuffer.buffer))
      ensures State() == Step(old(State()), Event.RunTask(k))
    {
      if queue != [] {
        var task := queue[0];
        assert Continues(State(), State().queue[0]);
        queue := queue[1..];
        match task
        case SendTask(data) => SendInLoop(data, k);
        case ShutdownTask => ShutdownInLoop();
        case FileTask(job, offset, remaining) => SendFileInLoop(job, offset, remaining, k);
      }
    }

    /** Any event keeps the stream invariants of the object. */
    method Handle(e: Event)
      requires Valid() && Inv(State())
      modifies this, outputBuffer, outputBuffer.buffer
      ensures Valid() && Inv(State())
      ensures outputBuffer.buffer == old(outputBuffer.buffer) || fresh(outputBuffer.buffer)
      ensures State() == Step(old(State()), e)
    {
      StepKeeps(State(), e);
      hide Balanced, JobsInOrder, Disciplined;
      match e
      case Establish => if state == Connecting { state := Connected; }
      case Send(data, inLoop, k) => Send(data, inLoop, k);
      case SendFile(file, offset, count, inLoop, k) => SendFile(file, offset, count, inLoop, k);
      case Shutdown(inLoop) => Shutdown(inLoop);
      case RunTask(k) => RunTask(k);
      case Writable(k) => HandleWrite(k);
      case Close => HandleClose();
    }
  }
}
