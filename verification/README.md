# Verified model of a multi-reactor TCP library

The library runs one event loop per thread. Other threads hand functors to a loop, a timer queue runs
callbacks in it, a poller feeds it, and the connections of a server live on loops chosen by a consistent
hash. This project models those six components and proves what each must keep in every run.

Each component has two layers:

* a **machine on values**: a state, its atomic steps and arbitrary runs. A failed assertion, a dangling
  pointer or a fatal log line is the outcome `Fault`. The invariants and theorems are about these runs;
* a **class** that updates its fields as the source does, each method proved to take the machine's step.

| component | machine and theorems | class |
|---|---|---|
| timer queue | `Timers.dfy`, `TimerSafety.dfy`, `TimerTheorems.dfy`, `TimerSchedule.dfy`, `TimerEffects.dfy`, `TimerCalls.dfy` | `TimerQueue.dfy` |
| functor hand-off | `HandOff.dfy` | `EventLoop.dfy` |
| buffer | `Buffer.dfy` | `Buffer.dfy` |
| output path | `Connection.dfy`, `ConnectionEffects.dfy`, `FileTransfer.dfy` | `TcpConnection.dfy` |
| hash ring, thread pool | `Ring.dfy`, `RingTheorems.dfy`, `RingRemoval.dfy` | `ThreadPool.dfy` |
| poller and channels | `Poller.dfy` | `EPollPoller.dfy` |
| connection lifecycle | `Lifecycle.dfy`, `LifecycleViews.dfy`, `LifecycleSafety.dfy`, `LifecycleSteps.dfy`, `LifecycleTheorems.dfy`, `LateCalls.dfy`, `LateCallRun.dfy` | `TcpServer.dfy` |

The lifecycle machine contains the poller machine: every loop has its own poller and kernel interest set,
descriptors are reused, and one theorem covers all loops together. Its proof looks at one connection at a
time: `LifecycleViews.dfy` is a small machine for a single connection, and every step of the server moves
each connection by a move of that machine.

## What the environment is

* Callbacks are arbitrary finite lists of additions and cancellations; any thread may act between two steps.
* The kernel may accept any prefix of a write or refuse it, may report any watched descriptor, and may
  deliver any number of bytes that fit. The allocator may return any address not in use; an accepted
  socket may have any descriptor not in use.
* User code may hold a `shared_ptr` to a connection, as the thread that makes a late call does. The model does not
  count these holders: a connection that nothing else holds may be freed at any later time.
* Clock readings and the hash function are arbitrary. Time is one clock in integer microseconds.

## Where the natural property fails

* `addTimer` called from another thread queues the insertion and only then reads the number of the timer for
  the id it returns. By then the loop may have run the timer and freed it (`ReadAfterFree`). `ReadFaultsIff`:
  with cancels limited to ids that were returned, the read can meet a freed timer exactly if the timer is
  one-shot; runs in which other threads add only periodic timers are safe (`PeriodicCallsAreSafe`).
* A functor queued by the loop thread before `loop()` writes no wakeup. `StrandedIff`: in every run, a wakeup
  is on its way exactly if some call that writes one was made, or was under way, since the counter was last
  read; a queue stranded outside a dispatch was filled by the loop thread before `loop()`.
* A `quit()` made before `loop()` is forgotten, because `loop()` resets the flag (`EarlyQuitIsForgotten`).
  `QuitTakesEffectIff`: no run gets to another poll without having left the loop first, exactly if the quit was
  requested inside `loop()`.
* A cancel that reaches the loop before the queued insertion of its timer is lost. `CancelTakesEffectIff`:
  a cancel of a live timer takes effect exactly if its insertion is not still queued.
* `shutdown()` changes the state before its functor runs, so a write event can half-close ahead of queued
  sends (`HalfCloseOvertakesQueuedSends`). `HalfCloseIsSafe` says exactly which bytes have gone out.
* Closing drops the write interest and keeps the buffer (`CloseUntiesInARun`), and `sendInLoop` logs on
  kDisconnected and goes on. The stream is still conserved then. `InterestAfterCloseIff`: in every run after the
  last close, interest is tied to the buffer exactly if the buffer was empty at the close or a send since then
  left a remainder.
* `removeNode` under hash collisions takes other nodes' points. `AddThenRemoveRestoresIff`: adding and
  removing a node restores the ring exactly if none of its points was already taken.
* `disableAll` on a disabled channel registers it again, with an empty mask (`DisablingTwiceRegisters`), so a
  connection closed twice can be reported once more. The lifecycle theorems cover such double closes.
* `send` and `shutdown` from another thread check the state first and queue a bare pointer later.
  `LateCallFaultsIff`: some run then touches a freed connection exactly if at that moment the server no longer
  lists the connection, no erasure of it is queued, and the call is a send that leaves a remainder or no
  destruction waits in the queue it joins. (Functors that have run hold their connection to the end of their
  drain. A send that runs in the drain of the destruction registers the channel of a destroyed connection.)
  `LateCallFaultsInARun` gets there from the start of a server. `LateRunIsSafeIff`: with any number of late calls
  in a run, the server never gets where it can touch a freed connection exactly if none of them is too late.
* A file transfer can stop short (`StopsShortInARun`). `TransferStopsShortIff`: in every run, exactly if some turn of
  it with bytes left comes after a shutdown was requested, or finds the connection broken while nothing is
  buffered.
* The poller stays in step with its kernel exactly if callers follow one rule (`AgreesThroughoutIff`).
* A buffer grows to at most twice its peak plus 6 (never less than 9), and that is attained for every initial
  size (`SpaceBoundIsTight`).

## Model

| member | source | states |
|---|---|---|
| Timers.HowMuchTimeFromNow | src/TimerQueue.cc:28-42 | The programmed delay is a valid timespec worth the time left, but never less than 100 microseconds |
| Timers.ArmedFor | src/TimerQueue.cc:57-70 | The alarm goes off at the requested time, or 100 microseconds after it was set if that is later |
| Timers.InsertEntryOrdered | src/TimerQueue.cc:216-238 | Inserting into the ordered index keeps it sorted, adds exactly one entry, and the new entry is first exactly if it precedes the old first |
| Timers.EraseEntryOrdered | src/TimerQueue.cc:131-132 | Erasing an entry by value keeps the order, removes exactly that entry, and never brings the first one forward |
| TimerSafety.InsertKeeps | src/TimerQueue.cc:216-238 | Inserting a live timer that is in neither index trips none of the four assertions and makes it active in both |
| TimerSafety.CancelKeeps | src/TimerQueue.cc:123-141 | A cancel, of any id and in any phase, trips no assertion, frees only a live active timer and keeps ownership |
| TimerSafety.GetExpiredSplits | src/TimerQueue.cc:164-183 | getExpired trips none of its four assertions and splits both indexes at now: the batch is the prefix due by now, the rest is strictly later |
| TimerSafety.ResetKeeps | src/TimerQueue.cc:186-214 | reset restarts or frees every timer of the batch once, never touches a freed one, and leaves the two indexes in agreement |
| TimerSafety.StepKeeps | src/TimerQueue.cc:112-238 | Any single event from a good state succeeds, keeps the invariant, keeps the numbers of live timers and runs at most the callback whose turn it is |
| TimerSafety.EveryRunIsSafe | src/TimerQueue.cc:112-238 | In every run with re-entrant callbacks, all that the loop executes is safe: all assertions hold, no timer is freed twice or used after free, timers_ is exactly the expirations of activeTimers_, and live timers are partitioned into active, in the batch and queued |
| TimerSafety.InitIsGood | src/TimerQueue.cc:74-83 | A new queue satisfies that invariant |
| TimerTheorems.NumbersStayUnique | include/Timer.h:16-16 | Over every run, different live timers have different sequence numbers |
| TimerTheorems.GoneForever | src/TimerQueue.cc:123-161 | A timer that is gone never runs and never returns, even if its address is reused |
| TimerTheorems.CancelIsFinal | src/TimerQueue.cc:123-141 | After the cancel of an inserted timer outside its batch, no later event of any run runs it or brings it back |
| TimerTheorems.CancelInBatchIsFinal | src/TimerQueue.cc:136-161 | After the cancel of a timer of the running batch, its only possible further run is its own turn in this batch; once handleRead returns it is gone for good |
| TimerTheorems.CancelTakesEffectIff | src/TimerQueue.cc:98-141 | The cancel of a live timer takes effect, at once or at the end of the batch, exactly if its insertion is not still queued |
| TimerTheorems.OvertakingCancelIsLost | src/TimerQueue.cc:98-141 | A cancel that runs before the queued insertion leaves the timer to become active all the same |
| TimerCalls.OvertakingCancelInARun | src/TimerQueue.cc:98-141 | Such a run from an empty queue, with the id returned before it is used |
| TimerCalls.OnlyTheReadFaults | src/TimerQueue.cc:98-103 | In every run with any number of calls of addTimer under way, the only possible fault is the read of the number of a freed timer at line 102 |
| TimerCalls.ReadFaultsIff | src/TimerQueue.cc:98-103 | That read can meet a freed timer if and only if the interval is not positive, from every good state and for every address and time |
| TimerCalls.PeriodicCallsAreSafe | src/TimerQueue.cc:98-103 | Runs in which other threads add only periodic timers have no fault at all |
| TimerCalls.ReadAfterFree | src/TimerQueue.cc:98-103 | The faulting run from an empty queue: added, inserted, due, run, freed, read |
| TimerCalls.StartIsGood | src/TimerQueue.cc:74-83 | An empty queue with no call under way is such a good state |
| TimerCalls.CallsAreRuns | src/TimerQueue.cc:98-109 | As far as the queue is concerned, every run with callers is a run of the queue, so the other theorems apply to it |
| TimerCalls.CallsReturn | src/TimerQueue.cc:98-109 | A call of addTimer returns the id of the timer that it created, at once on the loop thread and after its read on another, and is under way from the allocation until then |
| TimerTheorems.OneOwner | src/TimerQueue.cc:98-238 | A live timer is active, in the running batch or queued for insertion, and only one of these |
| TimerTheorems.StaleCancelIsInvisible | src/TimerQueue.cc:123-141 | Cancelling an id whose timer is gone leaves every later state of every run the same in timers, indexes, alarm and callbacks run, even if the address is reused |
| TimerSchedule.BatchIsExpired | src/TimerQueue.cc:164-183 | The batch is exactly the filter of the index by expiration at most now, and what stays is strictly later |
| TimerSchedule.RunsExactlyTheExpired | src/TimerQueue.cc:143-183 | A whole handleRead, whatever callbacks and other threads do meanwhile, runs exactly the timers due on entry, each once, in order |
| TimerSchedule.AlwaysArmed | src/TimerQueue.cc:112-214 | In every run, outside handleRead with a timer waiting, the timerfd is set to go off no later than the earliest expiration or 100 microseconds after it was last set |
| TimerEffects.AddEffect | src/TimerQueue.cc:98-121 | A timer added on the loop thread gets the next number and its own entry beside the old ones, and the alarm is set for it exactly if it is earlier than every other, else left alone |
| TimerEffects.AddElsewhereEffect | src/TimerQueue.cc:98-103 | One added from another thread is in no index yet, waits last among the queued insertions and does not touch the alarm |
| TimerEffects.QueuedAddEffect | src/TimerQueue.cc:112-121 | The first queued insertion then does the same as an addition on the loop thread |
| TimerEffects.CancelEffect | src/TimerQueue.cc:123-141 | A cancel frees exactly the active timer with this id and takes its entry; any other id is remembered exactly while a batch fires; nothing else changes |
| TimerEffects.BeginEffect | src/TimerQueue.cc:143-153 | The timers due move from both indexes to the batch, nothing else leaves, an expired alarm is consumed and the remembered cancels are forgotten |
| TimerEffects.FireEffect | src/TimerQueue.cc:154-157 | A turn runs the next callback of the batch and changes nothing else |
| TimerEffects.EndEffect | src/TimerQueue.cc:186-214 | At the end of handleRead, every timer of the batch that repeats and was not cancelled is active again, due one interval after the time the batch was taken; every other one is freed; no other timer or entry changes; and the alarm is set for the earliest timer left |
| TimerQueueClass.TimerQueue.constructor | src/TimerQueue.cc:74-83 | A new object is the empty queue and is armed as required |
| TimerQueueClass.TimerQueue.Insert | src/TimerQueue.cc:216-238 | Updates both indexes as the machine does and reports whether the earliest expiration changed |
| TimerQueueClass.TimerQueue.AddTimerInLoop | src/TimerQueue.cc:112-121 | Takes the machine's step, arming the timerfd exactly if the earliest expiration changed |
| TimerQueueClass.TimerQueue.CancelInLoop | src/TimerQueue.cc:123-141 | Takes the machine's step for any id and keeps the invariant |
| TimerQueueClass.TimerQueue.GetExpired | src/TimerQueue.cc:164-183 | Returns the machine's batch, which the caller then owns |
| TimerQueueClass.TimerQueue.Reset | src/TimerQueue.cc:186-214 | Takes the machine's step and hands every timer of the batch back or frees it |
| TimerQueueClass.TimerQueue.HandleRead | src/TimerQueue.cc:143-161 | Ends in the state of the corresponding run, and the callbacks run are exactly those of the expired timers, in order |
| HandOff.StepWakes | src/EventLoop.cc:81-97 | Every atomic step keeps: after the swap and until poll returns, a queued functor means a wakeup written or about to be; and a quit in poll means the same |
| HandOff.InitIsGood | src/EventLoop.cc:74-79 | A loop that has not started satisfies all of these conditions |
| HandOff.NothingIsLost | src/EventLoop.cc:81-171 | In every interleaving of any number of threads no quit is lost, and no wakeup unless a functor that the loop thread queued outside loop() has not been taken by a drain yet |
| HandOff.StrandedIff | src/EventLoop.cc:132-171 | In every run, at every moment, the counter holds the completed calls that wrote it since it was last read, as far as it can count, and a wakeup is coming if and only if such a call was made or under way since then; a queue without one, outside a dispatch, was filled by the loop thread before loop() |
| HandOff.EarlyFunctorIsStranded | src/EventLoop.cc:145-148 | Such a run exists: queueInLoop on the loop thread before loop() |
| HandOff.QuitSticks | src/EventLoop.cc:74-120 | A quit requested inside loop() stays requested until the loop is left |
| HandOff.EarlyQuitIsForgotten | src/EventLoop.cc:77-81 | From any state outside loop(), entering it leads to a poll with the flag reset |
| HandOff.QuitTakesEffectIff | src/EventLoop.cc:74-120 | For a requested quit, no run gets to another poll without having left the loop first, if and only if it was requested inside loop() |
| HandOff.QuitIsHonouredIff | src/EventLoop.cc:112-120 | A call of quit, from any thread, takes effect if and only if the loop is running |
| HandOff.QuitEndsTheLoop | src/EventLoop.cc:74-120 | A quit from another thread while the loop waits in poll: after its wakeup the loop can do one round, runs its queue and is left |
| HandOff.FunctorsAreConserved | src/EventLoop.cc:123-211 | In every interleaving, executed functors, the rest of the batch and the queue are the order of the pushes, and each thread's functors start in its own order, each once |
| HandOff.DrainRunsItsSnapshot | src/EventLoop.cc:195-211 | Until it ends, a drain runs only functors queued before its swap, in order, even if every functor requeues itself |
| HandOff.EveryRoundRunsTheQueue | src/EventLoop.cc:81-97 | In every interleaving, whatever any thread queued before the swap has been executed when the loop next looks at quit_, and ever after |
| HandOff.RoundRuns | src/EventLoop.cc:81-97 | Once a wakeup is written, the loop can go round: it reads the counter, runs exactly the queue and comes back to quit_ |
| EventLoopClass.EventLoop.Wakeup | src/EventLoop.cc:163-171 | Adds one to the eventfd unless it is full, as the machine's wakeup step |
| EventLoopClass.EventLoop.QueueInLoop | src/EventLoop.cc:132-149 | Appends the functor and leaves the eventfd positive unless the loop thread queues outside a drain |
| EventLoopClass.EventLoop.Quit | src/EventLoop.cc:112-120 | Requests the quit, and leaves the eventfd positive if another thread asks |
| EventLoopClass.EventLoop.HandleRead | src/EventLoop.cc:152-160 | Takes the step that consumes all wakeups |
| EventLoopClass.EventLoop.DoPendingFunctors | src/EventLoop.cc:195-211 | With other threads pushing, waking and quitting at any point, it runs exactly what was queued at the swap, in order, beginning with what was queued on entry; what is queued later stays queued with a wakeup written or on its way |
| EventLoopClass.EventLoop.Endure | src/EventLoop.cc:132-149 | Anything that functors and other threads do during a functor leaves the batch and the executed functors alone and only adds to the queue |
| Buffers.SpaceMadeIsRight | include/Buffer.h:83-104 | makeSpace keeps the readable bytes, never shrinks, leaves room for len, and when it compacts moves strictly left |
| Buffers.SpaceBound | include/Buffer.h:55-104 | Over any history the vector never shrinks and never exceeds its initial size, 9, or twice the peak of readable bytes plus 6 |
| Buffers.SpaceBoundIsTight | include/Buffer.h:83-104 | For every initial size, zero included, a history attains the bound beyond that size |
| Buffers.Buffer.constructor | include/Buffer.h:15-20 | Empty, with both indexes behind the prepend area |
| Buffers.Buffer.Retrieve | include/Buffer.h:28-38 | Drops len bytes from the front of the FIFO, all of them if len is too large |
| Buffers.Buffer.RetrieveAll | include/Buffer.h:39-43 | Empties the FIFO and resets the indexes |
| Buffers.Buffer.RetrieveAsString | include/Buffer.h:47-52 | What is returned followed by what is left is what was there |
| Buffers.Buffer.Compact | include/Buffer.h:95-102 | The overlapping forward copy keeps the contents |
| Buffers.Buffer.MakeSpace | include/Buffer.h:83-104 | Grows or compacts as specified and keeps the contents |
| Buffers.Buffer.EnsureWritableBytes | include/Buffer.h:55-61 | Afterwards len bytes fit; the contents are kept |
| Buffers.Buffer.Append | include/Buffer.h:64-69 | The contents grow by the data at the end |
| Buffers.Buffer.ReadFd | src/Buffer.cc:15-59 | A scatter read appends exactly the delivered bytes, whether or not they spill into the stack buffer; a failed one changes nothing |
| Buffers.Buffer.Use | include/Buffer.h:28-104 | Every history of appends, retrieves and reads refines the FIFO and respects the space bound |
| Connections.StepKeeps | src/TcpConnection.cc:61-321 | Every event with any kernel answer keeps the balance of bytes, the file positions, and the tie between write interest and buffer |
| Connections.StreamIsConserved | src/TcpConnection.cc:83-243 | In every run, accepted bytes followed by buffered bytes are the pieces produced, in order; before the close, write interest is set exactly if bytes are buffered |
| Connections.CloseUntiesIff | src/TcpConnection.cc:248-249 | After a close, write interest matches the buffer if and only if the buffer is empty |
| Connections.InterestAfterCloseIff | src/TcpConnection.cc:83-143 | In every run after the last close, it matches if and only if the buffer was empty at the close or a send since then left a remainder |
| Connections.CloseUntiesInARun | src/TcpConnection.cc:245-254 | A run from a new connection that leaves a byte buffered and unwatched |
| Connections.PlainStream | src/TcpConnection.cc:83-143 | In every run without file transfers and broken writes, accepted followed by buffered bytes are all data given to sendInLoop |
| Connections.OnlyBreakageDrops | src/TcpConnection.cc:108-120 | No byte is given up in a run without EPIPE or ECONNRESET |
| Connections.HalfCloseIsSafe | src/TcpConnection.cc:145-163 | When shutdownWrite is issued before the close, the kernel has accepted every byte produced so far; it has every byte ever submitted exactly if none is queued or given up |
| Connections.HalfCloseOvertakesQueuedSends | src/TcpConnection.cc:145-153 | With a shutdown requested and sends queued, the write event that drains the buffer half-closes ahead of them |
| Connections.HalfCloseOvertakesInARun | src/TcpConnection.cc:145-233 | Such a run from a new connection |
| Connections.DrainPerformsHalfClose | src/TcpConnection.cc:210-243 | A shutdown requested with bytes buffered is performed by the write event that drains the last byte, and not before |
| ConnectionEffects.SendEffect | src/TcpConnection.cc:61-143 | A send hands its bytes to the kernel only if nothing waits, keeps what the kernel leaves behind the buffered bytes with the write event asked for, gives them up only on EPIPE or ECONNRESET, is queued last from another thread, and is refused unless connected |
| ConnectionEffects.WriteEffect | src/TcpConnection.cc:210-243 | A write event moves as many bytes as the kernel takes from the front of the buffer to the stream, asks for no more events exactly when none are left, and then signals the end exactly if a shutdown was requested; otherwise it changes nothing |
| ConnectionEffects.EnoughWritesDrain | src/TcpConnection.cc:210-243 | Enough write events in which the kernel takes something empty the buffer, all bytes in order |
| ConnectionEffects.ShutdownEffect | src/TcpConnection.cc:145-163 | A shutdown of a connected connection signals the end once, at once if nothing waits and every byte is then accepted, or queues its functor last from another thread; it is refused otherwise |
| ConnectionEffects.EndIsSignalled | src/TcpConnection.cc:145-243 | In every run without a close, a connection that was shut down has had its end signalled, unless the functor is still queued or bytes are still buffered with the write event asked for |
| ConnectionEffects.NothingAfterTheEnd | src/TcpConnection.cc:61-78 | After a shutdown or a close, no run takes more data or files |
| ConnectionEffects.TaskEffect | src/TcpConnection.cc:61-321 | A queued functor does what the call it stands for would have done at that moment |
| ConnectionEffects.LateShutdownEffect | src/TcpConnection.cc:156-163 | A queued shutdown is issued even after a close, exactly if no write interest is set |
| ConnectionEffects.OpenAndCloseEffect | src/TcpConnection.cc:167-254 | A connection is established only once, and a close keeps the buffer, the queue and the stream |
| FileTransfers.FileTransferResumes | src/TcpConnection.cc:287-321 | Across all requeues each transfer has emitted exactly its stretch of the file, once and in order, and resumes there with offset plus remaining constant |
| FileTransfers.FileBytesWaitTheirTurn | src/TcpConnection.cc:292-314 | No step emits file bytes while bytes are buffered, write interest is set or a shutdown has been requested |
| ConnectionEffects.SendFileEffect | src/TcpConnection.cc:273-321 | A sendFile gives the kernel the next bytes of the file if nothing waits, and requeues the rest last unless the connection is broken; it is queued from another thread and refused unless connected |
| FileTransfers.TurnServesIff | src/TcpConnection.cc:287-321 | A turn of a transfer leaves it complete or requeued if and only if nothing is left to send, or no shutdown has been requested and the turn does not find the connection broken |
| FileTransfers.StepServedIff | src/TcpConnection.cc:273-321 | Over any event, a transfer stops short if and only if the event is such a turn of it, and one that stopped short stays so |
| FileTransfers.TransferStopsShortIff | src/TcpConnection.cc:273-321 | Over every run, with any shutdowns and broken answers, a transfer has stopped short if and only if some turn of it was refused |
| FileTransfers.StopsShortInARun | src/TcpConnection.cc:287-321 | Runs from a new connection that stop short, by a shutdown and by a broken connection |
| TcpConnectionClass.TcpConnection.constructor | src/TcpConnection.cc:27-54 | A new connection is kConnecting with nothing buffered, queued or sent |
| TcpConnectionClass.TcpConnection.SendInLoop | src/TcpConnection.cc:83-143 | Takes the machine's step on the real buffer: direct write, then the remainder buffered with write interest |
| TcpConnectionClass.TcpConnection.HandleWrite | src/TcpConnection.cc:210-243 | Takes the machine's step: drains what the kernel accepts, half-closes on the last byte if disconnecting |
| TcpConnectionClass.TcpConnection.ShutdownInLoop | src/TcpConnection.cc:156-163 | Half-closes exactly if no write interest is set |
| TcpConnectionClass.TcpConnection.Send | src/TcpConnection.cc:61-78 | Hands the data over or queues it, and does nothing unless connected |
| TcpConnectionClass.TcpConnection.Shutdown | src/TcpConnection.cc:145-153 | Changes the state first, then half-closes or queues the attempt |
| TcpConnectionClass.TcpConnection.SendFile | src/TcpConnection.cc:273-284 | Starts the transfer or queues it, and does nothing unless connected |
| TcpConnectionClass.TcpConnection.SendFileInLoop | src/TcpConnection.cc:287-321 | Emits the next stretch only if nothing is buffered or waiting, and requeues the rest |
| TcpConnectionClass.TcpConnection.HandleClose | src/TcpConnection.cc:245-254 | Disconnects and drops write interest, keeping the buffer |
| TcpConnectionClass.TcpConnection.Handle | src/TcpConnection.cc:61-321 | Any event keeps the stream invariants of the object |
| Rings.VirtualNodesDiffer | include/ConsistenHash.h:22-22 | Names of virtual nodes are unambiguous, whatever node names contain |
| Rings.EveryHistoryIsSafe | include/ConsistenHash.h:19-56 | For every hash function and history, the vector stays sorted and holds every key of the map, and no lookup dereferences its end |
| Rings.GetNodeSafe | include/ConsistenHash.h:45-56 | A lookup leaves the vector alone, and throws exactly if the map is empty |
| RingTheorems.HistoryHolds | include/ConsistenHash.h:19-56 | Without collisions the ring holds exactly the replicas of its members after any history of additions of absent nodes, removals of any nodes, and lookups |
| RingTheorems.OrderDoesNotMatter | include/ConsistenHash.h:19-42 | Two such histories with the same members build the same ring, for any hash that tells the names of virtual nodes apart |
| RingTheorems.RemoveAbsent | include/ConsistenHash.h:31-42 | Removing a node that is not on the ring changes nothing |
| RingTheorems.SeparatingNames | include/ConsistenHash.h:22-23 | A hash that tells the names apart keeps all points of all nodes apart |
| RingTheorems.OwnerOfSuccessor | include/ConsistenHash.h:45-56 | getNode returns the owner of the strict clockwise successor of the key |
| RingTheorems.LookupEffect | include/ConsistenHash.h:45-56 | For every hash function and after any removals, a lookup looks at the strict clockwise successor among the points of the vector, answers its owner, and enters the empty name exactly if a removal has taken that owner |
| RingTheorems.GetEffect | include/ConsistenHash.h:45-56 | A lookup leaves the ring as it was if and only if the ring is empty or the map has that successor |
| RingTheorems.SuccessorUnique | include/ConsistenHash.h:51-54 | That successor is unique |
| RingTheorems.AddMovesKeysToNewNode | include/ConsistenHash.h:19-28 | Adding a node moves keys only to that node |
| RingTheorems.RemoveMovesOnlyItsKeys | include/ConsistenHash.h:31-42 | Removing a node moves only the keys it owned |
| RingTheorems.AddThenRemove | include/ConsistenHash.h:19-42 | Adding and removing a node restores the ring |
| RingTheorems.AddIsExactIff | include/ConsistenHash.h:19-28 | Adding yields exactly the replicas of the new membership if and only if the node was absent |
| RingTheorems.CollidingRemovalTakesTheOther | include/ConsistenHash.h:31-42 | Two nodes that collide: removing one takes the other's point from the map but not from the vector |
| RingRemoval.AddThenRemoveLeaves | include/ConsistenHash.h:19-42 | For every hash function, adding and removing a node restores the vector and takes from the map exactly the points of the node |
| RingRemoval.AddThenRemoveRestoresIff | include/ConsistenHash.h:19-42 | So the ring is restored if and only if none of the node's points was already taken |
| ThreadPools.ConsistentHash.AddNode | include/ConsistenHash.h:19-28 | Takes the machine's step, replica by replica, and stays safe |
| ThreadPools.ConsistentHash.RemoveNode | include/ConsistenHash.h:31-42 | Takes the machine's step, replica by replica, and stays safe |
| ThreadPools.ConsistentHash.GetNode | include/ConsistenHash.h:45-56 | Returns the machine's answer, including the insertion made by operator[]; finds a node exactly if the map is not empty |
| ThreadPools.ThreadNamesDiffer | src/EventLoopThreadPool.cc:28-30 | Threads of one pool have different names |
| ThreadPools.LookupOwned | include/ConsistenHash.h:45-56 | On a ring that nodes were only ever added to, a lookup answers the owner of the strict clockwise successor of the key, collisions or not |
| ThreadPools.NextThread | src/EventLoopThreadPool.cc:35-35 | Putting the next thread on the ring gives it all its points, also those that earlier threads had, and leaves the others |
| ThreadPools.OwnerIsTheThread | src/EventLoopThreadPool.cc:22-37 | A point that only one thread has belongs to this thread |
| ThreadPools.EventLoopThreadPool.Start | src/EventLoopThreadPool.cc:22-37 | Afterwards every thread is known under its name, and the ring has three points for each of them and no others, each point owned by the last thread that has it |
| ThreadPools.EventLoopThreadPool.GetNextLoop | src/EventLoopThreadPool.cc:47-57 | For every key and hash function it throws exactly if there is no thread, and otherwise returns the worker whose name owns the strict clockwise successor of the key, never the fallback |
| Pollers.OneUserPerDescriptor | src/EPollPoller.cc:64-110 | In an agreeing state at most one channel per descriptor is in use |
| Pollers.SetAgrees | src/EPollPoller.cc:64-97 | Changing the mask of a channel alone on its descriptor succeeds, keeps index, map and kernel in agreement and touches nothing else |
| Pollers.SettersSet | include/Channel.h:44-48 | Bit by bit, what each mask setter leaves in the mask, and that the kernel then watches the descriptor with exactly this mask, unless a watched channel has lost its last event |
| Pollers.RemoveAgrees | src/EPollPoller.cc:99-110 | Removing such a channel succeeds, leaves it kNew and its descriptor unwatched, and keeps the agreement |
| Pollers.StepAgreesIff | src/EPollPoller.cc:64-144 | A call succeeds and keeps the agreement if and only if no other channel uses the descriptor of an unused one, and channels are removed before they are destroyed |
| Pollers.AgreesThroughoutIff | src/EPollPoller.cc:64-144 | A history never fails in epoll_ctl and agrees throughout (kAdded iff watched with the current mask, kNew iff not in channels_) if and only if every call follows that rule |
| Pollers.AddFailsIff | src/EPollPoller.cc:69-83 | A mask change is fatal if and only if the channel is kNew and its descriptor already watched |
| Pollers.DelFailsIff | src/EPollPoller.cc:122-138 | In any state, an epoll_ctl failure is only logged exactly if a kAdded channel whose descriptor is not watched is removed or left without events |
| Pollers.DisablingTwiceRegisters | include/Channel.h:48-48 | After k calls of disableAll a watched channel is watched exactly if k is even, then with an empty mask |
| Pollers.ActiveAreWatched | src/EPollPoller.cc:112-120 | Every channel made active is kAdded, none twice, and for nothing beyond its mask, errors and hang-ups |
| Pollers.FilledLatest | src/EPollPoller.cc:112-120 | A reported channel ends up with what was last reported for it |
| Pollers.FilledLeaves | src/EPollPoller.cc:112-120 | A channel that is not reported is left alone |
| Pollers.FilledAgrees | src/EPollPoller.cc:112-120 | An agreeing poller gives each active channel exactly what was reported for it and stays agreeing |
| EPollPollerClass.Channel.constructor | src/Channel.cc:12-19 | A new channel is kNew with no interest |
| EPollPollerClass.Channel.Apply | include/Channel.h:44-48 | The mask setters take the machine's step and report the fatal case |
| EPollPollerClass.EPollPoller.Update | src/EPollPoller.cc:122-144 | ADD fails on a watched descriptor, MOD on an unwatched one; a failed DEL is only counted |
| EPollPollerClass.EPollPoller.UpdateChannel | src/EPollPoller.cc:64-97 | Takes the machine's step on index, map and kernel |
| EPollPollerClass.EPollPoller.RemoveChannel | src/EPollPoller.cc:99-110 | Takes the machine's step and never fails |
| EPollPollerClass.EPollPoller.FillActiveChannels | src/EPollPoller.cc:112-120 | Returns the reported channels in order and takes the machine's step, for any poller whose reported channels still exist |
| LifecycleTheorems.HandlerInOrder | src/EventLoop.cc:85-89 | The channel being dispatched belongs to a connection that is alive, established, not destroyed and on this loop |
| LifecycleSteps.FunctorFinds | src/EventLoop.cc:205-208 | The functor being run finds its connection alive; connectEstablished finds it new, connectDestroyed finds it closed and kDisconnected |
| LifecycleSteps.ReportedAreInUse | src/EventLoop.cc:84-84 | What a poll reports is alive, registered, established and on this loop |
| LifecycleSteps.UnheldIsDestroyed | src/TcpConnection.cc:177-186 | A connection that no shared pointer holds, not even one of a functor whose drain has not ended, has been destroyed and is out of its poller |
| LifecycleViews.MoveKeepsWeak | src/TcpConnection.cc:61-254 | Whatever happens to a connection keeps it listed, to be erased or to be destroyed for as long as its channel is registered or active or a bare pointer to it is to be used |
| LifecycleViews.MoveKeepsOrder | src/TcpConnection.cc:167-254 | And keeps the stages of its life in order |
| LifecycleViews.MoveKeepsListening | src/TcpConnection.cc:167-254 | And keeps an open connection watched for reading |
| LifecycleSteps.StepSucceeds | src/TcpServer.cc:66-122 | Every step of every loop and thread succeeds and moves every connection by one such move |
| LifecycleTheorems.StepKeeps | src/TcpServer.cc:66-122 | Every step of every loop and thread succeeds and keeps the invariant |
| LifecycleTheorems.EveryRunIsSafe | src/TcpServer.cc:66-122 | In every interleaving of all loops and threads in which bare pointers are queued while the connection is listed, with descriptors reused: no handler or functor touches a freed connection, no epoll_ctl fails, all pollers agree with their kernels, and every life is in order |
| LifecycleTheorems.InitIsGood | src/TcpServer.cc:56-63 | A server whose loops have just started satisfies the invariant |
| LifecycleTheorems.LivesAreInOrder | src/TcpConnection.cc:167-254 | Every connection is established once and before any handler, has no handler after connectDestroyed, and is destroyed only after a handleClose |
| LifecycleTheorems.InUseIsHeld | src/TcpServer.cc:93-122 | In every reachable state a connection not destroyed is held by connections_ or a queued functor, and what is registered, waiting for dispatch or meant by a queued bare pointer is such a connection |
| LifecycleTheorems.OpenConnectionsAreHeard | src/TcpConnection.cc:167-174 | In every reachable state, the kernel watches an established connection that was not closed, on its own loop, for reading at least |
| LifecycleTheorems.WriteInterestIff | src/TcpConnection.cc:83-243 | In every step of every loop and thread, the kernel watches an open connection for writing afterwards if and only if this step is a send that leaves a remainder, or it did before and this step does not drain the buffer |
| LifecycleTheorems.DestroyedOnlyInDrain | src/TcpConnection.cc:177-186 | connectDestroyed runs only while its loop drains its queue, after a handleClose, on a kDisconnected connection |
| LifecycleTheorems.NothingIsLeftOver | src/TcpServer.cc:107-122 | When all queues are empty each handleClose has had its erasure and its destruction, and connections_ lists exactly the connections never closed |
| LifecycleTheorems.GuardedRunIsSafe | src/EventLoop.cc:81-97 | From any state in which every connection is so guarded, no run touches a freed connection or fails in epoll_ctl |
| LateCalls.LateCallFaultsIff | src/TcpConnection.cc:61-78 | From any guarded state, earlier late calls included: after a bare pointer was queued some time after the state check, some run has a handler or a functor touch a freed connection if and only if the connection was no longer listed, no erasure of it was queued, and the call writes or no destruction waited in the queue it joined |
| LateCalls.LateRunIsSafeIff | src/TcpConnection.cc:61-153 | In every interleaving with any number of late calls, none too late at its moment, no step fails and all stays guarded; and exactly then does the server never get where it can touch a freed connection |
| LateCallRun.LateCallFaultsInARun | src/TcpConnection.cc:145-153 | A run from the start of a server after which such a call, of either kind, can touch a freed connection |
| TcpServerClass.TcpServer.constructor | src/TcpServer.cc:56-63 | A new server is the initial state and satisfies the invariant |
| TcpServerClass.TcpServer.NewConnection | src/TcpServer.cc:66-105 | Succeeds, keeps the invariant and takes the machine's step: constructs, lists and establishes, at once on the main loop and queued elsewhere |
| TcpServerClass.TcpServer.RemoveConnection | src/TcpServer.cc:107-111 | Erases at once on the main loop, queues the erasure elsewhere |
| TcpServerClass.TcpServer.RemoveConnectionInLoop | src/TcpServer.cc:113-122 | Unlists the connection and always queues its destruction on its io loop |
| TcpServerClass.TcpServer.ConnectEstablished | src/TcpConnection.cc:167-174 | Takes the machine's step, which never fails in epoll_ctl |
| TcpServerClass.TcpServer.ConnectDestroyed | src/TcpConnection.cc:177-186 | Takes the machine's step, with the kConnected branch, which never fails in epoll_ctl |
| TcpServerClass.TcpServer.HandleClose | src/TcpConnection.cc:245-254 | Succeeds, keeps the invariant and takes the machine's step for the connection being dispatched |
| TcpServerClass.TcpServer.HandleWrite | src/TcpConnection.cc:210-243 | Succeeds, keeps the invariant and takes the machine's step |
| TcpServerClass.TcpServer.Send | src/TcpConnection.cc:61-78 | Succeeds, keeps the invariant and takes the machine's step, on the io thread or from another |
| TcpServerClass.TcpServer.Shutdown | src/TcpConnection.cc:145-153 | Succeeds, keeps the invariant and takes the machine's step, on the io thread or from another |
| TcpServerClass.TcpServer.RunFunctor | src/EventLoop.cc:205-208 | The next functor of a drain succeeds, keeps the invariant and takes the machine's step |
| TcpServerClass.TcpServer.Advance | src/EventLoop.cc:81-97 | Polls, goes on to the next channel, swaps and ends a drain as the machine does |
| TcpServerClass.TcpServer.Serve | src/EventLoop.cc:81-97 | The object follows any interleaving of all loops and threads: it ends in the state of the run, with the invariant |

## Left out

- Socket, Acceptor, InetAddress, Logger, CurrentThread, DefaultPoller, the build files and the stress script: wrappers, formatting and tooling.
- Real system calls: each is replaced by the answers described above; `events_` and its resizing are not modelled.
- Thread and EventLoopThread: the start-up handshake and the join.
- Channel::handleEventWithGuard: the order close, error, read, write within one event; the lifecycle machine allows the handlers of the current channel in any order and number.
- The writeComplete and highWaterMark callbacks, and the input side of a connection beyond `readFd`.
- Queued sends carry their data by value; the source queues a bare pointer to it.
- The racing write of `state_` in `shutdown`: changes of the state are atomic with their check, so a late kDisconnecting never overwrites kDisconnected.
- LifecycleTheorems.EveryRunIsSafe: bare pointers are queued while the server lists the connection; `LateCalls.LateRunIsSafeIff` covers all others, without the order of lives.
- EPollPollerClass.EPollPoller.FillActiveChannels: the reported channels exist; the source would follow a dangling pointer.
- TimerSafety.EveryRunIsSafe: what the loop executes; the read by the caller of addTimer is in `TimerCalls`.
- TimerSafety.StepKeeps: likewise.
- TimerQueue and TcpServer destructors, and shared_ptr counting beyond who holds a connection.
- Differences between the system clock and the monotonic clock, and overflow of 64-bit times, sequence numbers and sizes.
- Termination of sendFile: a sendfile that returns zero requeues for ever.
- HandOff.NothingIsLost: makes no claim while a functor queued by the loop thread outside loop() waits, for which no wakeup is written.
- TimerSchedule.AlwaysArmed: assumes that handleRead reads a positive clock, since reset takes a non-positive expiration for none.
- RingTheorems.HistoryHolds: assumes distinct hashes and each node added once; for arbitrary hashes see `RingRemoval` and `Rings.EveryHistoryIsSafe`.
