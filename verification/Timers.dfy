/** The timer queue: two indexes over manually managed timers, with callbacks that re-enter the
    queue while a batch of expired timers is being run (src/TimerQueue.cc, src/Timer.cc). */
module Timers {
  import opened Outcomes

  /** Microseconds since the epoch, on one clock. */
  type Time = int

  /** No object lives at this address; `getExpired` uses it as a sentinel above every pointer. */
  const MAX_POINTER: nat := 0xFFFF_FFFF_FFFF_FFFF

  /** The shortest delay the timerfd is ever armed with, in microseconds. */
  const MIN_DELAY := 100

  datatype Timer = Timer(expiration: Time, interval: real, sequence: nat) {
    predicate Repeats() { interval > 0.0 }

    /** A periodic timer is moved one interval past `now`; a one-shot timer becomes invalid (time 0). */
    function Restarted(now: Time): (t: Timer)
      ensures t.sequence == sequence && t.interval == interval
      ensures Repeats() ==> now <= t.expiration <= now + (interval * 1000000.0).Floor
    {
      this.(expiration := if Repeats() then now + (interval * 1000000.0).Floor else 0)
    }
  }

  /** What `addTimer` hands out: the address of the timer object and its sequence number. */
  datatype TimerId = TimerId(address: nat, sequence: nat)

  /** An element of `timers_`, ordered by expiration and then by address. */
  datatype Entry = Entry(when: Time, address: nat)

  predicate Before(a: Entry, b: Entry) {
    a.when < b.when || (a.when == b.when && a.address < b.address)
  }

  ghost predicate Sorted(s: seq<Entry>) {
    |s| <= 1 || (Before(s[0], s[1]) && Sorted(s[1..]))
  }

  /** The same, pair by pair. */
  ghost predicate Ordered(s: seq<Entry>) {
    forall i, j :: 0 <= i < j < |s| ==> Before(s[i], s[j])
  }

  lemma {:induction false} SortedIsOrdered(s: seq<Entry>)
    ensures Sorted(s) <==> Ordered(s)
    decreases |s|
  {
    if |s| > 1 {
      SortedIsOrdered(s[1..]);
      var t := s[1..];
      assert forall i :: 1 <= i < |s| ==> s[i] == t[i - 1];
      assert Ordered(s) ==> Ordered(t);
      if Before(s[0], s[1]) && Ordered(t) {
        forall j | 1 <= j < |s| ensures Before(s[0], s[j]) {
          assert j == 1 || Before(t[0], t[j - 1]);
        }
      }
    }
  }

  lemma SortedParts(s: seq<Entry>, t: seq<Entry>)
    requires Sorted(s + t)
    ensures Sorted(s) && Sorted(t)
  {
    SortedIsOrdered(s + t);
    SortedIsOrdered(s);
    SortedIsOrdered(t);
    assert forall i :: 0 <= i < |s| ==> s[i] == (s + t)[i];
    assert forall i :: 0 <= i < |t| ==> t[i] == (s + t)[|s| + i];
  }

  /** Position of the first entry that is not before `e`. */
  function LowerBound(s: seq<Entry>, e: Entry): (n: nat)
    ensures n <= |s|
    ensures forall i :: 0 <= i < n ==> Before(s[i], e)
    ensures n < |s| ==> !Before(s[n], e)
  {
    if s == [] || !Before(s[0], e) then 0 else 1 + LowerBound(s[1..], e)
  }

  function InsertEntry(s: seq<Entry>, e: Entry): seq<Entry> {
    var n := LowerBound(s, e);
    s[..n] + [e] + s[n..]
  }

  /** Erasing by value, as `std::set::erase(key)` does. */
  function EraseEntry(s: seq<Entry>, e: Entry): seq<Entry> {
    var n := LowerBound(s, e);
    if n < |s| && s[n] == e then s[..n] + s[n + 1..] else s
  }

  /** Sorted pieces around `e` make a sorted whole. */
  lemma SortedAround(s: seq<Entry>, n: nat, e: Entry)
    requires Sorted(s) && n <= |s|
    requires forall i :: 0 <= i < n ==> Before(s[i], e)
    requires n < |s| ==> Before(e, s[n])
    ensures Sorted(s[..n] + [e] + s[n..])
  {
    hide Sorted;
    SortedIsOrdered(s);
    var r := s[..n] + [e] + s[n..];
    SortedIsOrdered(r);
    assert forall i :: 0 <= i < |r| ==> r[i] == if i < n then s[i] else if i == n then e else s[i - 1];
    assert forall j :: n < j < |s| ==> Before(s[n], s[j]);
  }

  lemma {:induction false} InsertEntryOrdered(s: seq<Entry>, e: Entry)
    requires Sorted(s) && e !in s
    ensures Sorted(InsertEntry(s, e))
    ensures |InsertEntry(s, e)| == |s| + 1
    ensures forall x :: x in InsertEntry(s, e) <==> x == e || x in s
    ensures InsertEntry(s, e)[0] == if s == [] || Before(e, s[0]) then e else s[0]
  {
    hide Sorted, LowerBound;
    var n := LowerBound(s, e);
    assert n < |s| ==> s[n] in s;
    SortedAround(s, n, e);
    assert s == s[..n] + s[n..];
    assert n == 0 || Before(s[0], e);
  }

  lemma SortedWithout(s: seq<Entry>, n: nat)
    requires Sorted(s) && n < |s|
    ensures Sorted(s[..n] + s[n + 1..])
    ensures s[n] !in s[..n] + s[n + 1..]
    ensures |s| > 1 ==> s[0] == (s[..n] + s[n + 1..])[0] || Before(s[0], (s[..n] + s[n + 1..])[0])
  {
    hide Sorted;
    SortedIsOrdered(s);
    var r := s[..n] + s[n + 1..];
    SortedIsOrdered(r);
    assert forall i :: 0 <= i < |r| ==> r[i] == if i < n then s[i] else s[i + 1];
  }

  lemma {:induction false} EraseEntryOrdered(s: seq<Entry>, e: Entry)
    requires Sorted(s) && e in s
    ensures Sorted(EraseEntry(s, e))
    ensures |EraseEntry(s, e)| == |s| - 1
    ensures forall x :: x in EraseEntry(s, e) <==> x != e && x in s
    ensures EraseEntry(s, e) != [] ==> s[0] == EraseEntry(s, e)[0] || Before(s[0], EraseEntry(s, e)[0])
  {
    hide Sorted, LowerBound;
    var n := LowerBound(s, e);
    FoundAt(s, e);
    SortedWithout(s, n);
    assert s == s[..n] + [e] + s[n + 1..];
  }

  lemma FoundAt(s: seq<Entry>, e: Entry)
    requires Sorted(s) && e in s
    ensures var n := LowerBound(s, e); n < |s| && s[n] == e
  {
    hide Sorted, LowerBound;
    SortedIsOrdered(s);
    var k :| 0 <= k < |s| && s[k] == e;
    assert LowerBound(s, e) == k;
  }

  // ---------------------------------------------------------------------------
  // The timerfd

  /** `timespec` as passed to `timerfd_settime`. */
  datatype Timespec = Timespec(seconds: int, nanoseconds: int)

  /** The relative delay to program: never zero (which would disarm), never an invalid nanosecond count. */
  function HowMuchTimeFromNow(when: Time, now: Time): (t: Timespec)
    ensures 0 <= t.nanoseconds < 1_000_000_000 && 0 <= t.seconds
    ensures t.seconds * 1_000_000_000 + t.nanoseconds
         == 1000 * (if when - now < MIN_DELAY then MIN_DELAY else when - now)
  {
    var micros := if when - now < MIN_DELAY then MIN_DELAY else when - now;
    Timespec(micros / 1_000_000, micros % 1_000_000 * 1000)
  }

  datatype Alarm = Disarmed | Armed(deadline: Time, armedAt: Time)

  function ArmedFor(when: Time, at: Time): (a: Alarm)
    ensures a.Armed? && a.armedAt == at
    ensures a.deadline == if when < at + MIN_DELAY then at + MIN_DELAY else when
  {
    var t := HowMuchTimeFromNow(when, at);
    Armed(at + t.seconds * 1_000_000 + t.nanoseconds / 1000, at)
  }

  /** The descriptor is readable once the deadline has passed. */
  predicate Readable(a: Alarm, clock: Time) { a.Armed? && a.deadline <= clock }

  /** Reading consumes an expired one-shot alarm; an alarm still in the future stays armed. */
  function ReadAlarm(a: Alarm, clock: Time): Alarm {
    if Readable(a, clock) then Disarmed else a
  }

  // ---------------------------------------------------------------------------
  // The queue and its operations

  /** `Firing` is the time between `getExpired` and `reset`: `batch[next..]` has still to be run.
      `since` is the number of callbacks that had been run before this batch. */
  datatype Phase = Idle | Firing(batch: seq<Entry>, next: nat, now: Time, since: nat)

  datatype Queue = Queue(
    heap: map<nat, Timer>,      // live Timer objects by address
    created: nat,               // Timer::s_numCreated_
    timers: seq<Entry>,         // timers_, in set order
    active: set<TimerId>,       // activeTimers_
    canceling: set<TimerId>,    // cancelingTimers_
    queued: seq<nat>,           // timers whose addTimerInLoop is still a queued functor
    phase: Phase,               // callingExpiredTimers_ is phase.Firing?
    alarm: Alarm,
    fired: seq<nat>)            // sequence numbers of the callbacks run so far

  function Init(): Queue {
    Queue(map[], 0, [], {}, {}, [], Idle, Disarmed, [])
  }

  function IdOf(q: Queue, a: nat): TimerId
    requires a in q.heap
  {
    TimerId(a, q.heap[a].sequence)
  }

  function EarliestChanged(q: Queue, when: Time): bool {
    q.timers == [] || when < q.timers[0].when
  }

  /** `insert`, with its three assertions and its dereference of the timer. */
  function Insert(q: Queue, a: nat): Outcome<Queue> {
    if |q.timers| != |q.active| then Fault(219)
    else if a !in q.heap then Fault(221)
    else
      var e := Entry(q.heap[a].expiration, a);
      if e in q.timers then Fault(229)
      else if IdOf(q, a) in q.active then Fault(233)
      else
        var r := q.(timers := InsertEntry(q.timers, e), active := q.active + {IdOf(q, a)});
        if |r.timers| != |r.active| then Fault(236) else Ok(r)
  }

  function AddTimerInLoop(q: Queue, a: nat, at: Time): Outcome<Queue> {
    var r :- Insert(q, a);
    if a !in r.heap then Fault(119)
    else if EarliestChanged(q, r.heap[a].expiration)
    then Ok(r.(alarm := ArmedFor(r.heap[a].expiration, at)))
    else Ok(r)
  }

  function CancelInLoop(q: Queue, id: TimerId): Outcome<Queue> {
    if |q.timers| != |q.active| then Fault(126)
    else if id in q.active then
      if id.address !in q.heap then Fault(131)
      else
        var e := Entry(q.heap[id.address].expiration, id.address);
        if e !in q.timers then Fault(132)
        else
          var r := q.(timers := EraseEntry(q.timers, e), heap := q.heap - {id.address}, active := q.active - {id});
          if |r.timers| != |r.active| then Fault(140) else Ok(r)
    else if q.phase.Firing? then Ok(q.(canceling := q.canceling + {id}))
    else Ok(q)
  }

  /** The loop of `getExpired` that removes the batch from the second index. */
  function EraseActive(active: set<TimerId>, batch: seq<Entry>, heap: map<nat, Timer>): Outcome<set<TimerId>> {
    if batch == [] then Ok(active)
    else if batch[0].address !in heap then Fault(176)
    else
      var id := TimerId(batch[0].address, heap[batch[0].address].sequence);
      if id !in active then Fault(178) else EraseActive(active - {id}, batch[1..], heap)
  }

  function GetExpired(q: Queue, now: Time): Outcome<(seq<Entry>, Queue)> {
    if |q.timers| != |q.active| then Fault(166)
    else
      var end := LowerBound(q.timers, Entry(now, MAX_POINTER));
      if end < |q.timers| && now >= q.timers[end].when then Fault(170)
      else
        var active :- EraseActive(q.active, q.timers[..end], q.heap);
        var r := q.(timers := q.timers[end..], active := active);
        if |r.timers| != |r.active| then Fault(181) else Ok((q.timers[..end], r))
  }

  function BeginRead(q: Queue, now: Time): Outcome<Queue> {
    var (batch, r) :- GetExpired(q.(alarm := ReadAlarm(q.alarm, now)), now);
    Ok(r.(canceling := {}, phase := Firing(batch, 0, now, |r.fired|)))
  }

  /** One iteration of the callback loop of `handleRead`. */
  function Fire(q: Queue): Outcome<Queue>
    requires q.phase.Firing? && q.phase.next < |q.phase.batch|
  {
    var a := q.phase.batch[q.phase.next].address;
    if a !in q.heap then Fault(156)
    else Ok(q.(fired := q.fired + [q.heap[a].sequence], phase := q.phase.(next := q.phase.next + 1)))
  }

  /** One iteration of the loop of `reset`: restart a periodic timer that was not cancelled, free any other. */
  function ResetOne(q: Queue, a: nat, now: Time): Outcome<Queue> {
    if a !in q.heap then Fault(192)
    else if q.heap[a].Repeats() && IdOf(q, a) !in q.canceling
    then Insert(q.(heap := q.heap[a := q.heap[a].Restarted(now)]), a)
    else Ok(q.(heap := q.heap - {a}))
  }

  function ResetAll(q: Queue, batch: seq<Entry>, now: Time): Outcome<Queue>
    decreases |batch|
  {
    if batch == [] then Ok(q)
    else
      var r :- ResetOne(q, batch[0].address, now);
      ResetAll(r, batch[1..], now)
  }

  /** The tail of `reset`: program the timerfd for the earliest remaining timer. */
  function Rearm(q: Queue, at: Time): Outcome<Queue> {
    if q.timers == [] then Ok(q)
    else if q.timers[0].address !in q.heap then Fault(207)
    else
      var next := q.heap[q.timers[0].address].expiration;
      Ok(if next > 0 then q.(alarm := ArmedFor(next, at)) else q)
  }

  function Reset(q: Queue, batch: seq<Entry>, now: Time, at: Time): Outcome<Queue> {
    var r :- ResetAll(q, batch, now);
    Rearm(r, at)
  }

  // ---------------------------------------------------------------------------
  // Runs

  /** Everything that can happen to a queue. The addresses are the allocator's choice and `at`/`now`
      are clock readings. While a batch fires, the events between two `Fire`s are what the callback
      (and any other thread) does; they are unrestricted. */
  datatype Event =
    | Add(address: nat, when: Time, interval: real, at: Time)        // addTimer on the loop thread
    | AddElsewhere(address: nat, when: Time, interval: real)         // addTimer on another thread
    | RunQueuedAdd(at: Time)                                         // its functor, in a drain phase
    | Cancel(id: TimerId)                                            // cancelInLoop, any id at all
    | OtherQueueCreates                                              // the counter is shared by all queues
    | HandleReadBegins(now: Time)
    | RunNextCallback
    | HandleReadEnds(at: Time)

  /** What `new Timer` can return: never null, never the sentinel, never an address in use. */
  predicate Allocatable(q: Queue, a: nat) { 0 < a < MAX_POINTER && a !in q.heap }

  function Allocate(q: Queue, a: nat, when: Time, interval: real): Queue {
    q.(heap := q.heap[a := Timer(when, interval, q.created + 1)], created := q.created + 1)
  }

  /** One event; an event that cannot happen in the current phase leaves the queue unchanged. */
  function Step(q: Queue, e: Event): Outcome<Queue> {
    match e
    case Add(a, when, interval, at) =>
      if Allocatable(q, a) then AddTimerInLoop(Allocate(q, a, when, interval), a, at) else Ok(q)
    case AddElsewhere(a, when, interval) =>
      if Allocatable(q, a) then Ok(Allocate(q, a, when, interval).(queued := q.queued + [a])) else Ok(q)
    case RunQueuedAdd(at) =>
      if q.phase.Idle? && q.queued != [] then AddTimerInLoop(q.(queued := q.queued[1..]), q.queued[0], at) else Ok(q)
    case Cancel(id) => CancelInLoop(q, id)
    case OtherQueueCreates => Ok(q.(created := q.created + 1))
    case HandleReadBegins(now) => if q.phase.Idle? then BeginRead(q, now) else Ok(q)
    case RunNextCallback =>
      if q.phase.Firing? && q.phase.next < |q.phase.batch| then Fire(q) else Ok(q)
    case HandleReadEnds(at) =>
      if q.phase.Firing? && q.phase.next == |q.phase.batch|
      then Reset(q.(phase := Idle), q.phase.batch, q.phase.now, at) else Ok(q)
  }

  function Run(q: Queue, es: seq<Event>): Outcome<Queue>
    decreases |es|
  {
    if es == [] then Ok(q)
    else
      var r :- Step(q, es[0]);
      Run(r, es[1..])
  }

  lemma RunCons(q: Queue, e: Event, es: seq<Event>)
    requires Step(q, e).Ok?
    ensures Run(q, [e] + es) == Run(Step(q, e).value, es)
  {
    assert ([e] + es)[0] == e && ([e] + es)[1..] == es;
  }

  lemma {:induction false} RunConcat(q: Queue, es: seq<Event>, fs: seq<Event>)
    requires Run(q, es).Ok?
    ensures Run(q, es + fs) == Run(Run(q, es).value, fs)
    decreases |es|
  {
    if es == [] {
      assert es + fs == fs;
    } else {
      assert (es + fs)[0] == es[0] && (es + fs)[1..] == es[1..] + fs;
      RunConcat(Step(q, es[0]).value, es[1..], fs);
    }
  }
}
