/** EPollPoller and Channel (src/EPollPoller.cc, include/Channel.h): a three-state index in each channel,
    the map `channels_` and the kernel's interest set, kept in step by updateChannel and removeChannel.
    `C` is the identity of a channel: the address that epoll hands back in `data.ptr`. */
module Pollers {
  import opened Outcomes

  /** The epoll event bits that the library uses. */
  datatype Bit = In | Pri | Out | Err | Hup

  type Mask = set<Bit>

  const NONE: Mask := {}
  const READ: Mask := {In, Pri}
  const WRITE: Mask := {Out}

  datatype Index = New | Added | Deleted

  datatype Chan = Chan(fd: int, events: Mask, revents: Mask, index: Index)

  /** What the kernel stores for a descriptor. */
  datatype Interest<C> = Interest(mask: Mask, channel: C)

  datatype Poller<C(==)> = Poller(
    chans: map<C, Chan>,             // the channels that exist
    channels: map<int, C>,           // channels_
    kernel: map<int, Interest<C>>,   // the interest set of epollfd_
    delErrors: nat)                  // how often a failed EPOLL_CTL_DEL was logged

  datatype Op = Add | Mod | Del

  function Empty<C(==)>(): Poller<C> { Poller(map[], map[], map[], 0) }

  /** `EPollPoller::update`: one epoll_ctl; a failed ADD or MOD is fatal, a failed DEL is logged. */
  function Control<C(==)>(p: Poller<C>, op: Op, c: C): Outcome<Poller<C>>
    requires c in p.chans
  {
    var fd := p.chans[c].fd;
    var entry := Interest(p.chans[c].events, c);
    match op
    case Add => if fd in p.kernel then Fault(141) else Ok(p.(kernel := p.kernel[fd := entry]))
    case Mod => if fd in p.kernel then Ok(p.(kernel := p.kernel[fd := entry])) else Fault(141)
    case Del =>
      if fd in p.kernel then Ok(p.(kernel := p.kernel - {fd})) else Ok(p.(delErrors := p.delErrors + 1))
  }

  function SetIndex<C(==)>(p: Poller<C>, c: C, index: Index): Poller<C>
    requires c in p.chans
  {
    p.(chans := p.chans[c := p.chans[c].(index := index)])
  }

  /** Where one call of updateChannel takes the index. */
  function NextIndex(index: Index, events: Mask): Index {
    if index.Added? && events == NONE then Deleted else Added
  }

  function UpdateChannel<C(==)>(p: Poller<C>, c: C): Outcome<Poller<C>>
    requires c in p.chans
  {
    var chan := p.chans[c];
    if chan.index.New? || chan.index.Deleted? then
      var q := if chan.index.New? then p.(channels := p.channels[chan.fd := c]) else p;
      Control(SetIndex(q, c, Added), Add, c)
    else if chan.events == NONE then
      var q :- Control(p, Del, c);
      Ok(SetIndex(q, c, Deleted))
    else
      Control(p, Mod, c)
  }

  function RemoveChannel<C(==)>(p: Poller<C>, c: C): Outcome<Poller<C>>
    requires c in p.chans
  {
    var chan := p.chans[c];
    var q := p.(channels := p.channels - {chan.fd});
    var r :- if chan.index.Added? then Control(q, Del, c) else Ok(q);
    Ok(SetIndex(r, c, New))
  }

  /** What the mask setters of Channel do to `events_`. */
  datatype Change = EnableReading | DisableReading | EnableWriting | DisableWriting | DisableAll

  function Changed(events: Mask, change: Change): Mask {
    match change
    case EnableReading => events + READ
    case DisableReading => events - READ
    case EnableWriting => events + WRITE
    case DisableWriting => events - WRITE
    case DisableAll => NONE
  }

  function SetEvents<C(==)>(p: Poller<C>, c: C, events: Mask): Poller<C>
    requires c in p.chans
  {
    p.(chans := p.chans[c := p.chans[c].(events := events)])
  }

  datatype Event<C> =
    | Create(channel: C, fd: int)               // the constructor of Channel
    | Set(channel: C, change: Change)           // a mask setter and the update it ends with
    | Remove(channel: C)
    | Destroy(channel: C)                       // the channel goes and its descriptor is closed

  predicate Possible<C(==)>(p: Poller<C>, e: Event<C>) {
    if e.Create? then e.channel !in p.chans else e.channel in p.chans
  }

  function Step<C(==)>(p: Poller<C>, e: Event<C>): Outcome<Poller<C>>
    requires Possible(p, e)
  {
    match e
    case Create(c, fd) => Ok(p.(chans := p.chans[c := Chan(fd, NONE, NONE, New)]))
    case Set(c, change) => UpdateChannel(SetEvents(p, c, Changed(p.chans[c].events, change)), c)
    case Remove(c) => RemoveChannel(p, c)
    case Destroy(c) => Ok(p.(chans := p.chans - {c}, kernel := p.kernel - {p.chans[c].fd}))
  }

  /** An event whose channel does not exist (or already does) does not happen. */
  function Run<C(==)>(p: Poller<C>, es: seq<Event<C>>): Outcome<Poller<C>>
    decreases |es|
  {
    if es == [] then Ok(p)
    else if !Possible(p, es[0]) then Run(p, es[1..])
    else
      var q :- Step(p, es[0]);
      Run(q, es[1..])
  }

  // ---------------------------------------------------------------------------
  // Agreement

  /** Index, map and kernel tell the same story about one channel. */
  ghost predicate ChanAgrees<C>(p: Poller<C>, c: C)
    requires c in p.chans
  {
    var chan := p.chans[c];
    && (chan.index.Added? <==> chan.fd in p.kernel && p.kernel[chan.fd] == Interest(chan.events, c))
    && (chan.index.New? <==> !(chan.fd in p.channels && p.channels[chan.fd] == c))
  }

  /** No entry of the map or the kernel belongs to a channel that is gone or has another descriptor. */
  ghost predicate EntriesOwned<C>(p: Poller<C>) {
    && (forall fd :: fd in p.channels ==> p.channels[fd] in p.chans && p.chans[p.channels[fd]].fd == fd)
    && (forall fd :: fd in p.kernel ==> p.kernel[fd].channel in p.chans &&
                                        p.kernel[fd] == Interest(p.chans[p.kernel[fd].channel].events, p.kernel[fd].channel) &&
                                        p.chans[p.kernel[fd].channel].fd == fd)
  }

  ghost predicate Agrees<C>(p: Poller<C>) {
    && (forall c :: c in p.chans ==> ChanAgrees(p, c))
    && EntriesOwned(p)
    && p.delErrors == 0
  }

  /** Some other channel on the same descriptor is in use. */
  ghost predicate Shared<C>(p: Poller<C>, c: C)
    requires c in p.chans
  {
    exists d :: d in p.chans && d != c && p.chans[d].fd == p.chans[c].fd && !p.chans[d].index.New?
  }

  /** The rule for callers: a channel that is not in use must not be registered or removed while another
      channel uses its descriptor; a channel is removed before it is destroyed, and its descriptor is
      closed only while nothing is registered for it. */
  ghost predicate Disciplined<C>(p: Poller<C>, e: Event<C>)
    requires Possible(p, e)
  {
    match e
    case Create(_, _) => true
    case Set(c, _) => p.chans[c].index.New? ==> !Shared(p, c)
    case Remove(c) => p.chans[c].index.New? ==> !Shared(p, c)
    case Destroy(c) => p.chans[c].index.New? && p.chans[c].fd !in p.kernel
  }

  /** At most one channel per descriptor is in use. */
  lemma OneUserPerDescriptor<C>(p: Poller<C>, c: C, d: C)
    requires Agrees(p) && c in p.chans && d in p.chans && p.chans[c].fd == p.chans[d].fd
    requires !p.chans[c].index.New? && !p.chans[d].index.New?
    ensures c == d
  {
    assert ChanAgrees(p, c) && ChanAgrees(p, d);
  }

  /** An index that is not Added means: not in the kernel, unless through another channel. */
  lemma KernelUser<C>(p: Poller<C>, c: C)
    requires Agrees(p) && c in p.chans && p.chans[c].fd in p.kernel
    ensures var d := p.kernel[p.chans[c].fd].channel;
            d in p.chans && p.chans[d].index.Added? && p.chans[d].fd == p.chans[c].fd
    ensures p.chans[c].index.New? ==> Shared(p, c)
    ensures !p.chans[c].index.Deleted?
  {
    var d := p.kernel[p.chans[c].fd].channel;
    assert ChanAgrees(p, d);
    if p.chans[c].index.Deleted? { OneUserPerDescriptor(p, c, d); }
  }

  lemma MapUser<C>(p: Poller<C>, c: C)
    requires Agrees(p) && c in p.chans && p.chans[c].fd in p.channels && p.chans[c].index.New?
    ensures Shared(p, c)
  {
    var d := p.channels[p.chans[c].fd];
    assert ChanAgrees(p, d) && ChanAgrees(p, c);
  }

  /** After a step on channel `c` it is enough to look at `c`, at the channels on its descriptor, and at
      the entries of that descriptor. */
  ghost predicate OnlyDescriptor<C>(p: Poller<C>, q: Poller<C>, c: C)
    requires c in p.chans
  {
    && q.chans.Keys == p.chans.Keys && q.delErrors == p.delErrors
    && (forall d :: d in p.chans && d != c ==> q.chans[d] == p.chans[d])
    && q.chans[c].fd == p.chans[c].fd
    && p.channels - {p.chans[c].fd} == q.channels - {p.chans[c].fd}
    && p.kernel - {p.chans[c].fd} == q.kernel - {p.chans[c].fd}
  }

  lemma OtherEntries<C>(p: Poller<C>, q: Poller<C>, c: C, fd: int)
    requires c in p.chans && OnlyDescriptor(p, q, c) && fd != p.chans[c].fd
    ensures (fd in q.channels <==> fd in p.channels) && (fd in q.kernel <==> fd in p.kernel)
    ensures fd in p.channels ==> q.channels[fd] == p.channels[fd]
    ensures fd in p.kernel ==> q.kernel[fd] == p.kernel[fd]
  {
    var gone := p.chans[c].fd;
    assert fd in p.channels <==> fd in p.channels - {gone};
    assert fd in q.channels <==> fd in q.channels - {gone};
    assert fd in p.kernel <==> fd in p.kernel - {gone};
    assert fd in q.kernel <==> fd in q.kernel - {gone};
    assert fd in p.channels ==> (p.channels - {gone})[fd] == (q.channels - {gone})[fd];
    assert fd in p.kernel ==> (p.kernel - {gone})[fd] == (q.kernel - {gone})[fd];
  }

  lemma LocalChange<C>(p: Poller<C>, q: Poller<C>, c: C)
    requires Agrees(p) && c in p.chans && OnlyDescriptor(p, q, c)
    requires !Shared(p, c)
    requires ChanAgrees(q, c)
    requires var fd := q.chans[c].fd;
             && (fd in q.channels ==> q.channels[fd] == c)
             && (fd in q.kernel ==> q.kernel[fd] == Interest(q.chans[c].events, c))
    ensures Agrees(q)
  {
    forall d | d in q.chans
      ensures ChanAgrees(q, d)
    {
      assert ChanAgrees(p, d);
      if d != c && p.chans[d].fd != p.chans[c].fd { OtherEntries(p, q, c, p.chans[d].fd); }
    }
    forall fd | fd in q.channels
      ensures q.channels[fd] in q.chans && q.chans[q.channels[fd]].fd == fd
    {
      if fd != p.chans[c].fd { OtherEntries(p, q, c, fd); }
    }
    forall fd | fd in q.kernel
      ensures q.kernel[fd].channel in q.chans && q.chans[q.kernel[fd].channel].fd == fd
      ensures q.kernel[fd] == Interest(q.chans[q.kernel[fd].channel].events, q.kernel[fd].channel)
    {
      if fd != p.chans[c].fd { OtherEntries(p, q, c, fd); }
    }
  }

  /** In an agreeing state a channel in use is alone on its descriptor. */
  lemma UsersAreAlone<C>(p: Poller<C>, c: C)
    requires Agrees(p) && c in p.chans && !p.chans[c].index.New?
    ensures !Shared(p, c)
  {
    assert forall d :: d in p.chans ==> ChanAgrees(p, d);
  }

  /** What agreement says about the descriptor of a channel that is alone on it. */
  lemma AloneOnDescriptor<C>(p: Poller<C>, c: C)
    requires Agrees(p) && c in p.chans && !Shared(p, c)
    ensures ChanAgrees(p, c)
    ensures p.chans[c].fd in p.kernel <==> p.chans[c].index.Added?
    ensures p.chans[c].fd in p.channels <==> !p.chans[c].index.New?
  {
    if p.chans[c].fd in p.kernel { KernelUser(p, c); }
    if p.chans[c].fd in p.channels && p.chans[c].index.New? { MapUser(p, c); }
  }

  lemma SetAgrees<C>(p: Poller<C>, c: C, change: Change)
    requires Agrees(p) && c in p.chans && !Shared(p, c)
    ensures var r := Step(p, Set(c, change));
            && r.Ok? && Agrees(r.value) && OnlyDescriptor(p, r.value, c)
            && r.value.chans[c].events == Changed(p.chans[c].events, change)
            && r.value.chans[c].index == NextIndex(p.chans[c].index, Changed(p.chans[c].events, change))
  {
    hide Agrees, Shared;
    AloneOnDescriptor(p, c);
    var fd := p.chans[c].fd;
    var q := Step(p, Set(c, change)).value;
    assert p.channels - {fd} == q.channels - {fd};
    assert p.kernel - {fd} == q.kernel - {fd};
    LocalChange(p, q, c);
  }

  /** What each setter leaves in the mask, bit by bit, and whether the kernel then watches the descriptor: with
      exactly this mask, unless a watched channel has lost its last event. */
  lemma SettersSet<C>(p: Poller<C>, c: C, change: Change)
    requires Agrees(p) && c in p.chans && !Shared(p, c)
    ensures Step(p, Set(c, change)).Ok?
    ensures var q := Step(p, Set(c, change)).value; var before := p.chans[c].events;
            && c in q.chans
            && var mask := q.chans[c].events;
               && (Out in mask <==> change == EnableWriting || (Out in before && change != DisableWriting && change != DisableAll))
               && (In in mask <==> change == EnableReading || (In in before && change != DisableReading && change != DisableAll))
               && (Pri in mask <==> change == EnableReading || (Pri in before && change != DisableReading && change != DisableAll))
               && (Err in mask <==> Err in before && change != DisableAll)
               && (Hup in mask <==> Hup in before && change != DisableAll)
               && (p.chans[c].fd in q.kernel <==> !(p.chans[c].index.Added? && mask == {}))
               && (p.chans[c].fd in q.kernel ==> q.kernel[p.chans[c].fd] == Interest(mask, c))
  {
    SetAgrees(p, c, change);
    hide Agrees, Shared;
    var q := Step(p, Set(c, change)).value;
    StillAlone(p, q, c);
    AloneOnDescriptor(q, c);
  }

  lemma StillAlone<C>(p: Poller<C>, q: Poller<C>, c: C)
    requires c in p.chans && !Shared(p, c) && OnlyDescriptor(p, q, c)
    ensures !Shared(q, c)
  {
  }

  lemma RemoveAgrees<C>(p: Poller<C>, c: C)
    requires Agrees(p) && c in p.chans && !Shared(p, c)
    ensures var r := Step(p, Remove(c));
            && r.Ok? && Agrees(r.value) && OnlyDescriptor(p, r.value, c)
            && r.value.chans[c].index.New? && p.chans[c].fd !in r.value.kernel
  {
    hide Agrees, Shared;
    AloneOnDescriptor(p, c);
    var fd := p.chans[c].fd;
    var q := Step(p, Remove(c)).value;
    assert p.channels - {fd} == q.channels - {fd};
    assert p.kernel - {fd} == q.kernel - {fd};
    LocalChange(p, q, c);
  }

  lemma CreateAgrees<C>(p: Poller<C>, c: C, fd: int)
    requires Agrees(p) && c !in p.chans
    ensures var q := Step(p, Create(c, fd)).value;
            && Agrees(q) && q.chans.Keys == p.chans.Keys + {c} && q.kernel == p.kernel
            && q.chans[c].fd == fd && q.chans[c].events == {} && q.chans[c].index.New?
  {
    var q := Step(p, Create(c, fd)).value;
    forall d | d in q.chans
      ensures ChanAgrees(q, d)
    {
      if d != c { assert ChanAgrees(p, d); }
    }
  }

  lemma DestroyAgrees<C>(p: Poller<C>, c: C)
    requires Agrees(p) && Possible(p, Destroy(c)) && Disciplined(p, Destroy(c))
    ensures Agrees(Step(p, Destroy(c)).value)
  {
    var q := Step(p, Destroy(c)).value;
    assert q.kernel == p.kernel;
    assert ChanAgrees(p, c);
    forall d | d in q.chans
      ensures ChanAgrees(q, d)
    {
      assert ChanAgrees(p, d);
    }
  }

  /** Breaking the rule on a channel that is not in use takes the descriptor away from its user. */
  lemma SharedBreaks<C>(p: Poller<C>, e: Event<C>)
    requires Agrees(p) && Possible(p, e) && (e.Set? || e.Remove?)
    requires p.chans[e.channel].index.New? && Shared(p, e.channel)
    ensures var r := Step(p, e); r.Ok? ==> !Agrees(r.value)
  {
    var d :| d in p.chans && d != e.channel && p.chans[d].fd == p.chans[e.channel].fd && !p.chans[d].index.New?;
    var r := Step(p, e);
    assert ChanAgrees(p, d);
    if r.Ok? { assert !ChanAgrees(r.value, d); }
  }

  lemma DestroyBreaks<C>(p: Poller<C>, c: C)
    requires Agrees(p) && Possible(p, Destroy(c)) && !Disciplined(p, Destroy(c))
    ensures !Agrees(Step(p, Destroy(c)).value)
  {
    var q := Step(p, Destroy(c)).value;
    assert ChanAgrees(p, c);
    if p.chans[c].index.New? {
      KernelUser(p, c);
      var d := p.kernel[p.chans[c].fd].channel;
      assert d in q.chans && !ChanAgrees(q, d);
    } else {
      assert p.chans[c].fd in q.channels;
    }
  }

  /** A step succeeds and keeps the agreement exactly if it follows the rule. */
  lemma StepAgreesIff<C>(p: Poller<C>, e: Event<C>)
    requires Agrees(p) && Possible(p, e)
    ensures Step(p, e).Ok? && Agrees(Step(p, e).value) <==> Disciplined(p, e)
  {
    hide Agrees;
    match e
    case Create(c, fd) => CreateAgrees(p, c, fd);
    case Set(c, change) =>
      if Disciplined(p, e) {
        if !p.chans[c].index.New? { UsersAreAlone(p, c); }
        SetAgrees(p, c, change);
      } else {
        SharedBreaks(p, e);
      }
    case Remove(c) =>
      if Disciplined(p, e) {
        if !p.chans[c].index.New? { UsersAreAlone(p, c); }
        RemoveAgrees(p, c);
      } else {
        SharedBreaks(p, e);
      }
    case Destroy(c) => if Disciplined(p, e) { DestroyAgrees(p, c); } else { DestroyBreaks(p, c); }
  }

  /** Every event of the run follows the rule. */
  ghost predicate Followed<C>(p: Poller<C>, es: seq<Event<C>>)
    decreases |es|
  {
    es == [] ||
    if !Possible(p, es[0]) then Followed(p, es[1..])
    else Disciplined(p, es[0]) && (Step(p, es[0]).Ok? ==> Followed(Step(p, es[0]).value, es[1..]))
  }

  /** No event of the run fails, and the agreement holds after each. */
  ghost predicate AlwaysAgrees<C>(p: Poller<C>, es: seq<Event<C>>)
    decreases |es|
  {
    && Agrees(p)
    && (es == [] ||
        if !Possible(p, es[0]) then AlwaysAgrees(p, es[1..])
        else Step(p, es[0]).Ok? && AlwaysAgrees(Step(p, es[0]).value, es[1..]))
  }

  /** In every history, epoll_ctl never fails and index, map and kernel agree throughout, exactly if every
      call follows the rule. */
  lemma {:induction false} AgreesThroughoutIff<C>(p: Poller<C>, es: seq<Event<C>>)
    requires Agrees(p)
    ensures AlwaysAgrees(p, es) <==> Followed(p, es)
    ensures Followed(p, es) ==> Run(p, es).Ok? && Agrees(Run(p, es).value)
    decreases |es|
  {
    hide Agrees, Disciplined;
    if es != [] {
      if Possible(p, es[0]) {
        StepAgreesIff(p, es[0]);
        if Disciplined(p, es[0]) {
          AgreesThroughoutIff(Step(p, es[0]).value, es[1..]);
        } else if Step(p, es[0]).Ok? {
          assert !AlwaysAgrees(Step(p, es[0]).value, es[1..]);
        }
      } else {
        AgreesThroughoutIff(p, es[1..]);
      }
    }
  }

  /** The registration that would kill the program: an unused or a disabled channel whose descriptor is
      already watched. It can only be watched through another channel, so the channel is unused. */
  lemma AddFailsIff<C>(p: Poller<C>, c: C, change: Change)
    requires Agrees(p) && c in p.chans
    ensures Step(p, Set(c, change)) == Fault(141) <==> p.chans[c].index.New? && p.chans[c].fd in p.kernel
  {
    assert ChanAgrees(p, c);
    if p.chans[c].fd in p.kernel { KernelUser(p, c); }
  }

  /** The failure that the program only logs, in any state: a channel believed to be watched is taken out of the
      kernel, which does not watch its descriptor. */
  lemma DelFailsIff<C>(p: Poller<C>, e: Event<C>)
    requires Possible(p, e) && Step(p, e).Ok?
    ensures var q := Step(p, e).value; var c := e.channel;
            q.delErrors == p.delErrors +
              if c in p.chans && p.chans[c].index.Added? && p.chans[c].fd !in p.kernel
                 && (e.Remove? || (e.Set? && c in q.chans && q.chans[c].events == {})) then 1 else 0
  {
  }

  // ---------------------------------------------------------------------------
  // Disabling twice

  ghost function Disables<C>(c: C, k: nat): seq<Event<C>> {
    seq(k, i => Set(c, DisableAll))
  }

  /** disableAll on a channel that is already disabled registers it again, with an empty mask: after `k`
      calls a watched channel is watched exactly if `k` is even. */
  lemma {:induction false} DisablingTwiceRegisters<C>(p: Poller<C>, c: C, k: nat)
    requires Agrees(p) && c in p.chans && !p.chans[c].index.New?
    ensures var r := Run(p, Disables(c, k));
            && r.Ok? && Agrees(r.value) && c in r.value.chans && r.value.chans[c].fd == p.chans[c].fd
            && !r.value.chans[c].index.New?
            && (p.chans[c].fd in r.value.kernel <==> (p.chans[c].index.Added? <==> k % 2 == 0))
            && (k > 0 && p.chans[c].fd in r.value.kernel ==> r.value.kernel[p.chans[c].fd] == Interest(NONE, c))
    decreases k
  {
    hide Agrees, Step;
    if k == 0 {
      KernelIff(p, c);
    } else {
      assert Disables(c, k)[1..] == Disables(c, k - 1);
      UsersAreAlone(p, c);
      SetAgrees(p, c, DisableAll);
      var q := Step(p, Set(c, DisableAll)).value;
      DisablingTwiceRegisters(q, c, k - 1);
      if k == 1 { KernelIff(q, c); }
    }
  }

  lemma KernelIff<C>(p: Poller<C>, c: C)
    requires Agrees(p) && c in p.chans && !p.chans[c].index.New?
    ensures p.chans[c].fd in p.kernel <==> p.chans[c].index.Added?
    ensures p.chans[c].fd in p.kernel ==> p.kernel[p.chans[c].fd] == Interest(p.chans[c].events, c)
  {
    UsersAreAlone(p, c);
    AloneOnDescriptor(p, c);
  }

  // ---------------------------------------------------------------------------
  // Polling

  datatype Report = Report(fd: int, revents: Mask)

  /** What epoll_wait may return: watched descriptors, each once, with events that were asked for or that
      are always reported. */
  predicate MayReport<C(==)>(p: Poller<C>, reports: seq<Report>) {
    && (forall i :: 0 <= i < |reports| ==>
          && reports[i].fd in p.kernel
          && reports[i].revents <= p.kernel[reports[i].fd].mask + {Err, Hup})
    && (forall i, j :: 0 <= i < j < |reports| ==> reports[i].fd != reports[j].fd)
  }

  /** The channels behind the reports, in their order: what fillActiveChannels appends. */
  function ActiveOf<C(==)>(p: Poller<C>, reports: seq<Report>): seq<C>
    requires MayReport(p, reports)
  {
    seq(|reports|, i requires 0 <= i < |reports| => p.kernel[reports[i].fd].channel)
  }

  /** The states of two pollers differ at most in `revents_`. */
  ghost predicate SameButRevents<C>(p: Poller<C>, q: Poller<C>) {
    && q.(chans := p.chans) == p
    && q.chans.Keys == p.chans.Keys
    && forall c :: c in p.chans ==> q.chans[c].(revents := p.chans[c].revents) == p.chans[c]
  }

  lemma ReventsDoNotMatter<C>(p: Poller<C>, q: Poller<C>)
    requires Agrees(p) && SameButRevents(p, q)
    ensures Agrees(q)
  {
    forall c | c in q.chans
      ensures ChanAgrees(q, c)
    {
      assert ChanAgrees(p, c);
    }
  }

  /** Only watched channels become active, none twice, and none for events it is not interested in beyond
      errors and hang-ups. */
  lemma ActiveAreWatched<C>(p: Poller<C>, reports: seq<Report>, i: nat, j: nat)
    requires Agrees(p) && MayReport(p, reports) && i < |reports| && j < |reports|
    ensures var c := ActiveOf(p, reports)[i];
            && c in p.chans && p.chans[c].index.Added? && p.chans[c].fd == reports[i].fd
            && reports[i].revents <= p.chans[c].events + {Err, Hup}
    ensures i != j ==> ActiveOf(p, reports)[i] != ActiveOf(p, reports)[j]
  {
    var c := ActiveOf(p, reports)[i];
    assert reports[i].fd in p.kernel && c == p.kernel[reports[i].fd].channel;
    assert c in p.chans && ChanAgrees(p, c);
    if i != j { assert reports[j].fd in p.kernel && reports[i].fd != reports[j].fd; }
  }

  /** The loop of fillActiveChannels after `n` rounds. */
  function Filled<C(==)>(p: Poller<C>, reports: seq<Report>, n: nat): (q: Poller<C>)
    requires MayReport(p, reports) && n <= |reports|
    requires forall i :: 0 <= i < |reports| ==> p.kernel[reports[i].fd].channel in p.chans
    ensures q.chans.Keys == p.chans.Keys && q.kernel == p.kernel
  {
    if n == 0 then p
    else
      var q := Filled(p, reports, n - 1);
      SetRevents(q, p.kernel[reports[n - 1].fd].channel, reports[n - 1].revents)
  }

  function SetRevents<C(==)>(p: Poller<C>, c: C, revents: Mask): Poller<C>
    requires c in p.chans
  {
    p.(chans := p.chans[c := p.chans[c].(revents := revents)])
  }

  /** Nothing changes but `revents_`. */
  lemma {:induction false} FilledKeeps<C>(p: Poller<C>, reports: seq<Report>, n: nat, c: C)
    requires MayReport(p, reports) && n <= |reports| && c in p.chans
    requires forall i :: 0 <= i < |reports| ==> p.kernel[reports[i].fd].channel in p.chans
    ensures var q := Filled(p, reports, n);
            q.(chans := p.chans) == p && q.chans[c].(revents := p.chans[c].revents) == p.chans[c]
  {
    hide MayReport;
    if n > 0 { FilledKeeps(p, reports, n - 1, c); }
  }

  /** A channel that is not reported keeps even that. */
  lemma {:induction false} FilledLeaves<C>(p: Poller<C>, reports: seq<Report>, n: nat, c: C)
    requires MayReport(p, reports) && n <= |reports| && c in p.chans
    requires forall i :: 0 <= i < |reports| ==> p.kernel[reports[i].fd].channel in p.chans
    requires forall i :: 0 <= i < n ==> ActiveOf(p, reports)[i] != c
    ensures Filled(p, reports, n).chans[c] == p.chans[c]
  {
    hide MayReport;
    if n > 0 {
      FilledLeaves(p, reports, n - 1, c);
      assert ActiveOf(p, reports)[n - 1] != c;
    }
  }

  /** A reported channel ends up with what was last reported for it. */
  lemma {:induction false} FilledLatest<C>(p: Poller<C>, reports: seq<Report>, n: nat, i: nat)
    requires MayReport(p, reports) && i < n <= |reports|
    requires forall j :: 0 <= j < |reports| ==> p.kernel[reports[j].fd].channel in p.chans
    requires forall j :: i < j < n ==> ActiveOf(p, reports)[j] != ActiveOf(p, reports)[i]
    ensures ActiveOf(p, reports)[i] in p.chans
    ensures Filled(p, reports, n).chans[ActiveOf(p, reports)[i]].revents == reports[i].revents
  {
    hide MayReport;
    if i < n - 1 {
      FilledLatest(p, reports, n - 1, i);
      assert ActiveOf(p, reports)[n - 1] != ActiveOf(p, reports)[i];
    }
  }

  /** So an agreeing poller, which reports no channel twice, gives each what was reported for it and stays
      agreeing. */
  lemma FilledAgrees<C>(p: Poller<C>, reports: seq<Report>, i: nat)
    requires Agrees(p) && MayReport(p, reports) && i < |reports|
    ensures forall j :: 0 <= j < |reports| ==> p.kernel[reports[j].fd].channel in p.chans
    ensures var q := Filled(p, reports, |reports|); var c := ActiveOf(p, reports)[i];
            Agrees(q) && c in q.chans && q.chans[c].revents == reports[i].revents
  {
    hide Agrees, Filled;
    forall j | 0 <= j < |reports|
      ensures p.kernel[reports[j].fd].channel in p.chans
      ensures i < j ==> ActiveOf(p, reports)[j] != ActiveOf(p, reports)[i]
    {
      ActiveAreWatched(p, reports, j, i);
    }
    FilledLatest(p, reports, |reports|, i);
    var q := Filled(p, reports, |reports|);
    FilledKeeps(p, reports, |reports|, ActiveOf(p, reports)[i]);
    forall c | c in p.chans
      ensures q.chans[c].(revents := p.chans[c].revents) == p.chans[c]
    {
      FilledKeeps(p, reports, |reports|, c);
    }
    ReventsDoNotMatter(p, q);
  }
}
