/** The classes Channel and EPollPoller themselves, each method tied to the step it performs. */
module EPollPollerClass {
  import opened Outcomes
  import opened Pollers

  class Channel {
    const fd: int
    var events: Mask
    var revents: Mask
    var index: Index

    constructor (fd: int, ghost poller: EPollPoller)
      modifies poller`known
      ensures this !in old(poller.known) && poller.known == old(poller.known) + {this}
      ensures poller.State() == Step(old(poller.State()), Create(this, fd)).value
    {
      this.fd, events, revents, index := fd, NONE, NONE, New;
      new;
      poller.known := poller.known + {this};
      assert poller.State().chans == Step(old(poller.State()), Create(this, fd)).value.chans;
    }

    function Value(): Chan
      reads this
    {
      Chan(fd, events, revents, index)
    }

    method SetIndex(index: Index, ghost poller: EPollPoller)
      requires this in poller.known
      modifies this`index
      ensures this.index == index
      ensures poller.State() == Pollers.SetIndex(old(poller.State()), this, index)
    {
      this.index := index;
      assert poller.State().chans == Pollers.SetIndex(old(poller.State()), this, index).chans;
    }

    method SetEvents(events: Mask, ghost poller: EPollPoller)
      requires this in poller.known
      modifies this`events
      ensures this.events == events
      ensures poller.State() == Pollers.SetEvents(old(poller.State()), this, events)
    {
      this.events := events;
      assert poller.State().chans == Pollers.SetEvents(old(poller.State()), this, events).chans;
    }

    method SetRevents(revents: Mask, ghost poller: EPollPoller)
      requires this in poller.known
      modifies this`revents
      ensures poller.State() == Pollers.SetRevents(old(poller.State()), this, revents)
    {
      this.revents := revents;
      assert poller.State().chans == Pollers.SetRevents(old(poller.State()), this, revents).chans;
    }

    /** The mask setters: change `events_`, then have the poller follow. `ok` is false where the program
        would stop in LOG_FATAL. */
    method Apply(change: Change, poller: EPollPoller) returns (ok: bool)
      requires this in poller.known
      modifies this, poller
      ensures poller.known == old(poller.known)
      ensures ok <==> Step(old(poller.State()), Set(this, change)).Ok?
      ensures ok ==> poller.State() == Step(old(poller.State()), Set(this, change)).value
    {
      hide Pollers.UpdateChannel;
      var mask := match change
        case EnableReading => events + READ
        case DisableReading => events - READ
        case EnableWriting => events + WRITE
        case DisableWriting => events - WRITE
        case DisableAll => NONE;
      SetEvents(mask, poller);
      ok := poller.UpdateChannel(this);
    }
  }

  class EPollPoller {
    var channels: map<int, Channel>             // channels_
    var kernel: map<int, Interest<Channel>>     // the epoll instance
    var delErrors: nat
    ghost var known: set<Channel>

    constructor ()
      ensures State() == Empty() && known == {}
    {
      channels, kernel, delErrors, known := map[], map[], 0, {};
    }

    ghost function State(): Poller<Channel>
      reads this, known
    {
      Poller(map c | c in known :: c.Value(), channels, kernel, delErrors)
    }

    /** `update` */
    method Update(op: Op, channel: Channel) returns (ok: bool)
      requires channel in known
      modifies this`kernel, this`delErrors
      ensures ok <==> Control(old(State()), op, channel).Ok?
      ensures ok ==> State() == Control(old(State()), op, channel).value
    {
      var fd := channel.fd;
      var watched := fd in kernel;
      if op.Del? {
        if watched { kernel := kernel - {fd}; } else { delErrors := delErrors + 1; }
        ok := true;
      } else {
        ok := op.Mod? == watched;
        if ok { kernel := kernel[fd := Interest(channel.events, channel)]; }
      }
    }

    method UpdateChannel(channel: Channel) returns (ok: bool)
      requires channel in known
      modifies this`channels, this`kernel, this`delErrors, channel`index
      ensures ok <==> Pollers.UpdateChannel(old(State()), channel).Ok?
      ensures ok ==> State() == Pollers.UpdateChannel(old(State()), channel).value
    {
      var index := channel.index;
      if index.New? || index.Deleted? {
        if index.New? { channels := channels[channel.fd := channel]; }
        assert State() == old(State()).(channels := channels);
        channel.SetIndex(Added, this);
        ok := Update(Add, channel);
      } else if channel.events == NONE {
        ok := Update(Del, channel);
        channel.SetIndex(Deleted, this);
      } else {
        ok := Update(Mod, channel);
      }
    }

    method RemoveChannel(channel: Channel)
      requires channel in known
      modifies this`channels, this`kernel, this`delErrors, channel`index
      ensures Pollers.RemoveChannel(old(State()), channel).Ok?
      ensures State() == Pollers.RemoveChannel(old(State()), channel).value
    {
      channels := channels - {channel.fd};
      assert State() == old(State()).(channels := channels);
      if channel.index.Added? {
        var _ := Update(Del, channel);
      }
      channel.SetIndex(New, this);
    }

    /** `fillActiveChannels`: the reported channels, in order, each with what was last reported for it. The
        channels must still exist. */
    method FillActiveChannels(reports: seq<Report>) returns (active: seq<Channel>)
      requires MayReport(State(), reports)
      requires forall i :: 0 <= i < |reports| ==> kernel[reports[i].fd].channel in known
      modifies known
      ensures active == ActiveOf(old(State()), reports)
      ensures State() == Filled(old(State()), reports, |reports|)
    {
      hide Filled;
      ghost var before := State();
      FilledNone(before, reports);
      active := [];
      var i := 0;
      while i < |reports|
        modifies known
        invariant 0 <= i <= |reports|
        invariant State() == Filled(before, reports, i)
        invariant active == ActiveOf(before, reports)[..i]
      {
        var channel := kernel[reports[i].fd].channel;
        FilledMore(before, reports, i);
        channel.SetRevents(reports[i].revents, this);
        active := active + [channel];
        i := i + 1;
      }
    }
  }

  lemma FilledNone(p: Poller<Channel>, reports: seq<Report>)
    requires MayReport(p, reports) && forall i :: 0 <= i < |reports| ==> p.kernel[reports[i].fd].channel in p.chans
    ensures Filled(p, reports, 0) == p
  {
  }

  lemma FilledMore(p: Poller<Channel>, reports: seq<Report>, n: nat)
    requires MayReport(p, reports) && n < |reports|
    requires forall i :: 0 <= i < |reports| ==> p.kernel[reports[i].fd].channel in p.chans
    ensures Filled(p, reports, n + 1) ==
            SetRevents(Filled(p, reports, n), p.kernel[reports[n].fd].channel, reports[n].revents)
  {
  }
}
