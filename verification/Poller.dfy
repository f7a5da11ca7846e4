/** `Channel` and `Poller` themselves, with the back-pointers the poller keeps in its channels. */
module PollerClass {
  import opened Machine
  import opened ChannelModel
  import opened PollerModel

  class Channel {
    const fd: int
    var events: Interest
    var revents: Ready
    var index: int
    var eventHandling: bool

    constructor (fd: int)
      ensures this.fd == fd && events == NONE && revents == NOTHING && index == -1 && !eventHandling
    {
      this.fd := fd;
      events, revents, index, eventHandling := NONE, NOTHING, -1, false;
    }

    method EnableReading(poller: Poller)
      requires poller.Accepts(this)
      modifies this`events, this`index, poller
      ensures events == Interest(true, old(events).write) && poller.Updated(old(poller.table), old(index), this)
    {
      events := Interest(true, events.write);
      poller.UpdateChannel(this);
    }

    method EnableWriting(poller: Poller)
      requires poller.Accepts(this)
      modifies this`events, this`index, poller
      ensures events == Interest(old(events).read, true) && poller.Updated(old(poller.table), old(index), this)
    {
      events := Interest(events.read, true);
      poller.UpdateChannel(this);
    }

    method DisableWriting(poller: Poller)
      requires poller.Accepts(this)
      modifies this`events, this`index, poller
      ensures events == Interest(old(events).read, false) && poller.Updated(old(poller.table), old(index), this)
    {
      events := Interest(events.read, false);
      poller.UpdateChannel(this);
    }

    method DisableAll(poller: Poller)
      requires poller.Accepts(this)
      modifies this`events, this`index, poller
      ensures events == NONE && poller.Updated(old(poller.table), old(index), this)
    {
      events := NONE;
      poller.UpdateChannel(this);
    }

    /** The callbacks made for `revents`, in the order they are made. */
    method HandleEvent() returns (made: seq<Callback>)
      modifies this`eventHandling
      ensures made == Dispatch(revents) && !eventHandling
    {
      eventHandling := true;
      made := [];
      if revents.hup && !revents.pollin { made := made + [Close]; }
      if revents.err || revents.nval { made := made + [Error]; }
      if revents.pollin || revents.pri { made := made + [Read]; }
      if revents.out { made := made + [Write]; }
      eventHandling := false;
    }
  }

  class Poller {
    var pollfds: seq<PollFd>
    var channels: map<int, Channel>

    ghost var table: Table
    ghost var objects: set<Channel>

    constructor ()
      ensures Valid() && table == EMPTY && objects == {}
    {
      pollfds, channels, table, objects := [], map[], EMPTY, {};
    }

    /** `table` is what the array and the indices stored in the channels say, and it is consistent. */
    ghost predicate Linked()
      reads this, objects
    {
      && Inv(table) && pollfds == table.slots && channels.Keys == table.at.Keys
      && (forall fd | fd in channels ::
            channels[fd] in objects && channels[fd].fd == fd && channels[fd].index == table.at[fd])
    }

    /** The slot of `fd` holds its channel's current mask. */
    ghost predicate Current(fd: int)
      requires Linked() && fd in channels
      reads this, objects
    {
      Entry(table, fd).events == channels[fd].events
    }

    ghost predicate Valid()
      reads this, objects
    {
      Linked() && forall fd | fd in channels :: Current(fd)
    }

    /** Everything is current except perhaps `c`, which is registered here or was never registered anywhere. */
    ghost predicate Accepts(c: Channel)
      reads this, objects, c
    {
      && Linked() && 0 <= c.fd
      && (forall fd | fd in channels && fd != c.fd :: Current(fd))
      && (if c.index < 0 then c.fd !in channels else c.fd in channels && channels[c.fd] == c)
    }

    /** The state after an update of `c`, whose index was `index`, from the table `before`. */
    ghost predicate Updated(before: Table, index: int, c: Channel)
      reads this, objects, c
    {
      && Valid() && c.fd in channels && channels[c.fd] == c
      && PollerModel.Step(before, if index < 0 then Register(c.fd, c.events) else Modify(c.fd, c.events)) == Next(table)
    }

    method UpdateChannel(channel: Channel)
      requires Accepts(channel)
      modifies this, channel`index
      ensures Updated(old(table), old(channel.index), channel)
    {
      if channel.index < 0 {
        AddSlot(channel);
      } else {
        ChangeSlot(channel);
      }
    }

    /** A new channel gets a slot of its own at the end. */
    method AddSlot(channel: Channel)
      requires Accepts(channel) && channel.index < 0
      modifies this, channel`index
      ensures Updated(old(table), old(channel.index), channel)
    {
      RegisterInv(table, Register(channel.fd, channel.events));
      pollfds := pollfds + [PollFd(channel.fd, channel.events, NOTHING)];
      channel.index := |pollfds| - 1;
      channels := channels[channel.fd := channel];
      objects := objects + {channel};
      table := PollerModel.Step(table, Register(channel.fd, channel.events)).state;
    }

    /** A registered channel changes its slot in place; an empty mask turns the descriptor into `-fd - 1`. */
    method ChangeSlot(channel: Channel)
      requires Accepts(channel) && channel.index >= 0
      modifies this
      ensures Updated(old(table), channel.index, channel)
    {
      ModifyInv(table, Modify(channel.fd, channel.events));
      var idx := channel.index;
      var pfd := pollfds[idx];
      assert pfd.fd == channel.fd || pfd.fd == -channel.fd - 1;
      pfd := PollFd(pfd.fd, channel.events, NOTHING);
      if channel.events.IsNone() {
        pfd := pfd.(fd := -channel.fd - 1);
      }
      pollfds := pollfds[idx := pfd];
      table := PollerModel.Step(table, Modify(channel.fd, channel.events)).state;
    }

    /** The slot of a disabled channel is overwritten by the last one, whose channel learns its new index. */
    method RemoveChannel(channel: Channel)
      requires Valid() && channel.fd in channels && channels[channel.fd] == channel
      requires PollerModel.Step(table, Remove(channel.fd, channel.events)).Next?
      modifies this`pollfds, this`channels, this`table, objects`index
      ensures Valid() && channels == old(channels) - {channel.fd}
      ensures PollerModel.Step(old(table), Remove(channel.fd, channel.events)) == Next(table)
    {
      if channel.index == |pollfds| - 1 {
        DropLast(channel);
      } else {
        MoveLast(channel);
      }
    }

    method DropLast(channel: Channel)
      requires Valid() && channel.fd in channels && channels[channel.fd] == channel && channel.index == |pollfds| - 1
      modifies this`pollfds, this`channels, this`table
      ensures Valid() && channels == old(channels) - {channel.fd}
      ensures table == Table(old(table.slots)[..|old(pollfds)| - 1], old(table.at) - {channel.fd})
    {
      PopInv(table, channel.fd);
      channels := channels - {channel.fd};
      pollfds := pollfds[..|pollfds| - 1];
      table := Table(pollfds, table.at - {channel.fd});
    }

    method MoveLast(channel: Channel)
      requires Valid() && channel.fd in channels && channels[channel.fd] == channel && channel.index < |pollfds| - 1
      modifies this`pollfds, this`channels, this`table, objects`index
      ensures Valid() && channels == old(channels) - {channel.fd} && table == Swapped(old(table), channel.fd)
    {
      SwapInv(table, channel.fd);
      MoveSlot(channel, Swapped(table, channel.fd), Moved(table));
    }

    /** `u` is a table in which `moved` has the slot of `channel` and the others theirs. */
    ghost predicate Fits(channel: Channel, u: Table, moved: int)
      reads this, objects, channel
    {
      && Inv(u) && u.at.Keys == channels.Keys - {channel.fd} && moved in u.at
      && (forall x | x in u.at ::
            && channels[x] in objects && channels[x].fd == x && Entry(u, x).events == channels[x].events
            && u.at[x] == if x == moved then channel.index else channels[x].index)
    }

    method MoveSlot(channel: Channel, ghost u: Table, ghost moved: int)
      requires Fits(channel, u, moved) && 0 <= channel.index < |pollfds| - 1
               && moved == Decode(pollfds[|pollfds| - 1].fd)
      requires u.slots == pollfds[channel.index := pollfds[|pollfds| - 1]][..|pollfds| - 1]
      modifies this`pollfds, this`channels, this`table, objects`index
      ensures Valid() && channels == old(channels) - {channel.fd} && table == u
    {
      var idx := channel.index;
      channels := channels - {channel.fd};
      var channelAtEnd := pollfds[|pollfds| - 1].fd;
      pollfds := pollfds[idx := pollfds[|pollfds| - 1]];
      if channelAtEnd < 0 {
        channelAtEnd := -channelAtEnd - 1;
      }
      channels[channelAtEnd].index := idx;
      pollfds := pollfds[..|pollfds| - 1];
      table := u;
    }

    /** The channels poll() reported, each told what was reported. */
    method FillActiveChannels(answers: seq<Ready>) returns (active: seq<Channel>)
      requires Valid() && Answers(table, answers)
      modifies objects`revents
      ensures Valid() && Fds(active) == Active(table, answers, 0)
      ensures forall c | c in active :: Told(c, answers)
    {
      active := [];
      var i := 0;
      while i < |pollfds|
        invariant 0 <= i <= |pollfds| && Valid()
        invariant Active(table, answers, 0) == Fds(active) + Active(table, answers, i)
        invariant forall c | c in active :: Told(c, answers) && c.index < i
      {
        if answers[i].IsSet() {
          var channel := Report(i, answers);
          assert Fds(active + [channel]) == Fds(active) + [pollfds[i].fd];
          active := active + [channel];
        }
        i := i + 1;
      }
    }

    /** A reported slot is not an ignored one, so its descriptor leads to its channel. */
    method Report(i: nat, answers: seq<Ready>) returns (channel: Channel)
      requires Valid() && Answers(table, answers) && i < |pollfds| && answers[i].IsSet()
      modifies objects`revents
      ensures Valid() && channel.fd == pollfds[i].fd && channel.index == i && Told(channel, answers)
      ensures forall c | c in objects && c != channel :: c.revents == old(c.revents)
    {
      var fd := pollfds[i].fd;
      assert fd >= 0 && table.at[Decode(fd)] == i;
      channel := channels[fd];
      assert channel.fd == fd;
      channel.revents := answers[i];
    }

    /** `c` is registered and has been told the answer for its own slot. */
    ghost predicate Told(c: Channel, answers: seq<Ready>)
      reads this, c
    {
      c.fd in channels && channels[c.fd] == c && 0 <= c.index < |answers| && c.revents == answers[c.index]
    }

    static ghost function Fds(cs: seq<Channel>): seq<int> {
      seq(|cs|, i requires 0 <= i < |cs| => cs[i].fd)
    }
  }
}
