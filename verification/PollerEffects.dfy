/** What the updates and removals do, read off the array that poll() is given. */
module PollerEffects {
  import opened Machine
  import opened ChannelModel
  import opened PollerModel

  /** What poll() is asked for a descriptor: its slot, through the index stored in its channel. */
  ghost function SlotOf(t: Table, fd: int): PollFd
    requires Inv(t) && fd in t.at
  {
    t.slots[t.at[fd]]
  }

  /** The other channels are polled as before. */
  ghost predicate OthersAs(t: Table, u: Table, fd: int)
    requires Inv(t) && Inv(u)
  {
    && u.at.Keys - {fd} == t.at.Keys - {fd}
    && forall x | x in t.at && x in u.at && x != fd ::
         SlotOf(u, x).fd == SlotOf(t, x).fd && SlotOf(u, x).events == SlotOf(t, x).events
  }

  lemma SameSlots(t: Table, u: Table, fd: int)
    requires Inv(t) && Inv(u) && Watched(u) - {fd} == Watched(t) - {fd}
    ensures OthersAs(t, u, fd)
  {
    var a, b := Watched(t) - {fd}, Watched(u) - {fd};
    assert a.Keys == t.at.Keys - {fd} && b.Keys == u.at.Keys - {fd};
    forall x | x in t.at && x in u.at && x != fd
      ensures SlotOf(u, x).fd == SlotOf(t, x).fd && SlotOf(u, x).events == SlotOf(t, x).events
    {
      assert x in a && a[x] == b[x] && a[x] == Entry(t, x) && b[x] == Entry(u, x);
    }
  }

  /** A new channel is polled for its mask, under its own descriptor, in a slot behind all others; a descriptor that is
      registered already fails the assertion. */
  lemma RegisterPolls(t: Table, fd: int, events: Interest)
    requires Inv(t) && fd >= 0
    ensures Step(t, Register(fd, events)).Fault? <==> fd in t.at
    ensures fd !in t.at ==>
              && Step(t, Register(fd, events)).Next?
              && var u := Step(t, Register(fd, events)).state;
              && Inv(u) && fd in u.at && u.at[fd] == |t.slots| && |u.slots| == |t.slots| + 1
              && SlotOf(u, fd) == PollFd(fd, events, NOTHING) && OthersAs(t, u, fd)
  {
    StepRefines(t, Register(fd, events));
    if fd !in t.at {
      var u := Step(t, Register(fd, events)).state;
      assert Watched(u) - {fd} == Watched(t) - {fd};
      SameSlots(t, u, fd);
    }
  }

  /** A change of mask takes effect in the channel's slot; an empty mask makes its descriptor `-fd - 1`, and a
      descriptor that is `-fd - 1` stays so whatever the mask. */
  lemma ModifyPolls(t: Table, fd: int, events: Interest)
    requires Inv(t)
    ensures Step(t, Modify(fd, events)).Fault? <==> fd !in t.at
    ensures fd in t.at ==>
              && Step(t, Modify(fd, events)).Next?
              && var u := Step(t, Modify(fd, events)).state;
              && Inv(u) && u.at == t.at && |u.slots| == |t.slots| && OthersAs(t, u, fd)
              && SlotOf(u, fd).events == events && SlotOf(u, fd).revents == NOTHING
              && SlotOf(u, fd).fd == if SlotOf(t, fd).fd < 0 || (!events.read && !events.write) then -fd - 1 else fd
  {
    StepRefines(t, Modify(fd, events));
    if fd in t.at {
      var u := Step(t, Modify(fd, events)).state;
      assert Watched(u) - {fd} == Watched(t) - {fd};
      SameSlots(t, u, fd);
    }
  }

  /** A removed channel is not polled any more, and one slot is gone.  It must be registered, have an empty mask,
      and have been told so to the poller. */
  lemma RemoveForgets(t: Table, fd: int, events: Interest)
    requires Inv(t)
    ensures Step(t, Remove(fd, events)).Next? <==>
              fd in t.at && events == NONE && SlotOf(t, fd).events == NONE && SlotOf(t, fd).fd == -fd - 1
    ensures !Step(t, Remove(fd, events)).Disabled?
    ensures Step(t, Remove(fd, events)).Next? ==>
              var u := Step(t, Remove(fd, events)).state;
              && Inv(u) && u.at.Keys == t.at.Keys - {fd} && |u.slots| == |t.slots| - 1 && OthersAs(t, u, fd)
              && (forall i | 0 <= i < |u.slots| :: Decode(u.slots[i].fd) != fd)
  {
    StepRefines(t, Remove(fd, events));
    if Step(t, Remove(fd, events)).Next? {
      var u := Step(t, Remove(fd, events)).state;
      assert Watched(u) - {fd} == Watched(t) - {fd};
      SameSlots(t, u, fd);
      OneSlotEach(t);
      OneSlotEach(u);
      assert |Watched(u)| == |Watched(t)| - 1 by {
        assert Watched(u).Keys == Watched(t).Keys - {fd} && |Watched(u).Keys| == |Watched(u)| && |Watched(t).Keys|
               == |Watched(t)|;
      }
    }
  }
}
