/** The `pollfds_` array and the channel indices, against a plain map from descriptors to registrations. */
module PollerModel {
  import opened Machine
  import opened ChannelModel
  import opened Sets

  datatype PollFd = PollFd(fd: int, events: Interest, revents: Ready)

  /** `at` holds the index stored in each registered channel. */
  datatype Table = Table(slots: seq<PollFd>, at: map<int, int>)

  datatype Event =
    | Register(fd: int, events: Interest)   // updateChannel of a channel whose index is negative
    | Modify(fd: int, events: Interest)     // updateChannel of a channel that has an index
    | Remove(fd: int, events: Interest)     // removeChannel of a channel with this mask

  function Decode(fd: int): int {
    if fd < 0 then -fd - 1 else fd
  }

  /** The channel whose slot is last. */
  function Moved(t: Table): int
    requires t.slots != []
  {
    Decode(t.slots[|t.slots| - 1].fd)
  }

  /** The last slot and its channel take the place of `fd`. */
  function Swapped(t: Table, fd: int): Table
    requires fd in t.at && 0 <= t.at[fd] < |t.slots|
  {
    Table(t.slots[t.at[fd] := t.slots[|t.slots| - 1]][..|t.slots| - 1], (t.at - {fd})[Moved(t) := t.at[fd]])
  }

  function Step(t: Table, e: Event): Outcome<Table> {
    match e
    case Register(fd, events) =>
      if fd < 0 then Disabled else
      if fd in t.at then Fault else
      Next(Table(t.slots + [PollFd(fd, events, NOTHING)], t.at[fd := |t.slots|]))
    case Modify(fd, events) =>
      if fd !in t.at || !(0 <= t.at[fd] < |t.slots|) then Fault else
      var k := t.at[fd];
      if t.slots[k].fd != fd && t.slots[k].fd != -fd - 1 then Fault else
      Next(t.(slots := t.slots[k := PollFd(if events.IsNone() then -fd - 1 else t.slots[k].fd, events, NOTHING)]))
    case Remove(fd, events) =>
      if fd !in t.at || !events.IsNone() || !(0 <= t.at[fd] < |t.slots|) then Fault else
      var k, last := t.at[fd], |t.slots| - 1;
      if t.slots[k].fd != -fd - 1 || t.slots[k].events != events then Fault else
      if k == last then Next(Table(t.slots[..last], t.at - {fd}))
      else if Moved(t) !in t.at - {fd} then Fault
      else Next(Swapped(t, fd))
  }

  /** Every slot belongs to one registered channel, and that channel's index names it. */
  ghost predicate Inv(t: Table) {
    && (forall i | 0 <= i < |t.slots| :: Decode(t.slots[i].fd) in t.at && t.at[Decode(t.slots[i].fd)] == i)
    && (forall fd | fd in t.at :: 0 <= fd && 0 <= t.at[fd] < |t.slots| && Decode(t.slots[t.at[fd]].fd) == fd)
  }

  ghost function Entry(t: Table, fd: int): Registration
    requires Inv(t) && fd in t.at
  {
    Registration(t.slots[t.at[fd]].events, t.slots[t.at[fd]].fd < 0)
  }

  /** The table read as a map. */
  ghost function Watched(t: Table): (m: map<int, Registration>)
    requires Inv(t)
    ensures m.Keys == t.at.Keys
  {
    map fd | fd in t.at :: Entry(t, fd)
  }

  /** The reference: what an update or a removal means for the map; `Fault` where the caller breaks the protocol. */
  function SpecStep(m: map<int, Registration>, e: Event): Outcome<map<int, Registration>> {
    match e
    case Register(fd, events) =>
      if fd < 0 then Disabled else if fd in m then Fault else Next(m[fd := Registration(events, false)])
    case Modify(fd, events) =>
      if fd !in m then Fault else Next(m[fd := Reregister(m[fd], events)])
    case Remove(fd, events) =>
      if fd !in m || !events.IsNone() || m[fd] != Registration(events, true) then Fault else Next(m - {fd})
  }

  /** The array, the swaps and the stored indices are invisible: each operation does to the map what the reference
      does. */
  lemma StepRefines(t: Table, e: Event)
    requires Inv(t)
    ensures match Step(t, e)
            case Next(u) => Inv(u) && SpecStep(Watched(t), e) == Next(Watched(u))
            case Disabled => SpecStep(Watched(t), e).Disabled?
            case Fault => SpecStep(Watched(t), e).Fault?
  {
    match e
    case Register(fd, _) => if fd >= 0 { RegisterRefines(t, e); }
    case Modify(_, _) => ModifyRefines(t, e);
    case Remove(_, _) => RemoveRefines(t, e);
  }

  /** Two tables that agree on the other channels read as the same map there. */
  lemma SameElsewhere(t: Table, u: Table, fd: int)
    requires Inv(t) && Inv(u) && t.at.Keys - {fd} == u.at.Keys - {fd}
    requires forall x | x in t.at && x in u.at && x != fd :: Entry(u, x) == Entry(t, x)
    ensures Watched(t) - {fd} == Watched(u) - {fd}
  {
    var a, b := Watched(t) - {fd}, Watched(u) - {fd};
    assert a.Keys == b.Keys;
    forall x | x in a ensures a[x] == b[x] { assert x in t.at && x in u.at && x != fd; }
  }

  lemma RegisterInv(t: Table, e: Event)
    requires Inv(t) && e.Register? && e.fd >= 0 && e.fd !in t.at
    ensures Step(t, e).Next? && Inv(Step(t, e).state)
    ensures var u := Step(t, e).state;
            u.at.Keys == t.at.Keys + {e.fd} && (forall x | x in t.at :: Entry(u, x) == Entry(t, x))
            && Entry(u, e.fd) == Registration(e.events, false)
  {
    var u := Step(t, e).state;
    forall i | 0 <= i < |u.slots| ensures Decode(u.slots[i].fd) in u.at && u.at[Decode(u.slots[i].fd)] == i {
      if i < |t.slots| { assert Decode(t.slots[i].fd) in t.at; }
    }
  }

  lemma RegisterRefines(t: Table, e: Event)
    requires Inv(t) && e.Register? && e.fd >= 0
    ensures Step(t, e).Fault? <==> e.fd in t.at
    ensures Step(t, e).Next? ==> Inv(Step(t, e).state) && SpecStep(Watched(t), e) == Next(Watched(Step(t, e).state))
  {
    if e.fd !in t.at {
      RegisterInv(t, e);
      var u := Step(t, e).state;
      SameElsewhere(t, u, e.fd);
      assert Watched(u) == (Watched(u) - {e.fd})[e.fd := Watched(u)[e.fd]];
      assert Watched(t) == Watched(t) - {e.fd};
    }
  }

  lemma ModifyInv(t: Table, e: Event)
    requires Inv(t) && e.Modify? && e.fd in t.at
    ensures Step(t, e).Next? && Inv(Step(t, e).state)
    ensures var u := Step(t, e).state; u.at == t.at && forall x | x in t.at && x != e.fd :: Entry(u, x) == Entry(t, x)
    ensures Entry(Step(t, e).state, e.fd) == Reregister(Entry(t, e.fd), e.events)
  {
    var k := t.at[e.fd];
    assert Decode(-e.fd - 1) == e.fd;
    assert forall x | x in t.at && x != e.fd :: t.at[x] != k;
  }

  lemma ModifyRefines(t: Table, e: Event)
    requires Inv(t) && e.Modify?
    ensures Step(t, e).Fault? <==> e.fd !in t.at
    ensures !Step(t, e).Disabled?
    ensures Step(t, e).Next? ==> Inv(Step(t, e).state) && SpecStep(Watched(t), e) == Next(Watched(Step(t, e).state))
  {
    if e.fd in t.at {
      ModifyInv(t, e);
      var u := Step(t, e).state;
      SameElsewhere(t, u, e.fd);
      assert Watched(u) == (Watched(u) - {e.fd})[e.fd := Watched(u)[e.fd]];
      assert Watched(t)[e.fd := Watched(u)[e.fd]] == (Watched(t) - {e.fd})[e.fd := Watched(u)[e.fd]];
    }
  }

  /** The removed slot is the last one. */
  lemma PopInv(t: Table, fd: int)
    requires Inv(t) && fd in t.at && t.at[fd] == |t.slots| - 1
    ensures var u := Table(t.slots[..|t.slots| - 1], t.at - {fd});
            Inv(u) && forall x | x in u.at :: Entry(u, x) == Entry(t, x)
  {
    assert forall x | x in t.at && x != fd :: t.at[x] < |t.slots| - 1;
  }

  /** The last slot takes the place of the removed one. */
  lemma SwapInv(t: Table, fd: int)
    requires Inv(t) && fd in t.at && t.at[fd] < |t.slots| - 1
    ensures var u := Swapped(t, fd);
            && Moved(t) in t.at && Moved(t) != fd && u.at.Keys == t.at.Keys - {fd}
            && Inv(u) && (forall x | x in u.at :: Entry(u, x) == Entry(t, x))
            && (forall x | x in u.at :: u.at[x] == if x == Moved(t) then t.at[fd] else t.at[x])
  {
    var k, last, moved := t.at[fd], |t.slots| - 1, Moved(t);
    var u := Swapped(t, fd);
    assert t.at[moved] == last;
    forall x | x in u.at ensures 0 <= u.at[x] < last && u.slots[u.at[x]] == t.slots[t.at[x]] {
      if x != moved { assert t.at[x] != last && t.at[x] != k; }
    }
    forall i | 0 <= i < last ensures Decode(u.slots[i].fd) in u.at && u.at[Decode(u.slots[i].fd)] == i {
      if i != k { assert t.at[Decode(t.slots[i].fd)] == i; }
    }
  }

  lemma RemoveInv(t: Table, e: Event)
    requires Inv(t) && e.Remove? && SpecStep(Watched(t), e).Next?
    ensures Step(t, e).Next? && Inv(Step(t, e).state)
    ensures var u := Step(t, e).state;
            u.at.Keys == t.at.Keys - {e.fd} && forall x | x in u.at :: Entry(u, x) == Entry(t, x)
  {
    if t.at[e.fd] == |t.slots| - 1 { PopInv(t, e.fd); } else { SwapInv(t, e.fd); }
  }

  lemma RemoveRefines(t: Table, e: Event)
    requires Inv(t) && e.Remove?
    ensures Step(t, e).Fault? <==> SpecStep(Watched(t), e).Fault?
    ensures !Step(t, e).Disabled?
    ensures Step(t, e).Next? ==> Inv(Step(t, e).state) && SpecStep(Watched(t), e) == Next(Watched(Step(t, e).state))
  {
    if SpecStep(Watched(t), e).Next? {
      RemoveInv(t, e);
      SameElsewhere(t, Step(t, e).state, e.fd);
      assert Watched(Step(t, e).state) == Watched(Step(t, e).state) - {e.fd};
    }
  }

  const EMPTY := Table([], map[])

  /** Over every run the array stays the map: same faults, same contents, one slot per channel. */
  lemma {:induction false} RunRefines(t: Table, es: seq<Event>)
    requires Inv(t)
    ensures match Run(Step, t, es)
            case Next(u) => Inv(u) && Run(SpecStep, Watched(t), es) == Next(Watched(u)) && |u.slots| == |Watched(u)|
            case Disabled => Run(SpecStep, Watched(t), es).Disabled?
            case Fault => Run(SpecStep, Watched(t), es).Fault?
    decreases |es|
  {
    if es == [] {
      OneSlotEach(t);
    } else {
      StepRefines(t, es[0]);
      if Step(t, es[0]).Next? {
        RunRefines(Step(t, es[0]).state, es[1..]);
      }
    }
  }

  /** Slots and registered channels are equally many. */
  lemma OneSlotEach(t: Table)
    requires Inv(t)
    ensures |t.slots| == |Watched(t)|
  {
    var fds := seq(|t.slots|, i requires 0 <= i < |t.slots| => Decode(t.slots[i].fd));
    forall i, j | 0 <= i < j < |fds| ensures fds[i] != fds[j] { assert t.at[fds[i]] == i && t.at[fds[j]] == j; }
    DistinctSize(fds);
    assert t.at.Keys == set x | x in fds by {
      forall fd | fd in t.at ensures fd in fds { assert fds[t.at[fd]] == fd; }
      forall i | 0 <= i < |fds| ensures fds[i] in t.at { }
    }
    assert |Watched(t)| == |Watched(t).Keys|;
  }

  // ---------- re-enabling ----------

  ghost function Modifications(fd: int, masks: seq<Interest>): seq<Event> {
    seq(|masks|, i requires 0 <= i < |masks| => Modify(fd, masks[i]))
  }

  /** A channel is polled exactly if no update since its registration had an empty mask; enabling it again does not
      help. */
  lemma {:induction false} MutedForGood(m: map<int, Registration>, fd: int, masks: seq<Interest>)
    requires fd in m
    ensures var r := Run(SpecStep, m, Modifications(fd, masks));
            && r.Next? && fd in r.state
            && (r.state[fd].muted <==> m[fd].muted || NONE in masks)
            && (masks != [] ==> r.state[fd].events == masks[|masks| - 1])
    decreases |masks|
  {
    var es := Modifications(fd, masks);
    if masks == [] {
      assert es == [];
    } else {
      assert es[1..] == Modifications(fd, masks[1..]);
      assert NONE in masks <==> masks[0] == NONE || NONE in masks[1..];
      MutedForGood(m[fd := Reregister(m[fd], masks[0])], fd, masks[1..]);
    }
  }

  // ---------- poll ----------

  /** Answers of poll(): none for an ignored entry, otherwise what the entry asks for. */
  ghost predicate Answers(t: Table, answers: seq<Ready>) {
    && |answers| == |t.slots|
    && (forall i | 0 <= i < |answers| ::
          if t.slots[i].fd < 0 then answers[i] == NOTHING else Allowed(answers[i], t.slots[i].events))
  }

  /** `fillActiveChannels`: the descriptors of the slots from `i` on that poll() reported. */
  function Active(t: Table, answers: seq<Ready>, i: nat): seq<int>
    requires |answers| == |t.slots| && i <= |t.slots|
    decreases |t.slots| - i
  {
    if i == |t.slots| then [] else
    (if answers[i].IsSet() then [t.slots[i].fd] else []) + Active(t, answers, i + 1)
  }

  /** Exactly the unmuted channels that poll() reported. */
  lemma {:induction false} ActiveExactly(t: Table, answers: seq<Ready>, i: nat)
    requires Inv(t) && Answers(t, answers) && i <= |t.slots|
    ensures forall fd :: fd in Active(t, answers, i) <==>
              fd in t.at && i <= t.at[fd] && !Watched(t)[fd].muted && answers[t.at[fd]].IsSet()
    decreases |t.slots| - i
  {
    if i < |t.slots| {
      ActiveExactly(t, answers, i + 1);
      assert forall fd | fd in t.at && t.at[fd] == i :: fd == Decode(t.slots[i].fd);
    }
  }

  ghost predicate InSlotOrder(t: Table, a: seq<int>) {
    && (forall x | x in a :: x in t.at)
    && (forall j, k | 0 <= j < k < |a| :: t.at[a[j]] < t.at[a[k]])
  }

  /** Each of them once, in slot order. */
  lemma {:induction false} ActiveInOrder(t: Table, answers: seq<Ready>, i: nat)
    requires Inv(t) && Answers(t, answers) && i <= |t.slots|
    ensures InSlotOrder(t, Active(t, answers, i))
    decreases |t.slots| - i
  {
    if i < |t.slots| {
      ActiveInOrder(t, answers, i + 1);
      ActiveExactly(t, answers, i);
      ActiveExactly(t, answers, i + 1);
      var a, rest := Active(t, answers, i), Active(t, answers, i + 1);
      if answers[i].IsSet() {
        FirstSlotFirst(t, t.slots[i].fd, rest, i);
        assert a == [t.slots[i].fd] + rest;
      } else {
        assert a == [] + rest == rest;
      }
    }
  }

  lemma FirstSlotFirst(t: Table, fd: int, rest: seq<int>, i: int)
    requires InSlotOrder(t, rest) && fd in t.at && t.at[fd] == i && forall x | x in rest :: i < t.at[x]
    ensures InSlotOrder(t, [fd] + rest)
  {
    var a := [fd] + rest;
    assert forall x | x in a :: x in t.at;
    forall j, k | 0 <= j < k < |a| ensures t.at[a[j]] < t.at[a[k]] {
      assert a[k] == rest[k - 1] && a[k] in rest;
      if j > 0 { assert a[j] == rest[j - 1]; }
    }
  }
}
