/** What each call and callback does to a connection, in every reachable state, and that a half-close asked for
    comes. */
module TcpConnectionEffects {
  import opened Machine
  import opened ChannelModel
  import opened ChannelTheorems
  import opened TcpConnectionModel
  import opened TcpConnectionTheorems

  // ---------- sending ----------

  /** What write() takes of a message that is written at once. */
  ghost function TakenOf(bytes: seq<Byte>, wrote: int): seq<Byte> {
    if 0 <= wrote <= |bytes| then bytes[..wrote] else []
  }

  /** `send` on the loop thread: the message is accepted whole; what write() takes of it goes to the kernel at once,
      if nothing is waiting, and the rest to the end of the buffer. */
  lemma SendDelivers(c: Conn, bytes: seq<Byte>, wrote: int)
    requires Reachable(c) && c.state == Connected && Step(c, Send(bytes, wrote)).Next?
    ensures var d, now := Step(c, Send(bytes, wrote)).state,
                          if !c.events.write && c.output == [] then TakenOf(bytes, wrote) else [];
            && d.log.accepted == c.log.accepted + |bytes| && d.log.sent == c.log.sent + bytes
            && d.log.kernel == c.log.kernel + now && d.output == c.output + bytes[|now|..]
            && d.state == Connected && d.jobs == c.jobs && d.others == c.others && d.log.half == c.log.half
  {
    ReachableInv(c);
  }

  /** `send` on a connection that is not connected does nothing, on whatever thread. */
  lemma SendIgnored(c: Conn, bytes: seq<Byte>, wrote: int)
    requires Reachable(c) && c.state != Connected
    ensures Step(c, Send(bytes, wrote)) == Next(c) && Step(c, RemoteSend(bytes)) == Next(c)
    ensures Step(c, Shutdown) == Next(c) && Step(c, RemoteShutdown) == Next(c)
  {
  }

  /** `send` on another thread: the whole message is on its way to the loop, and nothing is written. */
  lemma RemoteSendQueues(c: Conn, bytes: seq<Byte>)
    requires Reachable(c) && c.state == Connected
    ensures var d := Step(c, RemoteSend(bytes)).state;
            && d.others.passing == c.others.passing + [SendJob(bytes)] && d.others.storing == c.others.storing
            && d.log == c.log.(accepted := c.log.accepted + |bytes|)
            && d.jobs == c.jobs && d.output == c.output && d.state == Connected && d.events == c.events
  {
  }

  /** A functor arrives behind the others, unchanged. */
  lemma PassAppends(c: Conn, i: nat)
    requires Reachable(c) && Step(c, Pass(i)).Next?
    ensures i < |c.others.passing|
    ensures var d := Step(c, Pass(i)).state;
            && d.jobs == c.jobs + [c.others.passing[i]] && d.others.storing == c.others.storing
            && multiset(d.others.passing) + multiset{c.others.passing[i]} == multiset(c.others.passing)
            && d == c.(jobs := d.jobs, others := d.others)
  {
    var p := c.others.passing;
    assert p == p[..i] + [p[i]] + p[i + 1..];
  }

  /** The queue is run from the front: a queued send writes its own message, at once or through the buffer. */
  lemma QueuedSendDelivers(c: Conn, wrote: int)
    requires Reachable(c) && Step(c, RunJob(wrote)).Next? && c.jobs[0].SendJob?
    ensures var d, bytes := Step(c, RunJob(wrote)).state, c.jobs[0].bytes;
            var now := if !c.events.write && c.output == [] then TakenOf(bytes, wrote) else [];
            && d.jobs == c.jobs[1..] && d.log.accepted == c.log.accepted && d.log.sent == c.log.sent + bytes
            && d.log.kernel == c.log.kernel + now && d.output == c.output + bytes[|now|..] && d.state == c.state
  {
    ReachableInv(c);
  }

  /** The write callback hands the front of the buffer to the kernel, as much as write() takes, when the channel is
      reported writable, and does nothing else to the stream. */
  lemma WriteDrains(c: Conn, n: int)
    requires Reachable(c) && Step(c, WritePart(n)).Next?
    ensures c.phase.ReadDone?
    ensures var d := Step(c, WritePart(n)).state;
            if c.phase.ready.out && c.events.write then
              && 0 < n <= |c.output|
              && d.log.kernel == c.log.kernel + c.output[..n] && d.output == c.output[n..] && d.log.sent == c.log.sent
            else d == c.(phase := Idle)
  {
    ReachableInv(c);
  }

  // ---------- the life of a connection ----------

  /** Established means connected and reading. */
  lemma EstablishConnects(c: Conn)
    requires Reachable(c) && Step(c, Establish).Next?
    ensures c.state == Connecting
    ensures var d := Step(c, Establish).state;
            && d.state == Connected && d.events == Interest(true, false)
            && d.slot == Registered(Registration(Interest(true, false), false))
  {
    ReachableInv(c);
  }

  /** Destroyed means disconnected and out of the poller. */
  lemma DestroyDisconnects(c: Conn, wrote: int)
    requires Reachable(c) && c.phase.Idle? && c.jobs != [] && c.jobs[0] == DestroyJob
    ensures Step(c, RunJob(wrote)).Next?
    ensures var d := Step(c, RunJob(wrote)).state;
            d.state == Disconnected && d.slot.Removed? && d.events == NONE && d.jobs == c.jobs[1..]
  {
    AbortsExactly(c, RunJob(wrote));
  }

  // ---------- handleEvent ----------

  /** What the callbacks up to the read callback do, one after the other. */
  function Callbacks(c: Conn, made: seq<Callback>, n: int): Outcome<Conn>
    decreases |made|
  {
    if |made| == 0 then Next(c) else
    var o := match made[0]
             case Close => HandleClose(c)
             case Read => HandleRead(c, n)
             case _ => Next(c);
    if o.Next? then Callbacks(o.state, made[1..], n) else o
  }

  lemma CallbacksThen(c: Conn, a: seq<Callback>, b: seq<Callback>, n: int)
    requires |a| <= 1
    ensures Callbacks(c, a + b, n) ==
            if Callbacks(c, a, n).Next? then Callbacks(Callbacks(c, a, n).state, b, n) else Callbacks(c, a, n)
  {
    if a == [] { assert a + b == b; } else { assert (a + b)[1..] == b && a[1..] == []; }
  }

  /** The connection's part of `handleEvent` makes exactly the callbacks that `handleEvent` makes, in its order. */
  lemma DispatchFollows(c: Conn, r: Ready, n: int)
    ensures DispatchRead(c, r, n) == Callbacks(c, Dispatch(r), n)
  {
    var h := if r.hup && !r.pollin then [Close] else [];
    var e := if r.err || r.nval then [Error] else [];
    var d := if r.pollin || r.pri then [Read] else [];
    var w := if r.out then [Write] else [];
    assert Dispatch(r) == h + (e + (d + w));
    CallbacksThen(c, h, e + (d + w), n);
    var o := Callbacks(c, h, n);
    if o.Next? {
      CallbacksThen(o.state, e, d + w, n);
      CallbacksThen(o.state, d, w, n);
      QuietCallbacks(o.state, e, n);
      var o2 := Callbacks(o.state, d, n);
      if o2.Next? { QuietCallbacks(o2.state, w, n); }
      SingleCallback(o.state, Read, n);
    }
    SingleCallback(c, Close, n);
  }

  lemma SingleCallback(c: Conn, x: Callback, n: int)
    ensures Callbacks(c, [x], n) == match x case Close => HandleClose(c) case Read => HandleRead(c, n) case _ => Next(c)
  {
    assert [x][1..] == [];
  }

  lemma QuietCallbacks(c: Conn, made: seq<Callback>, n: int)
    requires |made| <= 1 && Close !in made && Read !in made
    ensures Callbacks(c, made, n) == Next(c)
  {
    if made != [] { assert made[0] in made && made[1..] == []; }
  }

  /** When a connection closes: on a hang-up with nothing to read, and on end of file; a close empties the mask for
      good and calls the server once. */
  lemma ClosesWhen(c: Conn, n: int)
    requires Reachable(c) && c.phase.Reported?
    ensures Step(c, ReadPart(n)).Next?
    ensures var r, d := c.phase.ready, Step(c, ReadPart(n)).state;
            var k := (if r.hup && !r.pollin then 1 else 0) + (if (r.pollin || r.pri) && n == 0 then 1 else 0);
            && d.log.closes == c.log.closes + k && d.log.owed == c.log.owed + k && d.phase == ReadDone(r)
            && (if k == 0 then d == c.(phase := ReadDone(r))
                else d.events == NONE && d.slot == Registered(Registration(NONE, true)) && d.state == c.state)
  {
    ReachableInv(c);
    DispatchCloses(c.(phase := ReadDone(c.phase.ready)), c.phase.ready, n);
  }

  // ---------- the half-close comes ----------

  /** A half-close that was asked for is under way: bytes are being written, or its functor is on its way. */
  ghost predicate Coming(c: Conn) {
    c.state == Disconnecting && c.log.half.Open? && c.log.closes == 0 ==>
      c.events.write || ShutdownJob in c.jobs || ShutdownJob in c.others.passing
  }

  lemma SendComing(c: Conn, bytes: seq<Byte>, wrote: int)
    requires Coming(c) && SendInLoop(c, bytes, wrote).Next?
    ensures Coming(SendInLoop(c, bytes, wrote).state)
  {
  }

  lemma JobComing(c: Conn, wrote: int)
    requires Inv(c) && Coming(c) && Step(c, RunJob(wrote)).Next?
    ensures Coming(Step(c, RunJob(wrote)).state)
  {
    var d := c.(jobs := c.jobs[1..]);
    assert c.jobs == [c.jobs[0]] + c.jobs[1..];
    if c.jobs[0].SendJob? { SendComing(d, c.jobs[0].bytes, wrote); }
  }

  lemma WriteComing(c: Conn, n: int)
    requires Inv(c) && Coming(c) && Step(c, WritePart(n)).Next?
    ensures Coming(Step(c, WritePart(n)).state)
  {
  }

  lemma PassComing(c: Conn, i: nat)
    requires Coming(c) && Step(c, Pass(i)).Next?
    ensures Coming(Step(c, Pass(i)).state)
  {
    var p := c.others.passing;
    assert p == p[..i] + [p[i]] + p[i + 1..];
  }

  lemma StepComing(c: Conn, e: Event)
    requires Inv(c) && Coming(c) && Step(c, e).Next?
    ensures Coming(Step(c, e).state)
  {
    match e
    case Send(bytes, wrote) =>
      if c.state == Connected {
        LoopSendStep(c, bytes, wrote);
        SendComing(Accepting(c, bytes), bytes, wrote);
      }
    case RunJob(wrote) => JobComing(c, wrote);
    case WritePart(n) => WriteComing(c, n);
    case Pass(i) => PassComing(c, i);
    case _ => OtherComing(c, e);
  }

  lemma OtherComing(c: Conn, e: Event)
    requires Inv(c) && Coming(c) && Step(c, e).Next? && !e.Send? && !e.RunJob? && !e.WritePart? && !e.Pass?
    ensures Coming(Step(c, e).state)
  {
  }

  ghost predicate ComingInv(c: Conn) {
    Inv(c) && Coming(c)
  }

  /** A half-close asked for is never forgotten: in every reachable state of an open connection that is
      disconnecting, the write side has been shut, or bytes are being written whose last write shuts it, or its
      functor is on its way. */
  lemma HalfCloseComes(c: Conn)
    requires Reachable(c) && c.state == Disconnecting && c.log.closes == 0 && c.log.half.Open?
    ensures (c.events.write && c.output != []) || ShutdownJob in c.jobs || ShutdownJob in c.others.passing
  {
    var es: seq<Event> :| Run(Calm, Init(), es) == Next(c);
    InitInv();
    forall t, e | ComingInv(t) && Calm(t, e).Next? ensures ComingInv(Calm(t, e).state) {
      StepKeeps(t, e);
      StepComing(t, e);
    }
    Invariant(Calm, ComingInv, Init(), es);
  }

  /** And each of these does shut it: shutdown() at once if nothing is being written; */
  lemma ShutdownShuts(c: Conn)
    requires Reachable(c) && c.state == Connected
    ensures var d := Step(c, Shutdown).state;
            d.state == Disconnecting && d == c.(state := Disconnecting, log := d.log)
                && (d.log.half.Shut? <==> !c.events.write)
  {
    ReachableInv(c);
  }

  /** the functor of another thread's shutdown(), when it runs; */
  lemma ShutdownJobShuts(c: Conn, wrote: int)
    requires Reachable(c) && Step(c, RunJob(wrote)).Next? && c.jobs[0].ShutdownJob?
    ensures var d := Step(c, RunJob(wrote)).state;
            d.log.half.Shut? <==> c.log.half.Shut? || !c.events.write
  {
  }

  /** and the write that empties the buffer. */
  lemma LastWriteShuts(c: Conn, n: int)
    requires Reachable(c) && Step(c, WritePart(n)).Next? && c.phase.ready.out && c.events.write && n == |c.output|
    ensures var d := Step(c, WritePart(n)).state;
            !d.events.write && d.output == [] && (c.state == Disconnecting ==> d.log.half.Shut?)
  {
    ReachableInv(c);
  }

  /** Another thread's shutdown() that found the connection connected stores the new state, and its functor is on
      its way. */
  lemma RemoteShutdownStores(c: Conn)
    requires Reachable(c)
    ensures c.state == Connected ==>
              Step(c, RemoteShutdown) == Next(c.(others := c.others.(storing := c.others.storing + 1)))
    ensures Step(c, Store).Next? <==> c.others.storing > 0
    ensures Step(c, Store).Next? ==>
              var d := Step(c, Store).state;
              && d.state == Disconnecting && d.others == Others(c.others.storing - 1, c.others.passing + [ShutdownJob])
              && d == c.(state := Disconnecting, others := d.others)
  {
  }

  // ---------- when each step can happen ----------

  /** What write() may return: at most the length, and an error once the write side has been shut. */
  ghost predicate MayWrite(c: Conn, len: nat, n: int) {
    n <= len && (c.log.half.Shut? ==> n < 0)
  }

  /** A connection is established once; other threads finish what they have begun; the loop polls an open connection
      for what its mask asks and the three flags poll() always reports, makes its callbacks, and runs its functors
      in between. */
  lemma DisabledExactly(c: Conn, e: Event)
    requires Reachable(c)
    ensures !Step(c, e).Disabled? <==>
              match e
              case Establish => c.slot == Unregistered
              case Send(bytes, wrote) =>
                c.state == Connected && !c.events.write && c.output == [] ==> MayWrite(c, |bytes|, wrote)
              case RemoteSend(_) => true
              case Shutdown => true
              case RemoteShutdown => true
              case Store => c.others.storing > 0
              case Pass(i) => i < |c.others.passing|
              case Poll(r) =>
                && c.phase == Idle && c.slot.Registered? && c.log.closes == 0
                && (r.pollin || r.pri || r.out || r.err || r.hup || r.nval)
                && (r.pollin || r.pri ==> c.events.read) && (r.out ==> c.events.write)
              case ReadPart(_) => c.phase.Reported?
              case WritePart(n) =>
                c.phase.ReadDone? && (c.phase.ready.out && c.events.write ==> MayWrite(c, |c.output|, n))
              case RunJob(wrote) =>
                && c.phase == Idle && c.jobs != []
                && (c.jobs[0].SendJob? && !c.events.write && c.output == [] ==> MayWrite(c, |c.jobs[0].bytes|, wrote))
              case ServerRemoves => c.log.owed > 0
  {
    ReachableInv(c);
  }

  /** A report changes only where the loop is; the server queues the destruction behind everything else. */
  lemma PollAndRemove(c: Conn, r: Ready)
    requires Reachable(c)
    ensures Step(c, Poll(r)).Next? ==> Step(c, Poll(r)).state == c.(phase := Reported(r))
    ensures Step(c, ServerRemoves).Next? ==>
              Step(c, ServerRemoves).state == c.(jobs := c.jobs + [DestroyJob], log := c.log.(owed := c.log.owed - 1))
  {
  }

  /** A connection starts connecting, with an empty mask, outside the poller. */
  lemma StartsConnecting()
    ensures var c := Init();
            && c.state == Connecting && c.events == Interest(false, false) && c.slot == Unregistered && c.output == []
            && c.jobs == [] && c.others == Others(0, []) && c.phase == Idle && c.log == Log([], [], 0, Open, 0, 0, [])
  {
  }
}
