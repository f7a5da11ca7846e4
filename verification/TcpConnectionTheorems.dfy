/** What a connection guarantees in every run. */
module TcpConnectionTheorems {
  import opened Machine
  import opened ChannelModel
  import opened TcpConnectionModel

  /** By a run in which no `handleEvent` closes twice; `ClosedTwiceExactly` says what that leaves out. */
  ghost predicate Reachable(c: Conn) {
    exists es: seq<Event> :: Run(Calm, Init(), es) == Next(c)
  }

  ghost function Destroys(jobs: seq<Job>): nat {
    if |jobs| == 0 then 0 else (if jobs[0].DestroyJob? then 1 else 0) + Destroys(jobs[1..])
  }

  /** The bytes of the sends among the jobs. */
  ghost function QueuedBytes(jobs: seq<Job>): nat {
    if |jobs| == 0 then 0 else Bytes(jobs[0]) + QueuedBytes(jobs[1..])
  }

  ghost function Bytes(j: Job): nat {
    match j case SendJob(b) => |b| case _ => 0
  }

  lemma {:induction false} JobsConcat(a: seq<Job>, b: seq<Job>)
    ensures Destroys(a + b) == Destroys(a) + Destroys(b) && QueuedBytes(a + b) == QueuedBytes(a) + QueuedBytes(b)
  {
    if a == [] {
      assert a + b == b;
    } else {
      assert (a + b)[1..] == a[1..] + b;
      JobsConcat(a[1..], b);
    }
  }

  lemma JobsAppend(jobs: seq<Job>, j: Job)
    ensures Destroys(jobs + [j]) == Destroys(jobs) + if j.DestroyJob? then 1 else 0
    ensures QueuedBytes(jobs + [j]) == QueuedBytes(jobs) + Bytes(j)
  {
    JobsConcat(jobs, [j]);
    assert [j][1..] == [];
  }

  lemma WithoutIn(jobs: seq<Job>, i: nat)
    requires i < |jobs|
    ensures forall j | j in Without(jobs, i) :: j in jobs
  {
  }

  lemma JobsWithout(jobs: seq<Job>, i: nat)
    requires i < |jobs|
    ensures QueuedBytes(jobs) == QueuedBytes(Without(jobs, i)) + Bytes(jobs[i])
  {
    Rejoined(jobs, i);
    JobsAround(jobs[..i], jobs[i], jobs[i + 1..]);
  }

  lemma Rejoined(jobs: seq<Job>, i: nat)
    requires i < |jobs|
    ensures jobs[..i] + [jobs[i]] + jobs[i + 1..] == jobs
  {
  }

  lemma JobsAround(before: seq<Job>, j: Job, after: seq<Job>)
    ensures QueuedBytes(before + [j] + after) == QueuedBytes(before + after) + Bytes(j)
  {
    JobsConcat(before + [j], after);
    JobsAppend(before, j);
    JobsConcat(before, after);
  }

  // ---------- the output stream ----------

  /** Bytes accepted by `send` on other threads that `sendInLoop` has not been given yet. */
  ghost function Underway(c: Conn): nat {
    QueuedBytes(c.jobs) + QueuedBytes(c.others.passing)
  }

  /** Nothing is lost, duplicated or reordered between `send` and the kernel. */
  ghost predicate Stream(c: Conn) {
    && c.log.kernel + c.output == c.log.sent
    && |c.log.sent| + Underway(c) == c.log.accepted
    && (forall p | p in c.log.completions :: p.0 == p.1)
    && (c.events.write ==> c.output != [])
  }

  // ---------- registration and closing ----------

  ghost predicate Lifecycle(c: Conn) {
    && (c.slot.Unregistered? <==> c.state == Connecting) && (c.state == Disconnected ==> c.slot.Removed?)
    && (c.slot.Removed? ==> c.state == Disconnecting || c.state == Disconnected)
    && (c.slot.Unregistered? ==>
          c.events == NONE && c.output == [] && c.log.closes == 0 && c.jobs == [] && c.others == Others(0, []))
    && (c.slot.Registered? ==> c.slot.reg.events == c.events && (c.slot.reg.muted <==> c.log.closes > 0))
    && c.log.closes == c.log.owed + Destroys(c.jobs) + (if c.slot.Removed? then 1 else 0)
    && c.log.closes <= 1
    && (ShutdownJob in c.jobs || ShutdownJob in c.others.passing ==>
          c.state == Disconnecting || c.state == Disconnected)
    && DestroyJob !in c.others.passing
    && (c.log.closes == 0 ==> (c.events.write <==> c.output != []) && (c.slot.Registered? ==> c.events.read))
    && (c.phase.Reported? ==> c.slot.Registered? && c.log.closes == 0)
    && (c.phase.ReadDone? ==> c.slot.Registered?)
  }

  // ---------- the half-close ----------

  /** Once the write side is shut nothing is accepted or written any more. */
  ghost predicate Halved(c: Conn) {
    c.log.half.Shut? ==>
      && (c.state == Disconnecting || c.state == Disconnected)
      && c.log.kernel == c.log.half.kernel && c.log.accepted == c.log.half.accepted
  }

  ghost predicate Inv(c: Conn) {
    Stream(c) && Lifecycle(c) && Halved(c)
  }

  /** `c` with `bytes` accepted and not yet given to `sendInLoop`. */
  ghost predicate StreamBut(c: Conn, bytes: seq<Byte>) {
    && c.log.kernel + c.output == c.log.sent
    && |c.log.sent| + |bytes| + Underway(c) == c.log.accepted
    && (forall p | p in c.log.completions :: p.0 == p.1)
    && (c.events.write ==> c.output != [])
  }

  lemma Cut(k: seq<Byte>, o: seq<Byte>, b: seq<Byte>, n: nat)
    requires n <= |b| && (n == 0 || o == [])
    ensures (k + b[..n]) + (o + b[n..]) == (k + o) + b
  {
    assert b == b[..n] + b[n..];
  }

  lemma SendBytes(c: Conn, bytes: seq<Byte>, wrote: int)
    requires c.log.kernel + c.output == c.log.sent && SendInLoop(c, bytes, wrote).Next?
    ensures var d := SendInLoop(c, bytes, wrote).state;
            d.log.kernel + d.output == d.log.sent == c.log.sent + bytes && d.jobs == c.jobs && d.others == c.others
                && d.log.accepted == c.log.accepted
  {
    var d := SendInLoop(c, bytes, wrote).state;
    var n := if Direct(c) && wrote >= 0 then wrote else 0;
    Cut(c.log.kernel, c.output, bytes, n);
    assert d.log.kernel == c.log.kernel + bytes[..n] && d.log.sent == c.log.sent + bytes;
    assert d.output == c.output + bytes[n..];
  }

  lemma SendStream(c: Conn, bytes: seq<Byte>, wrote: int)
    requires StreamBut(c, bytes) && SendInLoop(c, bytes, wrote).Next?
    ensures Stream(SendInLoop(c, bytes, wrote).state)
  {
    SendBytes(c, bytes, wrote);
    SendCompletions(c, bytes, wrote);
  }

  lemma SendCompletions(c: Conn, bytes: seq<Byte>, wrote: int)
    requires c.log.kernel + c.output == c.log.sent && SendInLoop(c, bytes, wrote).Next?
    requires (forall p | p in c.log.completions :: p.0 == p.1) && (c.events.write ==> c.output != [])
    ensures var d := SendInLoop(c, bytes, wrote).state;
            (forall p | p in d.log.completions :: p.0 == p.1) && (d.events.write ==> d.output != [])
  {
  }

  lemma SendLifecycle(c: Conn, bytes: seq<Byte>, wrote: int)
    requires Lifecycle(c) && !c.slot.Unregistered? && SendInLoop(c, bytes, wrote).Next?
    ensures Lifecycle(SendInLoop(c, bytes, wrote).state)
  {
  }

  lemma SendKeeps(c: Conn, bytes: seq<Byte>, wrote: int)
    requires StreamBut(c, bytes) && Lifecycle(c) && Halved(c) && !c.slot.Unregistered?
    requires SendInLoop(c, bytes, wrote).Next?
    ensures Inv(SendInLoop(c, bytes, wrote).state)
  {
    SendStream(c, bytes, wrote);
    SendLifecycle(c, bytes, wrote);
    SendHalved(c, bytes, wrote);
  }

  lemma SendHalved(c: Conn, bytes: seq<Byte>, wrote: int)
    requires Halved(c) && SendInLoop(c, bytes, wrote).Next?
    ensures Halved(SendInLoop(c, bytes, wrote).state)
  {
  }

  lemma WriteStream(c: Conn, n: int)
    requires Stream(c) && HandleWrite(c, n).Next?
    ensures Stream(HandleWrite(c, n).state)
  {
    if c.events.write {
      assert c.output == c.output[..n] + c.output[n..];
      assert (c.log.kernel + c.output[..n]) + c.output[n..] == c.log.sent;
    }
  }

  lemma WriteLifecycle(c: Conn, n: int)
    requires Lifecycle(c) && HandleWrite(c, n).Next?
    ensures Lifecycle(HandleWrite(c, n).state)
  {
  }

  lemma WriteKeeps(c: Conn, n: int)
    requires Inv(c) && HandleWrite(c, n).Next?
    ensures Inv(HandleWrite(c, n).state)
  {
    WriteStream(c, n);
    WriteLifecycle(c, n);
    WriteHalved(c, n);
  }

  lemma WriteHalved(c: Conn, n: int)
    requires Halved(c) && HandleWrite(c, n).Next?
    ensures Halved(HandleWrite(c, n).state)
  {
  }

  lemma CloseKeeps(c: Conn)
    requires Inv(c) && c.slot.Registered? && c.log.closes == 0 && !c.phase.Reported?
    ensures HandleClose(c).Next? && Inv(HandleClose(c).state) && HandleClose(c).state.log.closes == 1
  {
  }

  lemma ReadPartKeeps(c: Conn, n: int)
    requires Inv(c) && c.phase.Reported? && !ClosesTwice(c, ReadPart(n))
    ensures Step(c, ReadPart(n)).Next? && Inv(Step(c, ReadPart(n)).state)
  {
    var r := c.phase.ready;
    var d := c.(phase := ReadDone(r));
    if (r.hup && !r.pollin) || ((r.pollin || r.pri) && n == 0) { CloseKeeps(d); }
  }

  lemma JobKeeps(c: Conn, wrote: int)
    requires Inv(c) && c.phase.Idle? && c.jobs != [] && Step(c, RunJob(wrote)).Next?
    ensures Inv(Step(c, RunJob(wrote)).state)
  {
    var d := c.(jobs := c.jobs[1..]);
    match c.jobs[0]
    case SendJob(bytes) => SendKeeps(d, bytes, wrote);
    case ShutdownJob =>
    case DestroyJob =>
  }

  /** The server queues the destruction. */
  lemma RemovesKeeps(c: Conn)
    requires Inv(c) && Step(c, ServerRemoves).Next?
    ensures Inv(Step(c, ServerRemoves).state)
  {
    JobsAppend(c.jobs, DestroyJob);
  }

  lemma RemoteSendKeeps(c: Conn, bytes: seq<Byte>)
    requires Inv(c)
    ensures Inv(Step(c, RemoteSend(bytes)).state)
  {
    JobsAppend(c.others.passing, SendJob(bytes));
  }

  lemma RemoteShutdownKeeps(c: Conn)
    requires Inv(c)
    ensures Inv(Step(c, RemoteShutdown).state)
  {
  }

  lemma StoreKeeps(c: Conn)
    requires Inv(c) && Step(c, Store).Next?
    ensures Inv(Step(c, Store).state)
  {
    JobsAppend(c.others.passing, ShutdownJob);
  }

  lemma PassKeeps(c: Conn, i: nat)
    requires Inv(c) && Step(c, Pass(i)).Next?
    ensures Inv(Step(c, Pass(i)).state)
  {
    var j := c.others.passing[i];
    assert j in c.others.passing;
    JobsAppend(c.jobs, j);
    JobsWithout(c.others.passing, i);
    WithoutIn(c.others.passing, i);
  }

  lemma EstablishKeeps(c: Conn)
    requires Inv(c) && Step(c, Establish).Next?
    ensures Inv(Step(c, Establish).state)
  {
  }

  lemma QuietKeeps(c: Conn, e: Event)
    requires Inv(c) && (e.Shutdown? || e.Poll?) && Step(c, e).Next?
    ensures Inv(Step(c, e).state)
  {
  }

  lemma AcceptingKeeps(c: Conn, bytes: seq<Byte>)
    requires Inv(c)
    ensures StreamBut(Accepting(c, bytes), bytes) && Lifecycle(Accepting(c, bytes))
    ensures c.log.half.Open? ==> Halved(Accepting(c, bytes))
  {
  }

  lemma LoopSendKeeps(c: Conn, bytes: seq<Byte>, wrote: int)
    requires Inv(c) && c.state == Connected && Step(c, Send(bytes, wrote)).Next?
    ensures Inv(Step(c, Send(bytes, wrote)).state)
  {
    AcceptingKeeps(c, bytes);
    LoopSendStep(c, bytes, wrote);
    SendKeeps(Accepting(c, bytes), bytes, wrote);
  }

  lemma LoopSendStep(c: Conn, bytes: seq<Byte>, wrote: int)
    requires c.state == Connected
    ensures Step(c, Send(bytes, wrote)) == SendInLoop(Accepting(c, bytes), bytes, wrote)
  {
  }

  lemma StepKeeps(c: Conn, e: Event)
    requires Inv(c) && Calm(c, e).Next?
    ensures Inv(Step(c, e).state)
  {
    match e
    case Establish => EstablishKeeps(c);
    case Send(bytes, wrote) => if c.state == Connected { LoopSendKeeps(c, bytes, wrote); }
    case RemoteSend(bytes) => RemoteSendKeeps(c, bytes);
    case RemoteShutdown => RemoteShutdownKeeps(c);
    case Store => StoreKeeps(c);
    case Pass(i) => PassKeeps(c, i);
    case ServerRemoves => RemovesKeeps(c);
    case WritePart(n) => WritePartKeeps(c, n);
    case ReadPart(n) => ReadPartKeeps(c, n);
    case RunJob(wrote) => JobKeeps(c, wrote);
    case _ => QuietKeeps(c, e);
  }

  lemma WritePartKeeps(c: Conn, n: int)
    requires Inv(c) && Step(c, WritePart(n)).Next?
    ensures Inv(Step(c, WritePart(n)).state)
  {
    if c.phase.ready.out { WriteKeeps(c.(phase := Idle), n); }
  }

  lemma ReachableInv(c: Conn)
    requires Reachable(c)
    ensures Inv(c)
  {
    var es: seq<Event> :| Run(Calm, Init(), es) == Next(c);
    InitInv();
    forall t, e | Inv(t) && Calm(t, e).Next? ensures Inv(Calm(t, e).state) { StepKeeps(t, e); }
    Invariant(Calm, Inv, Init(), es);
  }

  lemma InitInv()
    ensures Inv(Init()) && Graceful(Init())
  {
  }

  lemma RunKeeps(c: Conn, es: seq<Event>)
    requires Inv(c)
    ensures Run(Calm, c, es).Next? ==> Inv(Run(Calm, c, es).state)
  {
    forall t, e | Inv(t) && Calm(t, e).Next? ensures Inv(Calm(t, e).state) { StepKeeps(t, e); }
    Invariant(Calm, Inv, c, es);
  }

  // ---------- theorems ----------

  /** What the kernel took, followed by the output buffer, is everything `sendInLoop` was given, in order;
      a write-complete callback was only ever queued with everything so far in the kernel;
      until the close the channel waits to write exactly when something is buffered. */
  lemma OutputConserved(c: Conn)
    requires Reachable(c)
    ensures c.log.kernel + c.output == c.log.sent && |c.log.sent| + Underway(c) == c.log.accepted
    ensures forall p | p in c.log.completions :: p.0 == p.1
    ensures c.events.write ==> c.output != []
    ensures c.log.closes == 0 && c.output != [] ==> c.events.write
  {
    ReachableInv(c);
  }

  /** The step is a direct write of an empty message. */
  predicate WritesNothing(c: Conn, e: Event) {
    Direct(c) && ((e.Send? && c.state == Connected && e.bytes == [] && e.wrote == 0)
                  || (e.RunJob? && c.jobs != [] && c.jobs[0] == SendJob([]) && e.wrote == 0))
  }

  /** A write-complete callback is queued by exactly those steps that hand bytes to the kernel and leave none,
      and by the direct write of an empty message. */
  lemma CompletionExactly(c: Conn, e: Event)
    requires Reachable(c) && Step(c, e).Next?
    ensures Completes(c, Step(c, e).state, WritesNothing(c, e))
  {
    ReachableInv(c);
    StepCompletes(c, e);
  }

  lemma StepCompletes(c: Conn, e: Event)
    requires (c.events.write ==> c.output != []) && Step(c, e).Next?
    ensures Completes(c, Step(c, e).state, WritesNothing(c, e))
  {
    match e
    case Send(bytes, wrote) =>
      if c.state == Connected {
        LoopSendStep(c, bytes, wrote);
        SendCompletes(Accepting(c, bytes), bytes, wrote);
      }
    case RunJob(wrote) => JobCompletes(c, wrote);
    case WritePart(n) =>
      if c.phase.ready.out { WriteCompletes(c.(phase := Idle), n); }
    case _ => QuietCompletes(c, e);
  }

  lemma JobCompletes(c: Conn, wrote: int)
    requires Step(c, RunJob(wrote)).Next?
    ensures Completes(c, Step(c, RunJob(wrote)).state, WritesNothing(c, RunJob(wrote)))
  {
    if c.jobs[0].SendJob? { SendCompletes(c.(jobs := c.jobs[1..]), c.jobs[0].bytes, wrote); }
  }

  lemma QuietCompletes(c: Conn, e: Event)
    requires !e.Send? && !e.RunJob? && !e.WritePart? && Step(c, e).Next?
    ensures Completes(c, Step(c, e).state, false)
  {
  }

  ghost predicate Completes(c: Conn, d: Conn, empty: bool) {
    |d.log.completions| == |c.log.completions| + if d.output == [] && (d.log.kernel != c.log.kernel || empty) then 1
        else 0
  }

  lemma SendCompletes(c: Conn, bytes: seq<Byte>, wrote: int)
    requires SendInLoop(c, bytes, wrote).Next?
    ensures Completes(c, SendInLoop(c, bytes, wrote).state, Direct(c) && bytes == [] && wrote == 0)
  {
    var n := if Direct(c) && wrote >= 0 then wrote else 0;
    assert |c.log.kernel + bytes[..n]| == |c.log.kernel| + n;
  }

  lemma WriteCompletes(c: Conn, n: int)
    requires HandleWrite(c, n).Next? && (c.events.write ==> c.output != [])
    ensures Completes(c, HandleWrite(c, n).state, false)
  {
    if c.events.write { assert |c.log.kernel + c.output[..n]| == |c.log.kernel| + n; }
  }

  ghost function Stage(s: State): nat {
    match s
    case Connecting => 0
    case Connected => 1
    case Disconnecting => 2
    case Disconnected => 3
  }

  /** The close callback is made at most once, whatever is sent afterwards; and the state moves forward, but for another
      thread's shutdown() that read it before the connection was destroyed and stores it afterwards. */
  lemma ClosesOnce(c: Conn, es: seq<Event>)
    requires Reachable(c) && Run(Calm, c, es).Next?
    ensures var d := Run(Calm, c, es).state;
            && c.log.closes <= d.log.closes <= 1
            && (Stage(c.state) <= Stage(d.state)
               || (Store in es && c.state == Disconnected && d.state == Disconnecting))
  {
    ReachableInv(c);
    ForwardRun(c, es);
  }

  lemma {:induction false} ForwardRun(c: Conn, es: seq<Event>)
    requires Inv(c) && Run(Calm, c, es).Next?
    ensures var d := Run(Calm, c, es).state;
            && c.log.closes <= d.log.closes <= 1
            && (Stage(c.state) <= Stage(d.state)
               || (Store in es && c.state == Disconnected && d.state == Disconnecting))
    decreases |es|
  {
    if es != [] {
      var d := Step(c, es[0]).state;
      StepKeeps(c, es[0]);
      Forward(c, es[0]);
      ForwardRun(d, es[1..]);
    }
  }

  lemma Forward(c: Conn, e: Event)
    requires Lifecycle(c) && Step(c, e).Next?
    ensures var d := Step(c, e).state;
            && c.log.closes <= d.log.closes
            && if e.Store? && c.state == Disconnected then d.state == Disconnecting
               else Stage(c.state) <= Stage(d.state)
  {
  }

  /** The state goes back exactly when such a store comes after the destruction. */
  lemma BackwardExactly(c: Conn, e: Event)
    requires Reachable(c) && Step(c, e).Next?
    ensures Stage(Step(c, e).state.state) < Stage(c.state) <==> e.Store? && c.state == Disconnected
  {
    ReachableInv(c);
    Forward(c, e);
  }

  /** Once closed, poll() reports nothing more for the connection: re-enabled writing stays muted. */
  lemma ClosedIsSilent(c: Conn, r: Ready)
    requires Reachable(c) && c.log.closes > 0
    ensures Step(c, Poll(r)).Disabled?
  {
    ReachableInv(c);
  }

  /** When one `handleEvent` closes twice. */
  lemma DispatchCloses(c: Conn, r: Ready, n: int)
    requires c.slot.Registered? && (c.state == Connected || c.state == Disconnecting)
    ensures DispatchRead(c, r, n).Next?
    ensures DispatchRead(c, r, n).state.log.closes == c.log.closes + 2 <==> r.hup && !r.pollin && r.pri && n == 0
  {
  }

  lemma {:induction false} ClosesGrow(c: Conn, es: seq<Event>)
    requires Run(Step, c, es).Next?
    ensures c.log.closes <= Run(Step, c, es).state.log.closes
    decreases |es|
  {
    if es != [] {
      CloseStep(c, es[0]);
      ClosesGrow(Step(c, es[0]).state, es[1..]);
    }
  }

  lemma CloseStep(c: Conn, e: Event)
    requires Step(c, e).Next?
    ensures c.log.closes <= Step(c, e).state.log.closes
  {
  }

  /** Over every run, whatever poll() reports: a connection has been closed more than once if and only if some read
      callback met end of file right after the close callback, which takes POLLPRI with a hang-up and without POLLIN. */
  lemma ClosedTwiceExactly(b: Conn, es: seq<Event>, c: Conn)
    requires Reachable(b) && Run(Step, b, es) == Next(c)
    ensures c.log.closes <= 1 <==> Run(Calm, b, es) == Next(c)
    ensures c.log.closes > 1 <==> exists k :: 0 <= k < |es| && TwiceAt(b, es, k)
  {
    ReachableInv(b);
    TwiceExactly(b, es, c);
  }

  /** The k-th event of the run is such a read callback. */
  ghost predicate TwiceAt(c: Conn, es: seq<Event>, k: nat)
    requires k < |es|
  {
    Run(Step, c, es[..k]).Next? && ClosesTwice(Run(Step, c, es[..k]).state, es[k])
  }

  lemma TwiceFirst(c: Conn, es: seq<Event>)
    requires es != [] && Step(c, es[0]).Next?
    ensures TwiceAt(c, es, 0) <==> ClosesTwice(c, es[0])
    ensures forall k | 0 < k < |es| :: TwiceAt(c, es, k) <==> TwiceAt(Step(c, es[0]).state, es[1..], k - 1)
  {
    assert es[..0] == [];
    forall k | 0 < k < |es|
      ensures TwiceAt(c, es, k) <==> TwiceAt(Step(c, es[0]).state, es[1..], k - 1)
    {
      assert es[..k] == [es[0]] + es[1..][..k - 1];
      Cons(Step, c, es[0], es[1..][..k - 1]);
    }
  }

  lemma {:induction false} TwiceExactly(b: Conn, es: seq<Event>, c: Conn)
    requires Inv(b) && Run(Step, b, es) == Next(c)
    ensures c.log.closes <= 1 <==> Run(Calm, b, es) == Next(c)
    ensures c.log.closes > 1 <==> exists k :: 0 <= k < |es| && TwiceAt(b, es, k)
    decreases |es|
  {
    if es != [] {
      var d := Step(b, es[0]).state;
      TwiceFirst(b, es);
      if ClosesTwice(b, es[0]) {
        DispatchCloses(b.(phase := ReadDone(b.phase.ready)), b.phase.ready, 0);
        ClosesGrow(d, es[1..]);
      } else {
        StepKeeps(b, es[0]);
        TwiceExactly(d, es[1..], c);
        if k :| 0 <= k < |es[1..]| && TwiceAt(d, es[1..], k) { assert TwiceAt(b, es, k + 1); }
      }
    }
  }

  /** Where the process can abort: a failing write of buffered bytes, or a queued send that runs after the connection
      was destroyed and has bytes left to write. */
  lemma AbortsExactly(c: Conn, e: Event)
    requires Reachable(c)
    ensures Step(c, e).Fault? <==>
              || (e.WritePart? && c.phase.ReadDone? && c.phase.ready.out && c.events.write && Writes(c, 0, e.n))
              || (e.RunJob? && c.phase.Idle? && c.jobs != [] && c.jobs[0].SendJob? && c.slot.Removed? && !c.events.write
                  && c.jobs[0].bytes != []
                  && (c.output == [] ==> e.wrote < |c.jobs[0].bytes| && Writes(c, |c.jobs[0].bytes|, e.wrote)))
  {
    ReachableInv(c);
    if e.ReadPart? && c.phase.Reported? { DispatchCloses(c.(phase := ReadDone(c.phase.ready)), c.phase.ready, e.n); }
    if e.RunJob? && c.jobs != [] { assert c.jobs == [c.jobs[0]] + c.jobs[1..]; }
  }

  // ---------- half-close ----------

  /** When the write side of an open connection is shut, everything `send` has accepted is in the kernel,
      except what other threads are about to queue, or have queued and the loop has not run yet. */
  lemma HalfCloseDelivers(c: Conn, e: Event)
    requires Reachable(c) && c.log.half.Open? && c.log.closes == 0 && Step(c, e).Next?
             && Step(c, e).state.log.half.Shut?
    ensures var d := Step(c, e).state;
            && d.log.kernel == d.log.sent == d.log.half.kernel && d.log.half.accepted == d.log.accepted
               && !d.log.half.closed
            && (|d.log.kernel| == d.log.accepted <==> Underway(d) == 0)
  {
    ReachableInv(c);
    HalfCloseEmpties(c, e);
    StepKeeps(c, e);
  }

  lemma HalfCloseEmpties(c: Conn, e: Event)
    requires Lifecycle(c) && c.log.half.Open? && c.log.closes == 0 && Step(c, e).Next?
             && Step(c, e).state.log.half.Shut?
    ensures var d := Step(c, e).state;
            !e.ReadPart? && d.output == [] && d.log.half == Shut(d.log.kernel, d.log.accepted, false)
  {
  }

  /** What was underway at the half-close is lost: in every later state the kernel has what it had then, and nothing
      more is accepted; what is still given to `sendInLoop` stays in the output buffer. */
  lemma HalfCloseIsFinal(c: Conn, es: seq<Event>)
    requires Reachable(c) && c.log.half.Shut? && Run(Calm, c, es).Next?
    ensures var d := Run(Calm, c, es).state;
            && d.log.half == c.log.half && d.log.kernel == c.log.half.kernel && d.log.accepted == c.log.half.accepted
            && c.output <= d.output && |d.log.kernel| + |d.output| + Underway(d) == c.log.half.accepted
  {
    ReachableInv(c);
    ShutRun(c, es);
    RunKeeps(c, es);
  }

  lemma ShutStep(c: Conn, e: Event)
    requires c.log.half.Shut? && Step(c, e).Next?
    ensures var d := Step(c, e).state; d.log.half == c.log.half && c.output <= d.output
  {
  }

  lemma {:induction false} ShutRun(c: Conn, es: seq<Event>)
    requires c.log.half.Shut? && Run(Calm, c, es).Next?
    ensures var d := Run(Calm, c, es).state; d.log.half == c.log.half && c.output <= d.output
    decreases |es|
  {
    if es != [] {
      ShutStep(c, es[0]);
      ShutRun(Step(c, es[0]).state, es[1..]);
    }
  }

  /** And the process goes down with it: as long as the connection has not closed, bytes in the buffer keep the channel
      waiting to write, and the next time it is reported writable, unless the same report closes it, the write callback
      can only abort. */
  lemma LateBytesAbort(c: Conn, r: Ready, m: int, n: int)
    requires Reachable(c) && c.log.half.Shut? && c.log.closes == 0 && c.output != [] && c.phase.Idle? && r.out
    ensures Step(c, Poll(WRITABLE)).Next?
    ensures Step(c, Poll(r)).Next? ==>
              var o := Step(Step(c, Poll(r)).state, ReadPart(m));
              && o.Next?
              && (o.state.log.closes == 0 ==> if n < 0 then Step(o.state, WritePart(n)).Fault?
                                          else Step(o.state, WritePart(n)).Disabled?)
  {
    ReachableInv(c);
    if Step(c, Poll(r)).Next? {
      DispatchCloses(c.(phase := ReadDone(r)), r, m);
      LateDispatch(c.(phase := ReadDone(r)), r, m);
    }
  }

  lemma LateDispatch(c: Conn, r: Ready, m: int)
    requires DispatchRead(c, r, m).Next? && c.log.closes == 0
    ensures DispatchRead(c, r, m).state.log.closes == 0 ==> DispatchRead(c, r, m).state == c
  {
  }

  ghost predicate NoSendJob(jobs: seq<Job>) {
    forall j | j in jobs :: !j.SendJob?
  }

  lemma {:induction false} NoSendNoBytes(jobs: seq<Job>)
    requires NoSendJob(jobs)
    ensures QueuedBytes(jobs) == 0
  {
    if jobs != [] {
      assert jobs[0] in jobs;
      NoSendNoBytes(jobs[1..]);
    }
  }

  ghost predicate NoneUnderway(c: Conn) {
    NoSendJob(c.jobs) && NoSendJob(c.others.passing)
  }

  /** With no send of another thread underway, a half-close is final and complete. */
  ghost predicate Final(c: Conn) {
    c.log.half.Shut? ==>
      !c.events.write && (!c.log.half.closed ==> c.log.kernel == c.log.sent && |c.log.kernel| == c.log.accepted)
  }

  ghost predicate Graceful(c: Conn) {
    NoneUnderway(c) && Final(c)
  }

  lemma GracefulStep(c: Conn, e: Event)
    requires Inv(c) && Graceful(c) && !e.RemoteSend? && Calm(c, e).Next?
    ensures Graceful(Step(c, e).state)
  {
    StepKeeps(c, e);
    StillNone(c, e);
    NoSendNoBytes(Step(c, e).state.jobs);
    NoSendNoBytes(Step(c, e).state.others.passing);
    GracefulHalf(c, e);
  }

  lemma StillNone(c: Conn, e: Event)
    requires NoneUnderway(c) && !e.RemoteSend? && Step(c, e).Next?
    ensures NoneUnderway(Step(c, e).state)
  {
    if e.Pass? {
      assert c.others.passing[e.i] in c.others.passing;
      WithoutIn(c.others.passing, e.i);
    }
  }

  lemma GracefulHalf(c: Conn, e: Event)
    requires Lifecycle(c) && Halved(c) && Final(c) && NoneUnderway(c) && !e.RemoteSend? && Step(c, e).Next?
    requires Stream(Step(c, e).state) && Underway(Step(c, e).state) == 0
    ensures Final(Step(c, e).state)
  {
    if e.RunJob? { assert c.jobs[0] in c.jobs; }
  }

  /** The machine where only the loop thread sends. */
  function Local(c: Conn, e: Event): Outcome<Conn> {
    if e.RemoteSend? then Disabled else Calm(c, e)
  }

  lemma {:induction false} LocalRun(c: Conn, es: seq<Event>)
    requires forall e | e in es :: !e.RemoteSend?
    ensures Run(Local, c, es) == Run(Calm, c, es)
    decreases |es|
  {
    if es != [] {
      assert es[0] in es;
      if Calm(c, es[0]).Next? { LocalRun(Calm(c, es[0]).state, es[1..]); }
    }
  }

  ghost predicate Good(c: Conn) {
    Inv(c) && Graceful(c)
  }

  /** If only the loop thread sends, then in every run the write side is shut only when every byte `send` accepted is in
      the kernel (unless the connection had been closed before), and no byte is accepted or written afterwards. */
  lemma GracefulHalfClose(es: seq<Event>, c: Conn)
    requires Run(Calm, Init(), es) == Next(c) && forall e | e in es :: !e.RemoteSend?
    ensures c.log.half.Shut? ==>
              && c.log.kernel == c.log.half.kernel && c.log.accepted == c.log.half.accepted
              && (!c.log.half.closed ==> c.log.kernel == c.log.sent && |c.log.kernel| == c.log.accepted)
  {
    GracefulReach(es, c);
    if c.log.half.Shut? { FinalMeans(c); }
  }

  lemma GracefulReach(es: seq<Event>, c: Conn)
    requires Run(Calm, Init(), es) == Next(c) && forall e | e in es :: !e.RemoteSend?
    ensures Good(c)
  {
    LocalRun(Init(), es);
    InitInv();
    forall t, e | Good(t) && Local(t, e).Next? ensures Good(Local(t, e).state) {
      StepKeeps(t, e);
      GracefulStep(t, e);
    }
    Invariant(Local, Good, Init(), es);
  }

  lemma FinalMeans(c: Conn)
    requires Good(c) && c.log.half.Shut?
    ensures c.log.kernel == c.log.half.kernel && c.log.accepted == c.log.half.accepted
    ensures !c.log.half.closed ==> c.log.kernel == c.log.sent && |c.log.kernel| == c.log.accepted
  {
  }

  lemma ReachStep(c: Conn, e: Event, d: Conn)
    requires Reachable(c) && Calm(c, e) == Next(d)
    ensures Reachable(d)
  {
    var es: seq<Event> :| Run(Calm, Init(), es) == Next(c);
    Snoc(Calm, Init(), es, c, e);
  }

  const WRITABLE := Ready(false, false, true, false, false, false)

  /** A send of another thread overtaken by the half-close: its byte is accepted, stays in the buffer, and the process
      aborts on it. */
  lemma OvertakenSendAborts()
    ensures exists c :: Reachable(c) && c.log.half == Shut([1, 2], 3, false) && c.output == [3]
                        && Step(c, WritePart(-1)).Fault?
  {
    var c := ShutdownWithBacklog();
    var d1 := c.(phase := Reported(WRITABLE));
    ReachStep(c, Poll(WRITABLE), d1);
    var d2 := c.(phase := ReadDone(WRITABLE));
    ReachStep(d1, ReadPart(1), d2);
    var d3 := Drained(d2);
    var d4 := LateByte(d3);
    var d6 := LateReport(d4);
  }

  lemma LateReport(d4: Conn) returns (d6: Conn)
    requires Reachable(d4) && d4.log.half == Shut([1, 2], 3, false) && d4.output == [3] && d4.phase.Idle?
             && d4.events.write
    requires d4.slot == Registered(Registration(Interest(true, true), false))
    ensures Reachable(d6) && d6.log.half == d4.log.half && d6.output == [3] && Step(d6, WritePart(-1)).Fault?
  {
    var d5 := d4.(phase := Reported(WRITABLE));
    ReachStep(d4, Poll(WRITABLE), d5);
    d6 := d4.(phase := ReadDone(WRITABLE));
    ReachStep(d5, ReadPart(1), d6);
  }

  lemma LateByte(d3: Conn) returns (d4: Conn)
    requires Reachable(d3) && d3.log.half == Shut([1, 2], 3, false) && d3.output == []
    requires d3.slot == Registered(Registration(Interest(true, false), false)) && d3.events == Interest(true, false)
    requires d3.jobs == [SendJob([3]), ShutdownJob] && d3.phase.Idle?
    ensures Reachable(d4) && d4.log.half == d3.log.half && d4.output == [3] && d4.phase.Idle? && d4.events.write
    ensures d4.slot == Registered(Registration(Interest(true, true), false))
  {
    var both := Interest(true, true);
    d4 := d3.(log := Passed(d3.log, [3][..0], [3]), jobs := d3.jobs[1..], output := [] + [3][0..],
              events := both, slot := Registered(Registration(both, false)));
    ReachStep(d3, RunJob(-1), d4);
  }

  /** Two bytes buffered, one byte queued by another thread, which then shut the connection down. */
  lemma ShutdownWithBacklog() returns (c: Conn)
    ensures Reachable(c) && c.state == Disconnecting && c.phase.Idle? && c.log.closes == 0 && c.log.half.Open?
    ensures c.slot == Registered(Registration(Interest(true, true), false)) && c.events == Interest(true, true)
    ensures c.log.kernel == [] && c.output == [1, 2] == c.log.sent && c.log.accepted == 3
            && c.jobs == [SendJob([3]), ShutdownJob]
  {
    var c1 := JustEstablished();
    var c2 := TwoBuffered(c1);
    c := BacklogQueued(c2);
  }

  lemma JustEstablished() returns (c: Conn)
    ensures Reachable(c)
    ensures c == Init().(state := Connected, events := Interest(true, false),
                         slot := Registered(Registration(Interest(true, false), false)))
  {
    assert Run(Calm, Init(), []) == Next(Init());
    var reading := Interest(true, false);
    c := Init().(state := Connected, events := reading, slot := Registered(Registration(reading, false)));
    ReachStep(Init(), Establish, c);
  }

  lemma TwoBuffered(c: Conn) returns (d: Conn)
    requires Reachable(c) && c.state == Connected && c.events == Interest(true, false) && c.log.accepted == 0
    requires c.slot == Registered(Registration(Interest(true, false), false))
    requires c.log == NEW_LOG && c.output == []
    ensures Reachable(d)
    ensures d == c.(log := Log([], [1, 2], 2, Open, 0, 0, []), output := [1, 2], events := Interest(true, true),
                    slot := Registered(Registration(Interest(true, true), false)))
  {
    d := c.(log := Log([] + [1, 2][..0], [] + [1, 2], 2, Open, 0, 0, []), output := [] + [1, 2][0..],
            events := Interest(true, true), slot := Registered(Registration(Interest(true, true), false)));
    ReachStep(c, Send([1, 2], 0), d);
  }

  lemma BacklogQueued(c: Conn) returns (d: Conn)
    requires Reachable(c) && c.state == Connected && c.log.accepted == 2 && c.jobs == [] && c.others == Others(0, [])
    ensures Reachable(d)
    ensures d == c.(state := Disconnecting, log := c.log.(accepted := 3), jobs := [SendJob([3]), ShutdownJob])
  {
    var c1 := c.(log := c.log.(accepted := 3), others := Others(0, [] + [SendJob([3])]));
    ReachStep(c, RemoteSend([3]), c1);
    assert [] + [SendJob([3])] == [SendJob([3])];
    var c2 := c1.(others := Others(1, [SendJob([3])]));
    ReachStep(c1, RemoteShutdown, c2);
    var c3 := c2.(state := Disconnecting, others := Others(0, [SendJob([3])] + [ShutdownJob]));
    ReachStep(c2, Store, c3);
    var c4 := c3.(jobs := [] + [SendJob([3])], others := Others(0, [ShutdownJob]));
    assert Without(c3.others.passing, 0) == [ShutdownJob];
    ReachStep(c3, Pass(0), c4);
    d := c.(state := Disconnecting, log := c.log.(accepted := 3), jobs := [SendJob([3]), ShutdownJob]);
    assert Without([ShutdownJob], 0) == [] && c4.jobs + [ShutdownJob] == d.jobs;
    ReachStep(c4, Pass(0), d);
  }

  lemma Drained(c: Conn) returns (d: Conn)
    requires Reachable(c) && c.state == Disconnecting && c.phase == ReadDone(WRITABLE) && c.log.closes == 0
             && c.log.half.Open?
    requires c.slot == Registered(Registration(Interest(true, true), false)) && c.events == Interest(true, true)
    requires c.log.kernel == [] && c.output == [1, 2] == c.log.sent && c.log.accepted == 3
             && c.jobs == [SendJob([3]), ShutdownJob]
    ensures Reachable(d) && d.log.half == Shut([1, 2], 3, false) && d.log.kernel == [1, 2] && d.log.sent == [1, 2]
            && d.output == []
    ensures d.jobs == c.jobs && d.phase.Idle? && d.events == Interest(true, false)
    ensures d.slot == Registered(Registration(Interest(true, false), false))
  {
    d := Step(c, WritePart(2)).state;
    assert c.output[..2] == [1, 2] && c.output[2..] == [] && [] + c.output[..2] == [1, 2];
    ReachStep(c, WritePart(2), d);
  }

  const CLOSED := Ready(true, false, false, false, true, false)

  /** The state does go back: another thread calls shutdown(), and the connection is destroyed before the call
      stores. */
  lemma StateGoesBack()
    ensures exists c, d ::
              Reachable(c) && c.state == Disconnected && Step(c, Store) == Next(d) && d.state == Disconnecting
  {
    var a := ShuttingDown();
    var b := ClosedMeanwhile(a);
    var c := DestroyedMeanwhile(b);
    assert Step(c, Store).Next?;
  }

  /** Established, and another thread is inside shutdown(). */
  lemma ShuttingDown() returns (c: Conn)
    ensures Reachable(c) && c.state == Connected && c.phase.Idle? && c.log.closes == 0 && c.log.owed == 0
            && c.jobs == []
    ensures c.others.storing == 1 && c.slot == Registered(Registration(Interest(true, false), false))
  {
    var c1 := JustEstablished();
    c := c1.(others := Others(1, []));
    ReachStep(c1, RemoteShutdown, c);
  }

  /** The peer closes. */
  lemma ClosedMeanwhile(c: Conn) returns (d: Conn)
    requires Reachable(c) && c.state == Connected && c.phase.Idle? && c.log.closes == 0 && c.log.owed == 0
    requires c.slot == Registered(Registration(Interest(true, false), false))
    ensures Reachable(d)
    ensures d == c.(slot := Registered(Registration(NONE, true)), events := NONE, log := c.log.(closes := 1, owed := 1))
  {
    var c1 := c.(phase := Reported(CLOSED));
    ReachStep(c, Poll(CLOSED), c1);
    d := c.(slot := Registered(Registration(NONE, true)), events := NONE, log := c.log.(closes := 1, owed := 1));
    var c2 := d.(phase := ReadDone(CLOSED));
    ReachStep(c1, ReadPart(0), c2);
    ReachStep(c2, WritePart(0), d);
  }

  lemma DestroyedMeanwhile(c: Conn) returns (d: Conn)
    requires Reachable(c) && c.state == Connected && c.slot == Registered(Registration(NONE, true)) && c.events == NONE
    requires c.others.storing == 1 && c.log.owed == 1 && c.jobs == [] && c.phase.Idle?
    ensures Reachable(d) && d.state == Disconnected && d.others == c.others
  {
    var c1 := c.(log := c.log.(owed := 0), jobs := [] + [DestroyJob]);
    ReachStep(c, ServerRemoves, c1);
    assert c1.jobs[1..] == [];
    d := c1.(jobs := [], state := Disconnected, slot := Removed);
    ReachStep(c1, RunJob(0), d);
  }
}
