/** One TCP connection as a step machine: its own fields, its channel's registration, the functors queued for it,
    and the bytes the kernel has taken.

    Loop-thread code may call `send` and `shutdown` at any point.  Another
    thread calls them in separate steps: it reads `state_`, in `shutdown` it
    stores `state_`, and it pushes the functor; anything may happen in between.
    poll() reports only what the registration allows; after a close the server
    queues the destruction.
 */
module TcpConnectionModel {
  import opened Machine
  import opened ChannelModel

  type Byte = bv8

  datatype State = Connecting | Connected | Disconnecting | Disconnected

  datatype Job = SendJob(bytes: seq<Byte>) | ShutdownJob | DestroyJob

  datatype Slot = Unregistered | Registered(reg: Registration) | Removed

  /** Where the loop is in this connection's `handleEvent`. */
  datatype Phase =
    | Idle
    | Reported(ready: Ready)     // poll() has reported, the callbacks are to come
    | ReadDone(ready: Ready)     // close, error and read callbacks are done, the write callback is to come

  /** The first `shutdownWrite`: what the kernel had taken, how much `send` had accepted, whether the connection was
      closed. */
  datatype Half = Open | Shut(kernel: seq<Byte>, accepted: nat, closed: bool)

  /** Other threads inside `send` or `shutdown`, which found the connection connected. */
  datatype Others = Others(
    storing: nat,          // in `shutdown`, before storing kDisconnecting
    passing: seq<Job>)     // before pushing their functor

  datatype Log = Log(
    kernel: seq<Byte>,
    sent: seq<Byte>,                  // what sendInLoop was given
    accepted: nat,                    // bytes send() took while connected
    half: Half,
    closes: nat,                      // closeCallback_ calls
    owed: nat,                        // closes whose connectDestroyed the server has still to queue
    completions: seq<(nat, nat)>)     // |sent| and |kernel| whenever a write-complete callback was queued

  const NEW_LOG := Log([], [], 0, Open, 0, 0, [])

  datatype Conn = Conn(
    state: State,
    events: Interest,
    slot: Slot,
    output: seq<Byte>,
    jobs: seq<Job>,
    others: Others,
    phase: Phase,
    log: Log)

  datatype Event =
    | Establish
    | Send(bytes: seq<Byte>, wrote: int)
    | RemoteSend(bytes: seq<Byte>)
    | Shutdown
    | RemoteShutdown
    | Store
    | Pass(i: nat)
    | Poll(ready: Ready)
    | ReadPart(n: int)
    | WritePart(n: int)
    | RunJob(wrote: int)
    | ServerRemoves

  /** A connection object just constructed. */
  function Init(): Conn {
    Conn(Connecting, NONE, Unregistered, [], [], Others(0, []), Idle, NEW_LOG)
  }

  /** `Channel::update`; an unregistered channel is registered, a removed one fails the poller's assertions. */
  function Update(c: Conn, events: Interest): Outcome<Conn> {
    match c.slot
    case Unregistered => Next(c.(events := events, slot := Registered(Registration(events, false))))
    case Registered(reg) => Next(c.(events := events, slot := Registered(Reregister(reg, events))))
    case Removed => Fault
  }

  /** The kernel takes `taken`; `sendInLoop` was given `message`. */
  function Passed(l: Log, taken: seq<Byte>, message: seq<Byte>): Log {
    l.(kernel := l.kernel + taken, sent := l.sent + message)
  }

  /** A write-complete callback is queued. */
  function Completed(l: Log): Log {
    l.(completions := l.completions + [(|l.sent|, |l.kernel|)])
  }

  /** The connection once `send` has accepted the message. */
  function Accepting(c: Conn, bytes: seq<Byte>): Conn {
    c.(log := c.log.(accepted := c.log.accepted + |bytes|))
  }

  /** Whether `sendInLoop` writes at once. */
  predicate Direct(c: Conn) {
    !c.events.write && c.output == []
  }

  /** What write() may return for `len` bytes: no more than that, and an error once the write side has been shut
      (EPIPE; the process ignores SIGPIPE). */
  predicate Writes(c: Conn, len: nat, n: int) {
    n <= len && (c.log.half.Shut? ==> n < 0)
  }

  /** `wrote` is what write() returned, if it was called; a negative result counts as nothing written. */
  function SendInLoop(c: Conn, bytes: seq<Byte>, wrote: int): Outcome<Conn> {
    if Direct(c) && !Writes(c, |bytes|, wrote) then Disabled else
    var n := if Direct(c) && wrote >= 0 then wrote else 0;
    var c1 := c.(log := Passed(c.log, bytes[..n], bytes));
    var c2 := if Direct(c) && wrote == |bytes| then c1.(log := Completed(c1.log))
        else c1;
    if n < |bytes| then
      var c3 := c2.(output := c2.output + bytes[n..]);
      if c3.events.write then Next(c3) else Update(c3, Interest(c3.events.read, true))
    else Next(c2)
  }

  function ShutdownInLoop(c: Conn): Conn {
    if c.events.write || c.log.half.Shut? then c
        else c.(log := c.log.(half := Shut(c.log.kernel, c.log.accepted, c.log.closes > 0)))
  }

  /** The write callback; `n` is what write() returned.  Anything but progress aborts. */
  function HandleWrite(c: Conn, n: int): Outcome<Conn> {
    if !c.events.write then Next(c)
    else if !Writes(c, |c.output|, n) then Disabled
    else if n <= 0 then Fault
    else
      var c1 := c.(output := c.output[n..], log := Passed(c.log, c.output[..n], []));
      if c1.output != [] then Next(c1) else
      match Update(c1, Interest(c1.events.read, false))
      case Next(c2) =>
        var c3 := c2.(log := Completed(c2.log));
        Next(if c3.state == Disconnecting then ShutdownInLoop(c3) else c3)
      case o => o
  }

  function HandleClose(c: Conn): Outcome<Conn> {
    if c.state != Connected && c.state != Disconnecting then Fault else
    match Update(c, NONE)
    case Next(c1) => Next(c1.(log := c1.log.(closes := c1.log.closes + 1, owed := c1.log.owed + 1)))
    case o => o
  }

  /** The read callback: end of file closes, an error is only reported, data goes to the user. */
  function HandleRead(c: Conn, n: int): Outcome<Conn> {
    if n == 0 then HandleClose(c) else Next(c)
  }

  /** `handleEvent` up to the write callback. */
  function DispatchRead(c: Conn, r: Ready, n: int): Outcome<Conn> {
    var o := if r.hup && !r.pollin then HandleClose(c) else Next(c);
    if o.Next? && (r.pollin || r.pri) then HandleRead(o.state, n) else o
  }

  function ConnectDestroyed(c: Conn): Outcome<Conn> {
    if c.state != Connected && c.state != Disconnecting then Fault else
    match Update(c.(state := Disconnected), NONE)
    case Next(c1) => if c1.slot == Registered(Registration(NONE, true)) then Next(c1.(slot := Removed)) else Fault
    case o => o
  }

  /** The read callback meets end of file although the close callback has just closed: the same `handleEvent` is about
      to close a second time. */
  predicate ClosesTwice(c: Conn, e: Event) {
    e == ReadPart(0) && c.phase.Reported? && c.phase.ready.hup && !c.phase.ready.pollin && c.phase.ready.pri
  }

  /** The machine where poll() reports POLLPRI with a hang-up and without POLLIN only if there is something to read. */
  function Calm(c: Conn, e: Event): Outcome<Conn> {
    if ClosesTwice(c, e) then Disabled else Step(c, e)
  }

  function Without(jobs: seq<Job>, i: nat): seq<Job>
    requires i < |jobs|
  {
    jobs[..i] + jobs[i + 1..]
  }

  function Step(c: Conn, e: Event): Outcome<Conn> {
    match e
    case Establish =>
      if c.slot != Unregistered then Disabled
      else if c.state != Connecting then Fault
      else Update(c.(state := Connected), Interest(true, c.events.write))
    case Send(bytes, wrote) =>
      if c.state != Connected then Next(c) else SendInLoop(Accepting(c, bytes), bytes, wrote)
    case RemoteSend(bytes) =>
      Next(if c.state != Connected then c else
           Accepting(c, bytes).(others := c.others.(passing := c.others.passing + [SendJob(bytes)])))
    case Shutdown =>
      Next(if c.state != Connected then c else ShutdownInLoop(c.(state := Disconnecting)))
    case RemoteShutdown =>
      Next(if c.state != Connected then c else c.(others := c.others.(storing := c.others.storing + 1)))
    case Store =>
      if c.others.storing == 0 then Disabled else
      Next(c.(state := Disconnecting, others := Others(c.others.storing - 1, c.others.passing + [ShutdownJob])))
    case Pass(i) =>
      if i >= |c.others.passing| then Disabled else
      Next(c.(jobs := c.jobs + [c.others.passing[i]], others := c.others.(passing := Without(c.others.passing, i))))
    case Poll(ready) =>
      if !c.phase.Idle? || !c.slot.Registered? || c.slot.reg.muted || !ready.IsSet()
          || !Allowed(ready, c.slot.reg.events)
      then Disabled else Next(c.(phase := Reported(ready)))
    case ReadPart(n) =>
      if !c.phase.Reported? then Disabled else
      DispatchRead(c.(phase := ReadDone(c.phase.ready)), c.phase.ready, n)
    case WritePart(n) =>
      if !c.phase.ReadDone? then Disabled else
      if c.phase.ready.out then HandleWrite(c.(phase := Idle), n) else Next(c.(phase := Idle))
    case RunJob(wrote) =>
      if !c.phase.Idle? || c.jobs == [] then Disabled else
      var c1 := c.(jobs := c.jobs[1..]);
      (match c.jobs[0]
       case SendJob(bytes) => SendInLoop(c1, bytes, wrote)
       case ShutdownJob => Next(ShutdownInLoop(c1))
       case DestroyJob => ConnectDestroyed(c1))
    case ServerRemoves =>
      if c.log.owed == 0 then Disabled
          else Next(c.(jobs := c.jobs + [DestroyJob], log := c.log.(owed := c.log.owed - 1)))
  }
}
