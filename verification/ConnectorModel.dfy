/** The client's connector: a retry loop that owns one socket at a time.

    `start` is called once and `restart` only after a socket has been handed
    to the user, who then owns it; `stop` may be called at any time.  On
    another thread `stop` is two separate accesses: it clears `connect_`, and
    later reads `timerId_` and queues the cancel.
 */
module ConnectorModel {
  import opened Machine
  import opened ChannelModel

  type Socket = nat

  const INIT_RETRY_DELAY_MS := 500
  const MAX_RETRY_DELAY_MS := 30 * 1000

  datatype State = Disconnected | Connecting | Connected

  datatype Errno =
    | Success | EINPROGRESS | EINTR | EISCONN
    | EAGAIN | EADDRINUSE | EADDRNOTAVAIL | ECONNREFUSED | ENETUNREACH
    | EACCES | EPERM | EAFNOSUPPORT | EALREADY | EBADF | EFAULT | ENOTSOCK
    | Unexpected(code: int)

  datatype Verdict = InProgress | Again | GiveUp

  /** What `connect` does about the result of connect(2). */
  function Classify(e: Errno): Verdict {
    match e
    case Success | EINPROGRESS | EINTR | EISCONN => InProgress
    case EAGAIN | EADDRINUSE | EADDRNOTAVAIL | ECONNREFUSED | ENETUNREACH => Again
    case _ => GiveUp
  }

  datatype ChannelPtr = Null | Owned(fd: Socket)

  /** Where the loop is in the channel's `handleEvent`. */
  datatype Phase = Idle | Reported(ready: Ready) | ErrorDone(ready: Ready)

  /** What the loop's queues and the other threads still hold for the connector. */
  datatype Queues = Queues(
    timers: set<nat>,         // retry timers that have not fired
    starts: nat,              // queued startInLoop functors
    resets: nat,              // queued resetChannel functors
    cancels: seq<nat>,        // queued cancels
    stopping: nat)            // other threads inside stop()

  datatype Log = Log(
    created: nat,             // sockets are numbered as they are created
    closed: seq<Socket>,
    handed: seq<Socket>,
    delays: seq<nat>,         // of the retries since construction or restart
    gaveUp: bool,             // connect(2) failed for good
    overtaken: bool)          // a stop() on another thread read timerId_ after a restart() had set connect_ again

  datatype Connector = Connector(
    connect: bool,
    state: State,
    channel: ChannelPtr,
    watched: bool,            // the channel is registered with the poller
    retryDelay: nat,
    timerId: nat,             // 0 before the first retry; every retry makes a new timer
    phase: Phase,
    started: bool,
    restartable: bool,        // a socket was handed over since the last attempt began
    queues: Queues,
    log: Log)

  datatype Event =
    | Start
    | RunStart(errno: Errno)
    | Fire(timer: nat, errno: Errno)
    | Restart(errno: Errno)
    | Stop(effective: bool)
    | StopFlag
    | StopTimer
    | RunCancel(effective: bool)
    | Poll(ready: Ready)
    | ErrorPart
    | WritePart(soError: bool, selfConnect: bool)
    | RunReset

  function Init(): Connector {
    Connector(false, Disconnected, Null, false, INIT_RETRY_DELAY_MS, 0, Idle, false, false,
              Queues({}, 0, 0, [], 0), Log(0, [], [], [], false, false))
  }

  function Doubled(delay: nat): nat {
    if delay * 2 < MAX_RETRY_DELAY_MS then delay * 2 else MAX_RETRY_DELAY_MS
  }

  function Close(l: Log, fd: Socket): Log {
    l.(closed := l.closed + [fd])
  }

  function Retry(c: Connector, fd: Socket): Connector {
    var c1 := c.(state := Disconnected, log := Close(c.log, fd));
    if !c.connect then c1 else
    c1.(timerId := c.timerId + 1, retryDelay := Doubled(c.retryDelay),
        queues := c.queues.(timers := c.queues.timers + {c.timerId + 1}),
        log := c1.log.(delays := c1.log.delays + [c.retryDelay]))
  }

  function BeginConnecting(c: Connector, fd: Socket): Outcome<Connector> {
    if c.channel != Null then Fault else
    Next(c.(state := Connecting, channel := Owned(fd), watched := true))
  }

  /** socket(2) */
  function NewSocket(c: Connector): Connector {
    c.(log := c.log.(created := c.log.created + 1))
  }

  /** `connect`: a new socket, and what becomes of it. */
  function Connect(c: Connector, errno: Errno): Outcome<Connector> {
    var c1, fd := NewSocket(c), c.log.created;
    match Classify(errno)
    case InProgress => BeginConnecting(c1, fd)
    case Again => Next(Retry(c1, fd))
    case GiveUp => Next(c1.(log := Close(c1.log, fd).(gaveUp := true)))
  }

  function StartInLoop(c: Connector, errno: Errno): Outcome<Connector> {
    if c.state != Disconnected then Fault
    else if !c.connect then Next(c)
    else Connect(c, errno)
  }

  /** What `restart` sets before it starts. */
  function Reset(c: Connector): Connector {
    c.(restartable := false, state := Disconnected, retryDelay := INIT_RETRY_DELAY_MS, connect := true,
        log := c.log.(delays := []))
  }

  /** Muting and removing the channel; the object itself goes later, from the functor queue. */
  function RemoveAndResetChannel(c: Connector): Connector {
    c.(watched := false, queues := c.queues.(resets := c.queues.resets + 1))
  }

  function HandleWrite(c: Connector, soError: bool, selfConnect: bool): Outcome<Connector> {
    if c.state == Connecting then
      if c.channel == Null then Fault else
      var fd := c.channel.fd;
      var c1 := RemoveAndResetChannel(c);
      if soError || selfConnect then Next(Retry(c1, fd)) else
      var c2 := c1.(state := Connected);
      Next(if c2.connect then c2.(restartable := true, log := c2.log.(handed := c2.log.handed + [fd]))
           else c2.(log := Close(c2.log, fd)))
    else if c.state == Disconnected then Next(c)
    else Fault
  }

  function HandleError(c: Connector): Outcome<Connector> {
    if c.state != Connecting || c.channel == Null then Fault else
    Next(Retry(RemoveAndResetChannel(c), c.channel.fd))
  }

  /** `TimerQueue::cancel` of a retry timer; one whose batch has already been taken out fires all the same. */
  function Cancel(q: Queues, timer: nat, effective: bool): Queues {
    if effective then q.(timers := q.timers - {timer}) else q
  }

  function Step(c: Connector, e: Event): Outcome<Connector> {
    var q := c.queues;
    match e
    case Start =>
      if c.started then Disabled else Next(c.(started := true, connect := true, queues := q.(starts := q.starts + 1)))
    case RunStart(errno) =>
      if !c.phase.Idle? || q.starts == 0 then Disabled else StartInLoop(c.(queues := q.(starts := q.starts - 1)), errno)
    case Fire(timer, errno) =>
      if !c.phase.Idle? || timer !in q.timers then Disabled
          else StartInLoop(c.(queues := q.(timers := q.timers - {timer})), errno)
    case Restart(errno) =>
      if !c.phase.Idle? || !c.restartable then Disabled else StartInLoop(Reset(c), errno)
    case Stop(effective) => Next(c.(connect := false, queues := Cancel(q, c.timerId, effective)))
    case StopFlag => Next(c.(connect := false, queues := q.(stopping := q.stopping + 1)))
    case StopTimer =>
      if q.stopping == 0 then Disabled else
      Next(c.(queues := q.(stopping := q.stopping - 1, cancels := q.cancels + [c.timerId]),
              log := c.log.(overtaken := c.log.overtaken || c.connect)))
    case RunCancel(effective) =>
      if !c.phase.Idle? || q.cancels == [] then Disabled else
      Next(c.(queues := Cancel(q.(cancels := q.cancels[1..]), q.cancels[0], effective)))
    case Poll(ready) =>
      if !c.phase.Idle? || !c.watched || !ready.IsSet() || !Allowed(ready, Interest(false, true)) then Disabled else
      Next(c.(phase := Reported(ready)))
    case ErrorPart =>
      if !c.phase.Reported? then Disabled else
      var c1 := c.(phase := ErrorDone(c.phase.ready));
      if Error in Dispatch(c.phase.ready) then HandleError(c1) else Next(c1)
    case WritePart(soError, selfConnect) =>
      if !c.phase.ErrorDone? then Disabled else
      var c1 := c.(phase := Idle);
      if Write in Dispatch(c.phase.ready) then HandleWrite(c1, soError, selfConnect) else Next(c1)
    case RunReset =>
      if !c.phase.Idle? || q.resets == 0 then Disabled else
      Next(c.(channel := Null, queues := q.(resets := q.resets - 1)))
  }
}
