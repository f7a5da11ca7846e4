/** What each step of the connector does with the socket at hand, in every reachable state. */
module ConnectorEffects {
  import opened Machine
  import opened ChannelModel
  import opened ConnectorModel
  import opened ConnectorTheorems

  /** The errors after which `connect` waits for the socket to become writable. */
  ghost predicate Waits(e: Errno) {
    e == Success || e == EINPROGRESS || e == EINTR || e == EISCONN
  }

  /** The errors after which it tries again later. */
  ghost predicate Retries(e: Errno) {
    e == EAGAIN || e == EADDRINUSE || e == EADDRNOTAVAIL || e == ECONNREFUSED || e == ENETUNREACH
  }

  /** The socket `fd` has been closed, and one retry timer set after `delay` ms. */
  ghost predicate ClosedAndRetrying(c: Connector, d: Connector, fd: Socket) {
    && d.log.closed == c.log.closed + [fd] && d.log.handed == c.log.handed && d.state == Disconnected && !d.watched
    && d.timerId == c.timerId + 1 && d.queues.timers == c.queues.timers + {c.timerId + 1}
    && d.log.delays == c.log.delays + [c.retryDelay]
  }

  /** The socket `fd` has been closed, and nothing else is going to happen. */
  ghost predicate ClosedOnly(c: Connector, d: Connector, fd: Socket) {
    && d.log.closed == c.log.closed + [fd] && d.log.handed == c.log.handed && !d.watched
    && d.timerId == c.timerId && d.queues.timers == c.queues.timers && d.log.delays == c.log.delays
  }

  /** An attempt, by the error that connect(2) returned: if it is under way, the new socket is watched until it becomes
      writable, and nothing is closed. */
  lemma AttemptWaits(c: Connector, errno: Errno)
    requires c.connect && !c.watched && StartInLoop(c, errno).Next? && Waits(errno)
    ensures var d, fd := StartInLoop(c, errno).state, c.log.created;
            && d.log == c.log.(created := fd + 1) && d.queues == c.queues
            && d.state == Connecting && d.watched && d.channel == Owned(fd)
  {
  }

  /** If it may succeed later, the new socket is closed, and one retry set. */
  lemma AttemptRetries(c: Connector, errno: Errno)
    requires c.connect && !c.watched && StartInLoop(c, errno).Next? && Retries(errno)
    ensures var d, fd := StartInLoop(c, errno).state, c.log.created;
            d.log.created == fd + 1 && ClosedAndRetrying(c, d, fd)
  {
  }

  /** After any other error the new socket is closed, and that is all. */
  lemma AttemptGivesUp(c: Connector, errno: Errno)
    requires c.connect && !c.watched && StartInLoop(c, errno).Next? && !Waits(errno) && !Retries(errno)
    ensures var d, fd := StartInLoop(c, errno).state, c.log.created;
            d.log.created == fd + 1 && ClosedOnly(c, d, fd) && d.state == Disconnected
  {
  }

  /** Without `connect_` no attempt is made. */
  lemma NotWanted(c: Connector, errno: Errno)
    requires !c.connect && StartInLoop(c, errno).Next?
    ensures StartInLoop(c, errno).state == c
  {
  }

  /** A start, a retry and a restart each make one attempt; the first two only if connecting is still wanted. */
  lemma AttemptsMade(c: Connector, e: Event)
    requires Reachable(c) && (e.RunStart? || e.Fire? || e.Restart?) && Step(c, e).Next?
    ensures Step(c, e).state.log.created == c.log.created + if c.connect || e.Restart? then 1 else 0
    ensures e.Restart? ==> Step(c, e).state.connect
  {
    AttemptStep(c, e);
  }

  /** A restart starts the back-off again: its first retry waits half a second. */
  lemma RestartResetsDelay(c: Connector, errno: Errno)
    requires Reachable(c) && Step(c, Restart(errno)).Next?
    ensures Step(c, Restart(errno)).state.log.delays == if Retries(errno) then [500] else []
    ensures Step(c, Restart(errno)).state.retryDelay == if Retries(errno) then 1000 else 500
  {
    assert [] + [500] == [500];
  }

  /** The write callback, by SO_ERROR and self-connection: a sound socket is handed over, or closed if connecting is
      not wanted any more; any other is closed, with one retry if it is still wanted. */
  lemma WritableOutcome(c: Connector, soError: bool, selfConnect: bool)
    requires Reachable(c) && Step(c, WritePart(soError, selfConnect)).Next?
    ensures c.phase.ErrorDone?
    ensures var d := Step(c, WritePart(soError, selfConnect)).state;
            if !c.phase.ready.out || !c.watched then d == c.(phase := Idle)
            else c.channel.Owned? && var fd := c.channel.fd;
              if soError || selfConnect then
                d.state == Disconnected && if c.connect then ClosedAndRetrying(c, d, fd) else ClosedOnly(c, d, fd)
              else if c.connect then
                && d.log.handed == c.log.handed + [fd] && d.log.closed == c.log.closed && !d.watched
                && d.state == Connected && d.restartable && d.queues.timers == c.queues.timers
              else d.state == Connected && ClosedOnly(c, d, fd)
  {
    ReachableInv(c);
  }

  /** Only a sound socket is ever handed over. */
  lemma HandsOverSound(c: Connector, e: Event)
    requires Reachable(c) && Step(c, e).Next? && Step(c, e).state.log.handed != c.log.handed
    ensures e == WritePart(false, false) && c.connect && c.watched
    ensures c.channel.Owned? && Step(c, e).state.log.handed == c.log.handed + [c.channel.fd]
  {
    ReachableInv(c);
    if IsAttempt(e) { AttemptStep(c, e); }
  }

  /** The error callback closes the socket, with one retry if connecting is still wanted. */
  lemma ErrorOutcome(c: Connector)
    requires Reachable(c) && Step(c, ErrorPart).Next?
    ensures c.phase.Reported?
    ensures var d, r := Step(c, ErrorPart).state, c.phase.ready;
            && d.phase == ErrorDone(r)
            && if r.err || r.nval then
                 && c.channel.Owned? && d.state == Disconnected
                 && if c.connect then ClosedAndRetrying(c, d, c.channel.fd) else ClosedOnly(c, d, c.channel.fd)
               else d == c.(phase := ErrorDone(r))
  {
    ReachableInv(c);
  }

  /** `stop` on the loop thread. */
  lemma StopClears(c: Connector, effective: bool)
    requires Reachable(c)
    ensures var d := Step(c, Stop(effective)).state;
            && !d.connect && d == c.(connect := false, queues := d.queues)
            && d.queues == c.queues.(timers := if effective then c.queues.timers - {c.timerId} else c.queues.timers)
  {
  }

  /** `stop` on another thread: it clears the flag, later queues the cancel of the timer it then finds, and the
      cancel removes that timer. */
  lemma RemoteStopCancels(c: Connector, effective: bool)
    requires Reachable(c)
    ensures Step(c, StopFlag) == Next(c.(connect := false, queues := c.queues.(stopping := c.queues.stopping + 1)))
    ensures Step(c, StopTimer).Next? ==>
              var d := Step(c, StopTimer).state;
              d.queues.cancels == c.queues.cancels + [c.timerId] && d.queues.timers == c.queues.timers && d.connect
                  == c.connect
    ensures Step(c, RunCancel(effective)).Next? ==>
              var d := Step(c, RunCancel(effective)).state;
              && c.queues.cancels != [] && d.queues.cancels == c.queues.cancels[1..] && d.connect == c.connect
              && d.queues.timers == if effective then c.queues.timers - {c.queues.cancels[0]} else c.queues.timers
  {
  }

  /** A start asks for connecting and queues one attempt; the functor that frees the channel frees it. */
  lemma StartAndReset(c: Connector)
    requires Reachable(c)
    ensures Step(c, Start).Next? ==>
              Step(c, Start).state == c.(started := true, connect := true, queues :=
                  c.queues.(starts := c.queues.starts + 1))
    ensures Step(c, RunReset).Next? ==> Step(c, RunReset).state.channel == Null
  {
  }

  /** The delays, in milliseconds: 500, 1000, 2000, 4000, 8000, 16000, and 30000 from then on. */
  lemma DelaysInLiterals(k: nat)
    ensures Backoff(0) == 500 && Backoff(1) == 1000 && Backoff(2) == 2000 && Backoff(3) == 4000
    ensures Backoff(4) == 8000 && Backoff(5) == 16000
    ensures k >= 6 ==> Backoff(k) == 30000
  {
    assert Pow2(1) == 2 && Pow2(2) == 4 && Pow2(3) == 8 && Pow2(4) == 16 && Pow2(5) == 32 && Pow2(6) == 64;
    if k >= 6 { Pow2Grows(6, k); }
  }

  lemma {:induction false} Pow2Grows(i: nat, k: nat)
    requires i <= k
    ensures Pow2(i) <= Pow2(k)
    decreases k - i
  {
    if i < k {
      assert Pow2(i + 1) == 2 * Pow2(i);
      Pow2Grows(i + 1, k);
    }
  }

  // ---------- when each step can happen ----------

  /** Started once, restarted only after a hand-over; the loop runs its functors and timers between events, and
      polls a watched channel for writability and the three flags poll() always reports. */
  lemma DisabledExactly(c: Connector, e: Event)
    requires Reachable(c)
    ensures !Step(c, e).Disabled? <==>
              match e
              case Start => !c.started
              case RunStart(_) => c.phase == Idle && c.queues.starts > 0
              case Fire(timer, _) => c.phase == Idle && timer in c.queues.timers
              case Restart(_) => c.phase == Idle && c.restartable
              case Stop(_) => true
              case StopFlag => true
              case StopTimer => c.queues.stopping > 0
              case RunCancel(_) => c.phase == Idle && c.queues.cancels != []
              case Poll(r) =>
                && c.phase == Idle && c.watched && !r.pollin && !r.pri && (r.out || r.err || r.hup || r.nval)
              case ErrorPart => c.phase.Reported?
              case WritePart(_, _) => c.phase.ErrorDone?
              case RunReset => c.phase == Idle && c.queues.resets > 0
  {
  }

  /** A report changes only where the loop is. */
  lemma PollReports(c: Connector, r: Ready)
    requires Reachable(c) && Step(c, Poll(r)).Next?
    ensures Step(c, Poll(r)).state == c.(phase := Reported(r))
  {
  }

  /** A functor or timer that makes an attempt is gone, and only it. */
  lemma TriggersUsed(c: Connector, e: Event)
    requires Reachable(c) && IsAttempt(e) && Step(c, e).Next?
    ensures e.RunStart? ==> Step(c, e).state.queues.starts == c.queues.starts - 1
    ensures e.Fire? ==> e.timer !in Step(c, e).state.queues.timers
    ensures e.Restart? ==> !Step(c, e).state.restartable
  {
    ReachableInv(c);
    AttemptStep(c, e);
    AttemptLeaves(Attempting(c, e), e.errno);
  }

  lemma AttemptLeaves(c: Connector, errno: Errno)
    requires StartInLoop(c, errno).Next?
    ensures var d := StartInLoop(c, errno).state;
            && d.queues.starts == c.queues.starts && d.restartable == c.restartable
            && d.queues.timers <= c.queues.timers + {c.timerId + 1}
  {
  }

  /** A connector starts disconnected, not asked to connect, with the first delay half a second. */
  lemma StartsDisconnected()
    ensures Init() == Connector(false, Disconnected, Null, false, 500, 0, Idle, false, false,
                                Queues({}, 0, 0, [], 0), Log(0, [], [], [], false, false))
  {
  }
}
