/** What the connector guarantees in every run. */
module ConnectorTheorems {
  import opened Machine
  import opened ChannelModel
  import opened ConnectorModel

  ghost predicate Reachable(c: Connector) {
    exists es: seq<Event> :: Run(Step, Init(), es) == Next(c)
  }

  // ---------- the sockets ----------

  /** The one socket whose connection attempt is under way. */
  ghost function Attempted(c: Connector): ChannelPtr {
    if c.watched then c.channel else Null
  }

  ghost function InFlight(p: ChannelPtr): multiset<Socket> {
    if p.Owned? then multiset{p.fd} else multiset{}
  }

  ghost function FirstN(n: nat): multiset<Socket> {
    if n == 0 then multiset{} else FirstN(n - 1) + multiset{n - 1}
  }

  lemma {:induction false} FirstNCount(n: nat, fd: Socket)
    ensures FirstN(n)[fd] == if fd < n then 1 else 0
  {
    if n > 0 { FirstNCount(n - 1, fd); }
  }

  ghost predicate Owning(c: Connector) {
    multiset(c.log.closed) + multiset(c.log.handed) + InFlight(Attempted(c)) == FirstN(c.log.created)
  }

  // ---------- the back-off ----------

  ghost function Pow2(k: nat): nat {
    if k == 0 then 1 else 2 * Pow2(k - 1)
  }

  /** min(500 * 2^k, 30000) ms */
  ghost function Backoff(k: nat): nat {
    if INIT_RETRY_DELAY_MS * Pow2(k) < MAX_RETRY_DELAY_MS then INIT_RETRY_DELAY_MS * Pow2(k) else MAX_RETRY_DELAY_MS
  }

  ghost predicate BackedOff(c: Connector) {
    c.retryDelay == Backoff(|c.log.delays|) && forall k | 0 <= k < |c.log.delays| :: c.log.delays[k] == Backoff(k)
  }

  // ---------- control ----------

  ghost predicate Attached(c: Connector) {
    && (c.watched <==> c.state == Connecting)
    && (c.watched ==> c.channel.Owned? && c.queues.resets == 0)
    && c.queues.resets <= 1
    && (c.channel.Owned? <==> c.watched || c.queues.resets == 1)
    && (c.phase.Reported? ==> c.watched)
    && (c.phase.ErrorDone? ==> c.watched || c.state == Disconnected)
  }

  /** Everything that can make the connector move on by itself, or that lets the user restart it. */
  ghost function Tokens(c: Connector): nat {
    c.queues.starts + |c.queues.timers| + (if c.watched then 1 else 0) + (if c.restartable then 1 else 0)
  }

  ghost predicate Triggered(c: Connector) {
    && Tokens(c) <= 1
    && (c.queues.starts > 0 || c.queues.timers != {} ==> c.state == Disconnected)
    && (!c.started ==> Tokens(c) == 0 && !c.connect && c.state == Disconnected)
  }

  ghost predicate Tracked(c: Connector) {
    && (forall t | t in c.queues.timers :: t <= c.timerId)
    && (forall t | t in c.queues.cancels :: t <= c.timerId)
    && (c.connect && !c.log.overtaken ==> forall t | t in c.queues.timers :: t !in c.queues.cancels)
  }

  ghost predicate Alive(c: Connector) {
    c.connect && !c.log.gaveUp && !c.log.overtaken ==> Tokens(c) == 1
  }

  ghost predicate Inv(c: Connector) {
    Owning(c) && BackedOff(c) && Attached(c) && Triggered(c) && Tracked(c) && Alive(c)
  }

  // ---------- each part of a step keeps them ----------

  /** What a step may do to the sockets: nothing, create one and try it, create one and close it, or close or hand
      over the one under way. */
  ghost predicate Moves(c: Connector, d: Connector) {
    var p, q := Attempted(c), Attempted(d);
    || (d.log.created == c.log.created && d.log.closed == c.log.closed && d.log.handed == c.log.handed && q == p)
    || (p == Null && d.log.created == c.log.created + 1 && d.log.handed == c.log.handed
        && ((q == Owned(c.log.created) && d.log.closed == c.log.closed)
           || (q == Null && d.log.closed == c.log.closed + [c.log.created])))
    || (p.Owned? && q == Null && d.log.created == c.log.created
        && ((d.log.closed == c.log.closed + [p.fd] && d.log.handed == c.log.handed)
           || (d.log.closed == c.log.closed && d.log.handed == c.log.handed + [p.fd])))
  }

  lemma MovesOwn(c: Connector, d: Connector)
    requires Owning(c) && Moves(c, d)
    ensures Owning(d)
  {
    if d.log.created > c.log.created {
      CreatedOwn(c, d);
    } else if d.log.closed != c.log.closed || d.log.handed != c.log.handed {
      FinishedOwn(c, d);
    }
  }

  lemma CreatedOwn(c: Connector, d: Connector)
    requires Owning(c) && Moves(c, d) && d.log.created > c.log.created
    ensures Owning(d)
  {
    assert FirstN(d.log.created) == FirstN(c.log.created) + multiset{c.log.created};
  }

  lemma FinishedOwn(c: Connector, d: Connector)
    requires Owning(c) && Moves(c, d) && d.log.created == c.log.created && Attempted(c).Owned? && Attempted(d) == Null
    ensures Owning(d)
  {
  }

  ghost predicate IsAttempt(e: Event) {
    e.RunStart? || e.Fire? || e.Restart?
  }

  /** The state in which the event calls `startInLoop`. */
  ghost function Attempting(c: Connector, e: Event): Connector
    requires IsAttempt(e)
  {
    match e
    case RunStart(_) => if c.queues.starts > 0 then c.(queues := c.queues.(starts := c.queues.starts - 1)) else c
    case Fire(timer, _) => c.(queues := c.queues.(timers := c.queues.timers - {timer}))
    case Restart(_) =>
      Reset(c)
  }

  lemma AttemptStep(c: Connector, e: Event)
    requires IsAttempt(e) && !Step(c, e).Disabled?
    ensures Step(c, e) == StartInLoop(Attempting(c, e), e.errno)
  {
  }

  lemma ConnectMoves(c: Connector, errno: Errno)
    requires !c.watched && Connect(c, errno).Next?
    ensures Moves(c, Connect(c, errno).state)
  {
  }

  lemma AttemptMoves(c: Connector, e: Event)
    requires Attached(c) && Triggered(c) && IsAttempt(e) && Step(c, e).Next?
    ensures Moves(c, Step(c, e).state)
  {
    AttemptStep(c, e);
    if Attempting(c, e).connect { ConnectMoves(Attempting(c, e), e.errno); }
  }

  lemma ErrorMoves(c: Connector)
    requires Attached(c) && Step(c, ErrorPart).Next?
    ensures Moves(c, Step(c, ErrorPart).state)
  {
  }

  lemma WriteMoves(c: Connector, soError: bool, selfConnect: bool)
    requires Attached(c) && Step(c, WritePart(soError, selfConnect)).Next?
    ensures Moves(c, Step(c, WritePart(soError, selfConnect)).state)
  {
  }

  lemma StepMoves(c: Connector, e: Event)
    requires Attached(c) && Triggered(c) && Step(c, e).Next?
    ensures Moves(c, Step(c, e).state)
  {
    match e
    case RunStart(_) | Fire(_, _) | Restart(_) => AttemptMoves(c, e);
    case ErrorPart => ErrorMoves(c);
    case WritePart(soError, selfConnect) => WriteMoves(c, soError, selfConnect);
    case _ =>
      var d := Step(c, e).state;
      assert d.log.created == c.log.created && d.log.closed == c.log.closed && d.log.handed == c.log.handed;
  }

  lemma OwningKept(c: Connector, e: Event)
    requires Owning(c) && Attached(c) && Triggered(c) && Step(c, e).Next?
    ensures Owning(Step(c, e).state)
  {
    StepMoves(c, e);
    MovesOwn(c, Step(c, e).state);
  }

  lemma RetryBacksOff(c: Connector, fd: Socket)
    requires BackedOff(c)
    ensures BackedOff(Retry(c, fd))
  {
    assert Pow2(|c.log.delays| + 1) == 2 * Pow2(|c.log.delays|);
  }

  lemma ConnectBacksOff(c: Connector, errno: Errno)
    requires BackedOff(c) && Connect(c, errno).Next?
    ensures BackedOff(Connect(c, errno).state)
  {
    if Classify(errno) == Again { RetryBacksOff(NewSocket(c), c.log.created); }
  }

  lemma HandlerBacksOff(c: Connector, e: Event)
    requires BackedOff(c) && (e.ErrorPart? || e.WritePart?) && Step(c, e).Next?
    ensures BackedOff(Step(c, e).state)
  {
    if c.channel.Owned? {
      RetryBacksOff(RemoveAndResetChannel(c.(phase := if e.ErrorPart? then ErrorDone(c.phase.ready) else Idle)),
          c.channel.fd);
    }
  }

  lemma BackedOffKept(c: Connector, e: Event)
    requires BackedOff(c) && Step(c, e).Next?
    ensures BackedOff(Step(c, e).state)
  {
    if IsAttempt(e) {
      AttemptStep(c, e);
      assert Pow2(0) == 1;
      if Attempting(c, e).connect { ConnectBacksOff(Attempting(c, e), e.errno); }
    } else if e.ErrorPart? || e.WritePart? {
      HandlerBacksOff(c, e);
    } else {
      var d := Step(c, e).state;
      assert d.retryDelay == c.retryDelay && d.log.delays == c.log.delays;
    }
  }

  ghost predicate Control(c: Connector) {
    Attached(c) && Triggered(c) && Tracked(c) && Alive(c)
  }

  /** Nothing is pending: the moment just before an attempt or a retry. */
  ghost predicate Resting(c: Connector) {
    c.started && c.queues.starts == 0 && c.queues.timers == {} && !c.restartable && !c.watched && c.queues.resets <= 1
        && Tracked(c)
  }

  lemma RetryControls(c: Connector, fd: Socket)
    requires Resting(c) && !c.phase.Reported? && (c.channel.Owned? <==> c.queues.resets == 1)
    ensures Control(Retry(c, fd))
  {
    var d := Retry(c, fd);
    assert d.queues.timers == if c.connect then {c.timerId + 1} else {};
  }

  lemma StartControls(c: Connector, errno: Errno)
    requires Resting(c) && Attached(c) && c.state == Disconnected && c.phase.Idle? && StartInLoop(c, errno).Next?
    ensures Control(StartInLoop(c, errno).state)
  {
    if c.connect && Classify(errno) == Again {
      RetryControls(NewSocket(c), c.log.created);
    }
  }

  lemma SingleTimer(timers: set<nat>, t: nat)
    requires t in timers && |timers| <= 1
    ensures timers - {t} == {}
  {
    assert |timers - {t}| == 0;
  }

  lemma WriteControls(c: Connector, soError: bool, selfConnect: bool)
    requires Control(c) && c.phase.Idle? && HandleWrite(c, soError, selfConnect).Next?
    ensures Control(HandleWrite(c, soError, selfConnect).state)
  {
    if c.watched && (soError || selfConnect) {
      RetryControls(RemoveAndResetChannel(c), c.channel.fd);
    }
  }

  lemma AttemptControls(c: Connector, e: Event)
    requires Control(c) && IsAttempt(e) && Step(c, e).Next?
    ensures Control(Step(c, e).state)
  {
    AttemptStep(c, e);
    if e.Fire? { SingleTimer(c.queues.timers, e.timer); }
    StartControls(Attempting(c, e), e.errno);
  }

  lemma EventControls(c: Connector, e: Event)
    requires Control(c) && (e.Poll? || e.ErrorPart? || e.WritePart? || e.RunReset?) && Step(c, e).Next?
    ensures Control(Step(c, e).state)
  {
    match e
    case ErrorPart =>
      if Error in Dispatch(c.phase.ready) {
        RetryControls(RemoveAndResetChannel(c.(phase := ErrorDone(c.phase.ready))), c.channel.fd);
      }
    case WritePart(soError, selfConnect) =>
      if Write in Dispatch(c.phase.ready) { WriteControls(c.(phase := Idle), soError, selfConnect); }
    case _ =>
  }

  lemma CancelControls(c: Connector, timer: nat, effective: bool)
    requires Control(c) && (timer in c.queues.timers ==> !c.connect || c.log.overtaken)
    ensures Control(c.(queues := Cancel(c.queues, timer, effective)))
  {
    assert |c.queues.timers - {timer}| <= |c.queues.timers|;
    if timer !in c.queues.timers { assert c.queues.timers - {timer} == c.queues.timers; }
  }

  lemma StopControls(c: Connector, e: Event)
    requires Control(c) && (e.Start? || e.Stop? || e.StopFlag? || e.StopTimer? || e.RunCancel?) && Step(c, e).Next?
    ensures Control(Step(c, e).state)
  {
    match e
    case Stop(effective) => CancelControls(c.(connect := false), c.timerId, effective);
    case RunCancel(effective) =>
      var c1 := c.(queues := c.queues.(cancels := c.queues.cancels[1..]));
      assert forall t | t in c1.queues.cancels :: t in c.queues.cancels;
      CancelControls(c1, c.queues.cancels[0], effective);
    case _ =>
  }

  lemma StepKeeps(c: Connector, e: Event)
    requires Inv(c) && Step(c, e).Next?
    ensures Inv(Step(c, e).state)
  {
    OwningKept(c, e);
    BackedOffKept(c, e);
    match e
    case RunStart(_) | Fire(_, _) | Restart(_) => AttemptControls(c, e);
    case Poll(_) | ErrorPart | WritePart(_, _) | RunReset => EventControls(c, e);
    case _ => StopControls(c, e);
  }

  lemma ReachableInv(c: Connector)
    requires Reachable(c)
    ensures Inv(c)
  {
    var es: seq<Event> :| Run(Step, Init(), es) == Next(c);
    assert Inv(Init());
    forall t, e | Inv(t) && Step(t, e).Next? ensures Inv(Step(t, e).state) { StepKeeps(t, e); }
    Invariant(Step, Inv, Init(), es);
  }

  // ---------- the theorems ----------

  /** Every socket ever created has been closed once, or handed over once, or is the one being connected; never two
      of these. */
  lemma SocketsConserved(c: Connector, fd: Socket)
    requires Reachable(c)
    ensures multiset(c.log.closed)[fd] + multiset(c.log.handed)[fd]
            + (if c.state == Connecting && c.channel == Owned(fd) then 1 else 0)
            == if fd < c.log.created then 1 else 0
  {
    ReachableInv(c);
    FirstNCount(c.log.created, fd);
  }

  /** The k-th retry since construction or the last restart waited min(500 * 2^k, 30000) ms. */
  lemma BackoffSchedule(c: Connector, k: nat)
    requires Reachable(c) && k < |c.log.delays|
    ensures c.log.delays[k] == Backoff(k)
  {
    ReachableInv(c);
  }

  /** At most one of these ever exists: a queued start, a retry timer, an attempt under way, a socket handed over
      that allows a restart; and startInLoop never meets a connector that is not idle. */
  lemma OneTrigger(c: Connector)
    requires Reachable(c)
    ensures Tokens(c) <= 1
    ensures c.queues.starts > 0 || c.queues.timers != {} ==> c.state == Disconnected
  {
    ReachableInv(c);
  }

  /** A connector that should connect never goes quiet: unless connect(2) failed for good or a stop() lost its race
      with a restart(), exactly one of the four exists. */
  lemma NeverStuck(c: Connector)
    requires Reachable(c) && c.connect && !c.log.gaveUp && !c.log.overtaken
    ensures Tokens(c) == 1
  {
    ReachableInv(c);
  }

  /** The steps that take the last token away: an attempt that is given up, or not wanted any more; the cancel of the
      waiting retry; a connection attempt that ends after a stop. */
  predicate Silences(c: Connector, e: Event) {
    match e
    case RunStart(errno) => !c.connect || Classify(errno) == GiveUp
    case Fire(_, errno) => !c.connect || Classify(errno) == GiveUp
    case Restart(errno) => Classify(errno) == GiveUp
    case Stop(effective) => effective && c.timerId in c.queues.timers
    case RunCancel(effective) => effective && c.queues.cancels != [] && c.queues.cancels[0] in c.queues.timers
    case ErrorPart => !c.connect && c.phase.Reported? && Error in Dispatch(c.phase.ready)
    case WritePart(_, _) =>
      !c.connect && c.state == Connecting && c.phase.ErrorDone? && Write in Dispatch(c.phase.ready)
    case _ => false
  }

  lemma SingleTimerSize(timers: set<nat>, t: nat)
    requires |timers| <= 1
    ensures |timers - {t}| == if t in timers then 0 else |timers|
  {
    if t in timers { SingleTimer(timers, t); } else { assert timers - {t} == timers; }
  }

  lemma RetryTokens(c: Connector, fd: Socket)
    requires !c.watched && c.queues.timers == {}
    ensures Tokens(Retry(c, fd)) == Tokens(c) + if c.connect then 1 else 0
  {
    assert Retry(c, fd).queues.timers == if c.connect then {c.timerId + 1} else {};
  }

  lemma StartTokens(c: Connector, errno: Errno)
    requires Tokens(c) == 0 && StartInLoop(c, errno).Next?
    ensures Tokens(StartInLoop(c, errno).state) == if c.connect && Classify(errno) != GiveUp then 1 else 0
  {
    assert c.queues.timers == {};
    if c.connect && Classify(errno) == Again { RetryTokens(NewSocket(c), c.log.created); }
  }

  lemma AttemptTokens(c: Connector, e: Event)
    requires Tokens(c) == 1 && IsAttempt(e) && Step(c, e).Next?
    ensures Tokens(Step(c, e).state) == if Silences(c, e) then 0 else 1
  {
    AttemptStep(c, e);
    if e.Fire? { SingleTimerSize(c.queues.timers, e.timer); }
    StartTokens(Attempting(c, e), e.errno);
  }

  lemma HandlerTokens(c: Connector, e: Event)
    requires Tokens(c) == 1 && Attached(c) && (e.ErrorPart? || e.WritePart?) && Step(c, e).Next?
    ensures Tokens(Step(c, e).state) == if Silences(c, e) then 0 else 1
  {
    if c.watched {
      assert c.queues.timers == {};
      RetryTokens(RemoveAndResetChannel(c.(phase := if e.ErrorPart? then ErrorDone(c.phase.ready) else Idle)),
          c.channel.fd);
    }
  }

  lemma CancelTokens(c: Connector, e: Event)
    requires Tokens(c) == 1 && (e.Stop? || e.RunCancel?) && Step(c, e).Next?
    ensures Tokens(Step(c, e).state) == if Silences(c, e) then 0 else 1
  {
    SingleTimerSize(c.queues.timers, if e.Stop? then c.timerId else c.queues.cancels[0]);
  }

  lemma StepTokens(c: Connector, e: Event)
    requires Tokens(c) == 1 && Attached(c) && Triggered(c) && Step(c, e).Next?
    ensures Tokens(Step(c, e).state) == if Silences(c, e) then 0 else 1
  {
    match e
    case RunStart(_) | Fire(_, _) | Restart(_) => AttemptTokens(c, e);
    case ErrorPart | WritePart(_, _) => HandlerTokens(c, e);
    case Stop(_) | RunCancel(_) => CancelTokens(c, e);
    case _ =>
  }

  lemma QuietStep(c: Connector, e: Event)
    requires c.started && Tokens(c) == 0 && Attached(c) && Step(c, e).Next?
    ensures var d := Step(c, e).state;
            d.started && Tokens(d) == 0 && d.log.created == c.log.created && d.log.handed == c.log.handed
  {
    assert c.queues.timers == {};
  }

  /** Without a token nothing happens any more: no socket is created or handed over, whoever calls what. */
  lemma {:induction false} SilentForever(c: Connector, es: seq<Event>)
    requires Inv(c) && c.started && Tokens(c) == 0 && Run(Step, c, es).Next?
    ensures var d := Run(Step, c, es).state;
            Tokens(d) == 0 && d.log.created == c.log.created && d.log.handed == c.log.handed
    decreases |es|
  {
    if es != [] {
      QuietStep(c, es[0]);
      StepKeeps(c, es[0]);
      SilentForever(Step(c, es[0]).state, es[1..]);
    }
  }

  /** Some step of the run silences the connector. */
  ghost predicate Silenced(c: Connector, es: seq<Event>)
    decreases |es|
  {
    es != [] && (Silences(c, es[0]) || (Step(c, es[0]).Next? && Silenced(Step(c, es[0]).state, es[1..])))
  }

  lemma StartedKept(c: Connector, e: Event)
    requires c.started && Step(c, e).Next?
    ensures Step(c, e).state.started
  {
    if IsAttempt(e) { AttemptStep(c, e); }
  }

  lemma SilencingStep(c: Connector, e: Event)
    requires Inv(c) && Tokens(c) == 1 && Step(c, e).Next?
    ensures var d := Step(c, e).state; Inv(d) && d.started && Tokens(d) == if Silences(c, e) then 0 else 1
  {
    StartedKept(c, e);
    StepTokens(c, e);
    StepKeeps(c, e);
  }

  /** Exactly when a connector falls silent, over every run: when one of the silencing steps is taken, and then for
      ever. */
  lemma {:induction false} SilentExactly(c: Connector, es: seq<Event>)
    requires Inv(c) && Tokens(c) == 1 && Run(Step, c, es).Next?
    ensures Tokens(Run(Step, c, es).state) == if Silenced(c, es) then 0 else 1
    decreases |es|
  {
    if es != [] {
      SilencingStep(c, es[0]);
      if Silences(c, es[0]) {
        SilentForever(Step(c, es[0]).state, es[1..]);
      } else {
        SilentExactly(Step(c, es[0]).state, es[1..]);
      }
    }
  }

  /** Exactly which steps silence a connector that still wants to connect: an attempt that connect(2) makes give up,
      and the cancel, queued by a stop() that a restart() overtook, of the retry now waiting. */
  lemma SilencedWanting(c: Connector, e: Event)
    requires Reachable(c) && c.connect && Tokens(c) == 1 && Step(c, e).Next? && Step(c, e).state.connect
    ensures Tokens(Step(c, e).state) == 0 <==>
              || (IsAttempt(e) && Classify(e.errno) == GiveUp)
              || (e.RunCancel? && e.effective && c.queues.cancels[0] in c.queues.timers)
  {
    ReachableInv(c);
    StepTokens(c, e);
  }

  /** The attempt that an event makes, if it makes one. */
  function Attempt(c: Connector, e: Event): (a: Verdict) {
    match e
    case RunStart(errno) => if c.connect && c.queues.starts > 0 then Classify(errno) else GiveUp
    case Fire(timer, errno) => if c.connect && timer in c.queues.timers then Classify(errno) else GiveUp
    case Restart(errno) => if c.restartable then Classify(errno) else GiveUp
    case _ => GiveUp
  }

  /** The only assertion that can fail is `assert(!channel_)`, exactly when an attempt gets under way while the
      functor that frees the previous attempt's channel is still queued. */
  lemma AbortsExactly(c: Connector, e: Event)
    requires Reachable(c)
    ensures Step(c, e).Fault? <==> c.phase.Idle? && c.queues.resets > 0 && Attempt(c, e) == InProgress
  {
    ReachableInv(c);
    if IsAttempt(e) {
      if !Step(c, e).Disabled? {
        AttemptStep(c, e);
        AttemptAborts(Attempting(c, e), e.errno);
      }
    } else {
      HandlersPass(c, e);
    }
  }

  lemma AttemptAborts(c: Connector, errno: Errno)
    requires c.state == Disconnected
    ensures StartInLoop(c, errno).Fault? <==> c.connect && c.channel.Owned? && Classify(errno) == InProgress
  {
  }

  lemma HandlersPass(c: Connector, e: Event)
    requires Attached(c) && !IsAttempt(e)
    ensures !Step(c, e).Fault?
  {
  }

  lemma StoppedHandler(c: Connector, e: Event)
    requires !c.connect && (e.ErrorPart? || e.WritePart?) && Step(c, e).Next?
    ensures var d := Step(c, e).state;
            !d.connect && d.log.created == c.log.created && d.log.handed == c.log.handed && d.log.delays == c.log.delays
  {
  }

  lemma StoppedStep(c: Connector, e: Event)
    requires !c.connect && !e.Start? && !e.Restart? && Step(c, e).Next?
    ensures var d := Step(c, e).state;
            !d.connect && d.log.created == c.log.created && d.log.handed == c.log.handed && d.log.delays == c.log.delays
  {
    if IsAttempt(e) {
      AttemptStep(c, e);
    } else if e.ErrorPart? || e.WritePart? {
      StoppedHandler(c, e);
    }
  }

  /** After a stop no socket is created, none is handed over and no retry is scheduled, until the next start or
      restart. */
  lemma {:induction false} StopHolds(c: Connector, es: seq<Event>)
    requires !c.connect && (forall e | e in es :: !e.Start? && !e.Restart?) && Run(Step, c, es).Next?
    ensures var d := Run(Step, c, es).state;
            !d.connect && d.log.created == c.log.created && d.log.handed == c.log.handed && d.log.delays == c.log.delays
    decreases |es|
  {
    if es != [] {
      assert es[0] in es;
      StoppedStep(c, es[0]);
      StopHolds(Step(c, es[0]).state, es[1..]);
    }
  }

  // ---------- two runs that go wrong ----------

  lemma ReachStep(c: Connector, e: Event, d: Connector)
    requires Reachable(c) && Step(c, e) == Next(d)
    ensures Reachable(d)
  {
    var es: seq<Event> :| Run(Step, Init(), es) == Next(c);
    Snoc(Step, Init(), es, c, e);
  }

  const WRITABLE := Ready(false, false, true, false, false, false)

  /** The first attempt is under way. */
  function FirstAttempt(): Connector {
    Init().(started := true, connect := true, state := Connecting, channel := Owned(0), watched := true,
            log := Log(1, [], [], [], false, false))
  }

  lemma FirstAttemptReached()
    ensures Reachable(FirstAttempt())
  {
    assert Run(Step, Init(), []) == Next(Init());
    var c1 := Init().(started := true, connect := true, queues := Queues({}, 1, 0, [], 0));
    ReachStep(Init(), Start, c1);
    ReachStep(c1, RunStart(EINPROGRESS), FirstAttempt());
  }

  /** The first attempt has succeeded and its socket has been handed over. */
  function FirstSuccess(): Connector {
    FirstAttempt().(watched := false, state := Connected, restartable := true,
                    queues := Queues({}, 0, 1, [], 0), log := Log(1, [], [0], [], false, false))
  }

  lemma FirstSuccessReached()
    ensures Reachable(FirstSuccess())
  {
    FirstAttemptReached();
    var c1 := FirstAttempt().(phase := Reported(WRITABLE));
    ReachStep(FirstAttempt(), Poll(WRITABLE), c1);
    var c2 := c1.(phase := ErrorDone(WRITABLE));
    ReachStep(c1, ErrorPart, c2);
    assert [] + [0] == [0];
    ReachStep(c2, WritePart(false, false), FirstSuccess());
  }

  /** A restart from inside the new-connection callback comes too early. */
  lemma RestartInCallbackAborts()
    ensures exists c :: Reachable(c) && Step(c, Restart(EINPROGRESS)).Fault?
  {
    FirstSuccessReached();
    AbortsExactly(FirstSuccess(), Restart(EINPROGRESS));
  }

  const FAILING := Ready(false, false, false, true, false, false)

  /** The first attempt has failed; its retry timer is set and the functor that frees its channel is queued. */
  function FirstFailure(): Connector {
    FirstAttempt().(watched := false, state := Disconnected, timerId := 1, retryDelay := 1000,
                    queues := Queues({1}, 0, 1, [], 0), log := Log(1, [0], [], [INIT_RETRY_DELAY_MS], false, false))
  }

  lemma FirstFailureReached()
    ensures Reachable(FirstFailure())
  {
    FirstAttemptReached();
    var c1 := FirstAttempt().(phase := Reported(FAILING));
    ReachStep(FirstAttempt(), Poll(FAILING), c1);
    var c2 := FirstFailure().(phase := ErrorDone(FAILING));
    assert {} + {1} == {1} && [] + [0] == [0] && [] + [INIT_RETRY_DELAY_MS] == [INIT_RETRY_DELAY_MS];
    ReachStep(c1, ErrorPart, c2);
    ReachStep(c2, WritePart(false, false), FirstFailure());
  }

  /** A retry timer that fires before that functor has run, as when handlers take longer than the delay, is too
      early. */
  lemma RetryTooSoonAborts()
    ensures exists c :: Reachable(c) && 1 in c.queues.timers && Step(c, Fire(1, EINPROGRESS)).Fault?
  {
    FirstFailureReached();
    AbortsExactly(FirstFailure(), Fire(1, EINPROGRESS));
  }

  /** A stop() on another thread has cleared `connect_`, and a restart has set it again and failed once. */
  function Overtaken(): Connector {
    FirstSuccess().(channel := Null, restartable := false, state := Disconnected, retryDelay := 1000, timerId := 1,
                    queues := Queues({1}, 0, 0, [], 1), log := Log(2, [1], [0], [INIT_RETRY_DELAY_MS], false, false))
  }

  lemma OvertakenReached()
    ensures Reachable(Overtaken())
  {
    FirstSuccessReached();
    var c1 := FirstSuccess().(channel := Null, queues := Queues({}, 0, 0, [], 0));
    ReachStep(FirstSuccess(), RunReset, c1);
    var c2 := c1.(connect := false, queues := Queues({}, 0, 0, [], 1));
    ReachStep(c1, StopFlag, c2);
    assert {} + {1} == {1} && [] + [1] == [1] && [] + [INIT_RETRY_DELAY_MS] == [INIT_RETRY_DELAY_MS];
    ReachStep(c2, Restart(ECONNREFUSED), Overtaken());
  }

  /** A stop() overtaken between its two halves by a restart() cancels the new attempt's retry: the connector is left
      wanting to connect, with nothing that will ever make it try. */
  lemma StopRestartRace()
    ensures exists c :: Reachable(c) && c.connect && !c.log.gaveUp && Tokens(c) == 0
                     && c.queues.stopping == 0 && c.queues.cancels == []
  {
    OvertakenReached();
    var c1 := Overtaken().(queues := Queues({1}, 0, 0, [1], 0), log := Overtaken().log.(overtaken := true));
    assert [] + [1] == [1];
    ReachStep(Overtaken(), StopTimer, c1);
    var c2 := c1.(queues := Queues({}, 0, 0, [], 0));
    assert [1][1..] == [] && {1} - {1} == {};
    ReachStep(c1, RunCancel(true), c2);
  }
}
