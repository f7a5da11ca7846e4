/** What the functor queue guarantees in every interleaving. */
module EventLoopTheorems {
  import opened Machine
  import opened EventLoopModel

  ghost predicate Reachable(s: Loop) {
    exists es: seq<Event> :: Run(Step, Init(), es) == Next(s)
  }

  /** The eventfd is readable, or some thread is between its push and its wakeup. */
  predicate Awake(s: Loop) {
    s.eventfd > 0 || s.owing != {}
  }

  function Batch(s: Loop): seq<Functor> {
    if s.phase.Calling? then s.phase.batch else []
  }

  ghost predicate Inv(s: Loop) {
    && Order(s)
    && (s.calling <==> s.phase.Swapping? || s.phase.Calling?)
    && (LOOP in s.owing ==> s.phase.Calling?)
    && (!s.phase.Dispatching? && !s.phase.Swapping? ==> s.pending == [] || Awake(s) || s.early)
    && (s.phase.Polling? && s.quit ==> Awake(s))
  }

  ghost predicate Order(s: Loop) {
    s.executed + Batch(s) + s.pending == s.pushed
  }

  lemma PushOrder(s: Loop, thread: nat, f: Functor)
    requires Order(s) && Step(s, Push(thread, f)).Next?
    ensures Order(Step(s, Push(thread, f)).state)
  {
    assert s.pushed + [f] == s.executed + Batch(s) + (s.pending + [f]);
  }

  lemma SwapOrder(s: Loop)
    requires Order(s) && Step(s, Swap).Next?
    ensures Order(Step(s, Swap).state)
  {
    assert s.pushed == s.executed + s.pending + [];
  }

  lemma ExecuteOrder(s: Loop)
    requires Order(s) && Step(s, Execute).Next?
    ensures Order(Step(s, Execute).state)
  {
    var f, rest := s.phase.batch[0], s.phase.batch[1..];
    assert s.phase.batch == [f] + rest;
    assert s.pushed == (s.executed + [f]) + rest + s.pending;
  }

  lemma OrderKeeps(s: Loop, e: Event)
    requires Order(s) && Step(s, e).Next?
    ensures Order(Step(s, e).state)
  {
    match e
    case Push(thread, f) => PushOrder(s, thread, f);
    case Swap => SwapOrder(s);
    case Execute => ExecuteOrder(s);
    case EndCalling => assert s.executed + [] == s.executed;
    case _ =>
  }

  lemma StepKeeps(s: Loop, e: Event)
    requires Inv(s) && Step(s, e).Next?
    ensures Inv(Step(s, e).state)
  {
    OrderKeeps(s, e);
  }

  lemma ReachableInv(s: Loop)
    requires Reachable(s)
    ensures Inv(s)
  {
    var es: seq<Event> :| Run(Step, Init(), es) == Next(s);
    forall t, e | Inv(t) && Step(t, e).Next? ensures Inv(Step(t, e).state) { StepKeeps(t, e); }
    Invariant(Step, Inv, Init(), es);
  }

  /** No functor is lost: the loop goes to sleep on a non-empty queue only if something is about to wake it,
      or the loop thread itself had queued before it called `loop`. */
  lemma NoLostFunctor(s: Loop)
    requires Reachable(s) && s.phase.Polling? && s.pending != []
    ensures Awake(s) || s.early
  {
    ReachableInv(s);
  }

  /** No quit is lost: a loop in poll with `quit_` set is about to be woken. */
  lemma NoLostQuit(s: Loop)
    requires Reachable(s) && s.phase.Polling? && s.quit
    ensures Awake(s)
  {
    ReachableInv(s);
  }

  /** The exception is real, whatever happened before: a functor that the loop thread queues outside `loop` wakes
      nobody. The loop goes to sleep on it unless it was about to be woken anyway. */
  lemma EarlyPushSleeps(s: Loop, f: Functor)
    requires Reachable(s) && s.phase.Outside? && LOOP !in s.owing
    ensures var o := Run(Step, s, [Push(LOOP, f), EnterLoop, Decide]);
            && o.Next? && o.state.phase.Polling? && o.state.early
            && o.state.pending == s.pending + [f] && (Awake(o.state) <==> Awake(s))
  {
    ReachableInv(s);
    var s1 := s.(pending := s.pending + [f], pushed := s.pushed + [f], early := true);
    var s2 := s1.(quit := false, phase := Deciding);
    Cons(Step, s2, Decide, []);
    Cons(Step, s1, EnterLoop, [Decide]);
    Cons(Step, s, Push(LOOP, f), [EnterLoop, Decide]);
  }

  predicate NoQuit(es: seq<Event>) {
    forall e | e in es :: !e.Quit?
  }

  lemma QuitStep(s: Loop, e: Event)
    requires !e.Quit? && Step(s, e).Next?
    ensures Step(s, e).state.quit == (s.quit && !e.EnterLoop?)
  {
  }

  /** Without another quit, `quit_` stays as it is until `loop` is entered, which clears it. */
  lemma {:induction false} QuitSurvives(s: Loop, es: seq<Event>)
    requires NoQuit(es) && Run(Step, s, es).Next?
    ensures Run(Step, s, es).state.quit <==> s.quit && EnterLoop !in es
    decreases |es|
  {
    if es != [] {
      assert es[0] in es && forall e | e in es :: e == es[0] || e in es[1..];
      QuitStep(s, es[0]);
      QuitSurvives(Step(s, es[0]).state, es[1..]);
    }
  }

  lemma EntryStep(s: Loop, e: Event)
    requires !e.Decide? && Step(s, e).Next?
    ensures Step(s, e).state.phase.Outside? <==> s.phase.Outside? && !e.EnterLoop?
    ensures e.EnterLoop? ==> s.phase.Outside?
  {
  }

  /** Without a turn of the loop, `loop` is entered at most once, and only from outside. */
  lemma {:induction false} EnteredOnce(s: Loop, es: seq<Event>)
    requires Decide !in es && Run(Step, s, es).Next?
    ensures Run(Step, s, es).state.phase.Outside? <==> s.phase.Outside? && EnterLoop !in es
    ensures EnterLoop in es ==> s.phase.Outside?
    decreases |es|
  {
    if es != [] {
      assert es[0] in es && forall e | e in es :: e == es[0] || e in es[1..];
      EntryStep(s, es[0]);
      EnteredOnce(Step(s, es[0]).state, es[1..]);
    }
  }

  /** A quit, by whatever thread, makes the loop stop the next time it decides, if and only if it was made inside
      `loop`; one made outside is forgotten, and the loop goes on to poll. */
  lemma QuitHeededExactly(s: Loop, thread: nat, es: seq<Event>)
    requires Step(s, Quit(thread)).Next? && NoQuit(es) && Decide !in es
    requires var o := Run(Step, Step(s, Quit(thread)).state, es); o.Next? && Step(o.state, Decide).Next?
    ensures var t := Step(Run(Step, Step(s, Quit(thread)).state, es).state, Decide).state;
            && (t.phase.Outside? <==> !s.phase.Outside?)
            && (t.phase.Polling? && !t.quit <==> s.phase.Outside?)
  {
    QuitSurvives(Step(s, Quit(thread)).state, es);
    EnteredOnce(Step(s, Quit(thread)).state, es);
  }

  /** Functors are neither lost, duplicated nor reordered. */
  lemma Conservation(s: Loop)
    requires Reachable(s)
    ensures s.executed + Batch(s) + s.pending == s.pushed
  {
    ReachableInv(s);
  }

  lemma HistoryStep(s: Loop, e: Event)
    requires Step(s, e).Next?
    ensures s.executed <= Step(s, e).state.executed && s.pushed <= Step(s, e).state.pushed
  {
  }

  lemma {:induction false} HistoryGrows(s: Loop, es: seq<Event>)
    requires Run(Step, s, es).Next?
    ensures s.executed <= Run(Step, s, es).state.executed && s.pushed <= Run(Step, s, es).state.pushed
    decreases |es|
  {
    if es != [] {
      HistoryStep(s, es[0]);
      HistoryGrows(Step(s, es[0]).state, es[1..]);
    }
  }

  /** In every run: what was executed stays so, and all that was pushed by `s` is executed, in order, before anything
      pushed later. */
  lemma InPushOrder(s: Loop, es: seq<Event>)
    requires Reachable(s) && Run(Step, s, es).Next?
    ensures var t := Run(Step, s, es).state;
            s.executed <= t.executed && if |t.executed| <= |s.pushed| then t.executed <= s.pushed
                else s.pushed <= t.executed
  {
    var t := Run(Step, s, es).state;
    HistoryGrows(s, es);
    RunReachable(s, es);
    Conservation(t);
    assert t.executed + (Batch(t) + t.pending) == t.pushed;
    OnePrefix(s.pushed, t.pushed, t.executed, Batch(t) + t.pending);
  }

  lemma RunReachable(s: Loop, es: seq<Event>)
    requires Reachable(s) && Run(Step, s, es).Next?
    ensures Reachable(Run(Step, s, es).state)
  {
    var before: seq<Event> :| Run(Step, Init(), before) == Next(s);
    Concat(Step, Init(), before, es);
  }

  /** Of two prefixes of one sequence the shorter is a prefix of the longer. */
  lemma OnePrefix(a: seq<Functor>, all: seq<Functor>, b: seq<Functor>, rest: seq<Functor>)
    requires a <= all && b + rest == all
    ensures if |b| <= |a| then b <= a else a <= b
  {
    assert b <= all;
  }

  /** `t` continues the batch of `s`: functors queued meanwhile wait for a later one. */
  ghost predicate Continues(s: Loop, t: Loop)
    requires s.phase.Calling?
  {
    t.phase.Calling? && t.executed + t.phase.batch == s.executed + s.phase.batch && s.pending <= t.pending
  }

  lemma BatchStep(s: Loop, t: Loop, e: Event)
    requires s.phase.Calling? && Continues(s, t) && !e.EndCalling? && Step(t, e).Next?
    ensures Continues(s, Step(t, e).state)
  {
    if e.Execute? {
      var u := Step(t, e).state;
      assert t.phase.batch == [t.phase.batch[0]] + u.phase.batch;
      assert u.executed + u.phase.batch == t.executed + t.phase.batch;
    }
  }

  /** A batch is fixed when it is swapped out. */
  lemma {:induction false} BatchIsFixed(s: Loop, t: Loop, es: seq<Event>)
    requires s.phase.Calling? && Continues(s, t) && EndCalling !in es && Run(Step, t, es).Next?
    ensures Continues(s, Run(Step, t, es).state)
    decreases |es|
  {
    if es != [] {
      BatchStep(s, t, es[0]);
      BatchIsFixed(s, Step(t, es[0]).state, es[1..]);
    }
  }

  /** One round of the loop executes everything that was queued when it swapped, and nothing else. */
  lemma RoundExecutes(s: Loop, es: seq<Event>)
    requires Reachable(s) && s.phase.Swapping? && LOOP !in s.owing && EndCalling !in es
    requires var t := Run(Step, LoopStep(s, Swap).state, es); t.Next? && LoopStep(t.state, EndCalling).Next?
    ensures LoopStep(Run(Step, LoopStep(s, Swap).state, es).state, EndCalling).state.executed == s.pushed
  {
    ReachableInv(s);
    var t := LoopStep(s, Swap).state;
    BatchIsFixed(t, t, es);
    var u := Run(Step, t, es).state;
    assert u.executed + [] == u.executed;
  }
}
