/** What each step of the functor queue does, in every reachable state. */
module EventLoopEffects {
  import opened Machine
  import opened EventLoopModel
  import opened EventLoopTheorems

  /** `queueInLoop` puts the functor behind all others; a wakeup is to follow unless the loop thread pushes while it
      runs no functors. */
  lemma PushAppends(s: Loop, thread: nat, f: Functor)
    requires Reachable(s) && Step(s, Push(thread, f)).Next?
    ensures var t := Step(s, Push(thread, f)).state;
            && t.pending == s.pending + [f] && t.pushed == s.pushed + [f]
            && t.phase == s.phase && t.eventfd == s.eventfd && t.quit == s.quit && t.executed == s.executed
            && t.owing == if thread == LOOP && !s.phase.Calling? then s.owing else s.owing + {thread}
  {
    ReachableInv(s);
  }

  /** A wakeup makes the eventfd readable. */
  lemma WakeupSignals(s: Loop, thread: nat)
    requires Reachable(s) && Step(s, Wakeup(thread)).Next?
    ensures var t := Step(s, Wakeup(thread)).state;
            && t.eventfd > 0 && t.eventfd >= s.eventfd && t == s.(eventfd := t.eventfd, owing := s.owing - {thread})
  {
  }

  /** poll() that reports the eventfd is followed by a read that empties it, so the loop does not spin on it. */
  lemma ReadDrains(s: Loop)
    requires Reachable(s) && s.phase.Polling?
    ensures Step(s, PollReturns) == Next(s.(phase := Dispatching(s.eventfd > 0)))
    ensures s.eventfd > 0 ==>
              var t := Step(s, PollReturns).state;
              Step(t, HandleRead) == Next(s.(phase := Dispatching(false), eventfd := 0))
                  && Step(t, EndDispatch).Disabled?
    ensures s.eventfd == 0 ==> Step(Step(s, PollReturns).state, EndDispatch).Next?
  {
    ReachableInv(s);
  }

  /** A quit sets the flag; another thread owes a wakeup. */
  lemma QuitSignals(s: Loop, thread: nat)
    requires Reachable(s) && Step(s, Quit(thread)).Next?
    ensures Step(s, Quit(thread)).state
            == s.(quit := true, owing := if thread == LOOP then s.owing else s.owing + {thread})
  {
  }

  /** The batch is everything pending, and its functors are executed from the front. */
  lemma BatchFromFront(s: Loop)
    requires Reachable(s)
    ensures Step(s, Swap).Next? ==>
              var t := Step(s, Swap).state; t.phase == Calling(s.pending) && t.pending == [] && t.executed == s.executed
    ensures Step(s, Execute).Next? ==>
              var t := Step(s, Execute).state;
              && s.phase.Calling? && s.phase.batch != [] && t.executed == s.executed + [s.phase.batch[0]]
              && t.phase == Calling(s.phase.batch[1..]) && t.pending == s.pending
  {
  }

  /** The turn of the loop, exactly: enter, decide, poll, read the eventfd, dispatch, swap, call, and decide again;
      the loop thread first makes the wakeups it owes. */
  lemma TurnExactly(s: Loop, e: Event)
    requires Reachable(s) && !e.Push? && !e.Wakeup? && !e.Quit?
    ensures !Step(s, e).Fault?
    ensures Step(s, e).Next? <==>
              LOOP !in s.owing &&
              match e
              case EnterLoop => s.phase == Outside
              case Decide => s.phase == Deciding
              case PollReturns => s.phase == Polling
              case HandleRead => s.phase == Dispatching(true)
              case EndDispatch => s.phase == Dispatching(false)
              case Swap => s.phase == Swapping
              case Execute => s.phase.Calling? && s.phase.batch != []
              case EndCalling => s.phase == Calling([])
    ensures Step(s, e).Next? ==>
              Step(s, e).state.phase ==
              match e
              case EnterLoop => Deciding
              case Decide => if s.quit then Outside else Polling
              case PollReturns => Dispatching(s.eventfd > 0)
              case HandleRead => Dispatching(false)
              case EndDispatch => Swapping
              case Swap => Calling(s.pending)
              case Execute => Calling(s.phase.batch[1..])
              case EndCalling => Deciding
  {
  }

  /** A thread runs user code, and may push or quit, exactly if it owes no wakeup and, being the loop thread, is
      outside `loop`, in a handler or in a functor. */
  lemma CallsExactly(s: Loop, thread: nat, f: Functor)
    requires Reachable(s)
    ensures var free := thread !in s.owing
                        && (thread == 0 ==> s.phase.Outside? || s.phase.Dispatching? || s.phase.Calling?);
            && (Step(s, Push(thread, f)).Next? <==> free) && (Step(s, Quit(thread)).Next? <==> free)
    ensures Step(s, Wakeup(thread)).Next? <==> thread in s.owing
    ensures thread in s.owing ==>
              Step(s, Wakeup(thread)).state.eventfd == if s.eventfd < 0xFFFF_FFFF_FFFF_FFFE then s.eventfd + 1
                  else s.eventfd
  {
  }

  /** The exception recorded by `early` ends with the next swap. */
  lemma EarlyEnds(s: Loop)
    requires Reachable(s) && Step(s, Swap).Next?
    ensures !Step(s, Swap).state.early
  {
  }

  /** A loop starts outside `loop`, with nothing pushed and nobody to wake it. */
  lemma StartsIdle()
    ensures Init() == Loop([], false, false, 0, Outside, {}, [], [], false)
  {
  }
}
