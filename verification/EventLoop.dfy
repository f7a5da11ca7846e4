/** `EventLoop` itself: its fields, updated section by section. */
module EventLoopClass {
  import opened Machine
  import opened EventLoopModel

  class EventLoop {
    var quit: bool
    var callingPendingFunctors: bool
    var pendingFunctors: seq<Functor>
    var wakeupFd: nat

    ghost var phase: Phase
    ghost var owing: set<nat>
    ghost var pushed: seq<Functor>
    ghost var executed: seq<Functor>
    ghost var early: bool

    ghost function View(): Loop
      reads this
    {
      Loop(pendingFunctors, quit, callingPendingFunctors, wakeupFd, phase, owing, pushed, executed, early)
    }

    constructor ()
      ensures View() == Init()
    {
      quit, callingPendingFunctors, pendingFunctors, wakeupFd := false, false, [], 0;
      phase, owing, pushed, executed, early := Outside, {}, [], [], false;
    }

    /** The locked part of `queueInLoop`; the result tells whether `wakeup` has to follow. */
    method QueueInLoop(thread: nat, f: Functor) returns (mustWake: bool)
      requires UserCode(View(), thread)
      modifies this
      ensures Step(old(View()), Push(thread, f)) == Next(View())
      ensures mustWake <==> thread in owing
    {
      pendingFunctors := pendingFunctors + [f];
      pushed := pushed + [f];
      mustWake := thread != LOOP || callingPendingFunctors;
      if mustWake {
        owing := owing + {thread};
      } else {
        early := early || phase.Outside?;
      }
    }

    method Wakeup(thread: nat)
      requires thread in owing
      modifies this
      ensures Step(old(View()), EventLoopModel.Wakeup(thread)) == Next(View())
    {
      if wakeupFd < EVENTFD_MAX {
        wakeupFd := wakeupFd + 1;
      }
      owing := owing - {thread};
    }

    method Quit(thread: nat) returns (mustWake: bool)
      requires UserCode(View(), thread)
      modifies this
      ensures Step(old(View()), EventLoopModel.Quit(thread)) == Next(View())
      ensures mustWake <==> thread != LOOP
    {
      quit := true;
      mustWake := thread != LOOP;
      if mustWake {
        owing := owing + {thread};
      }
    }

    /** Draining the eventfd. */
    method HandleRead()
      requires Step(View(), EventLoopModel.HandleRead).Next?
      modifies this
      ensures Step(old(View()), EventLoopModel.HandleRead) == Next(View())
    {
      wakeupFd := 0;
      phase := Dispatching(false);
    }

    /** The test at the head of the loop; another thread may have set `quit_`. */
    method Decide() returns (goOn: bool)
      requires Step(View(), EventLoopModel.Decide).Next?
      modifies this
      ensures Step(old(View()), EventLoopModel.Decide) == Next(View())
      ensures goOn <==> phase.Polling?
    {
      goOn := !quit;
      phase := if quit then Outside else Polling;
    }

    /** The locked part of `doPendingFunctors`. */
    method SwapFunctors() returns (functors: seq<Functor>)
      requires Step(View(), Swap).Next?
      modifies this
      ensures Step(old(View()), Swap) == Next(View()) && phase == Calling(functors)
    {
      functors := pendingFunctors;
      pendingFunctors := [];
      phase, early := Calling(functors), false;
    }

    /** What may happen while a functor runs: pushes, wakeups and quits of any thread. */
    method Perform(e: Event)
      requires (e.Push? || e.Wakeup? || e.Quit?) && Step(View(), e).Next?
      modifies this
      ensures Step(old(View()), e) == Next(View()) && phase == old(phase)
    {
      match e
      case Push(thread, f) => var _ := QueueInLoop(thread, f);
      case Wakeup(thread) => Wakeup(thread);
      case Quit(thread) => var _ := Quit(thread);
    }

    /** What may happen to the queue while a functor runs: pushes and quits, of the loop thread or any other. */
    static predicate QueueAction(e: Event) {
      e.Push? || e.Quit?
    }

    static ghost predicate FunctorBody(work: seq<Event>) {
      forall e | e in work :: QueueAction(e)
    }

    /** `doPendingFunctors` when `work[i]` happens while functor `i` runs, by its own doing or by that of other threads,
        each push or quit with its wakeup: it executes what was queued at its start, and that only. */
    method DoPendingFunctors(work: seq<seq<Event>>) returns (ghost trace: seq<Event>)
      requires phase == Dispatching(false) && owing == {} && !callingPendingFunctors
      requires forall w | w in work :: FunctorBody(w)
      modifies this
      ensures Run(Step, old(View()), trace) == Next(View())
      ensures phase.Deciding? && !callingPendingFunctors && owing == {}
      ensures executed == old(executed) + old(pendingFunctors)
    {
      ghost var s := View();
      BeginCalling();
      Snoc(Step, s, [], s, EndDispatch);
      trace := [] + [EndDispatch];
      Snoc(Step, s, trace, View(), Swap);
      var functors := SwapFunctors();
      trace := CallFunctors(functors, work, s, trace + [Swap]);
      Snoc(Step, s, trace, View(), EndCalling);
      FinishCalling();
      trace := trace + [EndCalling];
    }

    method BeginCalling()
      requires phase == Dispatching(false) && LOOP !in owing
      modifies this
      ensures Step(old(View()), EndDispatch) == Next(View())
    {
      callingPendingFunctors := true;
      phase := Swapping;
    }

    method FinishCalling()
      requires phase == Calling([]) && LOOP !in owing
      modifies this
      ensures Step(old(View()), EndCalling) == Next(View())
    {
      callingPendingFunctors := false;
      phase := Deciding;
    }

    /** The loop of `doPendingFunctors`. */
    method CallFunctors(functors: seq<Functor>, work: seq<seq<Event>>, ghost s: Loop, ghost before: seq<Event>)
      returns (ghost trace: seq<Event>)
      requires Run(Step, s, before) == Next(View()) && phase == Calling(functors) && callingPendingFunctors
               && owing == {}
      requires forall w | w in work :: FunctorBody(w)
      modifies this
      ensures Run(Step, s, trace) == Next(View()) && phase == Calling([]) && callingPendingFunctors && owing == {}
      ensures executed == old(executed) + functors
    {
      trace := before;
      var i := 0;
      assert functors[0..] == functors && functors[..0] == [];
      while i != |functors|
        invariant 0 <= i <= |functors| && phase == Calling(functors[i..]) && callingPendingFunctors && owing == {}
        invariant Run(Step, s, trace) == Next(View()) && executed == old(executed) + functors[..i]
        decreases |functors| - i
      {
        Snoc(Step, s, trace, View(), Execute);
        CallNext(functors[i]);
        assert functors[i..][1..] == functors[i + 1..] && functors[..i + 1] == functors[..i] + [functors[i]];
        trace := trace + [Execute];
        if i < |work| {
          assert work[i] in work;
          trace := RunFunctor(work[i], s, trace);
        }
        i := i + 1;
      }
      assert functors[i..] == [] && functors[..i] == functors;
    }

    method CallNext(f: Functor)
      requires phase.Calling? && phase.batch != [] && phase.batch[0] == f && owing == {}
      modifies this
      ensures Step(old(View()), Execute) == Next(View())
      ensures phase == Calling(old(phase.batch)[1..]) && executed == old(executed) + [f]
      ensures callingPendingFunctors == old(callingPendingFunctors) && owing == {}
    {
      executed := executed + [f];
      phase := Calling(phase.batch[1..]);
    }

    /** The functors that some events push. */
    static ghost function Pushed(work: seq<Event>): seq<Functor> {
      if work == [] then [] else
      Pushed(work[..|work| - 1]) + if work[|work| - 1].Push? then [work[|work| - 1].f] else []
    }

    /** The time of one handler or functor: every push that has to, and every quit of another thread, is followed by its
        wakeup. */
    method RunFunctor(work: seq<Event>, ghost s: Loop, ghost before: seq<Event>) returns (ghost trace: seq<Event>)
      requires Run(Step, s, before) == Next(View()) && owing == {} && FunctorBody(work)
      requires (phase.Calling? && callingPendingFunctors) || (phase.Dispatching? && !callingPendingFunctors)
      modifies this
      ensures Run(Step, s, trace) == Next(View()) && before <= trace
      ensures phase == old(phase) && callingPendingFunctors == old(callingPendingFunctors) && owing == {}
      ensures executed == old(executed) && pendingFunctors == old(pendingFunctors) + Pushed(work)
    {
      trace := before;
      var j := 0;
      assert work[..0] == [];
      while j < |work|
        invariant 0 <= j <= |work| && Run(Step, s, trace) == Next(View()) && before <= trace
        invariant phase == old(phase) && callingPendingFunctors == old(callingPendingFunctors) && owing == {}
        invariant executed == old(executed) && pendingFunctors == old(pendingFunctors) + Pushed(work[..j])
      {
        assert QueueAction(work[j]);
        Snoc(Step, s, trace, View(), work[j]);
        Perform(work[j]);
        trace := trace + [work[j]];
        assert work[..j + 1][..j] == work[..j];
        if work[j].thread != LOOP || (work[j].Push? && callingPendingFunctors) {
          Snoc(Step, s, trace, View(), EventLoopModel.Wakeup(work[j].thread));
          Wakeup(work[j].thread);
          trace := trace + [EventLoopModel.Wakeup(work[j].thread)];
        }
        j := j + 1;
      }
      assert work[..j] == work;
    }

    /** poll() returns, and the wakeup channel is handled if it is readable. */
    method Poll(ghost s: Loop, ghost before: seq<Event>) returns (ghost trace: seq<Event>)
      requires Run(Step, s, before) == Next(View()) && phase.Polling? && owing == {}
      modifies this
      ensures Run(Step, s, trace) == Next(View()) && before <= trace && phase == Dispatching(false)
      ensures wakeupFd == 0 && View() == old(View()).(phase := phase, eventfd := 0)
    {
      Snoc(Step, s, before, View(), PollReturns);
      phase := Dispatching(wakeupFd > 0);
      trace := before + [PollReturns];
      if wakeupFd > 0 {
        Snoc(Step, s, trace, View(), EventLoopModel.HandleRead);
        HandleRead();
        trace := trace + [EventLoopModel.HandleRead];
      }
    }

    /** One turn of `while (!quit_)`, in which the handlers do `handled` and functor `i` does `work[i]`, or other
        threads meanwhile: it executes what had been queued, and what the handlers queue. */
    method Iterate(handled: seq<Event>, work: seq<seq<Event>>, ghost s: Loop, ghost before: seq<Event>)
        returns (goOn: bool, ghost trace: seq<Event>)
      requires Run(Step, s, before) == Next(View()) && phase.Deciding? && !callingPendingFunctors && owing == {}
      requires FunctorBody(handled) && forall w | w in work :: FunctorBody(w)
      modifies this
      ensures Run(Step, s, trace) == Next(View()) && before <= trace
      ensures (goOn <==> !old(quit)) && (!goOn ==> quit)
      ensures phase == (if goOn then Deciding else Outside) && !callingPendingFunctors && owing == {}
      ensures executed == old(executed) + if goOn then old(pendingFunctors) + Pushed(handled) else []
    {
      Snoc(Step, s, before, View(), EventLoopModel.Decide);
      goOn := Decide();
      trace := before + [EventLoopModel.Decide];
      if goOn {
        trace := Poll(s, trace);
        trace := RunFunctor(handled, s, trace);
        ghost var done := trace;
        ghost var t := View();
        trace := DoPendingFunctors(work);
        Concat(Step, s, done, trace);
        trace := done + trace;
      }
    }

    /** `loop`, observed for as many turns as are given: it stops turning exactly when it finds `quit_` set. */
    method RunLoop(turns: seq<(seq<Event>, seq<seq<Event>>)>) returns (left: bool, ghost trace: seq<Event>)
      requires phase.Outside? && !callingPendingFunctors && owing == {}
      requires forall t | t in turns :: FunctorBody(t.0) && forall w | w in t.1 :: FunctorBody(w)
      modifies this
      ensures Run(Step, old(View()), trace) == Next(View()) && [EnterLoop] <= trace
      ensures if left then phase.Outside? && quit else phase.Deciding?
      ensures !callingPendingFunctors && owing == {}
    {
      ghost var s := View();
      Snoc(Step, s, [], s, EnterLoop);
      quit, phase := false, Deciding;
      trace := [] + [EnterLoop];
      left := false;
      var i := 0;
      while i < |turns| && !left
        invariant 0 <= i <= |turns| && Run(Step, s, trace) == Next(View()) && [EnterLoop] <= trace
        invariant if left then phase.Outside? && quit else phase.Deciding?
        invariant !callingPendingFunctors && owing == {}
      {
        assert turns[i] in turns;
        var goOn;
        goOn, trace := Iterate(turns[i].0, turns[i].1, s, trace);
        left := !goOn;
        i := i + 1;
      }
    }
  }
}
