/** The functor queue of `EventLoop` as a machine of atomic steps.

    `queueInLoop` is two steps: the push under the mutex, and the write to the
    eventfd outside it.  Thread 0 is the loop thread; the others are producers.
    Handlers and functors run on the loop thread and may push at any time.
 */
module EventLoopModel {
  import opened Machine

  type Functor = nat

  const LOOP: nat := 0
  const EVENTFD_MAX: nat := 0xFFFF_FFFF_FFFF_FFFE

  /** Where the loop thread is in `loop`. */
  datatype Phase =
    | Outside                          // before loop() or after it
    | Deciding                         // at while (!quit_)
    | Polling                          // about to call poll, or in it
    | Dispatching(readable: bool)      // in handleEvent; is the wakeup channel still to be handled?
    | Swapping                         // callingPendingFunctors_ is set, the mutex not yet taken
    | Calling(batch: seq<Functor>)     // running the functors swapped out

  datatype Loop = Loop(
    pending: seq<Functor>,
    quit: bool,
    calling: bool,
    eventfd: nat,
    phase: Phase,
    owing: set<nat>,         // threads between their push (or quit) and their wakeup
    pushed: seq<Functor>,
    executed: seq<Functor>,
    early: bool)             // the loop thread pushed outside loop(), and nothing was swapped since

  datatype Event =
    | Push(thread: nat, f: Functor)
    | Wakeup(thread: nat)
    | Quit(thread: nat)
    | EnterLoop
    | Decide
    | PollReturns
    | HandleRead
    | EndDispatch
    | Swap
    | Execute
    | EndCalling

  function Init(): Loop {
    Loop([], false, false, 0, Outside, {}, [], [], false)
  }

  /** The loop thread runs user code (a handler, a functor, or code around `loop`). */
  predicate UserCode(s: Loop, thread: nat) {
    && thread !in s.owing
    && (thread != LOOP || s.phase.Outside? || s.phase.Dispatching? || s.phase.Calling?)
  }

  function Step(s: Loop, e: Event): Outcome<Loop> {
    match e
    case Push(thread, f) =>
      if !UserCode(s, thread) then Disabled else
      var s1 := s.(pending := s.pending + [f], pushed := s.pushed + [f]);
      if thread != LOOP || s.calling then Next(s1.(owing := s.owing + {thread}))
      else Next(s1.(early := s.early || s.phase.Outside?))
    case Wakeup(thread) =>
      if thread !in s.owing then Disabled else
      Next(s.(owing := s.owing - {thread}, eventfd := if s.eventfd < EVENTFD_MAX then s.eventfd + 1 else s.eventfd))
    case Quit(thread) =>
      if !UserCode(s, thread) then Disabled else
      Next(s.(quit := true, owing := if thread != LOOP then s.owing + {thread} else s.owing))
    case _ => if LOOP in s.owing then Disabled else LoopStep(s, e)
  }

  /** Steps of the loop thread's own code. */
  function LoopStep(s: Loop, e: Event): Outcome<Loop>
    requires !e.Push? && !e.Wakeup? && !e.Quit?
  {
    match (e, s.phase)
    case (EnterLoop, Outside) => Next(s.(quit := false, phase := Deciding))
    case (Decide, Deciding) => Next(s.(phase := if s.quit then Outside else Polling))
    case (PollReturns, Polling) => Next(s.(phase := Dispatching(s.eventfd > 0)))
    case (HandleRead, Dispatching(readable)) => if readable then Next(s.(eventfd := 0, phase := Dispatching(false)))
        else Disabled
    case (EndDispatch, Dispatching(readable)) => if readable then Disabled
        else Next(s.(calling := true, phase := Swapping))
    case (Swap, Swapping) => Next(s.(pending := [], phase := Calling(s.pending), early := false))
    case (Execute, Calling(batch)) =>
      if batch == [] then Disabled else Next(s.(executed := s.executed + [batch[0]], phase := Calling(batch[1..])))
    case (EndCalling, Calling(batch)) => if batch != [] then Disabled else Next(s.(calling := false, phase := Deciding))
    case _ => Disabled
  }
}
