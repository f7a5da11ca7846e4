/** The thread pool as a machine of atomic sections.

    A step is what one thread does between taking and releasing `mutex_`
    (`wait` releases it), or the unlocked test of `running_`.  `notify` wakes
    one waiter chosen by the event, if there is one; waiters may also wake
    spuriously, and woken threads compete for the mutex with newcomers.
    A task may itself call `addTask` on the pool that runs it.
 */
module ThreadPoolModel {
  import opened Machine

  type Task = nat

  /** Where a worker is in `runInThread` and `takeTask`. */
  datatype Worker = Looping | Entering | Asleep | Woken | Working(task: Task) | Exited

  /** A thread that calls `addTask`: one outside the pool, or a worker, from inside the task it is running. */
  datatype Caller = Outsider(id: nat) | Inside(worker: nat)

  /** Where a caller is in `addTask`. */
  datatype Producer = Arriving(task: Task) | Blocked(task: Task) | Awake(task: Task) | Done

  datatype Pool = Pool(
    queue: seq<Task>,
    bound: nat,
    running: bool,
    workers: map<nat, Worker>,
    producers: map<Caller, Producer>,
    accepted: seq<Task>,
    taken: seq<Task>)

  datatype Event =
    | Check(w: nat)
    | Take(w: nat, next: Caller)
    | FinishTask(w: nat)
    | Arrive(p: Caller, task: Task)
    | Add(p: Caller, wake: nat)
    | WorkerWakes(w: nat)
    | ProducerWakes(p: Caller)
    | Stop

  /** A pool that has just been started with the given threads. */
  function Started(bound: nat, threads: set<nat>): Pool {
    Pool([], bound, true, map w | w in threads :: Looping, map[], [], [])
  }

  predicate IsFull(s: Pool) {
    s.bound > 0 && |s.queue| >= s.bound
  }

  function AsleepWorkers(s: Pool): set<nat> {
    set w | w in s.workers && s.workers[w].Asleep?
  }

  function WokenWorkers(s: Pool): set<nat> {
    set w | w in s.workers && s.workers[w].Woken?
  }

  function BlockedProducers(s: Pool): set<Caller> {
    set p | p in s.producers && s.producers[p].Blocked?
  }

  function AwakeProducers(s: Pool): set<Caller> {
    set p | p in s.producers && s.producers[p].Awake?
  }

  /** The task that worker `w` runs has called `addTask` and has not come back. */
  predicate InCall(s: Pool, w: nat) {
    Inside(w) in s.producers && !s.producers[Inside(w)].Done?
  }

  predicate MayCall(s: Pool, p: Caller) {
    && (p in s.producers ==> s.producers[p].Done?)
    && (p.Inside? ==> p.worker in s.workers && s.workers[p.worker].Working?)
  }

  function NotifyWorker(s: Pool, wake: nat): Pool {
    if wake in AsleepWorkers(s) then s.(workers := s.workers[wake := Woken]) else s
  }

  function NotifyProducer(s: Pool, wake: Caller): Pool {
    if wake in BlockedProducers(s) then s.(producers := s.producers[wake := Awake(s.producers[wake].task)]) else s
  }

  /** `takeTask` from the moment the mutex is held until it is released. */
  function TakeSection(s: Pool, w: nat, wake: Caller): Outcome<Pool> {
    if w !in s.workers || !(s.workers[w].Entering? || s.workers[w].Woken?) then Disabled
    else if s.queue == [] && s.running then Next(s.(workers := s.workers[w := Asleep]))
    else if s.queue == [] then Next(s.(workers := s.workers[w := Looping]))
    else
      var s1 := s.(queue := s.queue[1..], taken := s.taken + [s.queue[0]],
          workers := s.workers[w := Working(s.queue[0])]);
      if s.bound == 0 then Next(s1)
      else if BlockedProducers(s) != {} && wake !in BlockedProducers(s) then Disabled
      else Next(NotifyProducer(s1, wake))
  }

  /** `addTask` from the moment the mutex is held until it is released. */
  function AddSection(s: Pool, p: Caller, wake: nat): Outcome<Pool> {
    if p !in s.producers || !(s.producers[p].Arriving? || s.producers[p].Awake?) then Disabled else
    var task := s.producers[p].task;
    if IsFull(s) then Next(s.(producers := s.producers[p := Blocked(task)]))
    else if AsleepWorkers(s) != {} && wake !in AsleepWorkers(s) then Disabled
    else
      var s1 := s.(queue := s.queue + [task], accepted := s.accepted + [task], producers := s.producers[p := Done]);
      Next(NotifyWorker(s1, wake))
  }

  /** The locked part of `stop`: `notifyAll` wakes every sleeping worker. */
  function StopSection(s: Pool): Pool {
    s.(running := false,
       workers := map w | w in s.workers :: if s.workers[w].Asleep? then Woken else s.workers[w])
  }

  function Step(s: Pool, e: Event): Outcome<Pool> {
    match e
    case Check(w) =>
      if w !in s.workers || !s.workers[w].Looping? then Disabled else
      Next(s.(workers := s.workers[w := if s.running then Entering else Exited]))
    case Take(w, wake) => TakeSection(s, w, wake)
    case FinishTask(w) =>
      if w !in s.workers || !s.workers[w].Working? || InCall(s, w) then Disabled else
      Next(s.(workers := s.workers[w := Looping]))
    case Arrive(p, task) =>
      if !MayCall(s, p) then Disabled else Next(s.(producers := s.producers[p := Arriving(task)]))
    case Add(p, wake) => AddSection(s, p, wake)
    case WorkerWakes(w) =>
      if w !in AsleepWorkers(s) then Disabled else Next(s.(workers := s.workers[w := Woken]))
    case ProducerWakes(p) =>
      if p !in BlockedProducers(s) then Disabled
          else Next(s.(producers := s.producers[p := Awake(s.producers[p].task)]))
    case Stop => Next(StopSection(s))
  }
}
