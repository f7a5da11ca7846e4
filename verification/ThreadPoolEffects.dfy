/** What each section of the thread pool does to the tasks and the threads, in every reachable state. */
module ThreadPoolEffects {
  import opened Machine
  import opened ThreadPoolModel
  import opened ThreadPoolTheorems

  /** A worker that finds tasks runs the oldest one not taken yet, and no other worker gets it. */
  lemma TakesOldest(s: Pool, w: nat, next: Caller)
    requires Reachable(s) && Step(s, Take(w, next)).Next? && s.queue != []
    ensures |s.taken| < |s.accepted|
    ensures var t := Step(s, Take(w, next)).state;
            && t.workers == s.workers[w := Working(s.accepted[|s.taken|])]
            && t.taken == s.accepted[..|s.taken| + 1] && t.accepted == s.accepted && t.running == s.running
  {
    ReachableInv(s);
    assert s.accepted[|s.taken|] == s.queue[0];
  }

  /** If the queue is bounded and callers wait for room, it wakes one of them, with its task; it disturbs no other. */
  lemma TakeMakesRoomFor(s: Pool, w: nat, next: Caller)
    requires Reachable(s) && Step(s, Take(w, next)).Next? && s.queue != []
    ensures var t := Step(s, Take(w, next)).state;
            if s.bound > 0 && BlockedProducers(s) != {} then
              && next in s.producers && s.producers[next].Blocked?
              && t.producers == s.producers[next := Awake(s.producers[next].task)]
            else t.producers == s.producers
  {
    ReachableInv(s);
  }

  /** A worker that finds none sleeps, or goes to see that the pool has been stopped. */
  lemma TakesNone(s: Pool, w: nat, next: Caller)
    requires Reachable(s) && Step(s, Take(w, next)).Next? && s.queue == []
    ensures Step(s, Take(w, next)).state == s.(workers := s.workers[w := if s.running then Asleep else Looping])
  {
  }

  /** A caller that finds room has its own task accepted, behind all others, and wakes a sleeping worker if there is
      one. */
  lemma AddsOwnTask(s: Pool, p: Caller, wake: nat)
    requires Reachable(s) && Step(s, Add(p, wake)).Next? && (s.bound > 0 ==> |s.queue| < s.bound)
    ensures p in s.producers && !s.producers[p].Done?
    ensures var t, x := Step(s, Add(p, wake)).state, s.producers[p].task;
            && t.accepted == s.accepted + [x] && t.queue == s.queue + [x] && t.taken == s.taken
            && t.producers == s.producers[p := Done] && t.running == s.running
            && (if AsleepWorkers(s) != {} then
                  wake in s.workers && s.workers[wake].Asleep? && t.workers == s.workers[wake := Woken]
                else t.workers == s.workers)
  {
  }

  /** A caller that finds none waits, and keeps its task. */
  lemma AddWaits(s: Pool, p: Caller, wake: nat)
    requires Reachable(s) && Step(s, Add(p, wake)).Next? && s.bound > 0 && |s.queue| >= s.bound
    ensures p in s.producers && !s.producers[p].Done?
    ensures Step(s, Add(p, wake)).state == s.(producers := s.producers[p := Blocked(s.producers[p].task)])
  {
  }

  /** `p` is inside `addTask` with the task `x`. */
  ghost predicate Calls(s: Pool, p: Caller, x: Task) {
    p in s.producers && !s.producers[p].Done? && s.producers[p].task == x
  }

  /** The call of `p` has returned, after its task was accepted. */
  ghost predicate Returned(s: Pool, p: Caller, x: Task, before: nat) {
    p in s.producers && s.producers[p].Done? && x in s.accepted[if before <= |s.accepted| then before else 0..]
  }

  lemma CallStep(s: Pool, e: Event, p: Caller, x: Task)
    requires Calls(s, p, x) && Step(s, e).Next?
    ensures var t := Step(s, e).state;
            && s.accepted <= t.accepted
            && if e.Add? && e.p == p && !IsFull(s) then t.producers[p].Done? && t.accepted == s.accepted + [x]
               else Calls(t, p, x)
  {
  }

  lemma ReturnedStep(s: Pool, e: Event, p: Caller)
    requires p in s.producers && s.producers[p].Done? && Step(s, e).Next? && !(e.Arrive? && e.p == p)
    ensures var t := Step(s, e).state; p in t.producers && t.producers[p].Done? && s.accepted <= t.accepted
  {
  }

  /** Over every run: until it returns a call keeps its task, and when it returns that task has been accepted
      meanwhile. */
  lemma {:induction false} CallKeepsTask(s: Pool, es: seq<Event>, p: Caller, x: Task, before: nat)
    requires (Calls(s, p, x) && before <= |s.accepted|) || (Returned(s, p, x, before) && before <= |s.accepted|)
    requires Run(Step, s, es).Next? && forall e | e in es :: !(e.Arrive? && e.p == p)
    ensures var t := Run(Step, s, es).state; Calls(t, p, x) || Returned(t, p, x, before)
    decreases |es|
  {
    if es != [] {
      var e, t := es[0], Step(s, es[0]).state;
      assert e in es;
      if Calls(s, p, x) {
        CallStep(s, e, p, x);
        if t.producers[p].Done? { assert t.accepted[|s.accepted|] == x && x in t.accepted[before..]; }
      } else {
        ReturnedStep(s, e, p);
        assert t.accepted[before..][..|s.accepted| - before] == s.accepted[before..];
      }
      CallKeepsTask(t, es[1..], p, x, before);
    }
  }

  /** `stop` ends the running of the pool, wakes every sleeping worker, and does nothing else. */
  lemma StopTakesEffect(s: Pool)
    requires Reachable(s)
    ensures Step(s, Stop).Next?
    ensures var t := Step(s, Stop).state;
            && !t.running && t.workers.Keys == s.workers.Keys && t == s.(running := false, workers := t.workers)
            && (forall w | w in s.workers :: t.workers[w] == if s.workers[w].Asleep? then Woken else s.workers[w])
  {
  }

  /** A worker between tasks goes on for another one exactly while the pool runs; after a task it looks again. */
  lemma WorkerLoops(s: Pool, w: nat)
    requires Reachable(s) && w in s.workers
    ensures s.workers[w].Looping? ==>
              Step(s, Check(w)) == Next(s.(workers := s.workers[w := if s.running then Entering else Exited]))
    ensures s.workers[w].Working? && !InCall(s, w) ==>
              Step(s, FinishTask(w)) == Next(s.(workers := s.workers[w := Looping]))
  {
  }

  /** A pool starts running, with every thread in its loop and nothing to do. */
  lemma StartsRunning(bound: nat, threads: set<nat>)
    ensures var s := Started(bound, threads);
            && Reachable(s) && s.running && s.bound == bound && s.queue == [] && s.producers == map[]
            && s.workers.Keys == threads && forall w | w in threads :: s.workers[w].Looping?
  {
    assert Run(Step, Started(bound, threads), []) == Next(Started(bound, threads));
  }

  // ---------- the tasks of a run, as the threads see them ----------

  /** The task that a step gives a worker to run. */
  ghost function Begun(t: Pool, e: Event): seq<Task> {
    if e.Take? && e.w in t.workers && t.workers[e.w].Working? then [t.workers[e.w].task] else []
  }

  /** The task with which a step lets a caller return. */
  ghost function Given(s: Pool, t: Pool, e: Event): seq<Task> {
    if e.Add? && e.p in s.producers && !s.producers[e.p].Done? && e.p in t.producers && t.producers[e.p].Done?
    then [s.producers[e.p].task] else []
  }

  /** The tasks that the workers begin along a run, in order. */
  ghost function AllBegun(s: Pool, es: seq<Event>): seq<Task>
    decreases |es|
  {
    if |es| == 0 || !Step(s, es[0]).Next? then [] else
    var t := Step(s, es[0]).state;
    Begun(t, es[0]) + AllBegun(t, es[1..])
  }

  /** The tasks whose calls of `addTask` return along a run, in order. */
  ghost function AllGiven(s: Pool, es: seq<Event>): seq<Task>
    decreases |es|
  {
    if |es| == 0 || !Step(s, es[0]).Next? then [] else
    var t := Step(s, es[0]).state;
    Given(s, t, es[0]) + AllGiven(t, es[1..])
  }

  lemma QueueStep(s: Pool, e: Event)
    requires Step(s, e).Next?
    ensures var t := Step(s, e).state; Begun(t, e) + t.queue == s.queue + Given(s, t, e)
  {
    if e.Take? && s.queue != [] { assert s.queue == [s.queue[0]] + s.queue[1..]; }
  }

  lemma Chain(b1: seq<Task>, b2: seq<Task>, g1: seq<Task>, g2: seq<Task>, q: seq<Task>, q1: seq<Task>, q2: seq<Task>)
    requires b1 + q1 == q + g1 && b2 + q2 == q1 + g2
    ensures (b1 + b2) + q2 == q + (g1 + g2)
  {
    assert (b1 + b2) + q2 == b1 + (q1 + g2);
    assert (b1 + q1) + g2 == q + (g1 + g2);
  }

  /** Every run is first in, first out: what the workers have begun, followed by the queue, is what was in the queue,
      followed by the tasks whose calls returned. */
  lemma {:induction false} FirstInFirstOut(s: Pool, es: seq<Event>)
    requires Run(Step, s, es).Next?
    ensures AllBegun(s, es) + Run(Step, s, es).state.queue == s.queue + AllGiven(s, es)
    decreases |es|
  {
    if es == [] {
      assert AllBegun(s, es) == [] && AllGiven(s, es) == [];
    } else {
      var t := Step(s, es[0]).state;
      QueueStep(s, es[0]);
      FirstInFirstOut(t, es[1..]);
      Chain(Begun(t, es[0]), AllBegun(t, es[1..]), Given(s, t, es[0]), AllGiven(t, es[1..]),
            s.queue, t.queue, Run(Step, t, es[1..]).state.queue);
    }
  }

  // ---------- when each step can happen ----------

  /** A thread's step can happen exactly when the thread is there; a notification goes to a waiter if there is one. */
  lemma Enabled(s: Pool, e: Event)
    requires Reachable(s)
    ensures !Step(s, e).Fault?
    ensures Step(s, e).Next? <==>
              match e
              case Check(w) => w in s.workers && s.workers[w] == Looping
              case Take(w, next) =>
                && w in s.workers && (s.workers[w] == Entering || s.workers[w] == Woken)
                && (s.queue != [] && BlockedProducers(s) != {} ==> next in BlockedProducers(s))
              case FinishTask(w) =>
                && w in s.workers && s.workers[w].Working?
                && (Inside(w) in s.producers ==> s.producers[Inside(w)].Done?)
              case Arrive(p, _) =>
                && (p in s.producers ==> s.producers[p].Done?)
                && (p.Inside? ==> p.worker in s.workers && s.workers[p.worker].Working?)
              case Add(p, wake) =>
                && p in s.producers && (s.producers[p].Arriving? || s.producers[p].Awake?)
                && (AsleepWorkers(s) != {} && (s.bound > 0 ==> |s.queue| < s.bound) ==> wake in AsleepWorkers(s))
              case WorkerWakes(w) => w in s.workers && s.workers[w] == Asleep
              case ProducerWakes(p) => p in s.producers && s.producers[p].Blocked?
              case Stop => true
  {
    ReachableInv(s);
  }

  /** Calling `addTask`, and waking up, change the place of one thread. */
  lemma ThreadMoves(s: Pool, p: Caller, task: Task, w: nat)
    requires Reachable(s)
    ensures Step(s, Arrive(p, task)).Next? ==>
              Step(s, Arrive(p, task)).state == s.(producers := s.producers[p := Arriving(task)])
    ensures Step(s, WorkerWakes(w)).Next? ==> Step(s, WorkerWakes(w)).state == s.(workers := s.workers[w := Woken])
    ensures Step(s, ProducerWakes(p)).Next? ==>
              && p in s.producers && s.producers[p].Blocked?
              && Step(s, ProducerWakes(p)).state == s.(producers := s.producers[p := Awake(s.producers[p].task)])
  {
  }
}
