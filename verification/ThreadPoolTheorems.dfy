/** What the thread pool guarantees in every interleaving. */
module ThreadPoolTheorems {
  import opened Machine
  import opened ThreadPoolModel
  import opened Sets

  ghost predicate Reachable(s: Pool) {
    exists bound: nat, threads: set<nat>, es: seq<Event> :: Run(Step, Started(bound, threads), es) == Next(s)
  }

  /** Sleeping workers leave no more tasks than woken workers will look at. */
  ghost predicate WorkersOwed(s: Pool) {
    s.running && AsleepWorkers(s) != {} ==> |s.queue| <= |WokenWorkers(s)|
  }

  /** Blocked callers leave no more room than woken callers will look at. */
  ghost predicate ProducersOwed(s: Pool) {
    BlockedProducers(s) != {} ==> s.bound > 0 && s.bound - |s.queue| <= |AwakeProducers(s)|
  }

  /** The bound, the order of tasks, no sleep after `stop` and no exit before it. */
  ghost predicate Ordered(s: Pool) {
    && (s.bound > 0 ==> |s.queue| <= s.bound)
    && (!s.running ==> AsleepWorkers(s) == {})
    && (s.running ==> forall w | w in s.workers :: !s.workers[w].Exited?)
    && s.taken + s.queue == s.accepted
  }

  ghost predicate Inv(s: Pool) {
    WorkersOwed(s) && ProducersOwed(s) && Ordered(s)
  }

  lemma WorkerMoves(s: Pool, t: Pool, w: nat, x: Worker)
    requires w in s.workers && t.workers == s.workers[w := x]
    ensures WokenWorkers(t) == WokenWorkers(s) - {w} + (if x.Woken? then {w} else {})
    ensures AsleepWorkers(t) == AsleepWorkers(s) - {w} + (if x.Asleep? then {w} else {})
  {
  }

  lemma ProducerMoves(s: Pool, t: Pool, p: Caller, x: Producer)
    requires t.producers == s.producers[p := x]
    ensures AwakeProducers(t) == AwakeProducers(s) - {p} + (if x.Awake? then {p} else {})
    ensures BlockedProducers(t) == BlockedProducers(s) - {p} + (if x.Blocked? then {p} else {})
  {
  }

  /** A worker changes place without taking a task. */
  lemma WorkerOnly(s: Pool, t: Pool, w: nat, x: Worker)
    requires Inv(s) && w in s.workers && t == s.(workers := s.workers[w := x])
    requires x.Asleep? ==> s.running
    requires x.Asleep? || s.workers[w].Woken? ==> s.queue == []
    requires x.Exited? ==> !s.running
    ensures Inv(t)
  {
    WorkerMoves(s, t, w, x);
  }

  /** A caller changes place without adding a task. */
  lemma ProducerOnly(s: Pool, t: Pool, p: Caller, x: Producer)
    requires Inv(s) && t == s.(producers := s.producers[p := x])
    requires x.Blocked? ==> IsFull(s)
    requires p in s.producers && s.producers[p].Awake? ==> IsFull(s)
    ensures Inv(t)
  {
    ProducerMoves(s, t, p, x);
  }

  lemma TakeKeeps(s: Pool, w: nat, wake: Caller)
    requires Inv(s) && TakeSection(s, w, wake).Next?
    ensures Inv(TakeSection(s, w, wake).state)
  {
    var t := TakeSection(s, w, wake).state;
    if s.queue == [] {
      WorkerOnly(s, t, w, t.workers[w]);
    } else {
      TakenKeeps(s, t, w, wake);
    }
  }

  lemma TakenKeeps(s: Pool, t: Pool, w: nat, wake: Caller)
    requires Inv(s) && s.queue != [] && TakeSection(s, w, wake) == Next(t)
    ensures Inv(t)
  {
    TakenWorkers(s, t, w, Working(s.queue[0]));
    TakenProducers(s, t, w, wake);
    assert s.taken + s.queue == s.taken + [s.queue[0]] + s.queue[1..];
  }

  lemma TakenWorkers(s: Pool, t: Pool, w: nat, x: Worker)
    requires WorkersOwed(s) && w in s.workers && t.workers == s.workers[w := x] && x.Working?
    requires t.running == s.running && |t.queue| == |s.queue| - 1
    ensures WorkersOwed(t) && AsleepWorkers(t) == AsleepWorkers(s) - {w}
  {
    WorkerMoves(s, t, w, x);
    SizeAtMost(WokenWorkers(s), WokenWorkers(t), w);
  }

  lemma TakenProducers(s: Pool, t: Pool, w: nat, wake: Caller)
    requires ProducersOwed(s) && s.queue != [] && TakeSection(s, w, wake) == Next(t)
    ensures ProducersOwed(t)
  {
    if wake in BlockedProducers(s) && s.bound > 0 { ProducerMoves(s, t, wake, Awake(s.producers[wake].task)); }
  }

  lemma AddKeeps(s: Pool, p: Caller, wake: nat)
    requires Inv(s) && AddSection(s, p, wake).Next?
    ensures Inv(AddSection(s, p, wake).state)
  {
    var t := AddSection(s, p, wake).state;
    if IsFull(s) {
      ProducerOnly(s, t, p, t.producers[p]);
    } else {
      AddedProducers(s, t, p, wake);
      AddedWorkers(s, t, p, wake);
      AddedOrdered(s, t, p, wake);
    }
  }

  lemma AddedProducers(s: Pool, t: Pool, p: Caller, wake: nat)
    requires ProducersOwed(s) && AddSection(s, p, wake) == Next(t) && !IsFull(s)
    ensures ProducersOwed(t)
  {
    ProducerMoves(s, t, p, Done);
  }

  lemma AddedWorkers(s: Pool, t: Pool, p: Caller, wake: nat)
    requires WorkersOwed(s) && AddSection(s, p, wake) == Next(t) && !IsFull(s)
    ensures WorkersOwed(t)
  {
    if wake in AsleepWorkers(s) { WorkerMoves(s, t, wake, Woken); }
  }

  lemma AddedOrdered(s: Pool, t: Pool, p: Caller, wake: nat)
    requires Ordered(s) && AddSection(s, p, wake) == Next(t) && !IsFull(s)
    ensures Ordered(t)
  {
    assert s.taken + (s.queue + [s.producers[p].task]) == s.taken + s.queue + [s.producers[p].task];
    assert !s.running ==> AsleepWorkers(t) == AsleepWorkers(s);
  }

  lemma StopKeeps(s: Pool)
    requires Inv(s)
    ensures Inv(StopSection(s))
  {
    assert AsleepWorkers(StopSection(s)) == {};
  }

  lemma StepKeeps(s: Pool, e: Event)
    requires Inv(s) && Step(s, e).Next?
    ensures Inv(Step(s, e).state)
  {
    match e
    case Take(w, wake) => TakeKeeps(s, w, wake);
    case Add(p, wake) => AddKeeps(s, p, wake);
    case Stop => StopKeeps(s);
    case Arrive(p, task) => ProducerOnly(s, Step(s, e).state, p, Arriving(task));
    case ProducerWakes(p) => ProducerWakesKeeps(s, p);
    case WorkerWakes(w) => WorkerWakesKeeps(s, w);
    case Check(w) => WorkerOnly(s, Step(s, e).state, w, if s.running then Entering else Exited);
    case FinishTask(w) => WorkerOnly(s, Step(s, e).state, w, Looping);
  }

  lemma WorkerWakesKeeps(s: Pool, w: nat)
    requires Inv(s) && w in AsleepWorkers(s)
    ensures Inv(s.(workers := s.workers[w := Woken]))
  {
    WorkerMoves(s, s.(workers := s.workers[w := Woken]), w, Woken);
  }

  lemma ProducerWakesKeeps(s: Pool, p: Caller)
    requires Inv(s) && p in BlockedProducers(s)
    ensures Inv(s.(producers := s.producers[p := Awake(s.producers[p].task)]))
  {
    ProducerMoves(s, s.(producers := s.producers[p := Awake(s.producers[p].task)]), p, Awake(s.producers[p].task));
  }

  lemma ReachableInv(s: Pool)
    requires Reachable(s)
    ensures Inv(s)
  {
    var bound: nat, threads: set<nat>, es: seq<Event> :| Run(Step, Started(bound, threads), es) == Next(s);
    forall t, e | Inv(t) && Step(t, e).Next? ensures Inv(Step(t, e).state) { StepKeeps(t, e); }
    assert AsleepWorkers(Started(bound, threads)) == {} && BlockedProducers(Started(bound, threads)) == {};
    Invariant(Step, Inv, Started(bound, threads), es);
  }

  // ---------- while running ----------

  /** No wake-up is lost: sleeping workers leave no more tasks than woken workers will look at,
      and blocked producers leave no more room than woken producers will look at. */
  lemma NoLostWakeup(s: Pool)
    requires Reachable(s)
    ensures s.running && AsleepWorkers(s) != {} ==> |s.queue| <= |WokenWorkers(s)|
    ensures BlockedProducers(s) != {} ==> s.bound > 0 && s.bound - |s.queue| <= |AwakeProducers(s)|
  {
    ReachableInv(s);
  }

  /** The worker runs a task that waits for room in the pool's own queue. */
  ghost predicate BlockedInside(s: Pool, w: nat) {
    w in s.workers && s.workers[w].Working? && Inside(w) in BlockedProducers(s)
  }

  /** Everybody waits: workers for a task or, inside their own task, for room; callers for room, unless they have
      returned. */
  ghost predicate AllWaiting(s: Pool) {
    && (forall w | w in s.workers :: s.workers[w].Asleep? || s.workers[w].Exited? || BlockedInside(s, w))
    && (forall p | p in s.producers :: s.producers[p].Blocked? || s.producers[p].Done?)
  }

  /** Nothing is left to do. */
  ghost predicate Drained(s: Pool) {
    && s.queue == [] && (forall w | w in s.workers :: s.workers[w].Asleep?)
    && (forall p | p in s.producers :: s.producers[p].Done?)
  }

  /** The queue is full, and every worker runs a task that is inside `addTask`. */
  ghost predicate SelfBlocked(s: Pool, queue: seq<Task>) {
    && IsFull(s) && s.queue == queue && s.workers != map[]
    && (forall w | w in s.workers :: s.workers[w].Working? && InCall(s, w))
  }

  /** Deadlock, exactly: a running pool in which everybody waits has drained its queue if and only if some worker is not
      inside a call that its own task made; otherwise it has blocked itself. */
  lemma NoDeadlock(s: Pool)
    requires Reachable(s) && s.running && s.workers != map[] && AllWaiting(s)
    ensures Drained(s) <==> exists w :: w in s.workers && !InCall(s, w)
    ensures SelfBlocked(s, s.queue) <==> !Drained(s)
  {
    ReachableInv(s);
    assert WokenWorkers(s) == {} && AwakeProducers(s) == {};
    var w :| w in s.workers;
    if a :| a in s.workers && s.workers[a].Asleep? {
      assert a in AsleepWorkers(s);
      assert s.queue == [] && BlockedProducers(s) == {};
      assert forall p | p in s.producers :: p in BlockedProducers(s) || s.producers[p].Done?;
      assert Drained(s);
      if Inside(a) in s.producers { assert s.producers[Inside(a)].Done?; }
      assert !InCall(s, a);
    } else {
      assert BlockedInside(s, w);
      assert IsFull(s);
    }
  }

  lemma SelfBlockedStep(s: Pool, queue: seq<Task>, e: Event)
    requires SelfBlocked(s, queue) && Step(s, e).Next?
    ensures SelfBlocked(Step(s, e).state, queue)
  {
    var t := Step(s, e).state;
    assert t.workers == s.workers;
    forall w | w in t.workers ensures InCall(t, w) { assert InCall(s, w); }
  }

  /** A pool that has blocked itself stays so: whatever happens, `stop` included, no worker comes back from its task. */
  lemma SelfBlockedForever(s: Pool, es: seq<Event>)
    requires SelfBlocked(s, s.queue) && Run(Step, s, es).Next?
    ensures SelfBlocked(Run(Step, s, es).state, s.queue)
  {
    var inv := (t: Pool) => SelfBlocked(t, s.queue);
    forall t, e | inv(t) && Step(t, e).Next? ensures inv(Step(t, e).state) { SelfBlockedStep(t, s.queue, e); }
    Invariant(Step, inv, s, es);
  }

  /** Tasks are taken in the order they were accepted, and the queue keeps to its bound. */
  lemma FifoAndBounded(s: Pool)
    requires Reachable(s)
    ensures s.taken + s.queue == s.accepted
    ensures s.bound > 0 ==> |s.queue| <= s.bound
  {
    ReachableInv(s);
  }

  // ---------- after stop ----------

  /** Own steps a worker has left once the pool is stopped. */
  ghost function Left(x: Worker): nat {
    match x
    case Exited => 0
    case Looping => 1
    case Working(_) => 2
    case _ => 3
  }

  /** Tasks it can still take. */
  ghost function MayTake(x: Worker): nat {
    if x.Entering? || x.Asleep? || x.Woken? then 1 else 0
  }

  /** 1 if worker `w` makes the step `e`. */
  ghost function Own(e: Event, w: nat): nat {
    match e
    case Check(v) => if v == w then 1 else 0
    case Take(v, _) => if v == w then 1 else 0
    case FinishTask(v) => if v == w then 1 else 0
    case _ => 0
  }

  ghost function OwnSteps(es: seq<Event>, w: nat): nat {
    if es == [] then 0 else Own(es[0], w) + OwnSteps(es[1..], w)
  }

  /** How many tasks worker `w` takes along the run. */
  ghost function Takes(s: Pool, es: seq<Event>, w: nat): nat
    decreases |es|
  {
    if es == [] || !Step(s, es[0]).Next? then 0 else
    var t := Step(s, es[0]).state;
    Takes(t, es[1..], w) + if es[0].Take? && es[0].w == w && t.taken != s.taken then 1 else 0
  }

  lemma StoppedStep(s: Pool, e: Event, w: nat)
    requires Inv(s) && !s.running && w in s.workers && Step(s, e).Next?
    ensures var t := Step(s, e).state;
            && !t.running && w in t.workers
            && Own(e, w) + Left(t.workers[w]) <= Left(s.workers[w])
            && (e.Take? && e.w == w && t.taken != s.taken ==> MayTake(s.workers[w]) == 1 && MayTake(t.workers[w]) == 0)
            && MayTake(t.workers[w]) <= MayTake(s.workers[w])
  {
    assert w !in AsleepWorkers(s);
  }

  /** After `stop` every worker takes at most one more task and exits after at most three steps of its own. */
  lemma {:induction false} StopEndsWorkers(s: Pool, es: seq<Event>, w: nat)
    requires Inv(s) && !s.running && w in s.workers && Run(Step, s, es).Next?
    ensures var t := Run(Step, s, es).state;
            && !t.running && AsleepWorkers(t) == {} && w in t.workers
            && OwnSteps(es, w) + Left(t.workers[w]) <= Left(s.workers[w]) <= 3
            && Takes(s, es, w) + MayTake(t.workers[w]) <= MayTake(s.workers[w]) <= 1
    decreases |es|
  {
    if es != [] {
      var t := Step(s, es[0]).state;
      StepKeeps(s, es[0]);
      StoppedStep(s, es[0], w);
      StopEndsWorkers(t, es[1..], w);
    }
  }

  /** A worker that has not exited has a step of its own (its task terminating), so it does exit, unless its task
      has called `addTask` on this very pool. */
  lemma StoppedWorkerMoves(s: Pool, w: nat)
    requires Inv(s) && !s.running && w in s.workers && !s.workers[w].Exited?
    ensures (exists e :: Own(e, w) == 1 && Step(s, e).Next?) <==> !(s.workers[w].Working? && InCall(s, w))
  {
    assert w !in AsleepWorkers(s);
    var x := s.workers[w];
    if x.Looping? {
      assert Own(Check(w), w) == 1 && Step(s, Check(w)).Next?;
    } else if x.Working? {
      if !InCall(s, w) { assert Own(FinishTask(w), w) == 1 && Step(s, FinishTask(w)).Next?; }
    } else {
      var p :| BlockedProducers(s) != {} ==> p in BlockedProducers(s);
      assert Own(Take(w, p), w) == 1 && Step(s, Take(w, p)).Next?;
    }
  }

  /** No worker will take another task, the queue is full, and caller `p` is inside `addTask`. */
  ghost predicate Stranded(s: Pool, p: Caller, queue: seq<Task>) {
    && !s.running && IsFull(s) && s.queue == queue && (forall w | w in s.workers :: MayTake(s.workers[w]) == 0)
    && p in s.producers && !s.producers[p].Done?
  }

  /** What `stop` does not do: once no worker will take a task, a full queue stays full, and a caller of `addTask`
      never returns. */
  lemma StrandedForever(s: Pool, p: Caller, es: seq<Event>)
    requires Stranded(s, p, s.queue) && Run(Step, s, es).Next?
    ensures Stranded(Run(Step, s, es).state, p, s.queue)
  {
    var inv := (t: Pool) => Stranded(t, p, s.queue);
    forall t, e | inv(t) && Step(t, e).Next? ensures inv(Step(t, e).state) { StrandedStep(t, p, s.queue, e); }
    Invariant(Step, inv, s, es);
  }

  lemma StrandedStep(s: Pool, p: Caller, queue: seq<Task>, e: Event)
    requires Stranded(s, p, queue) && Step(s, e).Next?
    ensures Stranded(Step(s, e).state, p, queue)
  {
  }

  /** The run `es` brings caller `p` out of `addTask`. */
  ghost predicate Returns(s: Pool, p: Caller, es: seq<Event>) {
    var o := Run(Step, s, es);
    o.Next? && p in o.state.producers && o.state.producers[p].Done?
  }

  /** If the queue of a stopped pool has room, the caller gets through in at most two steps, wherever it waits. */
  lemma RoomLetsThrough(s: Pool, p: Caller) returns (es: seq<Event>)
    requires Inv(s) && !s.running && !IsFull(s) && p in s.producers && !s.producers[p].Done?
    ensures |es| <= 2 && Returns(s, p, es)
  {
    if s.producers[p].Blocked? {
      var t := Step(s, ProducerWakes(p)).state;
      StepKeeps(s, ProducerWakes(p));
      Cons(Step, t, Add(p, 0), []);
      Cons(Step, s, ProducerWakes(p), [Add(p, 0)]);
      es := [ProducerWakes(p), Add(p, 0)];
    } else {
      Cons(Step, s, Add(p, 0), []);
      es := [Add(p, 0)];
    }
  }

  /** If a worker of a stopped pool may still take a task, it can make room. */
  lemma TakeMakesRoom(s: Pool, w: nat, p: Caller) returns (e: Event)
    requires Inv(s) && !s.running && IsFull(s) && w in s.workers && MayTake(s.workers[w]) == 1
    requires p in s.producers && !s.producers[p].Done?
    ensures Step(s, e).Next?
    ensures var t := Step(s, e).state;
            Inv(t) && !t.running && !IsFull(t) && p in t.producers && !t.producers[p].Done?
  {
    assert w !in AsleepWorkers(s);
    var wake :| BlockedProducers(s) != {} ==> wake in BlockedProducers(s);
    e := Take(w, wake);
    StepKeeps(s, e);
  }

  /** After `stop`, exactly: a caller inside `addTask` can still return if and only if the queue has room or some
      worker may take one more task. */
  lemma CallerReturnsExactly(s: Pool, p: Caller)
    requires Reachable(s) && !s.running && p in s.producers && !s.producers[p].Done?
    ensures (exists es :: Returns(s, p, es)) <==> !IsFull(s) || exists w :: w in s.workers && MayTake(s.workers[w]) == 1
  {
    ReachableInv(s);
    if !IsFull(s) {
      var es := RoomLetsThrough(s, p);
    } else if w :| w in s.workers && MayTake(s.workers[w]) == 1 {
      var e := TakeMakesRoom(s, w, p);
      var es := RoomLetsThrough(Step(s, e).state, p);
      Cons(Step, s, e, es);
      assert Returns(s, p, [e] + es);
    } else {
      forall es | Run(Step, s, es).Next? ensures !Returns(s, p, es) { StrandedForever(s, p, es); }
    }
  }

  // ---------- two runs that end badly ----------

  const FIRST := Outsider(1)
  const SECOND := Outsider(2)

  /** A stranded caller exists: one worker, a queue of one, and `stop` before the second task got in. */
  lemma StopStrandsCaller(task1: Task, task2: Task)
    ensures exists s :: Reachable(s) && Stranded(s, SECOND, [task1])
  {
    var s2 := FillQueue(task1);
    var s4 := BlockCaller(s2, task1, task2);
    var s6 := StopWorker(s4, task1);
    assert Stranded(s6, SECOND, [task1]);
  }

  lemma FillQueue(task1: Task) returns (s: Pool)
    ensures Reachable(s) && s.bound == 1 && s.running && s.queue == [task1] && s.workers == map[0 := Looping]
    ensures s.producers == map[FIRST := Done]
  {
    var s0 := Started(1, {0});
    assert Run(Step, s0, []) == Next(s0);
    var s1 := s0.(producers := s0.producers[FIRST := Arriving(task1)]);
    ReachStep(s0, Arrive(FIRST, task1), s1);
    s := s1.(queue := [] + [task1], accepted := [] + [task1], producers := s1.producers[FIRST := Done]);
    FirstTaskIn(s1, s, task1);
    ReachStep(s1, Add(FIRST, 0), s);
  }

  lemma BlockCaller(s: Pool, task1: Task, task2: Task) returns (t: Pool)
    requires Reachable(s) && s.bound == 1 && s.running && s.queue == [task1] && s.workers == map[0 := Looping]
    requires SECOND !in s.producers
    ensures Reachable(t) && t.bound == 1 && t.queue == [task1] && t.workers == map[0 := Looping]
    ensures SECOND in t.producers && t.producers[SECOND] == Blocked(task2)
  {
    var s1 := s.(producers := s.producers[SECOND := Arriving(task2)]);
    ReachStep(s, Arrive(SECOND, task2), s1);
    t := s1.(producers := s1.producers[SECOND := Blocked(task2)]);
    ReachStep(s1, Add(SECOND, 0), t);
  }

  lemma StopWorker(s: Pool, task1: Task) returns (t: Pool)
    requires Reachable(s) && s.bound == 1 && s.queue == [task1] && s.workers == map[0 := Looping]
             && SECOND in s.producers && s.producers[SECOND].Blocked?
    ensures Reachable(t) && t.bound == 1 && t.queue == [task1] && !t.running && t.workers == map[0 := Exited]
            && t.producers == s.producers
  {
    var s1 := s.(running := false);
    assert StopSection(s).workers == s.workers;
    ReachStep(s, Stop, s1);
    t := s1.(workers := s1.workers[0 := Exited]);
    ReachStep(s1, Check(0), t);
  }

  lemma FirstTaskIn(s: Pool, t: Pool, task: Task)
    requires s == Started(1, {0}).(producers := s.producers) && FIRST in s.producers
             && s.producers[FIRST] == Arriving(task)
    requires t == s.(queue := [] + [task], accepted := [] + [task], producers := s.producers[FIRST := Done])
    ensures Step(s, Add(FIRST, 0)) == Next(t) && t.queue == [task]
  {
    assert AsleepWorkers(s) == {};
  }

  /** One worker, a queue of one, and a task that adds two more. */
  lemma TaskBlocksItself(task1: Task, task2: Task, task3: Task)
    ensures exists s :: Reachable(s) && s.running && AllWaiting(s) && SelfBlocked(s, [task2])
  {
    var s2 := FillQueue(task1);
    var s4 := RunFirst(s2, task1);
    var s8 := AddTwice(s4, task2, task3);
    assert AllWaiting(s8) && SelfBlocked(s8, [task2]);
  }

  lemma RunFirst(s: Pool, task1: Task) returns (t: Pool)
    requires Reachable(s) && s.bound == 1 && s.running && s.queue == [task1] && s.workers == map[0 := Looping]
    requires s.producers == map[FIRST := Done]
    ensures Reachable(t) && t.bound == 1 && t.running && t.queue == [] && t.workers == map[0 := Working(task1)]
    ensures t.producers == map[FIRST := Done]
  {
    var s1 := s.(workers := map[0 := Entering]);
    assert s1.workers == s.workers[0 := Entering];
    ReachStep(s, Check(0), s1);
    assert BlockedProducers(s1) == {};
    t := s1.(queue := s.queue[1..], taken := s.taken + [task1], workers := s1.workers[0 := Working(task1)]);
    ReachStep(s1, Take(0, FIRST), t);
  }

  lemma AddTwice(s: Pool, task2: Task, task3: Task) returns (t: Pool)
    requires Reachable(s) && s.bound == 1 && s.running && s.queue == [] && s.producers == map[FIRST := Done]
    requires s.workers.Keys == {0} && s.workers[0].Working?
    ensures Reachable(t) && t.bound == 1 && t.running && t.queue == [task2] && t.workers == s.workers
    ensures t.producers == map[FIRST := Done, Inside(0) := Blocked(task3)]
  {
    var s1 := s.(producers := map[FIRST := Done, Inside(0) := Arriving(task2)]);
    ReachStep(s, Arrive(Inside(0), task2), s1);
    assert AsleepWorkers(s1) == {};
    var s2 := s1.(queue := [] + [task2], accepted := s1.accepted + [task2],
        producers := s1.producers[Inside(0) := Done]);
    ReachStep(s1, Add(Inside(0), 0), s2);
    var s3 := s2.(producers := s2.producers[Inside(0) := Arriving(task3)]);
    ReachStep(s2, Arrive(Inside(0), task3), s3);
    t := s3.(producers := s3.producers[Inside(0) := Blocked(task3)]);
    ReachStep(s3, Add(Inside(0), 0), t);
  }

  lemma ReachStep(s: Pool, e: Event, t: Pool)
    requires Reachable(s) && Step(s, e) == Next(t)
    ensures Reachable(t)
  {
    var bound: nat, threads: set<nat>, es: seq<Event> :| Run(Step, Started(bound, threads), es) == Next(s);
    Snoc(Step, Started(bound, threads), es, s, e);
  }
}
