/** What adding, cancelling and the alarm do, in every reachable state. */
module TimerEffects {
  import opened Machine
  import opened TimerSet
  import opened TimerModel
  import opened TimerInvariant
  import opened TimerBatch
  import opened TimerTheorems
  import opened TimerReset

  // ---------- adding ----------

  lemma Inserted(s: Queue, a: nat)
    requires Sorted(s.timers) && AddInLoop(s, a).Next?
    ensures a in s.heap
    ensures var t := AddInLoop(s, a).state;
            && Entry(s.heap[a].expiration, a) in t.timers && TimerId(a, s.heap[a].sequence) in t.active && t.heap
               == s.heap
            && forall e :: e in t.timers <==> e in s.timers || e == Entry(s.heap[a].expiration, a)
  {
    InsertSpec(s.timers, Entry(s.heap[a].expiration, a));
  }

  /** A timer added on the loop thread waits in the queue under the time asked for, with the interval asked for, and
      a number that no timer had before. */
  lemma AddedAsAsked(s: Queue, a: nat, when: int, interval: int, repeat: bool)
    requires Reachable(s) && Step(s, LocalAdd(a, when, interval, repeat)).Next?
    ensures var t := Step(s, LocalAdd(a, when, interval, repeat)).state;
            && a !in s.heap && t.heap == s.heap[a := Timer(when, interval, repeat, s.created + 1)]
            && Entry(when, a) in t.timers && TimerId(a, s.created + 1) in t.active && s.created + 1 !in s.home
            && forall e :: e in t.timers <==> e in s.timers || e == Entry(when, a)
  {
    ReachableInv(s);
    Inserted(Create(s, a, when, interval, repeat), a);
  }

  /** A timer added on another thread is created as asked for, and once its functor is served, whatever happened
      meanwhile, it waits in the queue like that. */
  lemma RemoteAddedAsAsked(s: Queue, a: nat, when: int, interval: int, repeat: bool, es: seq<Event>)
    requires Reachable(s) && Step(s, RemoteAdd(a, when, interval, repeat)).Next?
    requires Run(Step, Step(s, RemoteAdd(a, when, interval, repeat)).state, es).Next? && Serves(es) == |s.requests|
    requires Step(Run(Step, Step(s, RemoteAdd(a, when, interval, repeat)).state, es).state, Serve).Next?
    ensures var t := Step(Run(Step, Step(s, RemoteAdd(a, when, interval, repeat)).state, es).state, Serve).state;
            && a in t.heap && t.heap[a] == Timer(when, interval, repeat, s.created + 1)
            && Entry(when, a) in t.timers && TimerId(a, s.created + 1) in t.active
  {
    var e := RemoteAdd(a, when, interval, repeat);
    var b := Step(s, e).state;
    ReachNext(s, e);
    QueuedTimerKept(b, es, |s.requests|, a, Timer(when, interval, repeat, s.created + 1));
    var c := Run(Step, b, es).state;
    RunQueued(b, es);
    Inserted(c.(requests := c.requests[1..]), a);
  }

  lemma ReachNext(s: Queue, e: Event)
    requires Reachable(s) && Step(s, e).Next?
    ensures Reachable(Step(s, e).state)
  {
    var clock: int, es: seq<Event> :| 0 < clock && Run(Step, Init(clock), es) == Next(s);
    Snoc(Step, Init(clock), es, s, e);
  }

  // ---------- the alarm ----------

  /** The alarm for a timer: at its time, but not earlier than 100 microseconds from now. */
  ghost function AlarmFor(when: int, clock: int): Alarm {
    Armed(if when < clock + 100 then clock + 100 else when, clock)
  }

  /** Adding a timer sets the alarm for it if it becomes the earliest, and leaves the alarm alone otherwise. */
  lemma AddSetsAlarm(s: Queue, a: nat, when: int, interval: int, repeat: bool)
    requires Reachable(s) && Step(s, LocalAdd(a, when, interval, repeat)).Next?
    ensures Step(s, LocalAdd(a, when, interval, repeat)).state.alarm ==
            if forall e | e in s.timers :: when < e.when then AlarmFor(when, s.clock) else s.alarm
  {
    ReachableInv(s);
    EarliestFirst(s.timers, when);
  }

  lemma EarliestFirst(timers: seq<Entry>, when: int)
    requires Sorted(timers)
    ensures (forall e | e in timers :: when < e.when) <==> timers == [] || when < timers[0].when
  {
    if timers != [] {
      assert timers[0] in timers;
      forall e | e in timers ensures timers[0].when <= e.when {
        var i :| 0 <= i < |timers| && timers[i] == e;
        if i > 0 { assert Before(timers[0], timers[i]); }
      }
    }
  }

  /** A functor served from another thread's add does the same. */
  lemma ServeSetsAlarm(s: Queue)
    requires Reachable(s) && s.requests != [] && s.requests[0].AddRequest? && Step(s, Serve).Next?
    ensures var a := s.requests[0].addr;
            && a in s.heap
            && Step(s, Serve).state.alarm ==
               if forall e | e in s.timers :: s.heap[a].expiration < e.when then AlarmFor(s.heap[a].expiration, s.clock)
               else s.alarm
  {
    ReachableInv(s);
    var a := s.requests[0].addr;
    Inserted(s.(requests := s.requests[1..]), a);
    EarliestFirst(s.timers, s.heap[a].expiration);
  }

  /** The end of `handleRead` sets the alarm for the earliest timer, if there is one and its time is a valid one. */
  lemma FinishSetsAlarm(s: Queue)
    requires Reachable(s) && Step(s, Finish).Next?
    ensures var t := Step(s, Finish).state;
            && t.batch.Idle? && t.timers == s.timers && t.active == s.active && t.heap == s.heap
            && (if s.timers != [] && 0 < s.timers[0].when then t.alarm == AlarmFor(s.timers[0].when, s.clock)
                else t.alarm == s.alarm)
  {
    ReachableInv(s);
    if s.timers != [] { assert s.timers[0] in s.timers; }
  }

  // ---------- cancelling ----------

  /** Cancelling an active timer takes it out of both sets and frees it; only it. */
  lemma CancelFrees(s: Queue, id: TimerId)
    requires Reachable(s) && id in s.active && Step(s, LocalCancel(id)).Next?
    ensures id.addr in s.heap
    ensures var t := Step(s, LocalCancel(id)).state;
            && t.heap == s.heap - {id.addr} && t.active == s.active - {id} && t.canceling == s.canceling
            && (forall e :: e in t.timers <==> e in s.timers && e.addr != id.addr)
            && t.alarm == s.alarm && t.batch == s.batch && t.requests == s.requests
  {
    ReachableInv(s);
    EraseSpec(s.timers, Entry(s.heap[id.addr].expiration, id.addr));
    forall e | e in s.timers && e.addr == id.addr ensures e == Entry(s.heap[id.addr].expiration, id.addr) { }
  }

  /** Cancelling any other id only marks it, and only while callbacks run. */
  lemma CancelMarks(s: Queue, id: TimerId)
    requires Reachable(s) && id !in s.active && Step(s, LocalCancel(id)).Next?
    ensures var t := Step(s, LocalCancel(id)).state;
            t == s.(canceling := if s.batch.Calling? then s.canceling + {id} else s.canceling, cancelled := t.cancelled)
  {
    ReachableInv(s);
  }

  /** The loop's functors are served from the front, and only outside `handleRead`. */
  lemma ServedInOrder(s: Queue)
    requires Reachable(s) && Step(s, Serve).Next?
    ensures s.batch.Idle? && s.requests != [] && Step(s, Serve).state.requests == s.requests[1..]
    ensures s.requests[0].CancelRequest? ==>
              Step(s, Serve) == Step(s.(requests := s.requests[1..]), LocalCancel(s.requests[0].id))
  {
    ReachableInv(s);
    assert s.requests[0] in s.requests;
  }

  /** Another thread's requests queue up behind the earlier ones, and touch nothing else. */
  lemma RequestsQueue(s: Queue, a: nat, when: int, interval: int, repeat: bool, id: TimerId)
    requires Reachable(s)
    ensures Step(s, RemoteAdd(a, when, interval, repeat)).Next? ==>
              var t := Step(s, RemoteAdd(a, when, interval, repeat)).state;
              && t.requests == s.requests + [AddRequest(a)] && t.timers == s.timers && t.active == s.active
              && t.alarm == s.alarm && t.heap == s.heap[a := Timer(when, interval, repeat, s.created + 1)]
    ensures Step(s, RemoteCancel(id)).Next? ==>
              Step(s, RemoteCancel(id)).state == s.(requests := s.requests + [CancelRequest(id)])
  {
  }

  // ---------- when each step can happen ----------

  /** What `new Timer` may be given: an address that is free, below UINTPTR_MAX and not null, and a non-negative
      interval. */
  ghost predicate MayCreate(s: Queue, a: nat, interval: int, repeat: bool) {
    0 < a < 0xFFFF_FFFF_FFFF_FFFF && a !in s.heap && (repeat ==> interval >= 0)
  }

  /** The loop thread adds and cancels outside `reset`; functors are served outside `handleRead`; a batch goes
      through its callbacks, then through `reset`, to the end. */
  lemma Enabled(s: Queue, e: Event)
    requires Reachable(s)
    ensures !Step(s, e).Fault?
    ensures Step(s, e).Next? <==>
              match e
              case Tick(_) => true
              case RemoteAdd(a, _, interval, repeat) => MayCreate(s, a, interval, repeat)
              case RemoteCancel(id) => id == TimerId(0, 0) || (id.sequence in s.home && s.home[id.sequence] == id.addr)
              case Serve => s.batch.Idle? && s.requests != []
              case LocalAdd(a, _, interval, repeat) => !s.batch.Resetting? && MayCreate(s, a, interval, repeat)
              case LocalCancel(id) =>
                !s.batch.Resetting? && (id == TimerId(0, 0)
                    || (id.sequence in s.home && s.home[id.sequence] == id.addr))
              case Begin => s.batch.Idle?
              case RunNext => s.batch.Calling? && s.batch.next < |s.batch.expired|
              case StartReset => s.batch.Calling? && s.batch.next >= |s.batch.expired|
              case ResetNext => s.batch.Resetting? && s.batch.next < |s.batch.expired|
              case Finish => s.batch.Resetting? && s.batch.next >= |s.batch.expired|
  {
    ReachableInv(s);
    StepKeeps(s, e);
  }

  /** Time passes and nothing else; the callbacks over, the batch is to be reset from its first entry. */
  lemma QuietSteps(s: Queue, delta: nat)
    requires Reachable(s)
    ensures Step(s, Tick(delta)) == Next(s.(clock := s.clock + delta))
    ensures Step(s, StartReset).Next? ==>
              Step(s, StartReset).state == s.(calling := false, batch := Resetting(s.batch.expired, 0, s.batch.now))
  {
  }

  /** A callback is the one of the next expired entry; it is recorded with the batch's time. */
  lemma RunsNext(s: Queue)
    requires Reachable(s) && Step(s, RunNext).Next?
    ensures s.batch.Calling? && s.batch.next < |s.batch.expired| && s.batch.expired[s.batch.next].addr in s.heap
    ensures var e, t := s.batch.expired[s.batch.next], Step(s, RunNext).state;
            var x := s.heap[e.addr];
            && t.runs == s.runs + [Firing(x.sequence, e.when, s.batch.now, x.interval, x.repeat)]
            && t.batch == Calling(s.batch.expired, s.batch.next + 1, s.batch.now) && t
               == s.(runs := t.runs, batch := t.batch)
  {
  }

  /** A queue starts empty and disarmed. */
  lemma StartsEmpty(clock: int)
    ensures Init(clock) == Queue(map[], 0, [], {}, {}, false, Disarmed, clock, Idle, [], map[], {}, [])
  {
  }
}
