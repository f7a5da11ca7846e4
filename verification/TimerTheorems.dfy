/** What the timer queue guarantees in every run, from its construction on. */
module TimerTheorems {
  import opened Machine
  import opened TimerSet
  import opened TimerModel
  import opened TimerInvariant
  import opened TimerBatch

  /** `s` is reached from a fresh queue created at a positive clock value. */
  ghost predicate Reachable(s: Queue) {
    exists clock: int, es: seq<Event> :: 0 < clock && Run(Step, Init(clock), es) == Next(s)
  }

  lemma RunKeepsInv(s: Queue, es: seq<Event>)
    requires Inv(s)
    ensures !Run(Step, s, es).Fault?
    ensures Run(Step, s, es).Next? ==> Inv(Run(Step, s, es).state)
  {
    forall t, e | Inv(t) ensures !Step(t, e).Fault? && (Step(t, e).Next? ==> Inv(Step(t, e).state)) {
      StepKeeps(t, e);
    }
    Safe(Step, Inv, s, es);
  }

  lemma ReachableInv(s: Queue)
    requires Reachable(s)
    ensures Inv(s)
  {
    var clock: int, es: seq<Event> :| 0 < clock && Run(Step, Init(clock), es) == Next(s);
    RunKeepsInv(Init(clock), es);
  }

  /** No run fails an assertion of the queue, frees a timer twice, or uses one after it was freed. */
  lemma MemorySafe(clock: int, es: seq<Event>)
    requires 0 < clock
    ensures !Run(Step, Init(clock), es).Fault?
  {
    RunKeepsInv(Init(clock), es);
  }

  /** The two sets index the same timers, each under its own expiration and sequence number. */
  lemma IndexesAgree(s: Queue)
    requires Reachable(s)
    ensures forall e :: e in s.timers <==>
              e.addr in s.heap && IdAt(s, e.addr) in s.active && e.when == s.heap[e.addr].expiration
    ensures forall id :: id in s.active ==> id.addr in s.heap && IdAt(s, id.addr) == id
    ensures |s.timers| == |s.active| && Sorted(s.timers)
  {
    ReachableInv(s);
    SameSize(s);
  }

  /** Outside `handleRead` a non-empty queue has an alarm, due by the earliest expiration or within 100 microseconds
      of now. */
  lemma NoLostAlarm(s: Queue)
    requires Reachable(s) && s.batch.Idle? && s.timers != []
    ensures s.alarm.Armed? && s.alarm.armedAt <= s.clock
    ensures forall e | e in s.timers :: s.alarm.deadline <= e.when || s.alarm.deadline <= s.alarm.armedAt + MIN_ALARM
  {
    ReachableInv(s);
    forall e | e in s.timers ensures s.timers[0].when <= e.when {
      var i :| 0 <= i < |s.timers| && s.timers[i] == e;
      assert i > 0 ==> Before(s.timers[0], s.timers[i]);
    }
  }

  /** A timer that was not cancelled and is still to fire is alive and waiting somewhere. */
  lemma NoLostTimer(s: Queue, q: nat)
    requires Reachable(s) && 1 <= q <= s.created && q !in s.cancelled
    ensures q in s.home
    ensures var a := s.home[q];
            && a in s.heap && s.heap[a].sequence == q
            && (s.heap[a].repeat || !HasRun(s, q) ==>
                  || TimerId(a, q) in s.active || AddRequest(a) in s.requests
                  || (s.heap[a].repeat && a in HeldAddrs(s.batch)) || (!s.heap[a].repeat && a in DueAddrs(s.batch)))
  {
    ReachableInv(s);
  }

  // ---------- firing ----------

  /** No callback runs early; a one-shot runs once; two firings of one timer are at least its interval apart. */
  lemma FiringDiscipline(s: Queue)
    requires Reachable(s)
    ensures forall r | r in s.runs :: r.when <= r.now <= s.clock
    ensures forall i, j | 0 <= i < j < |s.runs| && s.runs[i].sequence == s.runs[j].sequence ::
              s.runs[i].repeat && s.runs[i].now + s.runs[i].interval <= s.runs[j].now
  {
    ReachableInv(s);
    assert forall r, now :: Spaced(r, now) == (r.repeat && r.now + r.interval <= now);
  }

  /** `getExpired` takes exactly the due entries out of both sets, in order, and nothing else. */
  lemma ExpiredExactly(s: Queue)
    requires Reachable(s) && s.batch.Idle?
    ensures Step(s, Begin).Next? && Cut(s, Step(s, Begin).state)
  {
    ReachableInv(s);
    BeginNext(s);
  }

  /** What the first `k` callbacks of the batch of `s` record. */
  ghost function Firings(s: Queue, k: nat): seq<Firing>
    requires s.batch.Calling? && k <= |s.batch.expired| && forall e | e in s.batch.expired :: e.addr in s.heap
  {
    seq(k, i requires 0 <= i < k =>
      var e := s.batch.expired[i]; var x := s.heap[e.addr];
      Firing(x.sequence, e.when, s.batch.now, x.interval, x.repeat))
  }

  ghost predicate InBatchOf(s: Queue, t: Queue)
    requires s.batch.Calling? && forall e | e in s.batch.expired :: e.addr in s.heap
  {
    && t.batch.Calling? && t.batch.expired == s.batch.expired && t.batch.now == s.batch.now
       && t.batch.next <= |s.batch.expired|
    && (forall e | e in s.batch.expired :: e.addr in t.heap && t.heap[e.addr] == s.heap[e.addr])
    && t.runs == s.runs + Firings(s, t.batch.next)
  }

  /** However the callbacks add and cancel, a batch runs its expired timers once each, in order of expiration. */
  lemma {:induction false} BatchInOrder(s: Queue, t: Queue, es: seq<Event>)
    requires Inv(t) && s.batch.Calling? && (forall e | e in s.batch.expired :: e.addr in s.heap) && InBatchOf(s, t)
    requires StartReset !in es && Run(Step, t, es).Next?
    ensures InBatchOf(s, Run(Step, t, es).state)
    decreases |es|
  {
    if es != [] {
      var u := Step(t, es[0]).state;
      StepKeeps(t, es[0]);
      if es[0].RunNext? { BatchRun(s, t); } else { BatchQuiet(s, t, es[0]); }
      BatchInOrder(s, u, es[1..]);
    }
  }

  /** The entries due at `now`, in order. */
  ghost function Due(es: seq<Entry>, now: int): seq<Entry> {
    if es == [] then [] else (if es[0].when <= now then [es[0]] else []) + Due(es[1..], now)
  }

  lemma {:induction false} DueIsPrefix(es: seq<Entry>, k: nat, now: int)
    requires k <= |es| && forall i | 0 <= i < |es| :: es[i].when <= now <==> i < k
    ensures Due(es, now) == es[..k]
    decreases |es|
  {
    if es != [] {
      DueIsPrefix(es[1..], if k > 0 then k - 1 else 0, now);
      if k > 0 { assert es[..k] == [es[0]] + es[1..][..k - 1]; }
    }
  }

  /** What the callbacks of the timers due now will record. */
  ghost function DueFirings(s: Queue): seq<Firing>
    requires Indexed(s)
  {
    var due := Due(s.timers, s.clock);
    seq(|due|, i requires 0 <= i < |due| =>
      if due[i].addr !in s.heap then Firing(0, 0, 0, 0, false) else
      var x := s.heap[due[i].addr]; Firing(x.sequence, due[i].when, s.clock, x.interval, x.repeat))
  }

  lemma CutIsDue(s: Queue, t: Queue)
    requires Cut(s, t)
    ensures Due(s.timers, s.clock) == t.batch.expired
  {
    var k := |t.batch.expired|;
    forall i | 0 <= i < |s.timers| ensures s.timers[i].when <= s.clock <==> i < k {
      if i < k { assert s.timers[i] == t.batch.expired[i]; } else { assert s.timers[i] == t.timers[i - k]; }
    }
    DueIsPrefix(s.timers, k, s.clock);
  }

  lemma CutFirings(s: Queue, t: Queue)
    requires Indexed(s) && Cut(s, t)
    ensures forall e | e in t.batch.expired :: e.addr in t.heap
    ensures InBatchOf(t, t) && Firings(t, |t.batch.expired|) == DueFirings(s)
  {
    CutIsDue(s, t);
    assert forall e | e in t.batch.expired :: e in s.timers;
    assert t.runs == t.runs + Firings(t, 0);
  }

  lemma BeginFirings(s: Queue)
    requires Inv(s) && s.batch.Idle?
    ensures Step(s, Begin).Next?
    ensures var t := Step(s, Begin).state;
            && t.batch.Calling? && (forall e | e in t.batch.expired :: e.addr in t.heap)
            && t.runs == s.runs && InBatchOf(t, t) && Firings(t, |t.batch.expired|) == DueFirings(s)
  {
    BeginNext(s);
    CutFirings(s, Step(s, Begin).state);
  }

  lemma RestOfBatch(t: Queue, es: seq<Event>)
    requires Inv(t) && t.batch.Calling? && (forall e | e in t.batch.expired :: e.addr in t.heap) && InBatchOf(t, t)
    requires StartReset !in es && Run(Step, t, es).Next? && Step(Run(Step, t, es).state, StartReset).Next?
    ensures Step(Run(Step, t, es).state, StartReset).state.runs == t.runs + Firings(t, |t.batch.expired|)
  {
    BatchInOrder(t, t, es);
  }

  /** A whole batch, whatever its callbacks and the other threads do meanwhile, runs exactly the timers due at its
      start, once each, in order of expiration. */
  lemma BatchRunsDue(s: Queue, es: seq<Event>)
    requires Reachable(s) && s.batch.Idle? && Indexed(s) && StartReset !in es && Run(Step, s, [Begin] + es).Next?
    requires Step(Run(Step, s, [Begin] + es).state, StartReset).Next?
    ensures Step(Run(Step, s, [Begin] + es).state, StartReset).state.runs == s.runs + DueFirings(s)
  {
    ReachableInv(s);
    StepKeeps(s, Begin);
    Cons(Step, s, Begin, es);
    BeginFirings(s);
    RestOfBatch(Step(s, Begin).state, es);
  }

  lemma BatchRun(s: Queue, t: Queue)
    requires s.batch.Calling? && (forall e | e in s.batch.expired :: e.addr in s.heap) && InBatchOf(s, t)
    requires Step(t, RunNext).Next?
    ensures InBatchOf(s, Step(t, RunNext).state)
  {
    var u := Step(t, RunNext).state;
    assert Firings(s, u.batch.next) == Firings(s, t.batch.next) + [u.runs[|t.runs|]];
  }

  /** The batch, its record and its timers are what they were. */
  ghost predicate SameRound(t: Queue, u: Queue) {
    && u.batch == t.batch && u.runs == t.runs
    && (forall x | x in t.batch.Held() && x.addr in t.heap :: x.addr in u.heap && u.heap[x.addr] == t.heap[x.addr])
  }

  lemma AddSameRound(t: Queue, a: nat, when: int, interval: int, repeat: bool)
    requires CanCreate(t, a, interval, repeat)
    ensures SameRound(t, Create(t, a, when, interval, repeat))
    ensures var o := AddInLoop(Create(t, a, when, interval, repeat), a); o.Next? ==> SameRound(t, o.state)
  {
  }

  lemma CancelSameRound(t: Queue, id: TimerId)
    requires Batched(t) && Indexed(t) && CancelInLoop(t, id).Next? && !t.batch.Idle?
    ensures SameRound(t, CancelInLoop(t, id).state)
  {
    if id in t.active { assert IdAt(t, id.addr) == id; }
  }

  lemma RoundQuiet(t: Queue, e: Event)
    requires Batched(t) && Indexed(t) && t.batch.Calling? && Step(t, e).Next? && !e.StartReset? && !e.RunNext?
    ensures SameRound(t, Step(t, e).state)
  {
    match e
    case RemoteAdd(a, when, interval, repeat) => AddSameRound(t, a, when, interval, repeat);
    case LocalAdd(a, when, interval, repeat) => AddSameRound(t, a, when, interval, repeat);
    case LocalCancel(id) => CancelSameRound(t, id);
    case _ =>
  }

  lemma BatchQuiet(s: Queue, t: Queue, e: Event)
    requires s.batch.Calling? && (forall x | x in s.batch.expired :: x.addr in s.heap) && InBatchOf(s, t)
    requires Batched(t) && Indexed(t) && Step(t, e).Next? && !e.StartReset? && !e.RunNext?
    ensures InBatchOf(s, Step(t, e).state)
  {
    RoundQuiet(t, e);
  }

  // ---------- cancelling ----------

  ghost function RunCount(runs: seq<Firing>, q: nat): nat {
    if runs == [] then 0 else
    RunCount(runs[..|runs| - 1], q) + if runs[|runs| - 1].sequence == q then 1 else 0
  }

  /** 1 if the callback of timer `q` is still to run in the batch being called. */
  ghost function StillDue(s: Queue, q: nat): nat {
    if q in s.home && s.home[q] in s.heap && s.heap[s.home[q]].sequence == q && s.home[q] in DueAddrs(s.batch) then 1
        else 0
  }

  /** Nothing that matters to timer numbers happened between `s` and `t`, except that callbacks may be no longer due. */
  ghost predicate Quiet(s: Queue, t: Queue) {
    && t.runs == s.runs && s.cancelled <= t.cancelled && DueAddrs(t.batch) <= DueAddrs(s.batch)
    && (forall q | q in s.home :: q in t.home && t.home[q] == s.home[q])
    && (forall a | a in t.heap && t.heap[a].sequence in s.home ::
          a in s.heap && s.heap[a].sequence == t.heap[a].sequence)
  }

  lemma QuietCreate(s: Queue, a: nat, when: int, interval: int, repeat: bool)
    requires Identified(s)
    ensures Quiet(s, Create(s, a, when, interval, repeat))
  {
    assert s.created + 1 !in s.home;
  }

  lemma QuietAdd(s: Queue, a: nat, t: Queue)
    requires Quiet(s, t) && AddInLoop(t, a).Next?
    ensures Quiet(s, AddInLoop(t, a).state)
  {
  }

  lemma QuietCancel(s: Queue, id: TimerId)
    requires CancelInLoop(s, id).Next?
    ensures Quiet(s, CancelInLoop(s, id).state)
  {
  }

  lemma QuietReset(s: Queue)
    requires s.batch.Resetting? && s.batch.next < |s.batch.expired| && ResetOne(s).Next?
    ensures Quiet(s, ResetOne(s).state)
  {
  }

  /** Steps that run no callback are quiet. */
  lemma QuietStep(s: Queue, e: Event)
    requires Identified(s) && !e.Begin? && !e.RunNext? && Step(s, e).Next?
    ensures Quiet(s, Step(s, e).state)
  {
    match e
    case RemoteAdd(a, when, interval, repeat) => QuietCreate(s, a, when, interval, repeat);
    case LocalAdd(a, when, interval, repeat) =>
      QuietCreate(s, a, when, interval, repeat);
      QuietAdd(s, a, Create(s, a, when, interval, repeat));
    case LocalCancel(id) => QuietCancel(s, id);
    case Serve =>
      var t := s.(requests := s.requests[1..]);
      if s.requests[0].AddRequest? { QuietAdd(s, s.requests[0].addr, t); } else { QuietCancel(t, s.requests[0].id); }
    case ResetNext => QuietReset(s);
    case _ =>
  }

  lemma BeginDue(s: Queue, q: nat)
    requires Inv(s) && s.batch.Idle? && q in s.cancelled
    ensures BeginBatch(s).Next? && BeginBatch(s).state.runs == s.runs && BeginBatch(s).state.cancelled == s.cancelled
    ensures StillDue(BeginBatch(s).state, q) == 0
  {
    BeginNext(s);
    var t := BeginBatch(s).state;
    assert t.batch.Due() == t.batch.expired;
    forall x | x in t.batch.expired ensures s.heap[x.addr].sequence != q {
      assert x in s.timers;
    }
  }

  lemma RunCallbackDue(s: Queue, q: nat)
    requires Inv(s) && s.batch.Calling? && s.batch.next < |s.batch.expired| && RunCallback(s).Next?
    ensures var t := RunCallback(s).state; RunCount(t.runs, q) + StillDue(t, q) <= RunCount(s.runs, q) + StillDue(s, q)
  {
    var t := RunCallback(s).state;
    RunDue(s, t);
    assert t.runs[..|t.runs| - 1] == s.runs;
  }

  lemma StepDue(s: Queue, e: Event, q: nat)
    requires Inv(s) && q in s.cancelled && Step(s, e).Next?
    ensures var t := Step(s, e).state;
            q in t.cancelled && RunCount(t.runs, q) + StillDue(t, q) <= RunCount(s.runs, q) + StillDue(s, q)
  {
    match e
    case RunNext => RunCallbackDue(s, q);
    case Begin => BeginDue(s, q);
    case _ => QuietStep(s, e);
  }

  /** Where a cancelled timer may still be seen: not in the sets, not queued, only in a batch that will not re-
      insert it. */
  ghost predicate Gone(s: Queue, q: nat) {
    && (forall id | id in s.active :: id.sequence != q)
    && (forall e | e in s.timers && e.addr in s.heap :: s.heap[e.addr].sequence != q)
    && (forall r | r in s.requests && r.AddRequest? && r.addr in s.heap :: s.heap[r.addr].sequence != q)
  }

  /** Cancel is final: in every later state the timer is gone, and its callback runs at most once more,
      only if it was due in the batch in which the cancel was made. */
  lemma CancelIsFinal(s: Queue, es: seq<Event>, q: nat)
    requires Reachable(s) && q in s.cancelled && Run(Step, s, es).Next?
    ensures var t := Run(Step, s, es).state;
            q in t.cancelled && Gone(t, q) && RunCount(t.runs, q) <= RunCount(s.runs, q) + StillDue(s, q)
    ensures StillDue(s, q) <= 1 && (!s.batch.Calling? ==> StillDue(s, q) == 0)
  {
    ReachableInv(s);
    var most := RunCount(s.runs, q) + StillDue(s, q);
    var inv := (t: Queue) => Inv(t) && q in t.cancelled && RunCount(t.runs, q) + StillDue(t, q) <= most;
    forall t, e | inv(t) && Step(t, e).Next? ensures inv(Step(t, e).state) {
      StepKeeps(t, e);
      StepDue(t, e, q);
    }
    Invariant(Step, inv, s, es);
    CancelledGone(Run(Step, s, es).state, q);
  }

  lemma CancelledGone(s: Queue, q: nat)
    requires Inv(s) && q in s.cancelled
    ensures Gone(s, q)
  {
    forall id | id in s.active ensures id.sequence != q {
      assert id.addr in s.heap && IdAt(s, id.addr) == id;
    }
  }

  /** A cancel made on the loop thread takes effect exactly when the timer is not waiting to be added: then the
      timer is gone for good (see `CancelIsFinal`).  Otherwise the queue is as before, and the timer will be added. */
  lemma LocalCancelEffect(s: Queue, id: TimerId)
    requires Reachable(s) && Issued(s, id) && id.sequence != 0 && !s.batch.Resetting?
    ensures Step(s, LocalCancel(id)).Next?
    ensures var t := Step(s, LocalCancel(id)).state;
            && (Gone(t, id.sequence) <==> !Pending(s, id))
            && (id.sequence in t.cancelled <==> !Pending(s, id))
            && (Pending(s, id) ==> t == s.(canceling := t.canceling) && Pending(t, id))
  {
    ReachableInv(s);
    LocalCancelKeeps(s, id);
    var t := Step(s, LocalCancel(id)).state;
    if id.sequence in t.cancelled { CancelledGone(t, id.sequence); }
  }

  /** A cancel that goes through the loop's queue always takes effect: the add went before it. */
  lemma QueuedCancelEffect(s: Queue)
    requires Reachable(s) && s.batch.Idle? && s.requests != [] && s.requests[0].CancelRequest?
    ensures Step(s, Serve).Next?
    ensures var q, t := s.requests[0].id.sequence, Step(s, Serve).state;
            q != 0 ==> q in t.cancelled && Gone(t, q)
  {
    ReachableInv(s);
    PopKeeps(s);
    LocalCancelKeeps(s.(requests := s.requests[1..]), s.requests[0].id);
    if s.requests[0].id.sequence != 0 { CancelledGone(Step(s, Serve).state, s.requests[0].id.sequence); }
  }

  /** The loop thread cancelling a timer another thread has just added loses the cancel: the timer still fires. */
  lemma CancelOvertakesAdd()
    ensures var es := [RemoteAdd(1, 5, 0, false), LocalCancel(TimerId(1, 1)), Serve, Tick(10), Begin, RunNext];
            && Run(Step, Init(1), es).Next?
            && Run(Step, Init(1), es).state.runs == [Firing(1, 5, 11, 0, false)]
  {
    var id := TimerId(1, 1);
    var s1, s2 := OvertakingCancel(id);
    var s3 := s2.(clock := 11);
    var s4 := BeginOfOne(s3, id);
    var s5 := RunOfOne(s4);
    Cons(Step, s4, RunNext, []);
    Cons(Step, s3, Begin, [RunNext]);
    Cons(Step, s2, Tick(10), [Begin, RunNext]);
    Cons(Step, s1, Serve, [Tick(10), Begin, RunNext]);
    Cons(Step, s1, LocalCancel(id), [Serve, Tick(10), Begin, RunNext]);
    Cons(Step, Init(1), RemoteAdd(1, 5, 0, false), [LocalCancel(id), Serve, Tick(10), Begin, RunNext]);
  }

  lemma OvertakingCancel(id: TimerId) returns (s1: Queue, s2: Queue)
    requires id == TimerId(1, 1)
    ensures Step(Init(1), RemoteAdd(1, 5, 0, false)) == Next(s1)
    ensures Step(s1, LocalCancel(id)) == Next(s1)
    ensures Step(s1, Serve) == Next(s2)
    ensures s2 == Queue(map[1 := Timer(5, 0, false, 1)], 1, [Entry(5, 1)], {id}, {}, false, Armed(101, 1), 1, Idle,
            [], map[1 := 1], {}, [])
  {
    var timer := Timer(5, 0, false, 1);
    s1 := Queue(map[1 := timer], 1, [], {}, {}, false, Disarmed, 1, Idle, [AddRequest(1)], map[1 := 1], {}, []);
    assert [] + [AddRequest(1)] == [AddRequest(1)];
    assert s1.requests[1..] == [] && Insert([], Entry(5, 1)) == [Entry(5, 1)] && {} + {id} == {id};
    s2 := s1.(requests := [], timers := [Entry(5, 1)], active := {id}, alarm := Armed(101, 1));
  }

  lemma RunOfOne(s: Queue) returns (t: Queue)
    requires s.batch == Calling([Entry(5, 1)], 0, 11) && s.heap == map[1 := Timer(5, 0, false, 1)] && s.runs == []
    ensures Step(s, RunNext) == Next(t) && t.runs == [Firing(1, 5, 11, 0, false)]
  {
    t := s.(runs := [] + [Firing(1, 5, 11, 0, false)], batch := Calling([Entry(5, 1)], 1, 11));
  }

  lemma BeginOfOne(s: Queue, id: TimerId) returns (t: Queue)
    requires s.batch.Idle? && s.clock == 11 && s.alarm == Armed(101, 1) && s.timers == [Entry(5, 1)] && s.active == {id}
    requires s.heap == map[1 := Timer(5, 0, false, 1)] && id == TimerId(1, 1)
    ensures Step(s, Begin) == Next(t)
    ensures t == s.(timers := [], active := {}, calling := true, canceling := {},
            batch := Calling([Entry(5, 1)], 0, 11))
  {
    assert LowerBound(s.timers, Entry(11, ADDRESS_END)) == 1;
    assert s.timers[..1] == s.timers && s.timers[1..] == [];
    t := s.(timers := [], active := {}, calling := true, canceling := {}, batch := Calling([Entry(5, 1)], 0, 11));
    assert forall e | e in s.timers :: e == Entry(5, 1);
    assert IdAt(s, 1) == id;
    assert IdsOf(s.heap, s.timers) == {id} by {
      assert Entry(5, 1) in s.timers;
    }
    assert s.active - {id} == {};
  }

  /** Cancelling touches no other timer; an id whose timer was freed cancels nothing, even at a reused address. */
  lemma StaleIdHarmless(s: Queue, id: TimerId)
    requires Reachable(s) && Issued(s, id) && !s.batch.Resetting?
    ensures Step(s, LocalCancel(id)).Next? && SparesOthers(s, id, Step(s, LocalCancel(id)).state)
  {
    ReachableInv(s);
    LocalCancelKeeps(s, id);
    CancelSpares(s, id);
  }

  ghost predicate SparesOthers(s: Queue, id: TimerId, t: Queue) {
    && (forall a | a in s.heap && IdAt(s, a) != id ::
          && a in t.heap && t.heap[a] == s.heap[a]
          && (IdAt(s, a) in t.active <==> IdAt(s, a) in s.active)
          && (IdAt(s, a) in t.canceling <==> IdAt(s, a) in s.canceling))
    && (id.addr !in s.heap || IdAt(s, id.addr) != id ==>
          t == s.(canceling := t.canceling, cancelled := t.cancelled))
  }

  lemma CancelSpares(s: Queue, id: TimerId)
    requires Indexed(s) && CancelInLoop(s, id).Next?
    ensures SparesOthers(s, id, CancelInLoop(s, id).state)
  {
    if id in s.active { assert IdAt(s, id.addr) == id; }
  }
}
