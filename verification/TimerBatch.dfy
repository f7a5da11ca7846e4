/** The steps of `handleRead` keep the invariant of the timer queue. */
module TimerBatch {
  import opened Machine
  import opened TimerSet
  import opened TimerModel
  import opened TimerInvariant

  // ---------- getExpired ----------

  /** `t` is `s` after `getExpired`: the due entries, and only they, moved from both sets into the batch. */
  ghost predicate Cut(s: Queue, t: Queue) {
    && t.batch.Calling? && t.batch.next == 0 && t.batch.now == s.clock
    && t == s.(alarm := t.alarm, timers := t.timers, active := t.active, calling := true, canceling := {},
       batch := t.batch)
    && t.alarm == (if s.alarm.Armed? && s.alarm.deadline <= s.clock then Disarmed else s.alarm)
    && Sorted(t.timers) && Sorted(t.batch.expired) && s.timers == t.batch.expired + t.timers
    && (forall e :: e in t.timers <==> e in s.timers && s.clock < e.when)
    && (forall e :: e in t.batch.expired <==> e in s.timers && e.when <= s.clock)
    && (forall id :: id in t.active <==>
          id in s.active && id.addr in s.heap && s.clock < s.heap[id.addr].expiration)
  }

  /** The ids whose timers are due are those of the entries cut off. */
  lemma DueIds(s: Queue, expired: seq<Entry>)
    requires Indexed(s) && forall e :: e in expired <==> e in s.timers && e.when <= s.clock
    ensures forall e | e in expired :: e.addr in s.heap && IdAt(s, e.addr) in s.active
    ensures forall id | id in s.active ::
              id in IdsOf(s.heap, expired) <==> s.heap[id.addr].expiration <= s.clock
  {
    forall id | id in s.active
      ensures id in IdsOf(s.heap, expired) <==> s.heap[id.addr].expiration <= s.clock
    {
      var e := Entry(s.heap[id.addr].expiration, id.addr);
      assert e in s.timers && IdAt(s, e.addr) == id;
      forall x | x in expired && x.addr in s.heap && IdAt(s, x.addr) == id ensures x == e { }
    }
  }

  lemma BeginNext(s: Queue)
    requires Indexed(s) && Identified(s)
    ensures BeginBatch(s).Next? && Cut(s, BeginBatch(s).state)
  {
    forall e | e in s.timers ensures e.addr < ADDRESS_END { }
    CutSpec(s.timers, s.clock);
    var k := LowerBound(s.timers, Entry(s.clock, ADDRESS_END));
    BeginCut(s, k);
  }

  lemma BeginCut(s: Queue, k: nat)
    requires Indexed(s) && k == LowerBound(s.timers, Entry(s.clock, ADDRESS_END))
    requires Sorted(s.timers[..k]) && Sorted(s.timers[k..])
    requires forall x :: x in s.timers[..k] <==> x in s.timers && x.when <= s.clock
    requires forall x :: x in s.timers[k..] <==> x in s.timers && s.clock < x.when
    ensures BeginBatch(s).Next? && Cut(s, BeginBatch(s).state)
  {
    DueIds(s, s.timers[..k]);
    if k < |s.timers| {
      assert s.timers[k..][0] in s.timers[k..];
    }
    assert s.timers == s.timers[..k] + s.timers[k..];
  }

  lemma BeginIndexed(s: Queue, t: Queue)
    requires Indexed(s) && Identified(s) && Alarmed(s) && Cut(s, t)
    ensures Indexed(t) && Identified(t) && Alarmed(t)
  {
    if t.timers != [] { assert t.timers[0] in t.timers; }
  }

  lemma BeginPlaces(s: Queue, t: Queue)
    requires s.batch.Idle? && Indexed(s) && Batched(s) && Queued(s) && 0 < s.clock && Cut(s, t)
    ensures Batched(t) && Queued(t)
  {
    var h := t.batch.expired;
    forall i, j | 0 <= i < j < |h| ensures h[i].addr != h[j].addr {
      assert h[i] in h && h[j] in h && Before(h[i], h[j]);
    }
  }

  lemma BeginFates(s: Queue, t: Queue)
    requires s.batch.Idle? && Indexed(s) && CancelsFinal(s) && Kept(s, 0) && Cut(s, t)
    ensures CancelsFinal(t) && Kept(t, 0)
  {
    assert t.batch.Due() == t.batch.expired;
    forall a | a in s.heap && IdAt(s, a) in s.active && IdAt(s, a) !in t.active ensures a in HeldAddrs(t.batch) {
      assert Entry(s.heap[a].expiration, a) in t.batch.expired;
    }
  }

  lemma BeginFired(s: Queue, t: Queue)
    requires s.batch.Idle? && Indexed(s) && Fired(s) && Cut(s, t)
    ensures Fired(t)
  {
    assert t.batch.Due() == t.batch.expired;
    forall a | a in s.heap && a in DueAddrs(t.batch) ensures IdAt(s, a) in s.active {
      var e :| e in t.batch.expired && e.addr == a;
      assert e in s.timers;
    }
  }

  lemma BeginKeeps(s: Queue)
    requires Inv(s) && s.batch.Idle?
    ensures BeginBatch(s).Next? && Inv(BeginBatch(s).state)
  {
    BeginNext(s);
    var t := BeginBatch(s).state;
    BeginIndexed(s, t);
    BeginPlaces(s, t);
    BeginFates(s, t);
    BeginFired(s, t);
  }

  // ---------- the callback loop ----------

  /** `t` is `s` after the next callback of the batch. */
  ghost predicate Ran(s: Queue, t: Queue) {
    && s.batch.Calling? && s.batch.next < |s.batch.expired|
    && var e := s.batch.expired[s.batch.next];
    && e.addr in s.heap
    && var x := s.heap[e.addr];
    t == s.(runs := s.runs + [Firing(x.sequence, e.when, s.batch.now, x.interval, x.repeat)],
            batch := Calling(s.batch.expired, s.batch.next + 1, s.batch.now))
  }

  lemma RunDue(s: Queue, t: Queue)
    requires Batched(s) && Ran(s, t)
    ensures var e := s.batch.expired[s.batch.next];
            && DueAddrs(s.batch) == DueAddrs(t.batch) + {e.addr} && e.addr !in DueAddrs(t.batch)
            && HeldAddrs(t.batch) == HeldAddrs(s.batch) && DueAddrs(s.batch) <= HeldAddrs(s.batch)
  {
    var e := s.batch.expired[s.batch.next];
    assert s.batch.Due() == [e] + t.batch.Due();
    assert forall x | x in s.batch.Due() :: x in s.batch.expired;
    assert forall i | 0 <= i < |t.batch.Due()| :: t.batch.Due()[i] == s.batch.expired[s.batch.next + 1 + i];
  }

  lemma RunPlaces(s: Queue, t: Queue)
    requires Indexed(s) && Identified(s) && Alarmed(s) && Batched(s) && Queued(s) && Ran(s, t)
    ensures Indexed(t) && Identified(t) && Alarmed(t) && Batched(t) && Queued(t)
  {
    RunDue(s, t);
  }

  lemma RunFates(s: Queue, t: Queue)
    requires Batched(s) && CancelsFinal(s) && Kept(s, 0) && Ran(s, t)
    ensures CancelsFinal(t) && Kept(t, 0)
  {
    RunDue(s, t);
    var r := t.runs[|s.runs|];
    assert r in t.runs;
    forall a | a in t.heap && a != 0 && Unfinished(t, a) ensures Located(t, a) {
      assert forall x | x in s.runs :: x in t.runs;
      assert Unfinished(s, a) && Located(s, a);
    }
  }

  lemma RunFired(s: Queue, t: Queue)
    requires Identified(s) && Batched(s) && Queued(s) && Fired(s) && Ran(s, t)
    ensures Fired(t)
  {
    RunDue(s, t);
    var e := s.batch.expired[s.batch.next];
    assert e in s.batch.Held() && e.addr in DueAddrs(s.batch);
    RunSpaced(s, t, e);
    RunCurrent(s, t, e);
  }

  lemma RunSpaced(s: Queue, t: Queue, e: Entry)
    requires Batched(s) && Fired(s) && Ran(s, t) && e == s.batch.expired[s.batch.next] && e in s.batch.Held()
             && e.addr in DueAddrs(s.batch)
    ensures SpacedOut(t.runs)
  {
    var r := t.runs[|s.runs|];
    forall x | x in s.runs && x.sequence == r.sequence ensures Spaced(x, r.now) {
      assert Spaced(x, s.heap[e.addr].expiration);
    }
    RunHistory(s.runs, r);
  }

  lemma RunCurrent(s: Queue, t: Queue, e: Entry)
    requires Identified(s) && Batched(s) && Queued(s) && Fired(s) && Ran(s, t) && SpacedOut(t.runs)
    requires e == s.batch.expired[s.batch.next] && e in s.batch.Held()
    requires DueAddrs(t.batch) <= DueAddrs(s.batch) && e.addr !in DueAddrs(t.batch) && e.addr in HeldAddrs(s.batch)
    ensures Fired(t)
  {
    var r := t.runs[|s.runs|];
    assert AddRequest(e.addr) !in s.requests && IdAt(s, e.addr) !in s.active;
    RunRecord(s, t, e, r);
  }

  lemma RunRecord(s: Queue, t: Queue, e: Entry, r: Firing)
    requires Identified(s) && Matched(s) && e.addr in s.heap
    requires r.sequence == s.heap[e.addr].sequence && r.interval == s.heap[e.addr].interval
             && r.repeat == s.heap[e.addr].repeat
    requires t == s.(runs := s.runs + [r], batch := t.batch)
    requires DueAddrs(t.batch) <= DueAddrs(s.batch) && e.addr !in DueAddrs(t.batch)
    requires AddRequest(e.addr) !in s.requests && IdAt(s, e.addr) !in s.active
    ensures Matched(t)
  {
    forall a, x | a in t.heap && x in t.runs && x.sequence == t.heap[a].sequence ensures Matches(t, a, x) {
      if x in s.runs {
        assert Matches(s, a, x);
      } else {
        assert x == r && s.home[r.sequence] == a == e.addr;
      }
    }
  }

  /** A history stays spaced when a firing is added that comes late enough after its predecessors. */
  lemma RunHistory(runs: seq<Firing>, r: Firing)
    requires SpacedOut(runs)
    requires forall x | x in runs && x.sequence == r.sequence :: Spaced(x, r.now)
    ensures SpacedOut(runs + [r])
  {
  }

  lemma RunKeeps(s: Queue)
    requires Inv(s) && s.batch.Calling? && s.batch.next < |s.batch.expired|
    ensures RunCallback(s).Next? && Inv(RunCallback(s).state)
  {
    var e := s.batch.expired[s.batch.next];
    assert e in s.batch.Held();
    var t := RunCallback(s).state;
    RunPlaces(s, t);
    RunFates(s, t);
    RunFired(s, t);
  }

  // ---------- reset ----------

  lemma StartResetKeeps(s: Queue)
    requires Inv(s) && s.batch.Calling? && s.batch.next == |s.batch.expired|
    ensures Inv(s.(calling := false, batch := Resetting(s.batch.expired, 0, s.batch.now)))
  {
    var t := s.(calling := false, batch := Resetting(s.batch.expired, 0, s.batch.now));
    assert t.batch.Held() == s.batch.Held();
    assert HeldAddrs(t.batch) == HeldAddrs(s.batch) && DueAddrs(t.batch) == DueAddrs(s.batch) == {};
    StartResetPlaces(s, t);
    StartResetFates(s, t);
  }

  lemma StartResetPlaces(s: Queue, t: Queue)
    requires Indexed(s) && Identified(s) && Alarmed(s) && Batched(s) && Queued(s)
    requires s.batch.Calling? && t == s.(calling := false, batch := Resetting(s.batch.expired, 0, s.batch.now))
    requires t.batch.Held() == s.batch.Held()
    ensures Indexed(t) && Identified(t) && Alarmed(t) && Batched(t) && Queued(t)
  {
    assert HeldAddrs(t.batch) == HeldAddrs(s.batch);
  }

  lemma StartResetFates(s: Queue, t: Queue)
    requires CancelsFinal(s) && Kept(s, 0) && Fired(s) && !s.batch.Idle? && !t.batch.Idle? && t.batch.now == s.batch.now
    requires t == s.(calling := false, batch := t.batch)
    requires HeldAddrs(t.batch) == HeldAddrs(s.batch) && DueAddrs(t.batch) == DueAddrs(s.batch)
    ensures CancelsFinal(t) && Kept(t, 0) && Fired(t)
  {
  }

  /** `b` is the resetting batch of `s` without its first entry, whose timer is at `a`. */
  ghost predicate LetsGo(s: Queue, a: nat, b: Batch) {
    && s.batch.Resetting? && b.Resetting? && b.now == s.batch.now && b.next <= |b.expired|
    && (forall e | e in b.Held() :: e in s.batch.Held() && e.addr != a)
    && DistinctTimers(b.Held())
    && HeldAddrs(s.batch) == HeldAddrs(b) + {a} && a !in HeldAddrs(b)
    && DueAddrs(s.batch) == DueAddrs(b) == {}
    && a in s.heap && IdAt(s, a) !in s.active
  }

  lemma PopHeld(s: Queue)
    requires Batched(s) && s.batch.Resetting? && s.batch.next < |s.batch.expired|
    ensures LetsGo(s, s.batch.expired[s.batch.next].addr, Resetting(s.batch.expired, s.batch.next + 1, s.batch.now))
  {
    var b := Resetting(s.batch.expired, s.batch.next + 1, s.batch.now);
    var e := s.batch.expired[s.batch.next];
    var h, h' := s.batch.Held(), b.Held();
    assert h == [e] + h';
    assert h[0] == e;
    forall i | 0 <= i < |h'| ensures h'[i] == h[i + 1] && h'[i] in h && h'[i].addr != e.addr { }
  }

  // The entry is not put back: a one-shot that has run, or a cancelled timer.

  lemma DropBatched(s: Queue, a: nat, t: Queue)
    requires Batched(s) && LetsGo(s, a, t.batch) && t == s.(batch := t.batch)
    ensures Batched(t)
  {
  }

  lemma DropPlaces(s: Queue, t: Queue)
    requires Indexed(s) && Identified(s) && Alarmed(s) && Queued(s) && t == s.(batch := t.batch)
    requires HeldAddrs(t.batch) <= HeldAddrs(s.batch) && !t.batch.Idle? && !s.batch.Idle?
    ensures Indexed(t) && Identified(t) && Alarmed(t) && Queued(t)
  {
  }

  lemma DropFates(s: Queue, a: nat, t: Queue)
    requires CancelsFinal(s) && Kept(s, 0) && LetsGo(s, a, t.batch) && t == s.(batch := t.batch)
    requires !s.heap[a].repeat || IdAt(s, a) in s.canceling
    ensures CancelsFinal(t) && Kept(t, 0)
  {
    forall x | x in t.heap && x != 0 && Unfinished(t, x) ensures Located(t, x) {
      assert Unfinished(s, x) && Located(s, x);
    }
  }

  lemma DropFired(s: Queue, t: Queue)
    requires Fired(s) && t == s.(batch := t.batch)
    requires DueAddrs(t.batch) == {} && !s.batch.Idle? && !t.batch.Idle? && t.batch.now == s.batch.now
    ensures Fired(t)
  {
  }

  // The entry is put back, one interval after the batch.

  ghost predicate PutBack(s: Queue, a: nat, t: Queue) {
    && a in s.heap && s.heap[a].repeat && s.batch.Resetting?
    && var x := s.heap[a].Restarted(s.batch.now);
    t == s.(batch := t.batch, heap := s.heap[a := x],
            timers := Insert(s.timers, Entry(x.expiration, a)), active := s.active + {IdAt(s, a)})
  }

  lemma PutBackIndexed(s: Queue, a: nat, t: Queue)
    requires Indexed(s) && Alarmed(s) && Identified(s) && Batched(s) && LetsGo(s, a, t.batch) && PutBack(s, a, t)
    ensures Indexed(t) && Alarmed(t)
    ensures Entry(t.heap[a].expiration, a) !in s.timers
  {
    assert forall e | e in s.timers :: e.addr != a;
    InsertSpec(s.timers, Entry(t.heap[a].expiration, a));
  }

  lemma PutBackPlaces(s: Queue, a: nat, t: Queue)
    requires Identified(s) && Batched(s) && Queued(s) && LetsGo(s, a, t.batch) && PutBack(s, a, t)
    ensures Identified(t) && Batched(t) && Queued(t)
  {
    assert a in HeldAddrs(s.batch);
    assert forall x | x in s.heap :: t.heap[x].sequence == s.heap[x].sequence && (x != a ==> t.heap[x] == s.heap[x]);
  }

  lemma PutBackFates(s: Queue, a: nat, t: Queue)
    requires CancelsFinal(s) && Kept(s, 0) && LetsGo(s, a, t.batch) && PutBack(s, a, t) && IdAt(s, a) !in s.canceling
    ensures CancelsFinal(t) && Kept(t, 0)
  {
    assert forall x | x in s.heap :: t.heap[x].sequence == s.heap[x].sequence && t.heap[x].repeat == s.heap[x].repeat;
    forall x | x in t.heap && x != 0 && x != a && Unfinished(t, x) ensures Located(t, x) {
      assert Unfinished(s, x) && Located(s, x);
    }
  }

  lemma PutBackFired(s: Queue, a: nat, t: Queue)
    requires Fired(s) && LetsGo(s, a, t.batch) && PutBack(s, a, t)
    ensures Fired(t)
  {
    assert forall x | x in s.heap && x != a :: t.heap[x] == s.heap[x];
  }

  lemma ResetKeeps(s: Queue)
    requires Inv(s) && s.batch.Resetting? && s.batch.next < |s.batch.expired|
    ensures ResetOne(s).Next? && Inv(ResetOne(s).state)
  {
    var a := s.batch.expired[s.batch.next].addr;
    PopHeld(s);
    SameSize(s);
    if s.heap[a].repeat && IdAt(s, a) !in s.canceling {
      PutBackKeeps(s, a);
    } else {
      DropKeeps(s, a);
    }
  }

  lemma DropKeeps(s: Queue, a: nat)
    requires Inv(s) && s.batch.Resetting? && s.batch.next < |s.batch.expired| && a == s.batch.expired[s.batch.next].addr
    requires LetsGo(s, a, Resetting(s.batch.expired, s.batch.next + 1, s.batch.now))
    requires !s.heap[a].repeat || IdAt(s, a) in s.canceling
    ensures ResetOne(s).Next? && Inv(ResetOne(s).state)
  {
    var t := ResetOne(s).state;
    DropBatched(s, a, t);
    DropPlaces(s, t);
    DropFates(s, a, t);
    DropFired(s, t);
  }

  lemma PutBackKeeps(s: Queue, a: nat)
    requires Inv(s) && s.batch.Resetting? && s.batch.next < |s.batch.expired| && a == s.batch.expired[s.batch.next].addr
    requires LetsGo(s, a, Resetting(s.batch.expired, s.batch.next + 1, s.batch.now)) && |s.timers| == |s.active|
    requires s.heap[a].repeat && IdAt(s, a) !in s.canceling
    ensures ResetOne(s).Next? && Inv(ResetOne(s).state)
  {
    var x := s.heap[a].Restarted(s.batch.now);
    var t := s.(batch := Resetting(s.batch.expired, s.batch.next + 1, s.batch.now), heap := s.heap[a := x],
                timers := Insert(s.timers, Entry(x.expiration, a)), active := s.active + {IdAt(s, a)});
    PutBackIndexed(s, a, t);
    PutBackPlaces(s, a, t);
    PutBackFates(s, a, t);
    PutBackFired(s, a, t);
    assert ResetOne(s) == Next(t);
  }

  /** Leaving `handleRead`: the alarm covers the earliest timer again. */
  lemma RearmKeeps(s: Queue)
    requires Inv(s) && s.batch.Resetting? && s.batch.next == |s.batch.expired|
    ensures Rearm(s).Next? && Inv(Rearm(s).state)
  {
    assert s.batch.Held() == [];
    assert HeldAddrs(s.batch) == HeldAddrs(Idle) == {} && DueAddrs(s.batch) == DueAddrs(Idle) == {};
    if s.timers != [] { assert s.timers[0] in s.timers; }
    var t := Rearm(s).state;
    assert t == s.(batch := Idle, alarm := t.alarm);
    assert Alarmed(t);
    RearmPlaces(s, t);
    RearmFates(s, t);
  }

  lemma RearmPlaces(s: Queue, t: Queue)
    requires Indexed(s) && Identified(s) && Batched(s) && Queued(s) && s.batch.Resetting?
    requires t == s.(batch := Idle, alarm := t.alarm) && HeldAddrs(s.batch) == {} == HeldAddrs(Idle)
    ensures Indexed(t) && Identified(t) && Batched(t) && Queued(t)
  {
  }

  lemma RearmFates(s: Queue, t: Queue)
    requires CancelsFinal(s) && Kept(s, 0) && Fired(s)
    requires t == s.(batch := Idle, alarm := t.alarm)
    requires HeldAddrs(s.batch) == {} == HeldAddrs(Idle) && DueAddrs(s.batch) == {} == DueAddrs(Idle)
    ensures CancelsFinal(t) && Kept(t, 0) && Fired(t)
  {
  }

  // ---------- every step ----------

  lemma TickKeeps(s: Queue, delta: nat)
    requires Inv(s)
    ensures Inv(s.(clock := s.clock + delta))
  {
    var t := s.(clock := s.clock + delta);
    TickPlaces(s, t);
    TickFates(s, t);
  }

  lemma TickPlaces(s: Queue, t: Queue)
    requires Indexed(s) && Identified(s) && Batched(s) && Alarmed(s) && t == s.(clock := t.clock) && s.clock <= t.clock
    ensures Indexed(t) && Identified(t) && Batched(t) && Alarmed(t)
  {
  }

  lemma TickFates(s: Queue, t: Queue)
    requires Queued(s) && CancelsFinal(s) && Kept(s, 0) && Fired(s) && t == s.(clock := t.clock) && s.clock <= t.clock
    ensures Queued(t) && CancelsFinal(t) && Kept(t, 0) && Fired(t)
  {
  }

  /** One step from a good state neither faults nor leaves the good states. */
  lemma StepKeeps(s: Queue, e: Event)
    requires Inv(s)
    ensures !Step(s, e).Fault?
    ensures Step(s, e).Next? ==> Inv(Step(s, e).state)
  {
    if Step(s, e).Disabled? { return; }
    match e
    case Tick(delta) => TickStep(s, delta);
    case RemoteAdd(_, _, _, _) => RemoteAddKeeps(s, e);
    case RemoteCancel(id) => RemoteCancelKeeps(s, id);
    case LocalAdd(_, _, _, _) => LocalAddKeeps(s, e);
    case LocalCancel(id) => LocalCancelKeeps(s, id);
    case Serve => ServeKeeps(s);
    case _ => BatchStepKeeps(s, e);
  }

  lemma BatchStepKeeps(s: Queue, e: Event)
    requires Inv(s) && !Step(s, e).Disabled? && (e.Begin? || e.RunNext? || e.StartReset? || e.ResetNext? || e.Finish?)
    ensures Step(s, e).Next? && Inv(Step(s, e).state)
  {
    match e
    case Begin => BeginKeeps(s);
    case RunNext => RunKeeps(s);
    case StartReset => StartResetKeeps(s);
    case ResetNext => ResetKeeps(s);
    case Finish => RearmKeeps(s);
  }

  lemma TickStep(s: Queue, delta: nat)
    requires Inv(s)
    ensures Inv(Step(s, Tick(delta)).state)
  {
    TickKeeps(s, delta);
  }

  lemma RemoteCancelKeeps(s: Queue, id: TimerId)
    requires Inv(s) && Issued(s, id)
    ensures Inv(Step(s, RemoteCancel(id)).state)
  {
    PushCancelKeeps(s, id);
  }

  lemma RemoteAddKeeps(s: Queue, e: Event)
    requires Inv(s) && e.RemoteAdd? && Step(s, e).Next?
    ensures Inv(Step(s, e).state)
  {
    CreateKeeps(s, e.addr, e.when, e.interval, e.repeat);
    PushAddKeeps(Create(s, e.addr, e.when, e.interval, e.repeat), e.addr);
  }

  lemma LocalAddKeeps(s: Queue, e: Event)
    requires Inv(s) && e.LocalAdd? && !Step(s, e).Disabled?
    ensures Step(s, e).Next? && Inv(Step(s, e).state)
  {
    CreateKeeps(s, e.addr, e.when, e.interval, e.repeat);
    AddKeeps(Create(s, e.addr, e.when, e.interval, e.repeat), e.addr);
  }

  lemma LocalCancelKeeps(s: Queue, id: TimerId)
    requires Inv(s) && Issued(s, id) && !s.batch.Resetting?
    ensures Step(s, LocalCancel(id)) == CancelInLoop(s, id)
    ensures CancelInLoop(s, id).Next? && Inv(CancelInLoop(s, id).state)
  {
    if id in s.active { DeleteKeeps(s, id); } else { MarkKeeps(s, id); }
  }

  lemma ServeKeeps(s: Queue)
    requires Inv(s) && s.batch.Idle? && s.requests != []
    ensures Step(s, Serve).Next? && Inv(Step(s, Serve).state)
  {
    PopKeeps(s);
    var t := s.(requests := s.requests[1..]);
    match s.requests[0]
    case AddRequest(a) => AddKeeps(t, a);
    case CancelRequest(id) => LocalCancelKeeps(t, id);
  }
}
