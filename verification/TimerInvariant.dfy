/** What every step of the timer queue keeps. */
module TimerInvariant {
  import opened Machine
  import opened TimerSet
  import opened TimerModel
  import opened Sets

  // ---------- the invariant ----------

  /** `timers_` and `activeTimers_` hold the same timers, each under its own expiration and sequence number. */
  ghost predicate Indexed(s: Queue) {
    && Sorted(s.timers)
    && (forall e | e in s.timers ::
          e.addr in s.heap && s.heap[e.addr].expiration == e.when && IdAt(s, e.addr) in s.active)
    && (forall id | id in s.active ::
          id.addr in s.heap && IdAt(s, id.addr) == id && Entry(s.heap[id.addr].expiration, id.addr) in s.timers)
  }

  /** A sequence number names one timer for ever; a timer that was not cancelled has not been freed. */
  ghost predicate Identified(s: Queue) {
    && (forall a | a in s.heap ::
          && 0 < a < ADDRESS_END
          && 1 <= s.heap[a].sequence <= s.created
          && s.heap[a].sequence in s.home && s.home[s.heap[a].sequence] == a
          && (s.heap[a].repeat ==> 0 <= s.heap[a].interval))
    && (forall q :: q in s.home <==> 1 <= q <= s.created)
    && (forall q | q in s.home && q !in s.cancelled :: s.home[q] in s.heap && s.heap[s.home[q]].sequence == q)
    && (forall q | q in s.cancelled :: q in s.home)
  }

  ghost function HeldAddrs(b: Batch): set<nat> {
    set e | e in b.Held() :: e.addr
  }

  ghost function DueAddrs(b: Batch): set<nat> {
    set e | e in b.Due() :: e.addr
  }

  ghost predicate DistinctTimers(h: seq<Entry>) {
    forall i, j | 0 <= i < j < |h| :: h[i].addr != h[j].addr
  }

  /** The batch in progress: live, distinct, due, and out of both sets. */
  ghost predicate Batched(s: Queue) {
    && s.calling == s.batch.Calling?
    && (!s.batch.Idle? ==> s.batch.next <= |s.batch.expired| && 0 < s.batch.now <= s.clock)
    && (forall e | e in s.batch.Held() ::
          && e.addr in s.heap && s.heap[e.addr].expiration == e.when && e.when <= s.batch.now
          && IdAt(s, e.addr) !in s.active)
    && DistinctTimers(s.batch.Held())
  }

  /** A queued add owns its timer; a queued cancel comes after the add it refers to. */
  ghost predicate Queued(s: Queue) {
    && (forall r | r in s.requests && r.AddRequest? ::
          r.addr in s.heap && IdAt(s, r.addr) !in s.active && r.addr !in HeldAddrs(s.batch))
    && (forall i, j | 0 <= i < j < |s.requests| ::
          && (s.requests[i].AddRequest? ==> s.requests[i] != s.requests[j])
          && (s.requests[i].CancelRequest? && s.requests[j].AddRequest? ==>
                s.requests[i].id.sequence != s.heap[s.requests[j].addr].sequence))
    && (forall r | r in s.requests && r.CancelRequest? :: Issued(s, r.id))
  }

  /** A cancelled timer is in neither set, is not queued, and will not be re-inserted by `reset`. */
  ghost predicate CancelsFinal(s: Queue) {
    && (forall a | a in s.heap && s.heap[a].sequence in s.cancelled ::
          && IdAt(s, a) !in s.active && AddRequest(a) !in s.requests
          && (a in HeldAddrs(s.batch) ==> !s.heap[a].repeat || IdAt(s, a) in s.canceling))
    && (forall a | a in HeldAddrs(s.batch) && a in s.heap && IdAt(s, a) in s.canceling ::
       s.heap[a].sequence in s.cancelled)
  }

  ghost predicate HasRun(s: Queue, q: nat) {
    exists r | r in s.runs :: r.sequence == q
  }

  /** A timer still to fire: repeating, or one-shot and not run yet. */
  ghost predicate Unfinished(s: Queue, a: nat)
    requires a in s.heap
  {
    s.heap[a].sequence !in s.cancelled && (s.heap[a].repeat || !HasRun(s, s.heap[a].sequence))
  }

  ghost predicate Located(s: Queue, a: nat)
    requires a in s.heap
  {
    IdAt(s, a) in s.active || AddRequest(a) in s.requests
        || a in (if s.heap[a].repeat then HeldAddrs(s.batch) else DueAddrs(s.batch))
  }

  /** No unfinished timer is lost; `skip` is a timer on its way between two places (0: none). */
  ghost predicate Kept(s: Queue, skip: nat) {
    forall a | a in s.heap && a != skip && Unfinished(s, a) :: Located(s, a)
  }

  /** Every firing that follows `r` on the same timer is at least one interval after it. */
  ghost predicate Spaced(r: Firing, now: int) {
    r.repeat && r.now + r.interval <= now
  }

  ghost predicate SpacedOut(runs: seq<Firing>) {
    forall i, j | 0 <= i < j < |runs| && runs[i].sequence == runs[j].sequence :: Spaced(runs[i], runs[j].now)
  }

  /** No callback ran early. */
  ghost predicate Timely(s: Queue) {
    forall r | r in s.runs ::
      && r.when <= r.now <= s.clock && (!s.batch.Idle? ==> r.now <= s.batch.now)
      && r.sequence in s.home
  }

  /** If the timer at `a` fires again after `r`, it keeps its distance. */
  ghost predicate Matches(s: Queue, a: nat, r: Firing)
    requires a in s.heap
  {
    && r.repeat == s.heap[a].repeat && r.interval == s.heap[a].interval
    && (IdAt(s, a) in s.active || a in DueAddrs(s.batch) ==> Spaced(r, s.heap[a].expiration))
    && AddRequest(a) !in s.requests
  }

  ghost predicate Matched(s: Queue) {
    forall a, r | a in s.heap && r in s.runs && r.sequence == s.heap[a].sequence :: Matches(s, a, r)
  }

  ghost predicate Fired(s: Queue) {
    Timely(s) && SpacedOut(s.runs) && Matched(s)
  }

  /** The alarm rings for the earliest timer, or 100 microseconds after it was last set. */
  ghost predicate Covered(s: Queue) {
    s.timers != [] ==>
      && s.alarm.Armed?
      && (s.alarm.deadline <= s.timers[0].when || s.alarm.deadline <= s.alarm.armedAt + MIN_ALARM)
  }

  ghost predicate Alarmed(s: Queue) {
    && 0 < s.clock
    && (s.alarm.Armed? ==> s.alarm.armedAt <= s.clock)
    && (s.batch.Idle? || (s.timers != [] && s.timers[0].when <= 0) ==> Covered(s))
  }

  ghost predicate InvBut(s: Queue, skip: nat) {
    Indexed(s) && Identified(s) && Batched(s) && Queued(s) && CancelsFinal(s) && Kept(s, skip) && Fired(s) && Alarmed(s)
  }

  ghost predicate Inv(s: Queue) {
    InvBut(s, 0)
  }

  // ---------- both sets have the same size ----------

  lemma SameSize(s: Queue)
    requires Indexed(s)
    ensures |s.timers| == |s.active|
  {
    var ids := seq(|s.timers|, i requires 0 <= i < |s.timers| =>
        assert s.timers[i] in s.timers; IdAt(s, s.timers[i].addr));
    forall i, j | 0 <= i < j < |ids| ensures ids[i] != ids[j] {
      assert s.timers[i] in s.timers && s.timers[j] in s.timers && Before(s.timers[i], s.timers[j]);
    }
    DistinctSize(ids);
    assert s.active == set x | x in ids by {
      forall id | id in s.active ensures id in ids {
        var i :| 0 <= i < |s.timers| && s.timers[i] == Entry(s.heap[id.addr].expiration, id.addr);
        assert ids[i] == id;
      }
      forall i | 0 <= i < |ids| ensures ids[i] in s.active { assert s.timers[i] in s.timers; }
    }
  }

  // ---------- adding ----------

  /** A timer that has been created and is nowhere yet. */
  ghost predicate Loose(s: Queue, a: nat) {
    && a in s.heap && 0 < a
    && IdAt(s, a) !in s.active && AddRequest(a) !in s.requests && a !in HeldAddrs(s.batch)
    && s.heap[a].sequence !in s.cancelled && !HasRun(s, s.heap[a].sequence)
  }

  /** `t` is `s` with the timer at `a` put in both sets. */
  ghost predicate Added(s: Queue, a: nat, t: Queue) {
    && a in s.heap
    && t == s.(timers := Insert(s.timers, Entry(s.heap[a].expiration, a)), active := s.active + {IdAt(s, a)},
       alarm := t.alarm)
  }

  lemma AddIndexed(s: Queue, a: nat, t: Queue)
    requires Indexed(s) && Added(s, a, t)
    ensures Indexed(t)
  {
    InsertSpec(s.timers, Entry(s.heap[a].expiration, a));
  }

  lemma AddPlaces(s: Queue, a: nat, t: Queue)
    requires Added(s, a, t) && Loose(s, a) && Identified(s) && Batched(s) && Queued(s) && CancelsFinal(s) && Kept(s, a)
    ensures Identified(t) && Batched(t) && Queued(t) && CancelsFinal(t) && Kept(t, 0)
  {
    assert forall x | x in s.heap :: IdAt(t, x) == IdAt(s, x);
  }

  lemma AddFired(s: Queue, a: nat, t: Queue)
    requires Added(s, a, t) && Loose(s, a) && Fired(s)
    ensures Fired(t)
  {
  }

  lemma AddAlarm(s: Queue, a: nat)
    requires Indexed(s) && Loose(s, a) && Alarmed(s)
    ensures AddInLoop(s, a).Next? && Added(s, a, AddInLoop(s, a).state) && Alarmed(AddInLoop(s, a).state)
  {
    SameSize(s);
    InsertSpec(s.timers, Entry(s.heap[a].expiration, a));
  }

  lemma AddKeeps(s: Queue, a: nat)
    requires InvBut(s, a) && Loose(s, a)
    ensures AddInLoop(s, a).Next? && Inv(AddInLoop(s, a).state)
  {
    AddAlarm(s, a);
    var t := AddInLoop(s, a).state;
    AddIndexed(s, a, t);
    AddPlaces(s, a, t);
    AddFired(s, a, t);
  }

  // ---------- creating ----------

  /** `t` is `s` with a new timer at `a`. */
  ghost predicate Created(s: Queue, a: nat, t: Queue) {
    && a in t.heap && 0 < a < ADDRESS_END && a !in s.heap
    && t.heap[a].sequence == t.created == s.created + 1 && (t.heap[a].repeat ==> 0 <= t.heap[a].interval)
    && t == s.(heap := s.heap[a := t.heap[a]], created := t.created, home := s.home[t.created := a])
  }

  lemma CreateIdentified(s: Queue, a: nat, t: Queue)
    requires Indexed(s) && Identified(s) && Alarmed(s) && Created(s, a, t)
    ensures Indexed(t) && Identified(t) && Alarmed(t)
    ensures t.created !in s.home && t.created !in s.cancelled
  {
    assert t.created !in s.home;
  }

  lemma CreatePlaces(s: Queue, a: nat, t: Queue)
    requires Indexed(s) && Identified(s) && Batched(s) && Queued(s) && Created(s, a, t)
    ensures Batched(t) && Queued(t)
    ensures a !in HeldAddrs(t.batch) && AddRequest(a) !in t.requests && IdAt(t, a) !in t.active
    ensures forall r | r in t.requests && r.CancelRequest? :: r.id.sequence != t.created
  {
    assert forall x | x in s.heap :: t.heap[x] == s.heap[x] && x != a;
  }

  lemma CreateFates(s: Queue, a: nat, t: Queue)
    requires Identified(s) && CancelsFinal(s) && Kept(s, 0) && Created(s, a, t)
    requires a !in HeldAddrs(t.batch) && AddRequest(a) !in t.requests && IdAt(t, a) !in t.active
    ensures CancelsFinal(t) && Kept(t, a)
  {
    assert forall x | x in s.heap :: t.heap[x] == s.heap[x] && x != a;
    assert t.created !in s.home && t.created !in s.cancelled;
  }

  lemma CreateFired(s: Queue, a: nat, t: Queue)
    requires Identified(s) && Fired(s) && Created(s, a, t)
    ensures Fired(t) && !HasRun(t, t.created)
  {
    assert t.created !in s.home;
  }

  lemma CreateKeeps(s: Queue, a: nat, when: int, interval: int, repeat: bool)
    requires Inv(s) && CanCreate(s, a, interval, repeat)
    ensures var t := Create(s, a, when, interval, repeat);
            InvBut(t, a) && Loose(t, a) && forall r | r in t.requests && r.CancelRequest? :: r.id.sequence != t.created
  {
    var t := Create(s, a, when, interval, repeat);
    CreateIdentified(s, a, t);
    CreatePlaces(s, a, t);
    CreateFates(s, a, t);
    CreateFired(s, a, t);
  }

  // ---------- the request queue ----------

  lemma PushAddKeeps(s: Queue, a: nat)
    requires InvBut(s, a) && Loose(s, a)
    requires forall r | r in s.requests && r.CancelRequest? :: r.id.sequence != s.heap[a].sequence
    ensures Inv(s.(requests := s.requests + [AddRequest(a)]))
  {
    var t := s.(requests := s.requests + [AddRequest(a)]);
    PushQueued(s, AddRequest(a), t);
    PushFates(s, AddRequest(a), a, t);
    PushFired(s, AddRequest(a), t);
  }

  lemma PushCancelKeeps(s: Queue, id: TimerId)
    requires Inv(s) && Issued(s, id)
    ensures Inv(s.(requests := s.requests + [CancelRequest(id)]))
  {
    var t := s.(requests := s.requests + [CancelRequest(id)]);
    PushQueued(s, CancelRequest(id), t);
    PushFates(s, CancelRequest(id), 0, t);
    PushFired(s, CancelRequest(id), t);
  }

  lemma PushQueued(s: Queue, r: Request, t: Queue)
    requires Queued(s) && t == s.(requests := s.requests + [r])
    requires r.CancelRequest? ==> Issued(s, r.id)
    requires r.AddRequest? ==>
               && Loose(s, r.addr)
               && forall c | c in s.requests && c.CancelRequest? :: c.id.sequence != s.heap[r.addr].sequence
    ensures Queued(t)
  {
    forall i, j | 0 <= i < j < |t.requests|
      ensures t.requests[i].AddRequest? ==> t.requests[i] != t.requests[j]
      ensures t.requests[i].CancelRequest? && t.requests[j].AddRequest? ==>
                t.requests[j].addr in s.heap && t.requests[i].id.sequence != s.heap[t.requests[j].addr].sequence
    {
      assert t.requests[i] == s.requests[i] && s.requests[i] in s.requests;
      if j < |s.requests| {
        assert t.requests[j] == s.requests[j] && s.requests[j] in s.requests;
      }
    }
  }

  lemma PushFates(s: Queue, r: Request, a: nat, t: Queue)
    requires CancelsFinal(s) && Kept(s, a) && t == s.(requests := s.requests + [r])
    requires if r.AddRequest? then Loose(s, a) && r.addr == a else a == 0
    ensures CancelsFinal(t) && Kept(t, 0)
  {
    assert r in t.requests && forall x | x in s.requests :: x in t.requests;
  }

  lemma PushFired(s: Queue, r: Request, t: Queue)
    requires Fired(s) && t == s.(requests := s.requests + [r])
    requires r.AddRequest? ==> Loose(s, r.addr)
    ensures Fired(t)
  {
  }

  /** Taking the first request out of the queue leaves a loose timer, or a cancel whose add has been done. */
  lemma PopKeeps(s: Queue)
    requires Inv(s) && s.requests != []
    ensures var t := s.(requests := s.requests[1..]);
            match s.requests[0]
            case AddRequest(a) => InvBut(t, a) && Loose(t, a)
            case CancelRequest(id) => Inv(t) && Issued(t, id) && !Pending(t, id)
  {
    var t := s.(requests := s.requests[1..]);
    PopQueued(s, t);
    PopFates(s, t);
  }

  lemma PopQueued(s: Queue, t: Queue)
    requires Queued(s) && s.requests != [] && t == s.(requests := s.requests[1..])
    ensures Queued(t)
    ensures match s.requests[0]
            case AddRequest(a) => AddRequest(a) !in t.requests && a in s.heap && IdAt(s, a) !in s.active
                && a !in HeldAddrs(t.batch)
            case CancelRequest(id) => Issued(t, id) && !Pending(t, id)
  {
    assert s.requests[0] in s.requests;
    assert forall i | 0 <= i < |t.requests| :: t.requests[i] == s.requests[i + 1];
    assert forall r | r in t.requests :: r in s.requests;
  }

  lemma PopFates(s: Queue, t: Queue)
    requires Identified(s) && CancelsFinal(s) && Kept(s, 0) && Fired(s) && s.requests != []
             && t == s.(requests := s.requests[1..])
    ensures CancelsFinal(t) && Fired(t)
    ensures match s.requests[0]
            case AddRequest(a) =>
              Kept(t, a) && (a in s.heap ==> s.heap[a].sequence !in s.cancelled && !HasRun(s, s.heap[a].sequence))
            case CancelRequest(id) => Kept(t, 0)
  {
    assert s.requests[0] in s.requests;
    assert s.requests == [s.requests[0]] + t.requests;
    assert forall r :: r in s.requests <==> r == s.requests[0] || r in t.requests;
  }

  // ---------- cancelling ----------

  /** `t` is `s` without the timer of `id`, deleted and taken out of both sets. */
  ghost predicate Deleted(s: Queue, id: TimerId, t: Queue) {
    && id in s.active && id.addr in s.heap && Entry(s.heap[id.addr].expiration, id.addr) in s.timers
    && t == s.(timers := Erase(s.timers, Entry(s.heap[id.addr].expiration, id.addr)),
               heap := s.heap - {id.addr}, active := s.active - {id}, cancelled := s.cancelled + {id.sequence})
  }

  lemma DeleteIndexed(s: Queue, id: TimerId, t: Queue)
    requires Indexed(s) && Alarmed(s) && Deleted(s, id, t)
    ensures Indexed(t) && Alarmed(t)
  {
    EraseSpec(s.timers, Entry(s.heap[id.addr].expiration, id.addr));
  }

  lemma DeletePlaces(s: Queue, id: TimerId, t: Queue)
    requires Indexed(s) && Identified(s) && Batched(s) && Queued(s) && Deleted(s, id, t)
    ensures Identified(t) && Batched(t) && Queued(t)
  {
    assert IdAt(s, id.addr) == id;
    assert forall x | x in t.heap :: x in s.heap && t.heap[x] == s.heap[x] && x != id.addr;
    assert id.addr !in HeldAddrs(s.batch);
    assert AddRequest(id.addr) !in s.requests;
  }

  lemma DeleteFates(s: Queue, id: TimerId, t: Queue)
    requires Indexed(s) && Identified(s) && CancelsFinal(s) && Kept(s, 0) && Deleted(s, id, t)
    ensures CancelsFinal(t) && Kept(t, 0)
  {
    assert IdAt(s, id.addr) == id;
    assert forall x | x in t.heap ::
             x in s.heap && t.heap[x] == s.heap[x] && x != id.addr && t.heap[x].sequence != id.sequence;
  }

  lemma DeleteFired(s: Queue, id: TimerId, t: Queue)
    requires Fired(s) && Deleted(s, id, t)
    ensures Fired(t)
  {
  }

  /** A cancel that finds nothing in `activeTimers_` only marks. */
  ghost predicate Marked(s: Queue, id: TimerId, t: Queue) {
    && t == s.(canceling := t.canceling, cancelled := t.cancelled)
    && t.canceling == (if s.calling then s.canceling + {id} else s.canceling)
    && t.cancelled == (if id.sequence == 0 || Pending(s, id) then s.cancelled else s.cancelled + {id.sequence})
  }

  lemma MarkFates(s: Queue, id: TimerId, t: Queue)
    requires Identified(s) && Batched(s) && Queued(s) && CancelsFinal(s)
    requires Issued(s, id) && id !in s.active && Marked(s, id, t) && !s.batch.Resetting?
    ensures Identified(t) && CancelsFinal(t)
  {
    forall x | x in s.heap && s.heap[x].sequence == id.sequence ensures IdAt(s, x) == id && id.sequence != 0 {
    }
  }

  lemma DeleteKeeps(s: Queue, id: TimerId)
    requires Inv(s) && id in s.active
    ensures CancelInLoop(s, id).Next? && Inv(CancelInLoop(s, id).state)
  {
    SameSize(s);
    var t := CancelInLoop(s, id).state;
    assert Deleted(s, id, t);
    DeleteIndexed(s, id, t);
    DeletePlaces(s, id, t);
    DeleteFates(s, id, t);
    DeleteFired(s, id, t);
  }

  lemma MarkKept(s: Queue, t: Queue)
    requires Kept(s, 0) && t == s.(canceling := t.canceling, cancelled := t.cancelled) && s.cancelled <= t.cancelled
    ensures Kept(t, 0)
  {
  }

  lemma MarkFrame(s: Queue, t: Queue)
    requires Indexed(s) && Batched(s) && Queued(s) && Alarmed(s)
             && t == s.(canceling := t.canceling, cancelled := t.cancelled)
    ensures Indexed(t) && Batched(t) && Queued(t) && Alarmed(t)
  {
  }

  lemma MarkFired(s: Queue, t: Queue)
    requires Fired(s) && t == s.(canceling := t.canceling, cancelled := t.cancelled)
    ensures Fired(t)
  {
  }

  lemma MarkKeeps(s: Queue, id: TimerId)
    requires Inv(s) && Issued(s, id) && id !in s.active && !s.batch.Resetting?
    ensures CancelInLoop(s, id).Next? && Inv(CancelInLoop(s, id).state)
  {
    SameSize(s);
    var t := CancelInLoop(s, id).state;
    MarkFates(s, id, t);
    MarkKept(s, t);
    MarkFrame(s, t);
    MarkFired(s, t);
  }
}
