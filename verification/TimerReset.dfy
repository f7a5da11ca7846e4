/** What becomes of the timers of a batch, and that no pointer ever leads to another timer at a reused address. */
module TimerReset {
  import opened Machine
  import opened TimerSet
  import opened TimerModel
  import opened TimerInvariant
  import opened TimerBatch
  import opened TimerTheorems

  // ---------- pointers ----------

  /** How many queued functors have been served. */
  ghost function Serves(es: seq<Event>): nat {
    if |es| == 0 then 0 else Serves(es[..|es| - 1]) + if es[|es| - 1].Serve? then 1 else 0
  }

  /** A cancel does not touch a timer that is not active. */
  lemma CancelLeaves(s: Queue, id: TimerId, a: nat)
    requires Indexed(s) && a in s.heap && IdAt(s, a) !in s.active && CancelInLoop(s, id).Next?
    ensures var u := CancelInLoop(s, id).state; a in u.heap && u.heap[a] == s.heap[a] && u.requests == s.requests
  {
    if id in s.active { assert IdAt(s, id.addr) == id; }
  }

  lemma ServeLeaves(s: Queue, a: nat)
    requires Indexed(s) && a in s.heap && IdAt(s, a) !in s.active && Step(s, Serve).Next?
    ensures var u := Step(s, Serve).state; a in u.heap && u.heap[a] == s.heap[a] && u.requests == s.requests[1..]
  {
    var t := s.(requests := s.requests[1..]);
    if s.requests[0].CancelRequest? { CancelLeaves(t, s.requests[0].id, a); }
  }

  lemma CreateLeaves(s: Queue, b: nat, when: int, interval: int, repeat: bool, a: nat)
    requires a in s.heap && CanCreate(s, b, interval, repeat)
    ensures var c := Create(s, b, when, interval, repeat);
            && a in c.heap && c.heap[a] == s.heap[a] && c.requests == s.requests
            && (AddInLoop(c, b).Next? ==>
                  var u := AddInLoop(c, b).state; a in u.heap && u.heap[a] == s.heap[a] && u.requests == s.requests)
  {
  }

  lemma ResetLeaves(s: Queue, a: nat)
    requires a in s.heap && a !in HeldAddrs(s.batch) && Step(s, ResetNext).Next?
    ensures var u := Step(s, ResetNext).state; a in u.heap && u.heap[a] == s.heap[a] && u.requests == s.requests
  {
    var h := s.batch.Held();
    assert h[0] == s.batch.expired[s.batch.next] && h[0] in h;
  }

  lemma QueuedStep(s: Queue, e: Event, a: nat)
    requires Indexed(s) && a in s.heap && IdAt(s, a) !in s.active && a !in HeldAddrs(s.batch) && !e.Serve?
    requires Step(s, e).Next?
    ensures var u := Step(s, e).state; a in u.heap && u.heap[a] == s.heap[a] && s.requests <= u.requests
  {
    match e
    case LocalCancel(id) => CancelLeaves(s, id, a);
    case LocalAdd(b, when, interval, repeat) => CreateLeaves(s, b, when, interval, repeat, a);
    case RemoteAdd(b, when, interval, repeat) => CreateLeaves(s, b, when, interval, repeat, a);
    case ResetNext => ResetLeaves(s, a);
    case _ => QuietLeaves(s, e);
  }

  lemma QuietLeaves(s: Queue, e: Event)
    requires Step(s, e).Next?
    requires e.Tick? || e.RemoteCancel? || e.Begin? || e.RunNext? || e.StartReset? || e.Finish?
    ensures var u := Step(s, e).state; u.heap == s.heap && s.requests <= u.requests
  {
  }

  lemma QueuedOwns(s: Queue, i: nat)
    requires Queued(s) && i < |s.requests| && s.requests[i].AddRequest?
    ensures var a := s.requests[i].addr; a in s.heap && IdAt(s, a) !in s.active && a !in HeldAddrs(s.batch)
  {
    assert s.requests[i] in s.requests;
  }

  /** The i-th queued functor adds the timer `x`, which is at `a`. */
  ghost predicate Adds(s: Queue, i: nat, a: nat, x: Timer) {
    i < |s.requests| && s.requests[i] == AddRequest(a) && a in s.heap && s.heap[a] == x
  }

  lemma QueuedOne(s: Queue, e: Event, i: nat, a: nat, x: Timer)
    requires Indexed(s) && Queued(s) && Adds(s, i, a, x) && Step(s, e).Next? && (e.Serve? ==> i > 0)
    ensures Adds(Step(s, e).state, if e.Serve? then i - 1 else i, a, x)
  {
    QueuedOwns(s, i);
    if e.Serve? { ServeLeaves(s, a); } else { QueuedStep(s, e, a); }
  }

  lemma RunQueued(s: Queue, es: seq<Event>)
    requires Reachable(s) && Run(Step, s, es).Next?
    ensures Indexed(Run(Step, s, es).state) && Queued(Run(Step, s, es).state)
  {
    ReachableInv(s);
    RunKeepsInv(s, es);
  }

  /** The timer that a queued `addTimerInLoop` points to is the one it was queued for, in every run, until it is
      served. */
  lemma {:induction false} QueuedTimerKept(s: Queue, es: seq<Event>, i: nat, a: nat, x: Timer)
    requires Reachable(s) && Adds(s, i, a, x) && Run(Step, s, es).Next? && Serves(es) <= i
    ensures Adds(Run(Step, s, es).state, i - Serves(es), a, x)
    decreases |es|
  {
    if es != [] {
      var n := |es| - 1;
      Last(Step, s, es);
      QueuedTimerKept(s, es[..n], i, a, x);
      RunQueued(s, es[..n]);
      QueuedOne(Run(Step, s, es[..n]).state, es[n], i - Serves(es[..n]), a, x);
    }
  }

  /** Settling an entry leaves the timers of the later ones alone. */
  lemma SettleLeaves(s: Queue, x: Entry)
    requires Batched(s) && s.batch.Resetting? && s.batch.next < |s.batch.expired| && ResetOne(s).Next?
    requires x in s.batch.expired[s.batch.next + 1..]
    ensures var u := ResetOne(s).state; x.addr in s.heap && x.addr in u.heap && u.heap[x.addr] == s.heap[x.addr]
  {
    var h := s.batch.Held();
    var i :| 0 <= i < |h[1..]| && h[1..][i] == x;
    assert h[i + 1] == x && h[0] == s.batch.expired[s.batch.next];
  }

  lemma HeldStep(s: Queue, e: Event, x: Entry)
    requires Indexed(s) && Batched(s) && x in s.batch.Held() && !e.Begin? && Step(s, e).Next?
    requires x in Step(s, e).state.batch.Held()
    ensures var u := Step(s, e).state; x.addr in u.heap && u.heap[x.addr] == s.heap[x.addr]
  {
    match e
    case LocalCancel(id) => CancelLeaves(s, id, x.addr);
    case ResetNext => SettleLeaves(s, x);
    case _ =>
  }

  lemma SameBatch(s: Queue, e: Event)
    requires e.Tick? || e.RemoteAdd? || e.RemoteCancel? || e.Serve? || e.LocalAdd? || e.LocalCancel?
    requires Step(s, e).Next?
    ensures Step(s, e).state.batch == s.batch
  {
  }

  lemma HeldShrinks(s: Queue, e: Event, x: Entry)
    requires Batched(s) && !e.Begin? && Step(s, e).Next? && x in Step(s, e).state.batch.Held()
    ensures x in s.batch.Held()
  {
    match e
    case RunNext =>
    case StartReset =>
    case Finish =>
    case ResetNext => assert s.batch.Held()[1..] == s.batch.expired[s.batch.next + 1..];
    case _ => SameBatch(s, e);
  }

  lemma {:induction false} HeldOnly(s: Queue, es: seq<Event>, x: Entry)
    requires Inv(s) && Begin !in es && Run(Step, s, es).Next? && x in Run(Step, s, es).state.batch.Held()
    ensures x in s.batch.Held()
    decreases |es|
  {
    if es != [] {
      StepKeeps(s, es[0]);
      HeldOnly(Step(s, es[0]).state, es[1..], x);
      HeldShrinks(s, es[0], x);
    }
  }

  /** The timer that an entry of the batch points to is the one that expired, until `reset` has settled it. */
  lemma {:induction false} HeldTimerKept(s: Queue, es: seq<Event>, x: Entry)
    requires Inv(s) && x in s.batch.Held() && Begin !in es && Run(Step, s, es).Next?
    requires x in Run(Step, s, es).state.batch.Held()
    ensures var t := Run(Step, s, es).state;
            x.addr in s.heap && x.addr in t.heap && t.heap[x.addr] == s.heap[x.addr]
    decreases |es|
  {
    if es != [] {
      var u := Step(s, es[0]).state;
      StepKeeps(s, es[0]);
      HeldOnly(u, es[1..], x);
      HeldStep(s, es[0], x);
      HeldTimerKept(u, es[1..], x);
    }
  }

  // ---------- reset ----------

  /** Entry `i` of the batch is put back: its timer repeats and was not cancelled by a callback. */
  ghost predicate GoesBack(s: Queue, i: nat)
    requires s.batch.Resetting? && i < |s.batch.expired|
  {
    var a := s.batch.expired[i].addr;
    a in s.heap && s.heap[a].repeat && IdAt(s, a) !in s.canceling
  }

  /** The timers put back when `reset` has settled the entries before `k`. */
  ghost function BackIds(s: Queue, k: nat): set<TimerId>
    requires s.batch.Resetting? && k <= |s.batch.expired|
  {
    set i | s.batch.next <= i < k && GoesBack(s, i) :: TimerId(s.batch.expired[i].addr, SequenceAt(s, i))
  }

  ghost function SequenceAt(s: Queue, i: nat): nat
    requires s.batch.Resetting? && i < |s.batch.expired|
  {
    var a := s.batch.expired[i].addr;
    if a in s.heap then s.heap[a].sequence else 0
  }

  /** The timer at `a` when those of `back` have been put back. */
  ghost function After(s: Queue, a: nat, back: set<TimerId>, now: int): Timer
    requires a in s.heap
  {
    if IdAt(s, a) in back then s.heap[a].(expiration := now + s.heap[a].interval) else s.heap[a]
  }

  /** `t` differs from `s` by the timers of `back` only. */
  ghost predicate Restored(s: Queue, t: Queue, back: set<TimerId>, now: int) {
    && t.active == s.active + back
    && (forall a | a in s.heap :: a in t.heap && t.heap[a] == After(s, a, back, now))
  }

  ghost predicate ResetOf(s: Queue, t: Queue)
    requires s.batch.Resetting?
  {
    && t.batch.Resetting? && t.batch.expired == s.batch.expired && t.batch.now == s.batch.now
    && s.batch.next <= t.batch.next <= |s.batch.expired| && t.canceling == s.canceling
    && Restored(s, t, BackIds(s, t.batch.next), s.batch.now)
  }

  lemma BackOne(s: Queue, j: nat)
    requires s.batch.Resetting? && Batched(s) && s.batch.next <= j < |s.batch.expired|
    ensures var x := s.batch.expired[j];
            && x in s.batch.Held() && x.addr in s.heap && IdAt(s, x.addr) !in BackIds(s, j)
            && BackIds(s, j + 1) == BackIds(s, j) + if GoesBack(s, j) then {IdAt(s, x.addr)} else {}
  {
    var h, k := s.batch.Held(), s.batch.next;
    assert h[j - k] == s.batch.expired[j];
    forall i | k <= i < j ensures s.batch.expired[i].addr != s.batch.expired[j].addr {
      assert h[i - k] == s.batch.expired[i];
    }
  }

  /** One iteration of the loop in `reset`, as far as the sets and the timers go. */
  lemma ResetEffect(t: Queue, a: nat)
    requires t.batch.Resetting? && t.batch.next < |t.batch.expired| && Step(t, ResetNext).Next?
    requires a == t.batch.expired[t.batch.next].addr
    ensures a in t.heap
    ensures var u := Step(t, ResetNext).state;
            && u.batch == Resetting(t.batch.expired, t.batch.next + 1, t.batch.now) && u.canceling == t.canceling
            && if t.heap[a].repeat && IdAt(t, a) !in t.canceling then
                 && u.active == t.active + {IdAt(t, a)}
                 && u.heap == t.heap[a := t.heap[a].(expiration := t.batch.now + t.heap[a].interval)]
               else u.active == t.active && u.heap == t.heap
  {
  }

  lemma RestoredOne(s: Queue, t: Queue, u: Queue, back: set<TimerId>, a: nat, now: int)
    requires Restored(s, t, back, now) && a in s.heap && IdAt(s, a) !in back && a in t.heap
    requires u.active == t.active + {IdAt(s, a)}
    requires u.heap == t.heap[a := t.heap[a].(expiration := now + t.heap[a].interval)]
    ensures Restored(s, u, back + {IdAt(s, a)}, now)
  {
  }

  /** The entry about to be settled is still as it was. */
  lemma NotYet(s: Queue, t: Queue, a: nat)
    requires s.batch.Resetting? && Batched(s) && ResetOf(s, t) && t.batch.next < |s.batch.expired|
    requires a == s.batch.expired[t.batch.next].addr
    ensures a in s.heap && a in t.heap && t.heap[a] == s.heap[a] && IdAt(s, a) !in BackIds(s, t.batch.next)
    ensures GoesBack(s, t.batch.next) <==> t.heap[a].repeat && IdAt(t, a) !in t.canceling
  {
    BackOne(s, t.batch.next);
  }

  lemma ResetOfNext(s: Queue, t: Queue)
    requires s.batch.Resetting? && Batched(s) && ResetOf(s, t) && Step(t, ResetNext).Next?
    ensures ResetOf(s, Step(t, ResetNext).state)
  {
    var j := t.batch.next;
    var a := s.batch.expired[j].addr;
    NotYet(s, t, a);
    BackOne(s, j);
    Settled(s, t, j, a, BackIds(s, j), BackIds(s, j + 1));
  }

  lemma Settled(s: Queue, t: Queue, j: nat, a: nat, back: set<TimerId>, back1: set<TimerId>)
    requires t.batch.Resetting? && j == t.batch.next < |t.batch.expired| && a == t.batch.expired[j].addr
    requires Restored(s, t, back, t.batch.now) && a in s.heap && a in t.heap && t.heap[a] == s.heap[a]
    requires IdAt(s, a) !in back && Step(t, ResetNext).Next?
    requires back1 == back + if t.heap[a].repeat && IdAt(t, a) !in t.canceling then {IdAt(s, a)} else {}
    ensures var u := Step(t, ResetNext).state;
            && u.batch == Resetting(t.batch.expired, j + 1, t.batch.now) && u.canceling == t.canceling
            && Restored(s, u, back1, t.batch.now)
  {
    ResetEffect(t, a);
    if t.heap[a].repeat && IdAt(t, a) !in t.canceling {
      RestoredOne(s, t, Step(t, ResetNext).state, back, a, t.batch.now);
    } else {
      assert back1 == back;
    }
  }

  lemma ResetOfOther(s: Queue, t: Queue, e: Event)
    requires s.batch.Resetting? && ResetOf(s, t) && Step(t, e).Next? && !e.ResetNext? && !e.Finish?
    ensures ResetOf(s, Step(t, e).state)
  {
    assert e.Tick? || e.RemoteAdd? || e.RemoteCancel?;
  }

  lemma {:induction false} ResetRun(s: Queue, t: Queue, es: seq<Event>)
    requires s.batch.Resetting? && Batched(s) && ResetOf(s, t) && Finish !in es && Run(Step, t, es).Next?
    ensures ResetOf(s, Run(Step, t, es).state)
    decreases |es|
  {
    if es != [] {
      if es[0].ResetNext? { ResetOfNext(s, t); } else { ResetOfOther(s, t, es[0]); }
      ResetRun(s, Step(t, es[0]).state, es[1..]);
    }
  }

  lemma ResetOfSelf(s: Queue)
    requires s.batch.Resetting? && s.batch.next <= |s.batch.expired|
    ensures ResetOf(s, s)
  {
    assert BackIds(s, s.batch.next) == {};
  }

  lemma FinishPutsBack(s: Queue, t: Queue)
    requires s.batch.Resetting? && ResetOf(s, t) && Step(t, Finish).Next?
    ensures Restored(s, Step(t, Finish).state, BackIds(s, |s.batch.expired|), s.batch.now)
  {
  }

  /** `reset` as a whole, whatever other threads do meanwhile: the active set gains exactly the entries that repeat
      and were not cancelled, each due one interval after the batch; every other timer is as it was. */
  lemma ResetPutsBack(s: Queue, es: seq<Event>)
    requires Reachable(s) && s.batch.Resetting? && Finish !in es && Run(Step, s, es).Next?
    requires Step(Run(Step, s, es).state, Finish).Next?
    ensures s.batch.next <= |s.batch.expired|
    ensures Restored(s, Step(Run(Step, s, es).state, Finish).state, BackIds(s, |s.batch.expired|), s.batch.now)
  {
    ReachableInv(s);
    ResetOfSelf(s);
    ResetRun(s, s, es);
    FinishPutsBack(s, Run(Step, s, es).state);
  }
}
