/** `TimerQueue` itself: the methods that update its fields, against the step machine.

    The fields of the C++ class come first; then the memory of `Timer` objects,
    the timerfd, the clock, and the `TimerId`s in circulation; then what only
    the proofs need.  A method requires that its step does not fault; by
    `TimerTheorems.MemorySafe` that holds in every reachable state.
 */
module TimerQueueClass {
  import opened Machine
  import opened TimerSet
  import opened TimerModel
  import opened TimerInvariant
  import opened TimerBatch
  import opened TimerTheorems
  import opened TimerReset

  class TimerQueue {
    var timers: seq<Entry>
    var callingExpiredTimers: bool
    var activeTimers: set<TimerId>
    var cancelingTimers: set<TimerId>

    var heap: map<nat, Timer>
    var numCreated: nat
    var timerfd: Alarm
    var clock: int

    var home: map<nat, nat>

    ghost var batch: Batch
    ghost var requests: seq<Request>
    ghost var cancelled: set<nat>
    ghost var runs: seq<Firing>

    ghost function View(): Queue
      reads this
    {
      Queue(heap, numCreated, timers, activeTimers, cancelingTimers, callingExpiredTimers, timerfd, clock,
            batch, requests, home, cancelled, runs)
    }

    constructor (now: int)
      requires 0 < now
      ensures View() == Init(now)
    {
      timers, callingExpiredTimers, activeTimers, cancelingTimers := [], false, {}, {};
      heap, numCreated, timerfd, clock := map[], 0, Disarmed, now;
      batch, requests, home, cancelled, runs := Idle, [], map[], {}, [];
    }

    /** `new Timer(cb, when, interval)` at an address the allocator chose. */
    method NewTimer(addr: nat, when: int, interval: int, repeat: bool)
      requires CanCreate(View(), addr, interval, repeat)
      modifies this`heap, this`numCreated, this`home
      ensures View() == Create(old(View()), addr, when, interval, repeat)
    {
      numCreated := numCreated + 1;
      heap := heap[addr := Timer(when, interval, repeat, numCreated)];
      home := home[numCreated := addr];
    }

    method ResetTimerfd(expiration: int)
      modifies this`timerfd
      ensures View() == Arm(old(View()), expiration)
    {
      var newValue := HowMuchTimeFromNow(expiration, clock);
      timerfd := Armed(clock + Micros(newValue), clock);
    }

    method Insert(addr: nat) returns (earliestChanged: bool)
      requires InsertTimer(View(), addr).Next?
      modifies this`timers, this`activeTimers
      ensures InsertTimer(old(View()), addr) == Next(View())
      ensures earliestChanged <==> old(timers) == [] || heap[addr].expiration < old(timers)[0].when
    {
      assert |timers| == |activeTimers|;
      earliestChanged := false;
      var when := heap[addr].expiration;
      if timers == [] || when < timers[0].when {
        earliestChanged := true;
      }
      timers := TimerSet.Insert(timers, Entry(when, addr));
      activeTimers := activeTimers + {TimerId(addr, heap[addr].sequence)};
    }

    method AddTimerInLoop(addr: nat)
      requires AddInLoop(View(), addr).Next?
      modifies this`timers, this`activeTimers, this`timerfd
      ensures AddInLoop(old(View()), addr) == Next(View())
    {
      var earliestChanged := Insert(addr);
      if earliestChanged {
        ResetTimerfd(heap[addr].expiration);
      }
    }

    method CancelInLoop(id: TimerId)
      requires TimerModel.CancelInLoop(View(), id).Next?
      modifies this`timers, this`activeTimers, this`cancelingTimers, this`heap, this`cancelled
      ensures TimerModel.CancelInLoop(old(View()), id) == Next(View())
    {
      assert |timers| == |activeTimers|;
      if id.sequence != 0 && !Pending(View(), id) {
        cancelled := cancelled + {id.sequence};
      }
      if id in activeTimers {
        timers := Erase(timers, Entry(heap[id.addr].expiration, id.addr));
        heap := heap - {id.addr};
        activeTimers := activeTimers - {id};
      } else if callingExpiredTimers {
        cancelingTimers := cancelingTimers + {id};
      }
    }

    /** How many entries come before (now, UINTPTR_MAX). */
    function DueCount(now: int): (k: nat)
      reads this
      ensures k <= |timers|
    {
      LowerBound(timers, Entry(now, ADDRESS_END))
    }

    /** Moves the entries due at `now` out of both sets. */
    method GetExpired(now: int) returns (expired: seq<Entry>)
      requires DueCount(now) == |timers| || now < timers[DueCount(now)].when
      requires forall e | e in timers[..DueCount(now)] ::
                 e.addr in heap && TimerId(e.addr, heap[e.addr].sequence) in activeTimers
      modifies this`timers, this`activeTimers
      ensures expired == old(timers[..DueCount(now)]) && timers == old(timers[DueCount(now)..])
      ensures activeTimers == old(activeTimers) - IdsOf(heap, expired)
    {
      var k := DueCount(now);
      expired := timers[..k];
      timers := timers[k..];
      var i := 0;
      while i < |expired|
        invariant 0 <= i <= |expired| && heap == old(heap) && timers == old(timers[DueCount(now)..])
        invariant activeTimers == old(activeTimers) - IdsOf(heap, expired[..i])
      {
        assert expired[i] in expired && expired[i].addr in heap;
        assert expired[..i + 1] == expired[..i] + [expired[i]];
        activeTimers := activeTimers - {TimerId(expired[i].addr, heap[expired[i].addr].sequence)};
        i := i + 1;
      }
      assert expired[..i] == expired;
    }

    /** One turn of the callback loop: the callback itself is what `Perform` does afterwards. */
    method RunExpired(e: Entry, now: int)
      requires Step(View(), RunNext).Next? && batch.expired[batch.next] == e && batch.now == now
      modifies this`runs, this`batch
      ensures Step(old(View()), RunNext) == Next(View())
              && batch == Calling(old(batch.expired), old(batch.next) + 1, now)
    {
      var timer := heap[e.addr];
      runs := runs + [Firing(timer.sequence, e.when, now, timer.interval, timer.repeat)];
      batch := Calling(batch.expired, batch.next + 1, now);
    }

    /** One turn of the loop in `reset`. */
    method ResetExpired(e: Entry, now: int)
      requires Step(View(), ResetNext).Next? && batch.expired[batch.next] == e && batch.now == now
      modifies this`timers, this`activeTimers, this`heap, this`batch
      ensures Step(old(View()), ResetNext) == Next(View())
              && batch == Resetting(old(batch.expired), old(batch.next) + 1, now)
    {
      var timer := heap[e.addr];
      batch := Resetting(batch.expired, batch.next + 1, now);
      if timer.repeat && TimerId(e.addr, timer.sequence) !in cancelingTimers {
        heap := heap[e.addr := timer.Restarted(now)];
        var _ := Insert(e.addr);
      }
    }

    method SetNextAlarm()
      requires Step(View(), Finish).Next?
      modifies this`timerfd, this`batch
      ensures Step(old(View()), Finish) == Next(View()) && batch.Idle?
    {
      batch := Idle;
      if timers != [] {
        var nextExpire := heap[timers[0].addr].expiration;
        if 0 < nextExpire {
          ResetTimerfd(nextExpire);
        }
      }
    }

    /** Puts the repeating timers that were not cancelled back, and sets the alarm for the earliest timer. */
    method Reset(expired: seq<Entry>, now: int, ghost s: Queue, ghost before: seq<Event>)
        returns (ghost trace: seq<Event>)
      requires Reachable(s) && Run(Step, s, before) == Next(View()) && batch == Resetting(expired, 0, now)
      modifies this`timers, this`activeTimers, this`heap, this`timerfd, this`batch
      ensures Run(Step, s, trace) == Next(View()) && batch.Idle?
      ensures trace == before + seq(|expired|, _ => ResetNext) + [Finish]
      ensures Restored(old(View()), View(), BackIds(old(View()), |expired|), now)
    {
      ghost var b := View();
      RunBatched(s, before, b);
      ResetOfSelf(b);
      trace := before;
      var i := 0;
      while i < |expired|
        invariant 0 <= i <= |expired| && batch == Resetting(expired, i, now) && trace == before + seq(i, _ => ResetNext)
        invariant Run(Step, s, trace) == Next(View()) && Batched(b) && ResetOf(b, View())
      {
        trace := ResetNextExpired(expired[i], now, s, trace, b);
        OneMore(before, i);
        i := i + 1;
      }
      Extend(s, trace, View(), Finish);
      FinishPutsBack(b, View());
      SetNextAlarm();
      trace := trace + [Finish];
    }

    /** One turn of the loop in the reset of `b`. */
    method ResetNextExpired(e: Entry, now: int, ghost s: Queue, ghost before: seq<Event>, ghost b: Queue)
        returns (ghost trace: seq<Event>)
      requires Reachable(s) && Run(Step, s, before) == Next(View())
      requires b.batch.Resetting? && Batched(b) && ResetOf(b, View())
      requires batch.Resetting? && batch.next < |batch.expired| && batch.expired[batch.next] == e && batch.now == now
      modifies this`timers, this`activeTimers, this`heap, this`batch
      ensures trace == before + [ResetNext] && Run(Step, s, trace) == Next(View())
      ensures batch == Resetting(old(batch.expired), old(batch.next) + 1, now) && ResetOf(b, View())
    {
      Extend(s, before, View(), ResetNext);
      ResetOfNext(b, View());
      ResetExpired(e, now);
      trace := before + [ResetNext];
    }

    /** What a callback may do before it returns: let time pass, add timers, cancel timers. */
    method Perform(e: Event)
      requires (e.Tick? || e.LocalAdd? || e.LocalCancel?) && Step(View(), e).Next?
      modifies this
      ensures Step(old(View()), e) == Next(View()) && batch == old(batch)
    {
      match e
      case Tick(delta) => clock := clock + delta;
      case LocalAdd(addr, when, interval, repeat) =>
        NewTimer(addr, when, interval, repeat);
        AddTimerInLoop(addr);
      case LocalCancel(id) => CancelInLoop(id);
    }

    /** Whether the environment allows `e`: a free address for an add, an issued id for a cancel. */
    method CanPerform(e: Event) returns (ok: bool)
      requires batch.Calling? && (e.Tick? || e.LocalAdd? || e.LocalCancel?)
      ensures ok <==> !Step(View(), e).Disabled?
    {
      match e
      case LocalAdd(addr, when, interval, repeat) =>
        ok := 0 < addr < ADDRESS_END && addr !in heap && (repeat ==> 0 <= interval);
      case LocalCancel(id) =>
        ok := id == TimerId(0, 0) || (id.sequence in home && home[id.sequence] == id.addr);
      case Tick(_) => ok := true;
    }

    /** A callback consists of timer operations on the loop thread. */
    static ghost predicate Callback(commands: seq<Event>) {
      forall e | e in commands :: e.Tick? || e.LocalAdd? || e.LocalCancel?
    }

    /** `handleRead` around callbacks that perform the possible ones among their `commands`: the whole body is a run
        of the machine, and it calls exactly the timers due when it begins, once each, in order of expiration. */
    method HandleRead(commands: seq<seq<Event>>) returns (ghost trace: seq<Event>)
      requires Reachable(View()) && batch.Idle? && forall c | c in commands :: Callback(c)
      modifies this
      ensures Run(Step, old(View()), trace) == Next(View()) && batch.Idle?
      ensures [Begin] <= trace && trace[|trace| - 1] == Finish
      ensures Indexed(old(View())) && runs == old(runs) + DueFirings(old(View()))
    {
      ghost var s := View();
      BeginReady(s);
      var now := clock;
      Extend(s, [], s, Begin);
      assert [] + [Begin] == [Begin];
      var expired := StartBatch(now);
      trace := CallExpired(expired, now, commands, s, [Begin]);
      Extend(s, trace, View(), StartReset);
      StopCalling();
      trace := Reset(expired, now, s, trace + [StartReset]);
    }

    method StopCalling()
      requires Step(View(), StartReset).Next?
      modifies this`callingExpiredTimers, this`batch
      ensures Step(old(View()), StartReset) == Next(View())
    {
      callingExpiredTimers := false;
      batch := Resetting(batch.expired, 0, batch.now);
    }

    /** The loop of `handleRead` over the expired timers. */
    method CallExpired(expired: seq<Entry>, now: int, commands: seq<seq<Event>>, ghost s: Queue,
        ghost before: seq<Event>)
      returns (ghost trace: seq<Event>)
      requires Reachable(s) && Run(Step, s, before) == Next(View()) && batch == Calling(expired, 0, now)
      requires (forall e | e in expired :: e.addr in heap) && InBatchOf(View(), View())
      requires forall c | c in commands :: Callback(c)
      modifies this
      ensures Run(Step, s, trace) == Next(View()) && batch == Calling(expired, |expired|, now) && before <= trace
      ensures runs == old(runs) + Firings(old(View()), |expired|)
    {
      ghost var b := View();
      trace := before;
      var i := 0;
      while i < |expired|
        invariant 0 <= i <= |expired| && batch == Calling(expired, i, now) && before <= trace
        invariant Run(Step, s, trace) == Next(View()) && InBatchOf(b, View())
      {
        Extend(s, trace, View(), RunNext);
        BatchRun(b, View());
        RunExpired(expired[i], now);
        trace := trace + [RunNext];
        if i < |commands| {
          trace := PerformAll(commands[i], s, trace, b);
        }
        i := i + 1;
      }
    }

    /** `handleRead` up to the callback loop: read the timerfd, take the expired timers out. */
    method StartBatch(now: int) returns (expired: seq<Entry>)
      requires Step(View(), Begin).Next? && now == clock
      modifies this
      ensures Step(old(View()), Begin) == Next(View()) && batch == Calling(expired, 0, now)
    {
      ReadTimerfd(now);
      expired := GetExpired(now);
      callingExpiredTimers := true;
      cancelingTimers := {};
      batch := Calling(expired, 0, now);
    }

    /** The timerfd after a read at `now`. */
    static function Read(alarm: Alarm, now: int): Alarm {
      if alarm.Armed? && alarm.deadline <= now then Disarmed else alarm
    }

    method ReadTimerfd(now: int)
      modifies this`timerfd
      ensures timerfd == Read(old(timerfd), now) && View() == old(View()).(alarm := timerfd)
    {
      if timerfd.Armed? && timerfd.deadline <= now {
        timerfd := Disarmed;
      }
    }

    /** One callback in the batch of `b`. */
    method PerformAll(commands: seq<Event>, ghost s: Queue, ghost before: seq<Event>, ghost b: Queue)
      returns (ghost trace: seq<Event>)
      requires Reachable(s) && Run(Step, s, before) == Next(View()) && Callback(commands)
      requires b.batch.Calling? && (forall e | e in b.batch.expired :: e.addr in b.heap) && InBatchOf(b, View())
      modifies this
      ensures Run(Step, s, trace) == Next(View()) && batch == old(batch) && before <= trace && InBatchOf(b, View())
    {
      trace := before;
      var j := 0;
      while j < |commands|
        invariant 0 <= j <= |commands| && batch == old(batch) && before <= trace
        invariant Run(Step, s, trace) == Next(View()) && InBatchOf(b, View())
      {
        var possible := CanPerform(commands[j]);
        if possible {
          Extend(s, trace, View(), commands[j]);
          QuietCommand(s, trace, b, View(), commands[j]);
          Perform(commands[j]);
          trace := trace + [commands[j]];
        }
        j := j + 1;
      }
    }

    /** What a callback does leaves the batch and its record alone. */
    static lemma QuietCommand(s: Queue, trace: seq<Event>, b: Queue, t: Queue, e: Event)
      requires Reachable(s) && Run(Step, s, trace) == Next(t) && (e.Tick? || e.LocalAdd? || e.LocalCancel?)
      requires b.batch.Calling? && (forall x | x in b.batch.expired :: x.addr in b.heap) && InBatchOf(b, t)
      ensures Step(t, e).Next? ==> InBatchOf(b, Step(t, e).state)
    {
      ReachableInv(s);
      RunKeepsInv(s, trace);
      if Step(t, e).Next? { BatchQuiet(b, t, e); }
    }

    static lemma OneMore(before: seq<Event>, i: nat)
      ensures before + seq(i, _ => ResetNext) + [ResetNext] == before + seq(i + 1, _ => ResetNext)
    {
    }

    static lemma BeginReady(s: Queue)
      requires Reachable(s) && s.batch.Idle?
      ensures Indexed(s) && Step(s, Begin).Next?
      ensures var t := Step(s, Begin).state;
              && t.batch.Calling? && (forall e | e in t.batch.expired :: e.addr in t.heap)
              && t.runs == s.runs && InBatchOf(t, t) && Firings(t, |t.batch.expired|) == DueFirings(s)
    {
      ReachableInv(s);
      BeginFirings(s);
    }

    static lemma RunBatched(s: Queue, trace: seq<Event>, t: Queue)
      requires Reachable(s) && Run(Step, s, trace) == Next(t)
      ensures Batched(t)
    {
      ReachableInv(s);
      RunKeepsInv(s, trace);
    }

    /** In a run from a reachable state the next step does not fault. */
    static lemma Extend(s: Queue, trace: seq<Event>, t: Queue, e: Event)
      requires Reachable(s) && Run(Step, s, trace) == Next(t)
      ensures !Step(t, e).Fault?
      ensures Step(t, e).Next? ==> Run(Step, s, trace + [e]) == Step(t, e)
    {
      ReachableInv(s);
      RunKeepsInv(s, trace);
      StepKeeps(t, e);
      Snoc(Step, s, trace, t, e);
    }
  }
}
