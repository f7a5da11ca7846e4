/** The timer queue as a step machine.

    A state holds everything `TimerQueue` and the `Timer` objects hold, the
    alarm (timerfd) and the clock, plus three histories: which address each
    sequence number got, which timers have been cancelled, which callbacks ran.
    Addresses are reused after `delete`; sequence numbers are not.
 */
module TimerModel {
  import opened Machine
  import opened TimerSet

  const MICROS_PER_SECOND := 1_000_000
  const MIN_ALARM := 100

  /** `repeat` is `interval > 0.0`; `interval` is that delay cut to whole microseconds, so it may be 0. */
  datatype Timer = Timer(expiration: int, interval: int, repeat: bool, sequence: nat) {
    function Restarted(now: int): Timer {
      this.(expiration := if repeat then now + interval else 0)
    }
  }

  datatype TimerId = TimerId(addr: nat, sequence: nat)

  /** Functors waiting in the loop's queue, in the order they were pushed. */
  datatype Request = AddRequest(addr: nat) | CancelRequest(id: TimerId)

  datatype Alarm = Disarmed | Armed(deadline: int, armedAt: int)

  /** Where the loop thread is inside `handleRead`. */
  datatype Batch =
    | Idle
    | Calling(expired: seq<Entry>, next: nat, now: int)
    | Resetting(expired: seq<Entry>, next: nat, now: int)
  {
    /** Entries taken out of the sets and not yet settled by `reset`. */
    function Held(): seq<Entry> {
      match this
      case Idle => []
      case Calling(expired, _, _) => expired
      case Resetting(expired, next, _) => if next <= |expired| then expired[next..] else []
    }

    /** Entries whose callback is still to run in this batch. */
    function Due(): seq<Entry> {
      if Calling? && next <= |expired| then expired[next..] else []
    }
  }

  datatype Firing = Firing(sequence: nat, when: int, now: int, interval: int, repeat: bool)

  datatype Queue = Queue(
    heap: map<nat, Timer>,
    created: nat,
    timers: seq<Entry>,
    active: set<TimerId>,
    canceling: set<TimerId>,
    calling: bool,
    alarm: Alarm,
    clock: int,
    batch: Batch,
    requests: seq<Request>,
    home: map<nat, nat>,
    cancelled: set<nat>,
    runs: seq<Firing>)

  datatype Event =
    | Tick(delta: nat)
    | RemoteAdd(addr: nat, when: int, interval: int, repeat: bool)
    | RemoteCancel(id: TimerId)
    | Serve
    | LocalAdd(addr: nat, when: int, interval: int, repeat: bool)
    | LocalCancel(id: TimerId)
    | Begin
    | RunNext
    | StartReset
    | ResetNext
    | Finish

  function Init(clock: int): Queue {
    Queue(map[], 0, [], {}, {}, false, Disarmed, clock, Idle, [], map[], {}, [])
  }

  datatype Timespec = Timespec(sec: int, nsec: int)

  /** The relative time given to the timerfd: a normalised timespec of at least 100 microseconds. */
  function HowMuchTimeFromNow(when: int, now: int): (ts: Timespec)
    ensures 0 <= ts.sec && 0 <= ts.nsec < 1_000_000_000
    ensures 1_000_000_000 * ts.sec + ts.nsec == 1000 * (if when - now < 100 then 100 else when - now)
    ensures Micros(ts) >= MIN_ALARM && Micros(ts) >= when - now
    ensures Micros(ts) == MIN_ALARM || Micros(ts) == when - now
  {
    var us := if when - now < MIN_ALARM then MIN_ALARM else when - now;
    Timespec(us / MICROS_PER_SECOND, us % MICROS_PER_SECOND * 1000)
  }

  function Micros(ts: Timespec): int {
    ts.sec * MICROS_PER_SECOND + ts.nsec / 1000
  }

  function Arm(s: Queue, when: int): Queue {
    s.(alarm := Armed(s.clock + Micros(HowMuchTimeFromNow(when, s.clock)), s.clock))
  }

  /** `TimerId`s in circulation: the default one, and those `addTimer` returned. */
  predicate Issued(s: Queue, id: TimerId) {
    id == TimerId(0, 0) || (id.sequence in s.home && s.home[id.sequence] == id.addr)
  }

  /** What `new Timer` may return and what its arguments satisfy. */
  predicate CanCreate(s: Queue, addr: nat, interval: int, repeat: bool) {
    0 < addr < ADDRESS_END && addr !in s.heap && (repeat ==> 0 <= interval)
  }

  function Create(s: Queue, addr: nat, when: int, interval: int, repeat: bool): Queue {
    var q := s.created + 1;
    s.(heap := s.heap[addr := Timer(when, interval, repeat, q)], created := q, home := s.home[q := addr])
  }

  function IdAt(s: Queue, addr: nat): TimerId
    requires addr in s.heap
  {
    TimerId(addr, s.heap[addr].sequence)
  }

  /** The timer was handed to the loop and its `addTimerInLoop` has not run. */
  predicate Pending(s: Queue, id: TimerId) {
    id.addr in s.heap && IdAt(s, id.addr) == id && AddRequest(id.addr) in s.requests
  }

  function InsertTimer(s: Queue, addr: nat): Outcome<Queue> {
    if addr !in s.heap || |s.timers| != |s.active| then Fault else
    var e := Entry(s.heap[addr].expiration, addr);
    if e in s.timers || IdAt(s, addr) in s.active then Fault else
    Next(s.(timers := Insert(s.timers, e), active := s.active + {IdAt(s, addr)}))
  }

  function AddInLoop(s: Queue, addr: nat): Outcome<Queue> {
    match InsertTimer(s, addr)
    case Next(t) =>
      var when := s.heap[addr].expiration;
      Next(if s.timers == [] || when < s.timers[0].when then Arm(t, when) else t)
    case o => o
  }

  function CancelInLoop(s: Queue, id: TimerId): Outcome<Queue> {
    if |s.timers| != |s.active| then Fault else
    var done := if id.sequence == 0 || Pending(s, id) then s.cancelled else s.cancelled + {id.sequence};
    if id in s.active then
      if id.addr !in s.heap then Fault else
      var e := Entry(s.heap[id.addr].expiration, id.addr);
      if e !in s.timers then Fault else
      Next(s.(timers := Erase(s.timers, e), heap := s.heap - {id.addr}, active := s.active - {id}, cancelled := done))
    else if s.calling then
      Next(s.(canceling := s.canceling + {id}, cancelled := done))
    else
      Next(s.(cancelled := done))
  }

  function IdsOf(heap: map<nat, Timer>, es: seq<Entry>): set<TimerId> {
    set e | e in es && e.addr in heap :: TimerId(e.addr, heap[e.addr].sequence)
  }

  /** `getExpired` and the start of the callback loop. */
  function BeginBatch(s: Queue): Outcome<Queue> {
    var now := s.clock;
    var k := LowerBound(s.timers, Entry(now, ADDRESS_END));
    var expired := s.timers[..k];
    if k < |s.timers| && s.timers[k].when <= now then Fault else
    if exists e | e in expired :: e.addr !in s.heap || IdAt(s, e.addr) !in s.active then Fault else
    Next(s.(
      alarm := if s.alarm.Armed? && s.alarm.deadline <= now then Disarmed else s.alarm,
      timers := s.timers[k..],
      active := s.active - IdsOf(s.heap, expired),
      calling := true,
      canceling := {},
      batch := Calling(expired, 0, now)))
  }

  function RunCallback(s: Queue): Outcome<Queue>
    requires s.batch.Calling? && s.batch.next < |s.batch.expired|
  {
    var e := s.batch.expired[s.batch.next];
    if e.addr !in s.heap then Fault else
    var t := s.heap[e.addr];
    Next(s.(runs := s.runs + [Firing(t.sequence, e.when, s.batch.now, t.interval, t.repeat)],
            batch := Calling(s.batch.expired, s.batch.next + 1, s.batch.now)))
  }

  /** One iteration of the loop in `reset`. */
  function ResetOne(s: Queue): Outcome<Queue>
    requires s.batch.Resetting? && s.batch.next < |s.batch.expired|
  {
    var addr := s.batch.expired[s.batch.next].addr;
    if addr !in s.heap then Fault else
    var t := s.heap[addr];
    var s1 := s.(batch := Resetting(s.batch.expired, s.batch.next + 1, s.batch.now));
    if t.repeat && IdAt(s, addr) !in s.canceling then
      InsertTimer(s1.(heap := s.heap[addr := t.Restarted(s.batch.now)]), addr)
    else
      Next(s1)
  }

  /** The end of `reset`: a timestamp is valid when it is positive. */
  function Rearm(s: Queue): Outcome<Queue> {
    var s1 := s.(batch := Idle);
    if s.timers == [] then Next(s1) else
    if s.timers[0].addr !in s.heap then Fault else
    var next := s.heap[s.timers[0].addr].expiration;
    Next(if 0 < next then Arm(s1, next) else s1)
  }

  function Step(s: Queue, e: Event): Outcome<Queue> {
    match e
    case Tick(delta) => Next(s.(clock := s.clock + delta))
    case RemoteAdd(addr, when, interval, repeat) =>
      if !CanCreate(s, addr, interval, repeat) then Disabled else
      Next(Create(s, addr, when, interval, repeat).(requests := s.requests + [AddRequest(addr)]))
    case RemoteCancel(id) =>
      if !Issued(s, id) then Disabled else Next(s.(requests := s.requests + [CancelRequest(id)]))
    case Serve =>
      if !s.batch.Idle? || s.requests == [] then Disabled else
      var s1 := s.(requests := s.requests[1..]);
      (match s.requests[0]
       case AddRequest(addr) => AddInLoop(s1, addr)
       case CancelRequest(id) => CancelInLoop(s1, id))
    case LocalAdd(addr, when, interval, repeat) =>
      if s.batch.Resetting? || !CanCreate(s, addr, interval, repeat) then Disabled else
      AddInLoop(Create(s, addr, when, interval, repeat), addr)
    case LocalCancel(id) =>
      if s.batch.Resetting? || !Issued(s, id) then Disabled else CancelInLoop(s, id)
    case Begin =>
      if !s.batch.Idle? then Disabled else BeginBatch(s)
    case RunNext =>
      if !s.batch.Calling? || s.batch.next >= |s.batch.expired| then Disabled else RunCallback(s)
    case StartReset =>
      if !s.batch.Calling? || s.batch.next < |s.batch.expired| then Disabled else
      Next(s.(calling := false, batch := Resetting(s.batch.expired, 0, s.batch.now)))
    case ResetNext =>
      if !s.batch.Resetting? || s.batch.next >= |s.batch.expired| then Disabled else ResetOne(s)
    case Finish =>
      if !s.batch.Resetting? || s.batch.next < |s.batch.expired| then Disabled else Rearm(s)
  }
}
