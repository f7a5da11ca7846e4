# Dalin: a verified model of the reactor

Dalin is a small C++ reactor library: an event loop per thread, a timer queue,
a poll()-based poller, byte buffers, TCP connections, a connector that retries,
a server that spreads connections over loops, and a thread pool.  This project
models the parts that are state machines and proves what they guarantee in every
run, under every interleaving and every answer of the kernel.

## How the model is built

Each component has up to four layers.

* `XModel.dfy` is a step machine.  A state is a value, an event says which thread
  moves and what the environment answers (the clock, the allocator, `poll`,
  `read`, `write`, which waiter a `notify` wakes).  `Step` yields the next state,
  `Disabled` when the event cannot happen there, or `Fault` where the C++ would
  fail an `assert`, abort, or touch freed memory.
* `XTheorems.dfy` (for the poller and the buffer: the model file itself) proves an
  invariant of `Step` and, from it, the theorems about every reachable state or
  every run.
* `XEffects.dfy` says, apart from the step function and in the program's own
  terms and numbers, what each operation does in every reachable state and when
  it can happen.
* `X.dfy` is the C++ class itself, with its mutable fields and loops.  Every
  method is proved to change the object's `View()` exactly as the machine's step
  does, so the theorems hold of the class.

| files | component |
|---|---|
| `Machine.dfy`, `Sets.dfy` | runs of a step machine; sizes of finite sets |
| `TimerSet.dfy`, `TimerModel.dfy`, `TimerInvariant.dfy`, `TimerBatch.dfy`, `TimerTheorems.dfy`, `TimerReset.dfy`, `TimerEffects.dfy`, `TimerQueue.dfy` | the timer queue |
| `EventLoopModel.dfy`, `EventLoopTheorems.dfy`, `EventLoopEffects.dfy`, `EventLoop.dfy` | the functor queue and wakeups of a loop |
| `ThreadPoolModel.dfy`, `ThreadPoolTheorems.dfy`, `ThreadPoolEffects.dfy`, `ThreadPool.dfy` | the bounded task queue |
| `ChannelModel.dfy`, `ChannelTheorems.dfy`, `PollerModel.dfy`, `PollerEffects.dfy`, `Poller.dfy` | channels and the poller |
| `BufferModel.dfy`, `BufferEffects.dfy`, `Buffer.dfy` | the byte buffer |
| `TcpConnectionModel.dfy`, `TcpConnectionTheorems.dfy`, `TcpConnectionEffects.dfy`, `TcpConnection.dfy` | one connection |
| `ConnectorModel.dfy`, `ConnectorTheorems.dfy`, `ConnectorEffects.dfy`, `Connector.dfy` | the retrying connector |
| `ServerModel.dfy`, `ServerTheorems.dfy`, `ServerEffects.dfy`, `Server.dfy` | placement, names and the connection map |

## What the code does not guarantee

Where a natural property is false of the code, the code is modelled as it is; the
exact condition is proved, or a run that breaks the property is given.

* A timer cancelled on the loop thread while another thread's add is still queued
  keeps running (`LocalCancelEffect`, `CancelOvertakesAdd`).
* A functor queued on the loop thread outside `loop()` wakes nobody
  (`EarlyPushSleeps`); a quit made outside `loop()`, by any thread, is forgotten
  when `loop()` is entered (`QuitHeededExactly`).
* `ThreadPool::stop` wakes only workers: a caller of `addTask` waiting on a full
  queue returns only if some worker takes one more task (`CallerReturnsExactly`,
  `StopStrandsCaller`).
* Tasks that call `addTask` on their own bounded pool can block it for good, when
  every worker is inside such a call (`NoDeadlock`, `SelfBlockedForever`,
  `TaskBlocksItself`).
* A channel whose mask was once empty is never polled again (`MutedForGood`).
* `Buffer::shrink` is wrong unless the data starts at offset 8, or there is none
  (`ShrinkExactly`).
* A `shutdown` on another thread can set a destroyed connection back to
  disconnecting (`BackwardExactly`, `StateGoesBack`).
* Bytes queued by another thread just before `shutdown` can be overtaken by the
  half-close.  They are lost (`HalfCloseDelivers`, `HalfCloseIsFinal`), and the
  process aborts when it next tries to write them (`LateBytesAbort`,
  `OvertakenSendAborts`).  A queued send that still has bytes to buffer when it
  runs after the connection was destroyed aborts as well (`AbortsExactly`).
* POLLPRI together with a hang-up and nothing to read closes a connection twice
  (`ClosedTwiceExactly`).
* `Connector::restart` from inside the new-connection callback aborts, and so does
  a retry that comes before the failed attempt's channel has been freed, as when
  handlers run longer than the delay (`RestartInCallbackAborts`,
  `RetryTooSoonAborts`).  A `stop` on another thread that a `restart`
  overtakes leaves a connector that will never try again (`StopRestartRace`,
  `SilencedWanting`).

## Model

| member | source | states |
|---|---|---|
| `TimerTheorems.MemorySafe` | src/net/TimerQueue.cpp:95-235 | no run of adds, cancels, batches and callbacks fails an assertion of the queue, frees a timer twice or uses an address that holds no timer; that the timer there is the right one is the next two rows |
| `TimerReset.QueuedTimerKept` | src/net/TimerQueue.cpp:95-117 | over every run, the timer a queued add points to is the very one it was queued for, until it is served: its address is never freed and reused before |
| `TimerReset.HeldTimerKept` | src/net/TimerQueue.cpp:139-199 | over every run, the timer an expired entry points to is the very one that expired, until `reset` has settled it |
| `TimerTheorems.IndexesAgree` | src/net/TimerQueue.cpp:119-182 | in every reachable state an entry is in `timers_` iff its timer, with its sequence number, is in `activeTimers_` and the entry carries its expiration |
| `TimerTheorems.NoLostAlarm` | src/net/TimerQueue.cpp:109-208 | outside `handleRead` a non-empty queue has the timerfd armed, due by the earliest expiration or 100 µs after it was set |
| `TimerTheorems.NoLostTimer` | src/net/TimerQueue.cpp:109-199 | a timer not cancelled and still to fire is alive, and in the sets, queued to be added, or held by the current batch |
| `TimerTheorems.FiringDiscipline` | src/net/TimerQueue.cpp:139-199 | no callback runs early, a one-shot runs once, two runs of a repeating timer are at least its interval apart |
| `TimerTheorems.ExpiredExactly` | src/net/TimerQueue.cpp:160-182 | starting a batch takes exactly the entries with expiration ≤ now out of both sets, in order |
| `TimerTheorems.BatchInOrder` | src/net/TimerQueue.cpp:151-153 | whatever callbacks add or cancel, the batch runs its timers once each, in order of expiration |
| `TimerTheorems.BatchRunsDue` | src/net/TimerQueue.cpp:139-158 | a whole batch, whatever callbacks and other threads do meanwhile, calls exactly the timers due at its start, once each, in order |
| `TimerTheorems.CancelIsFinal` | src/net/TimerQueue.cpp:119-137 | after an effective cancel the timer is never in the sets again and runs at most once more, only if it was due in the batch being called |
| `TimerTheorems.LocalCancelEffect` | src/net/TimerQueue.cpp:104-137 | a cancel on the loop thread removes the timer for good (from both sets and the queued adds) iff its add is not still queued; otherwise the queue is unchanged and the add stays queued |
| `TimerTheorems.QueuedCancelEffect` | src/net/TimerQueue.cpp:95-107 | a cancel that goes through the loop's queue always removes the timer for good, since its add went before it |
| `TimerTheorems.CancelOvertakesAdd` | src/net/TimerQueue.cpp:95-137 | a run in which a timer fires although it was cancelled before |
| `TimerTheorems.StaleIdHarmless` | src/net/TimerQueue.cpp:119-137 | cancelling never touches another timer, even one at the address of a freed timer |
| `TimerReset.ResetPutsBack` | src/net/TimerQueue.cpp:184-208 | `reset` as a whole, whatever other threads do meanwhile: the active set gains exactly the entries that repeat and were not cancelled, each due one interval after the batch; every other timer is as it was |
| `TimerEffects.AddedAsAsked` | src/net/Timer.h:22-30 | a timer added on the loop thread waits under exactly the time asked for, with the interval and repeat flag asked for, and a number no timer had before; no other entry changes |
| `TimerEffects.RemoteAddedAsAsked` | src/net/TimerQueue.cpp:95-117 | the same for a timer added on another thread, once its functor is served, whatever happened meanwhile |
| `TimerEffects.AddSetsAlarm` | src/net/TimerQueue.cpp:109-117 | adding sets the alarm to the timer's time, or 100 µs from now if later, iff it is earlier than all others; otherwise the alarm stays |
| `TimerEffects.ServeSetsAlarm` | src/net/TimerQueue.cpp:109-117 | the same for a served add |
| `TimerEffects.FinishSetsAlarm` | src/net/TimerQueue.cpp:201-207 | the end of `handleRead` sets the alarm for the earliest timer, if its time is valid, and touches no timer |
| `TimerEffects.CancelFrees` | src/net/TimerQueue.cpp:124-132 | cancelling an active timer takes it out of both sets and frees its address, and only it |
| `TimerEffects.CancelMarks` | src/net/TimerQueue.cpp:133-135 | cancelling any other id only marks it, and only while callbacks run |
| `TimerEffects.RunsNext` | src/net/TimerQueue.cpp:151-153 | each turn of the callback loop calls the next expired timer |
| `TimerEffects.ServedInOrder` | src/net/EventLoop.cpp:187-189 | queued adds and cancels are served from the front, outside `handleRead`; a served cancel is a cancel |
| `TimerEffects.RequestsQueue` | src/net/TimerQueue.cpp:95-107 | another thread's add or cancel queues behind the earlier ones and touches nothing else |
| `TimerEffects.Enabled` | src/net/TimerQueue.cpp:95-208 | when each step can happen, exactly: no cancel or add inside `reset`, a batch goes through its callbacks and `reset` to the end |
| `TimerModel.HowMuchTimeFromNow` | src/net/TimerQueue.cpp:32-44 | the relative time is a normalised timespec of exactly max(100 µs, the distance to the expiration), in nanoseconds |
| `TimerSet.CutSpec` | src/net/TimerQueue.cpp:166-171 | `lower_bound` of (now, UINTPTR_MAX) separates exactly the due entries from the later ones |
| `TimerSet.InsertSpec` | src/net/TimerQueue.cpp:218-225 | insertion keeps order, adds one entry, and the first entry is the earlier of the old first and the new one |
| `TimerSet.EraseSpec` | src/net/TimerQueue.cpp:127-128 | erasing removes exactly that entry and the first one never becomes earlier |
| `TimerQueueClass.TimerQueue.NewTimer` | src/net/Timer.h:22-30 | a new timer gets the next sequence number and the given expiration, interval and repeat flag |
| `TimerQueueClass.TimerQueue.AddTimerInLoop` | src/net/TimerQueue.cpp:109-117 | inserts into both sets, and sets the alarm iff the new timer is the earliest |
| `TimerQueueClass.TimerQueue.Insert` | src/net/TimerQueue.cpp:210-235 | both sets gain the timer; tells whether it is strictly earlier than all others |
| `TimerQueueClass.TimerQueue.CancelInLoop` | src/net/TimerQueue.cpp:119-137 | removes and frees an active timer, marks one in the batch being called, ignores any other |
| `TimerQueueClass.TimerQueue.GetExpired` | src/net/TimerQueue.cpp:160-182 | the loop over the expired entries moves exactly the entries before (now, UINTPTR_MAX), with their ids, out of both sets |
| `TimerQueueClass.TimerQueue.CallExpired` | src/net/TimerQueue.cpp:151-153 | the callback loop, with callbacks adding and cancelling, is a run of the machine that records exactly the expired timers, in order |
| `TimerQueueClass.TimerQueue.Reset` | src/net/TimerQueue.cpp:184-208 | the active set gains exactly the repeating timers not cancelled, each due one interval after now, every other timer is as it was, and the alarm is set for the earliest |
| `TimerQueueClass.TimerQueue.ResetExpired` | src/net/Timer.cpp:14-22 | a repeating timer that was not cancelled is due again one interval after now |
| `TimerQueueClass.TimerQueue.HandleRead` | src/net/TimerQueue.cpp:139-158 | the whole body is a run of the machine, and it calls exactly the timers due when it begins, once each, in order of expiration |
| `EventLoopTheorems.NoLostFunctor` | src/net/EventLoop.cpp:123-133 | whenever the loop blocks in poll with functors pending, the eventfd is readable, or a thread is between its push and its wakeup, or the loop thread pushed before `loop()` |
| `EventLoopTheorems.NoLostQuit` | src/net/EventLoop.cpp:104-111 | a loop blocked in poll with `quit_` set is about to be woken |
| `EventLoopTheorems.QuitSurvives` | src/net/EventLoop.cpp:81-111 | over every run without another quit, `quit_` stays set iff `loop()` is not entered, whichever thread set it |
| `EventLoopTheorems.QuitHeededExactly` | src/net/EventLoop.cpp:81-111 | a quit of any thread ends the loop at its next decision iff it was made inside `loop()`; made outside, it is forgotten and the loop goes on to poll |
| `EventLoopTheorems.EarlyPushSleeps` | src/net/EventLoop.cpp:123-133 | from every reachable state outside `loop()`: a functor queued on the loop thread wakes nobody, and the loop then polls on it, about to be woken iff it was already |
| `EventLoopTheorems.Conservation` | src/net/EventLoop.cpp:123-192 | executed, then the rest of the batch, then the pending functors is always the sequence of pushes |
| `EventLoopTheorems.InPushOrder` | src/net/EventLoop.cpp:177-192 | over every run, all that was pushed before a moment is executed, in order, before anything pushed later |
| `EventLoopTheorems.BatchIsFixed` | src/net/EventLoop.cpp:182-189 | functors queued during a batch, by anybody, do not join it |
| `EventLoopTheorems.RoundExecutes` | src/net/EventLoop.cpp:177-192 | a round executes all that was queued when it swapped, and nothing else |
| `EventLoopEffects.PushAppends` | src/net/EventLoop.cpp:123-133 | a push goes behind all others; a wakeup is owed unless the loop thread pushes while it runs no functors |
| `EventLoopEffects.WakeupSignals` | src/net/EventLoop.cpp:143-150 | a wakeup makes the eventfd readable |
| `EventLoopEffects.ReadDrains` | src/net/EventLoop.cpp:168-175 | a reported eventfd is emptied before the functors are run, so the loop does not spin on it |
| `EventLoopEffects.QuitSignals` | src/net/EventLoop.cpp:104-111 | a quit sets the flag; another thread owes a wakeup |
| `EventLoopEffects.BatchFromFront` | src/net/EventLoop.cpp:177-189 | the batch is everything pending, and is executed from the front |
| `EventLoopEffects.TurnExactly` | src/net/EventLoop.cpp:81-102 | which step the loop thread can make in each phase, and the phase it leads to, exactly |
| `EventLoopEffects.CallsExactly` | src/net/EventLoop.cpp:104-150 | when each thread can push, quit and wake, exactly |
| `EventLoopClass.EventLoop.QueueInLoop` | src/net/EventLoop.cpp:123-133 | the push, and whether a wakeup must follow |
| `EventLoopClass.EventLoop.Quit` | src/net/EventLoop.cpp:104-111 | sets `quit_`; another thread owes a wakeup |
| `EventLoopClass.EventLoop.DoPendingFunctors` | src/net/EventLoop.cpp:177-192 | executes exactly the functors queued at its start, in order, whatever they and other threads queue while they run |
| `EventLoopClass.EventLoop.Iterate` | src/net/EventLoop.cpp:89-99 | one turn of the loop: it goes on iff `quit_` is not set, and then executes what was queued and what the handlers queue |
| `EventLoopClass.EventLoop.RunLoop` | src/net/EventLoop.cpp:81-102 | `loop` is a run of the machine, and is left exactly on finding `quit_` set |
| `ThreadPoolTheorems.NoLostWakeup` | src/base/ThreadPool.cpp:67-108 | if a worker sleeps, queued tasks ≤ woken workers; if a caller is blocked, free slots ≤ woken callers; spurious wakeups and barging included |
| `ThreadPoolTheorems.NoDeadlock` | src/base/ThreadPool.cpp:67-108 | a running pool in which everybody waits has drained its queue iff some worker is not inside an `addTask` call of its own task; otherwise the queue is full and every worker is inside such a call |
| `ThreadPoolTheorems.SelfBlockedForever` | src/base/ThreadPool.cpp:67-82 | a pool that blocked itself in this way stays so in every run, `stop` included |
| `ThreadPoolTheorems.TaskBlocksItself` | src/base/ThreadPool.cpp:67-121 | such a state is reachable: one worker, a bound of one, a task that adds two |
| `ThreadPoolTheorems.FifoAndBounded` | src/base/ThreadPool.cpp:67-108 | taken tasks followed by the queue are the accepted tasks in order, and a positive bound is never exceeded |
| `ThreadPoolEffects.FirstInFirstOut` | src/base/ThreadPool.cpp:67-108 | over every run, the tasks the workers begin, followed by the queue, are the tasks queued at first followed by those whose `addTask` calls returned, in order |
| `ThreadPoolEffects.TakesOldest` | src/base/ThreadPool.cpp:97-100 | a worker that finds tasks runs the oldest accepted one not taken yet, and no other worker gets it |
| `ThreadPoolEffects.TakeMakesRoomFor` | src/base/ThreadPool.cpp:102-104 | it wakes exactly one caller waiting for room, if the pool is bounded and there is one |
| `ThreadPoolEffects.TakesNone` | src/base/ThreadPool.cpp:93-107 | a worker that finds none sleeps while the pool runs, and otherwise goes to see that it has stopped |
| `ThreadPoolEffects.AddsOwnTask` | src/base/ThreadPool.cpp:77-80 | a caller that finds room has its own task accepted behind all others, and wakes one sleeping worker if there is one |
| `ThreadPoolEffects.AddWaits` | src/base/ThreadPool.cpp:74-76 | a caller that finds none waits with its task, and changes nothing else |
| `ThreadPoolEffects.CallKeepsTask` | src/base/ThreadPool.cpp:67-82 | over every run, a call keeps its task until it returns, and has then had it accepted |
| `ThreadPoolEffects.StopTakesEffect` | src/base/ThreadPool.cpp:50-56 | `stop` ends the running, wakes every sleeping worker and nobody else, and leaves the tasks |
| `ThreadPoolEffects.WorkerLoops` | src/base/ThreadPool.cpp:116-121 | between tasks a worker goes on exactly while the pool runs |
| `ThreadPoolEffects.Enabled` | src/base/ThreadPool.cpp:50-121 | when each thread can move, exactly |
| `ThreadPoolTheorems.StopEndsWorkers` | src/base/ThreadPool.cpp:50-59 | after stop no worker sleeps, each takes at most one more task and makes at most three more steps |
| `ThreadPoolTheorems.StoppedWorkerMoves` | src/base/ThreadPool.cpp:110-121 | a stopped pool's worker that has not exited has a step of its own iff its task is not inside `addTask` |
| `ThreadPoolTheorems.StrandedForever` | src/base/ThreadPool.cpp:74-76 | after stop, with the queue full and no worker to take another task, a caller of `addTask` never returns |
| `ThreadPoolTheorems.RoomLetsThrough` | src/base/ThreadPool.cpp:67-82 | with room in a stopped pool's queue a caller, blocked ones included, gets through in at most two steps |
| `ThreadPoolTheorems.CallerReturnsExactly` | src/base/ThreadPool.cpp:50-108 | after stop a caller inside `addTask` can still return iff the queue has room or some worker may take one more task |
| `ThreadPoolTheorems.StopStrandsCaller` | src/base/ThreadPool.cpp:50-82 | such a stranded caller is reachable |
| `ThreadPoolClass.ThreadPool.AddTask` | src/base/ThreadPool.cpp:73-81 | from taking to releasing the mutex: waits iff full, otherwise appends the task and signals one worker |
| `ThreadPoolClass.ThreadPool.TakeTask` | src/base/ThreadPool.cpp:90-108 | sleeps iff empty and running; takes the oldest task and signals one caller iff bounded |
| `ThreadPoolClass.ThreadPool.Stop` | src/base/ThreadPool.cpp:50-56 | clears `running_` and wakes every sleeping worker, and no caller |
| `PollerModel.StepRefines` | src/net/Poller.cpp:60-125 | an update or removal does to the decoded map what the reference map operation does, with the same faults, and keeps the bijection between slots and channels |
| `PollerModel.RunRefines` | src/net/Poller.cpp:60-125 | the same over every run, with as many slots as registered channels |
| `PollerModel.PopInv` | src/net/Poller.cpp:112-114 | removing the last slot leaves every other channel's slot and index |
| `PollerModel.SwapInv` | src/net/Poller.cpp:115-124 | swap-remove moves exactly the last channel, to the freed index, and every channel keeps its registration |
| `PollerModel.MutedForGood` | src/net/Poller.cpp:83-92 | after any sequence of mask updates a channel is ignored iff it was before or one mask was empty |
| `PollerEffects.RegisterPolls` | src/net/Poller.cpp:64-77 | a new channel is polled for its mask, under its own descriptor, in a new slot; a registered descriptor fails the assertion |
| `PollerEffects.ModifyPolls` | src/net/Poller.cpp:78-93 | a change of mask takes effect in the channel's slot, whose descriptor is `-fd - 1` iff it was so or the mask is empty; the others are polled as before |
| `PollerEffects.RemoveForgets` | src/net/Poller.cpp:96-125 | a removal succeeds iff the channel is registered, with an empty mask the poller knows of; it is polled no more, the others as before |
| `PollerModel.ActiveExactly` | src/net/Poller.cpp:42-58 | the active list is exactly the channels that are not ignored and were reported |
| `PollerModel.ActiveInOrder` | src/net/Poller.cpp:42-58 | in slot order, each once |
| `PollerClass.Poller.UpdateChannel` | src/net/Poller.cpp:60-94 | registers or changes one channel in array, map and back-pointer as the machine does |
| `PollerClass.Poller.RemoveChannel` | src/net/Poller.cpp:96-125 | removes one channel and keeps array, map and every remaining back-pointer consistent |
| `PollerClass.Poller.FillActiveChannels` | src/net/Poller.cpp:42-58 | the loop yields the specified list and tells each channel what poll() reported for it |
| `PollerClass.Channel.EnableReading` | src/net/Channel.h:56 | adds reading to the mask, keeps writing, updates the poller |
| `PollerClass.Channel.EnableWriting` | src/net/Channel.h:57 | adds writing to the mask, keeps reading, updates the poller |
| `PollerClass.Channel.DisableWriting` | src/net/Channel.h:58 | removes writing from the mask, keeps reading, updates the poller |
| `PollerClass.Channel.DisableAll` | src/net/Channel.h:59 | empties the mask and updates the poller |
| `ChannelTheorems.DispatchExactly` | src/net/Channel.cpp:40-71 | close is called iff POLLHUP comes without POLLIN, error iff POLLERR or POLLNVAL, read iff POLLIN or POLLPRI, write iff POLLOUT |
| `ChannelTheorems.DispatchInOrder` | src/net/Channel.cpp:48-68 | in the order close, error, read, write, each at most once |
| `ChannelTheorems.DataBeforeClose` | src/net/Channel.cpp:48-63 | data that comes with a hang-up is read and the close callback is not made |
| `PollerClass.Channel.HandleEvent` | src/net/Channel.cpp:40-71 | the callbacks made for the reported flags, in order close, error, read, write |
| `BufferModel.BufferIsQueue` | src/net/Buffer.h:33-170 | over every run the readable region is a plain byte queue, and the store never exceeds max(1032, 2·peak + 7) |
| `BufferModel.StepRefines` | src/net/Buffer.h:60-132 | each operation does to the readable region what it does to the queue, and fails an assertion iff its caller broke its obligation |
| `BufferModel.SpaceMade` | src/net/Buffer.h:103-170 | making space never fails an assertion, keeps the contents, makes enough room and respects the bound |
| `BufferModel.ReadSpills` | src/net/Buffer.cpp:35-38 | bytes that did not fit come from the spill area, in order |
| `BufferEffects.NewBuffer` | src/net/Buffer.h:23-31 | 8 bytes to prepend, 1024 to write |
| `BufferEffects.AppendPlaces` | src/net/Buffer.h:91-170 | an append writes in place if it fits, moves the data to offset 8 if it fits then, and otherwise grows the store to exactly its end |
| `BufferEffects.FrontMoves` | src/net/Buffer.h:60-132 | prepend, retrieve and retrieveAll move only the indices, by how much |
| `BufferEffects.ReadTakesIn` | src/net/Buffer.cpp:16-41 | one read takes in at most the writable bytes and 65536 more, all of it |
| `BufferModel.ShrinkExactly` | src/net/Buffer.h:134-139 | `shrink` keeps the readable bytes iff they start at offset 8, or there are none and the indices stay inside |
| `BufferClass.Buffer.Append` | src/net/Buffer.h:91-96 | the store and both indices after an append |
| `BufferClass.Buffer.Prepend` | src/net/Buffer.h:126-132 | the bytes appear before the old contents, in the same store |
| `BufferClass.Buffer.Retrieve` | src/net/Buffer.h:60-64 | drops the first bytes |
| `BufferClass.Buffer.RetrieveAll` | src/net/Buffer.h:73-77 | empties the buffer and returns both indices to the start |
| `BufferClass.Buffer.RetrieveAsString` | src/net/Buffer.h:79-84 | returns the whole contents and leaves the buffer empty |
| `BufferClass.Buffer.CopyDown` | src/net/Buffer.h:163-165 | the forward copy over an overlapping region moves the bytes unchanged |
| `BufferClass.Buffer.MakeSpace` | src/net/Buffer.h:155-170 | grows the store or moves the data down |
| `BufferClass.Buffer.EnsureWritableBytes` | src/net/Buffer.h:103-109 | makes space iff there is too little |
| `BufferClass.Buffer.ReadFd` | src/net/Buffer.cpp:16-41 | bytes delivered over the two regions are appended and counted; a failing readv() changes nothing and reports its errno |
| `TcpConnectionTheorems.OutputConserved` | src/net/TcpConnection.cpp:56-178 | kernel bytes followed by the output buffer are all messages in order; write-complete is queued only with everything in the kernel; until close the channel waits to write iff bytes are buffered |
| `TcpConnectionTheorems.CompletionExactly` | src/net/TcpConnection.cpp:56-168 | a step queues a write-complete callback iff it hands bytes to the kernel and leaves none buffered, or directly writes an empty message |
| `TcpConnectionEffects.SendDelivers` | src/net/TcpConnection.cpp:44-87 | `send` on the loop thread accepts the whole message; what write() takes goes to the kernel at once if nothing waits, the rest to the end of the buffer |
| `TcpConnectionEffects.SendIgnored` | src/net/TcpConnection.cpp:44-95 | `send` and `shutdown` do nothing unless connected, on whatever thread |
| `TcpConnectionEffects.RemoteSendQueues` | src/net/TcpConnection.cpp:50-52 | `send` on another thread sets the whole message on its way and writes nothing |
| `TcpConnectionEffects.PassAppends` | src/net/EventLoop.cpp:123-128 | its functor arrives unchanged, behind the others |
| `TcpConnectionEffects.QueuedSendDelivers` | src/net/TcpConnection.cpp:56-87 | the functors run from the front, and a queued send delivers its own message |
| `TcpConnectionEffects.WriteDrains` | src/net/TcpConnection.cpp:151-178 | the write callback hands the front of the buffer to the kernel, as much as write() takes, iff reported writable and writing is enabled |
| `TcpConnectionTheorems.ClosesOnce` | src/net/TcpConnection.cpp:110-189 | over every run without such a report at end of file the close callback is made at most once, and the state only moves forward, but for a store of another thread's `shutdown` that comes after the destruction |
| `TcpConnectionTheorems.BackwardExactly` | src/net/TcpConnection.cpp:89-131 | a step moves the state back iff it is the store of a `shutdown` that read `state_` before the connection was destroyed |
| `TcpConnectionTheorems.StateGoesBack` | src/net/TcpConnection.cpp:89-131 | such a step is reachable |
| `TcpConnectionTheorems.ClosedIsSilent` | src/net/TcpConnection.cpp:180-189 | after the close poll() reports nothing more, even if a send enables writing again |
| `TcpConnectionEffects.ClosesWhen` | src/net/TcpConnection.cpp:133-189 | the connection closes on a hang-up without POLLIN and on end of file, and only then; the close empties the mask for good and calls the server |
| `TcpConnectionEffects.DispatchFollows` | src/net/Channel.cpp:40-71 | the connection's part of `handleEvent` is what `handleEvent`'s own callbacks do one after the other |
| `TcpConnectionEffects.EstablishConnects` | src/net/TcpConnection.cpp:110-119 | established means connected, registered and reading |
| `TcpConnectionEffects.DestroyDisconnects` | src/net/TcpConnection.cpp:121-131 | destroyed means disconnected and out of the poller, and never fails an assertion |
| `TcpConnectionEffects.DisabledExactly` | src/net/TcpConnection.cpp:44-189 | when each step can happen, exactly |
| `TcpConnectionTheorems.ClosedTwiceExactly` | src/net/Channel.cpp:48-63 | over every run, whatever poll() reports: a connection has been closed more than once iff some read callback met end of file on a report of POLLHUP and POLLPRI without POLLIN |
| `TcpConnectionTheorems.AbortsExactly` | src/net/TcpConnection.cpp:56-189 | a step aborts iff it is a failing write of buffered bytes, or a queued send with bytes to buffer on a destroyed connection |
| `TcpConnectionEffects.HalfCloseComes` | src/net/TcpConnection.cpp:89-103 | a half-close asked for is never forgotten: on an open disconnecting connection the write side is shut, or bytes are being written, or its functor is on its way |
| `TcpConnectionEffects.ShutdownShuts` | src/net/TcpConnection.cpp:89-103 | `shutdown` on the loop thread shuts the write side at once iff nothing is being written |
| `TcpConnectionEffects.ShutdownJobShuts` | src/net/TcpConnection.cpp:97-103 | so does the functor of another thread's `shutdown` |
| `TcpConnectionEffects.LastWriteShuts` | src/net/TcpConnection.cpp:159-168 | the write that empties the buffer of a disconnecting connection shuts it |
| `TcpConnectionEffects.RemoteShutdownStores` | src/net/TcpConnection.cpp:89-95 | another thread's `shutdown` that found the connection connected stores the new state and sets its functor on its way |
| `TcpConnectionTheorems.HalfCloseDelivers` | src/net/TcpConnection.cpp:89-103 | at the half-close of an open connection every accepted byte is in the kernel iff no other thread's send is underway, from its test of `state_` to its functor |
| `TcpConnectionTheorems.GracefulHalfClose` | src/net/TcpConnection.cpp:44-172 | if only the loop thread sends, in every run the half-close comes after all accepted bytes, and none is accepted or written later |
| `TcpConnectionTheorems.HalfCloseIsFinal` | src/net/TcpConnection.cpp:56-103 | over every run after the half-close nothing more is accepted or taken by the kernel, so what was underway then is lost; what is given to `sendInLoop` stays in the buffer |
| `TcpConnectionTheorems.LateBytesAbort` | src/net/TcpConnection.cpp:72-84 | such bytes keep the channel waiting to write, and on the next report that finds it writable, unless it also closes the connection, the write callback can only abort |
| `TcpConnectionTheorems.OvertakenSendAborts` | src/net/TcpConnection.cpp:89-95 | a run in which another thread's send, queued before its `shutdown`, is overtaken by the half-close and the process aborts |
| `TcpConnectionClass.TcpConnection.Send` | src/net/TcpConnection.cpp:44-54 | ignored unless connected; on the loop thread `sendInLoop`, on another thread a functor to be pushed |
| `TcpConnectionClass.TcpConnection.SendInLoop` | src/net/TcpConnection.cpp:56-87 | writes directly if nothing is queued, buffers the rest and enables writing, over a real buffer |
| `TcpConnectionClass.TcpConnection.HandleWrite` | src/net/TcpConnection.cpp:151-178 | drains the buffer by what write() took; when empty disables writing, completes, and half-closes if asked |
| `TcpConnectionClass.TcpConnection.HandleRead` | src/net/TcpConnection.cpp:133-149 | end of file closes, data and errors change nothing here |
| `TcpConnectionClass.TcpConnection.HandleClose` | src/net/TcpConnection.cpp:180-189 | empties the mask and makes the close callback |
| `TcpConnectionClass.TcpConnection.Shutdown` | src/net/TcpConnection.cpp:89-95 | on the loop thread from connected to disconnecting, then the half-close if nothing is being written; on another thread the test only |
| `TcpConnectionClass.TcpConnection.FinishShutdown` | src/net/TcpConnection.cpp:91-94 | the rest of `shutdown` on another thread, whatever has happened since its test: the store, and a functor to be pushed |
| `TcpConnectionClass.TcpConnection.ShutdownInLoop` | src/net/TcpConnection.cpp:97-103 | shuts the write side iff the channel is not waiting to write |
| `TcpConnectionClass.TcpConnection.ConnectEstablished` | src/net/TcpConnection.cpp:110-119 | from connecting to connected, and starts reading |
| `TcpConnectionClass.TcpConnection.ConnectDestroyed` | src/net/TcpConnection.cpp:121-131 | to disconnected, and out of the poller |
| `ConnectorTheorems.SocketsConserved` | src/net/Connector.cpp:53-193 | every socket created was closed once, or handed over once, or is the one being connected, and only one of these |
| `ConnectorTheorems.BackoffSchedule` | src/net/Connector.cpp:180-193 | the k-th retry since construction or restart waited min(500·2^k, 30000) ms |
| `ConnectorEffects.DelaysInLiterals` | src/net/Connector.cpp:180-193 | these are 500, 1000, 2000, 4000, 8000, 16000 and then 30000 ms |
| `ConnectorEffects.AttemptWaits` | src/net/Connector.cpp:59-65 | for 0, EINPROGRESS, EINTR and EISCONN the new socket is watched and nothing is closed |
| `ConnectorEffects.AttemptRetries` | src/net/Connector.cpp:67-73 | for EAGAIN, EADDRINUSE, EADDRNOTAVAIL, ECONNREFUSED and ENETUNREACH it is closed and one retry set |
| `ConnectorEffects.AttemptGivesUp` | src/net/Connector.cpp:75-89 | for any other error it is closed, and that is all |
| `ConnectorEffects.NotWanted` | src/net/Connector.cpp:45-50 | without `connect_` no attempt is made |
| `ConnectorEffects.AttemptsMade` | src/net/Connector.cpp:34-51 | a start and a retry make one attempt iff connecting is still wanted, a restart always |
| `ConnectorEffects.RestartResetsDelay` | src/net/Connector.cpp:93-102 | after a restart the first retry waits 500 ms again |
| `ConnectorEffects.WritableOutcome` | src/net/Connector.cpp:139-166 | by SO_ERROR and self-connection: a sound socket is handed over, or closed if not wanted any more; any other is closed, with one retry iff wanted |
| `ConnectorEffects.HandsOverSound` | src/net/Connector.cpp:143-156 | a socket is handed over only if SO_ERROR was 0, it is not connected to itself, and connecting is wanted |
| `ConnectorEffects.ErrorOutcome` | src/net/Connector.cpp:168-178 | the error callback closes the socket, with one retry iff wanted |
| `ConnectorEffects.StopClears` | src/net/Connector.cpp:104-109 | `stop` on the loop thread clears `connect_` and cancels the retry timer |
| `ConnectorEffects.RemoteStopCancels` | src/net/Connector.cpp:104-109 | `stop` on another thread clears `connect_`, later queues the cancel of the timer it then finds, which removes that timer |
| `ConnectorEffects.StartAndReset` | src/net/Connector.cpp:34-38 | a start asks for connecting and queues one attempt; the queued reset frees the channel |
| `ConnectorEffects.DisabledExactly` | src/net/Connector.cpp:34-193 | when each step can happen, exactly |
| `ConnectorTheorems.OneTrigger` | src/net/Connector.cpp:34-51 | at most one of: a queued start, a retry timer, an attempt under way, a socket handed over; `startInLoop` only finds a disconnected connector |
| `ConnectorTheorems.NeverStuck` | src/net/Connector.cpp:93-193 | a connector that should connect has exactly one of them, unless connect(2) failed for good or a stop raced with a restart |
| `ConnectorTheorems.SilentExactly` | src/net/Connector.cpp:34-193 | over every run: a connector with one of them keeps one iff no silencing step is taken (an attempt given up or no longer wanted, the cancel of the waiting retry, an attempt that ends after a stop) |
| `ConnectorTheorems.SilencedWanting` | src/net/Connector.cpp:34-193 | a connector that wants to connect before and after a step is silenced by it iff connect(2) makes it give up, or the queued cancel of an overtaken stop hits the waiting retry |
| `ConnectorTheorems.SilentForever` | src/net/Connector.cpp:34-193 | without any of them no socket is ever created or handed over again |
| `ConnectorTheorems.StopHolds` | src/net/Connector.cpp:104-109 | after a stop no socket is created or handed over and no retry scheduled until the next start or restart |
| `ConnectorTheorems.AbortsExactly` | src/net/Connector.cpp:111-137 | an assertion fails iff an attempt gets under way while the previous `resetChannel` is still queued |
| `ConnectorTheorems.RestartInCallbackAborts` | src/net/Connector.cpp:93-102 | a restart inside the new-connection callback reaches that failure |
| `ConnectorTheorems.RetryTooSoonAborts` | src/net/Connector.cpp:122-137 | so does a retry timer that fires before the failed attempt's `resetChannel` has run |
| `ConnectorTheorems.StopRestartRace` | src/net/Connector.cpp:93-109 | a reachable connector that wants to connect and has nothing pending |
| `ConnectorClass.Connector.StartInLoop` | src/net/Connector.cpp:40-51 | connects iff `connect_` is set |
| `ConnectorClass.Connector.Connect` | src/net/Connector.cpp:53-91 | one new socket: being connected, closed with a retry, or closed for good, by errno |
| `ConnectorClass.Connector.Restart` | src/net/Connector.cpp:93-102 | resets state and delay, then starts |
| `ConnectorClass.Connector.HandleWrite` | src/net/Connector.cpp:139-166 | retries on an error or a self-connect; otherwise hands the socket over, or closes it if stopped |
| `ConnectorClass.Connector.HandleError` | src/net/Connector.cpp:168-178 | stops watching and retries |
| `ConnectorClass.Connector.Retry` | src/net/Connector.cpp:180-193 | closes the socket; if still wanted schedules one timer and doubles the delay up to the maximum |
| `ServerTheorems.RoundRobin` | src/net/EventLoopThreadPool.cpp:42-58 | the k-th accepted connection is on loop k mod N, or on the base loop without threads |
| `ServerTheorems.LoadsBalanced` | src/net/EventLoopThreadPool.cpp:42-58 | after any number of accepts the loads of two loops differ by at most one |
| `ServerTheorems.NamesDiffer` | src/net/TcpServer.cpp:72-75 | the printed number determines the connection number and is never cut by the 32-byte buffer |
| `ServerEffects.NameOfConnection` | src/net/TcpServer.cpp:72-75 | the k-th connection is called by the server's name, '#', and k in decimal, counted from 1 |
| `ServerEffects.DecimalIsNumeral` | src/net/TcpServer.cpp:73 | the number is printed in decimal digits without leading zeros |
| `ServerEffects.AcceptAdds` | src/net/TcpServer.cpp:68-88 | an accept adds one new entry to the map and takes the next loop in turn |
| `ServerEffects.CloseWaits` | src/net/TcpServer.cpp:90-93 | a close leaves the map alone until the removal has run |
| `ServerTheorems.MapExactly` | src/net/TcpServer.cpp:68-104 | a name is in the map iff its one connection has not been removed, and leads to that connection |
| `ServerTheorems.RemovalErasesOne` | src/net/TcpServer.cpp:95-104 | every removal erases exactly one entry, its own, and destroys the connection once |
| `ServerClass.EventLoopThreadPool.Start` | src/net/EventLoopThreadPool.cpp:27-40 | one loop for each thread, in order |
| `ServerClass.EventLoopThreadPool.GetNextLoop` | src/net/EventLoopThreadPool.cpp:42-58 | the next loop in turn, and the counter wrapped around |
| `ServerClass.TcpServer.NewConnection` | src/net/TcpServer.cpp:68-88 | the name, the loop and the map entry of the new connection |
| `ServerClass.TcpServer.RemoveConnectionInLoop` | src/net/TcpServer.cpp:95-104 | the entry is found and erased, and the destruction queued |

## Left out

- Socket and address wrappers (SocketsOps, Socket, InetAddress) and Acceptor: their results are the events' arguments.
- Lifetime of queued closures: several lambdas capture a connection by reference; a queued functor is taken to hold its own connection, and no claim is made about the C++ objects.
- TcpClient: only its use of the connector (one start, restarts after a hand-over) is modelled, as enabling conditions of `Start` and `Restart`.
- pthread wrappers, thread creation and names, `CountDownLatch`, the start handshake of `EventLoopThread`: mutexes and condition variables have their standard meaning, `waitForSeconds` is unused.
- Time as floating point: delays are integer microseconds or milliseconds, and clock arithmetic does not overflow.
- Destructors, logging, exceptions, callbacks' contents: an abort ends a run, user code is an arbitrary sequence of calls.
- The deletion of finished timers: `reset` never reaches its `delete`, so one-shot timers leak; what is proved is that none is freed twice or used after being freed.
- `addTimer`: creating the timer and queueing the add are one step on the adding thread.
- `std::set` of timers is a sorted sequence with the same `lower_bound`, `insert` and `erase`.
- `ThreadPool::addTask` on a pool without threads runs the task in place; a negative bound and a change of the bound while running are not modelled.
- Re-registering a removed channel: `removeChannel` leaves its index set, and the poller's assertions then fail; the machines treat it as a fault.
- Event masks are records of flags; POLLRDHUP is never requested, so it is never reported.
- `Buffer::swap` and `retrieveUntil`: one exchanges two objects, the other is `retrieve` of a difference of pointers.
- `EventLoopClass.EventLoop.DoPendingFunctors`: other threads act between the functors' own calls, each push or quit together with its wakeup; `Conservation` and `BatchIsFixed` cover every interleaving.
- `TcpConnectionTheorems.ClosesOnce`: like the other theorems on reachable connections, about runs in which no read callback meets end of file on a report of POLLHUP and POLLPRI without POLLIN; `ClosedTwiceExactly` shows that nothing less will do.
- Unset user callbacks: the write-complete callback is taken to be set.
- `ServerTheorems.RemovalErasesOne`: that a connection closes at most once is taken from `ClosesOnce` as an enabling condition of the server's machine, and connection numbers stay below the largest int.
- `ConnectorTheorems.NeverStuck`: `start` is called once, as the client does; a second start is not modelled.
- Data races on plain fields (`connect_`, `state_`, `quit_`, `running_` used without a lock): each access is one atomic step, and `Connector::start` sets `connect_` and queues its functor in one.
- `Connector::start`, `stop` and `resetChannel` and the test of `running_` in `runInThread` are single assignments: they are steps of the machines and not methods of the classes.
- write() after the write side was shut: it is taken to fail (EPIPE, SIGPIPE being ignored, src/net/EventLoop.cpp:38-49).
