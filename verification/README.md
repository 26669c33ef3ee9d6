# A verified model of libprocess

libprocess is an actor runtime: processes with mailboxes, run by a pool of workers, with timers, links,
sockets, futures and HTTP pipes. This project models the protocols inside it and proves what they keep in
every run.

Concurrent code is modelled as a transition system: one step per atomic operation or locked block, any number
of threads, sequential consistency. A theorem about `Reachable` states or about every `run` is a theorem about
every interleaving. Sequential code that mutates an object is a class whose methods are proved against
functions on its state (`Clock`, `Tables`, `Pipe`); loops over strings are methods (`Codec`).

| file | what it models |
|---|---|
| `Actor.dfy` | one process: spawn, use, deliver, enqueue, resume, wait and cleanup, by any number of concurrent calls |
| `Delivery.dfy` | what the calls on a process achieve, told from actions and program counters |
| `System.dfy` | any number of such processes and the run queue between them |
| `RunQueue.dfy` | workers, the run queue, the kernel semaphore, decomission and settle |
| `Settling.dfy` | settle over the run queue and the clock together, with timers that fire during the call |
| `LifoSemaphore.dfy` | the last-in-first-out semaphore |
| `MpscQueue.dfy` | the multi-producer single-consumer linked queue |
| `ClockModel.dfy`, `Clock.dfy` | timers, scheduled ticks, pause, advance, resume, settled |
| `Links.dfy` | the link tables |
| `Sockets.dfy` | the socket tables with connects and sends in progress |
| `SocketLaws.dfy` | what the socket manager's calls achieve, told from actions and tables |
| `Watching.dfy` | the link tables and the socket tables together |
| `Futures.dfy` | futures, promises, association, `then`, `recover`, `undiscardable` |
| `FutureLaws.dfy` | what callers of futures and promises can rely on |
| `PipeModel.dfy`, `PipeSteps.dfy`, `Pipe.dfy` | the HTTP pipe: as if reads were answered under the lock, step by step as threads see it, and as an object |
| `Codec.dfy` | percent-encoding and query strings |
| `Counting.dfy` | how many threads satisfy a predicate |

## What the code does not promise

Seven properties hold only under a condition. Each comes with a run or an input that fails without it.

- **The CHECKs of resume and cleanup** (`Actor.ChecksHoldIff`) hold exactly when (a) no installed filter drops an
  injected TerminateEvent and (b) no object is registered by a second spawn after it has left BOTTOM. For (a): the
  event is pushed before `termination` is stored (src/process.cpp:3587-3593), so a filter can drop it in between, and
  the next event then purges an empty mailbox. For (b): spawn reads the state at src/process.cpp:2870 and registers
  under the lock at 2875-2893, and the process may run to its end in between. A caller meets (b) by calling spawn at
  most once per object (`Actor.OneSpawnIsSafe`). Without (a) only the purge can fail (`Actor.OnlyPurgeFaults`), and
  `OneToken` and `ExpiredForGood` still hold. `NoLostWakeup` and `Conservation` hold in every run, without (a) and (b).
- **settle** returns only with a quiet run queue (`RunQueue.SettleMeansQuiet`) exactly when no thread that `running`
  does not count pushes during the call. Before and between calls such threads push freely, as a program that spawns
  its first process does; `RunQueue.SettleOutwaitsWork` shows such a run. During a call an outside push after the queue
  was seen empty can bump the epoch too late. With the clock (`Settling.SettleWaitsForTimers`) one uncounted thread may
  push during the call: the event loop, from the callbacks of a tick of this pause. Then settle returns only when no
  process is queued or held, no timer is due and no callback is running, exactly when four things do not happen: another
  thread pushes, another thread uses the clock, the clock is resumed, or settle is called while a tick from before the
  pause is still in its callbacks. The last one needs nobody else to do anything: `settling` is set only by ticks that
  find the clock paused (src/clock.cpp:161-163), so Clock::settled does not see that tick. Each has its failing run.
- **Clock::settled when nothing is due** (`ClockModel.SettledInTheEnd`): with the clock paused, nothing due and no tick in
  progress it can still say false, when a timer that became due during a tick was canceled afterwards
  (`ClockModel.SettlingOutlivesTimer`); a tick is then due, and once it has run the answer is true.
- **Associated futures agree** (`Futures.AgreeIffSerial`) exactly when no promise is completed while it is being
  associated: `Promise::set`, `fail` and `discard` look at `associated` without the lock
  (include/process/future.hpp:812, 837, 905).
- **End-of-file after all data** (`PipeSteps.DrainedBeforeEof`): reads before the one that sees end-of-file have all data
  exactly when no data for an earlier read is still to be set; promises are set after the lock is released, so
  end-of-file can overtake data (`PipeSteps.EofOvertakes`).
- **A discarded chain runs no continuation** (`Futures.DiscardedChain`) unless its head is the result of recover, which
  clears the discard flag when it recovers (`Futures.RecoverForgets`).
- **The query string determines the map** (`Codec.QueryRoundTripIff`) exactly when the empty key does not have the
  empty value.

## How the models relate to the code

- An *activity* in `Actor` is one call in progress, not a thread. A handler that calls back into the runtime is a
  second activity, so all nesting is covered, and some schedules that one thread could not produce.
- `Actor` follows one process; `System` joins any number of them through one run queue. The lock `processes_mutex`
  is only modelled where cleanup of the same process holds it; letting other processes ignore it adds runs.
- `accepted`, `log`, `owner`, `asked`, `sent`, `book` and the like are auxiliary: steps write them and never decide on
  them. What they hold is tied to the calls of the run by lemmas of their own (`Delivery.AcceptedArePushed`,
  `SocketLaws.HandedIsAsked`, `ClockModel.CreatedAreMade`, `PipeSteps.AcceptedAreWritten`, `FutureLaws.CallsAreTaken`).
- In `Sockets` new descriptors are unique while referenced, the receive loop of an outbound socket starts once it is
  connected and may close the socket before next or the first send, and encoders for HTTP responses go to inbound
  sockets.
- `Watching` keeps the links as a set; `Links.Tables` proves that the tables hold exactly that set and that its methods
  change it in the same way (`AfterAddress`, `AfterProcess`).
- In `ClockModel` EventLoop::delay adds to a multiset of pending ticks; any tick that is due may run next, one at a
  time.
- In `Futures` what a thread has left to do after a locked block is a bag of tasks performed in any order. This covers
  every interleaving, and also orders of callbacks that the code does not use. The six callback vectors of each
  future are one table keyed by future and kind. Continuations and user callbacks are arbitrary.
- `PipeSteps` is the pipe's concurrent code; `PipeModel` is the simpler pipe that it is proved to refine.
- "Nobody has anything in hand about a future" (`Futures.Idle`) speaks of the tasks that can still change that future
  or pass its discard on; other futures may be as busy as they like.

## Model

| member | source | states |
|---|---|---|
| `Actor.SoundKept` | src/process.cpp:2858-3171 | the invariant (one token, state fits its holder, references, wakeups, event ledger) survives every step of spawn, use, deliver, enqueue, resume, wait and cleanup, whatever filters drop |
| `Actor.InvKept` | src/process.cpp:3013-3021 | with filters that spare injected TerminateEvents, a raised `termination` also always has its event in the mailbox or in hand |
| `Actor.InvAlways` | src/process.cpp:2858-3171 | every state reachable without a second registration has the first invariant, and with tame filters the second |
| `Actor.OneToken` | src/process.cpp:2924-3005 | a process has exactly one run token (one activity or one run-queue entry) when it is BOTTOM and registered, READY, or terminating, and none when BLOCKED or gone, so two threads never serve it |
| `Actor.OrderAlways` | src/process.cpp:2858-3171 | under every policy a reachable process has the invariant, or is one that was registered again after its cleanup and is never served |
| `Actor.NoLostWakeup` | src/process.cpp:2970-3005 | in every run, with no producer between push and state check and no worker between its BLOCKED store and re-check, BLOCKED means an empty mailbox, also when the state went round in between |
| `Actor.WakeEnq` | src/process.cpp:3551-3612 | each step of enqueue keeps: BLOCKED with mail has a waker under way |
| `Actor.WakeResume` | src/process.cpp:2970-3005 | each step of resume keeps the same |
| `Actor.Conservation` | src/event_queue.hpp:112-158 | in every run the i-th accepted event is the i-th disposed of (served, filtered, purged or drained); the rest is in hand and then in the mailbox, in order; after decomission the mailbox is empty |
| `Actor.ExpiredForGood` | src/process.cpp:3117-3171 | once the wait on the weak reference is over, nobody holds a reference, no path of use yields one, no event is accepted, and no later step changes that |
| `Actor.NoFault` | src/process.cpp:2936-3073 | the invariant excludes every failing CHECK, null reference and dequeue of an empty mailbox |
| `Actor.ChecksHoldIff` | src/process.cpp:2858-3106 | no CHECK of resume or cleanup fails in any run if and only if no filter drops an injected TerminateEvent and no spawn registers an object that has left BOTTOM |
| `Actor.DroppedTerminateFaults` | src/process.cpp:3013-3021 | a run in which a filter drops the injected TerminateEvent and the purge loop then dequeues an empty mailbox |
| `Actor.SecondSpawnFaults` | src/process.cpp:2870-2893 | a run in which a late second spawn puts a terminated process in the run queue and resume's CHECK fails |
| `Actor.OnlyPurgeFaults` | src/process.cpp:3013-3021 | whatever filters drop, the purge of an empty mailbox is the only CHECK that can fail |
| `Actor.OneSpawnIsGuarded` | src/process.cpp:2858-2921 | with at most one call of spawn, the unguarded code has only guarded runs |
| `Actor.OneSpawnIsSafe` | src/process.cpp:2858-3106 | with at most one call of spawn there is never a second token, and no CHECK fails unless a filter drops an injected TerminateEvent |
| `Delivery.RefusedOnlyWhenOver` | src/process.cpp:3551-3580 | in every run a call of enqueue is refused only by a process that is terminating or decomissioned; otherwise it pushes its own event at the end of the mailbox and then looks at the state again |
| `Delivery.AcceptedArePushed` | src/process.cpp:3551-3580 | in every run the accepted events are exactly those pushed by calls, in the order of the pushes |
| `Delivery.EndedCallIsAccepted` | src/process.cpp:3580-3612 | in every run a call past its push has its event among the accepted ones |
| `Delivery.InjectedRaises` | src/process.cpp:3587-3593 | in every run an injected TerminateEvent's call has raised `termination` once past its store, and nothing else raises it |
| `Delivery.EndsByTerminate` | src/process.cpp:3007-3073 | in every run a process leaves its event loop only after a TerminateEvent was served or was dropped after a purge, and has left it once one was served |
| `Delivery.ServeSteps` | src/process.cpp:3007-3064 | with `termination` raised the events before the TerminateEvent are purged one by one, otherwise the event is served |
| `Delivery.OthersServeNothing` | src/process.cpp:3048-3064 | nothing else serves or purges an event |
| `Delivery.SpawnQueues` | src/process.cpp:2858-2921 | a spawn that finds the object unused and its name free registers it and queues it once |
| `Delivery.WaiterDonates` | src/process.cpp:3218-3265 | a waiter that finds the process queued takes it out and runs it, one that does not leaves it alone |
| `Delivery.IdleProcessServes` | src/process.cpp:2924-3612 | a run in which a process is spawned, rests, is sent an event while BLOCKED, is woken, and serves it |
| `RunQueue.ExtractFirst` | src/run_queue.hpp:54-69 | extract removes the first occurrence; everything else stays, in order |
| `System.QueueMatches` | src/run_queue.hpp:54-97 | pushes, pops and extractions of the shared queue are exactly what the process records as its own queue entries |
| `System.InvKept` | src/process.cpp:3218-3265 | the per-process invariants and the queue stay in step through any action of any process |
| `System.QueueIsExclusive` | src/process.cpp:3328-3369 | in every interleaving no process is queued twice, a queued one is run by no thread, and none that is queued is BLOCKED or TERMINATING |
| `RunQueue.EveryEntryCovered` | src/run_queue.hpp:54-97 | queue length is at most the semaphore value plus workers past wait and before dequeue plus pushers before their signal, even with extract |
| `RunQueue.NothingStranded` | src/run_queue.hpp:71-97 | with no such worker or pusher there is a unit for every queued process |
| `RunQueue.DecommissionWakesAll` | src/semaphore.hpp:142-171 | after decomission the value covers every thread still blocked, from its first store on nobody starts to block, and `waiters` and `running` never underflow |
| `RunQueue.SettleMeansQuiet` | src/process.cpp:3378-3435 | every call of settle returns only in quiet states if and only if no thread that `running` does not count pushes during a call |
| `RunQueue.SettleOutwaitsWork` | src/process.cpp:3350-3435 | a run without outsiders in which settle is called with a process queued and returns after it has run |
| `RunQueue.QuietStable` | src/process.cpp:3350-3369 | during a call without outsiders, once no thread holds a process and none is queued, that stays so |
| `RunQueue.OutsiderUnsettles` | src/run_queue.hpp:76-83 | a run in which an outside push makes settle return with a process queued |
| `RunQueue.QueueSteps` | src/run_queue.hpp:54-97 | a push appends, a worker takes the first, a donor takes out what it wants if it is there, nothing else changes the queue |
| `RunQueue.UnitsConserved` | src/run_queue.hpp:71-97 | in every run the semaphore's units are the signals given less the threads passed, and the epoch counts the pushes but for those whose bump is still to come |
| `LifoSemaphore.NoLostSignal` | src/semaphore.hpp:258-373 | while a thread is parked or past its last look, count is at most woken plus signalling threads; at rest a sleeper means count is zero; `waiters` never underflows; no permit is doubled |
| `LifoSemaphore.WaitersDelta` | src/semaphore.hpp:258-373 | a step changes `waiters` exactly by what it does to the thread and the array |
| `LifoSemaphore.WaitersKept` | src/semaphore.hpp:284-360 | `waiters` is the number of enlisted threads, filled slots and decrementing signallers |
| `LifoSemaphore.UnitsKept` | src/semaphore.hpp:258-373 | every step keeps the bound on count |
| `LifoSemaphore.UnitsConserved` | src/semaphore.hpp:258-373 | in every run each unit given by signal is still there or let exactly one wait pass |
| `LifoSemaphore.CallsAccounted` | src/semaphore.hpp:258-373 | in every run each call of signal has given its one unit or is about to, and each call of wait has passed, has left a decomissioned semaphore, or is still waiting |
| `LifoSemaphore.WaitReturns` | src/semaphore.hpp:308-373 | a wait returns only by taking a unit or because of decomission, and one that looks after decomission does not go to sleep |
| `LifoSemaphore.ScansGoOn` | src/semaphore.hpp:276-360 | signallers and waiters go through the array slot by slot and begin again at its end |
| `LifoSemaphore.PostWakesTarget` | src/semaphore.hpp:284-371 | a post wakes exactly the thread taken out of the array, and a waiter puts itself in the slot it found empty |
| `MpscQueue.RefinesFifo` | src/mpsc_linked_queue.hpp:68-133 | every step is a step of a FIFO queue: the head exchange appends, moving `tail` removes the first element and returns that one, nothing else changes it |
| `MpscQueue.EmptyIsExact` | src/mpsc_linked_queue.hpp:88-168 | null from dequeue and true from empty come at an instant when the queue is empty, false from empty when it is not |
| `MpscQueue.MemorySafe` | src/mpsc_linked_queue.hpp:68-133 | no step reads or writes a freed node, and a spinning consumer has a producer about to link |
| `MpscQueue.SafeKept` | src/mpsc_linked_queue.hpp:68-168 | the chain, its contents, its links and the producers' positions stay consistent |
| `MpscQueue.ReturnsWhatItRemoved` | src/mpsc_linked_queue.hpp:88-133 | in every run dequeue returns the very element it removed |
| `MpscQueue.EnqueueCarries` | src/mpsc_linked_queue.hpp:68-86 | enqueue publishes a node that holds its argument |
| `MpscQueue.CarriedStays` | src/mpsc_linked_queue.hpp:68-86 | nobody touches that node before the exchange |
| `MpscQueue.DequeueProceeds` | src/mpsc_linked_queue.hpp:88-133 | dequeue goes on as soon as the first node is linked, and spins only while the queue is not empty |
| `MpscQueue.ProducerLinks` | src/mpsc_linked_queue.hpp:68-86 | a producer links its node behind the one it found |
| `ClockModel.NoTimerStranded` | src/clock.cpp:88-184 | an expired timer always has a tick that is already due, and while the clock runs every timer has one due by its time, through cancel, pause, stale ticks, advance, update and resume |
| `ClockModel.SettledIsSound` | src/clock.cpp:455-474 | settled is true only if no timer at or before the current time remains and no batch of this pause is in its callbacks |
| `ClockModel.SettlingEnds` | src/clock.cpp:142-201 | when `settling` is set the clock is paused and a tick is in progress or due |
| `ClockModel.FiresOnce` | src/clock.cpp:142-184 | created timers are in the table, canceled or fired, each once |
| `ClockModel.CollectsExpired` | src/clock.cpp:142-184 | a tick takes exactly the timers at or before now, and leaves the others |
| `ClockModel.InvKept` | src/clock.cpp:88-427 | every operation keeps the table sorted, a prompt tick for each recorded one and for the earliest timer, the settling rule and the timer ledger |
| `ClockModel.ScheduleKeeps` | src/clock.cpp:119-139 | scheduling fewer ticks than timers still leaves a prompt tick for the earliest timer |
| `ClockModel.InsertSorted` | src/clock.cpp:265-299 | inserting keeps the table strictly sorted, with the expected first time |
| `ClockModel.InsertIs` | src/clock.cpp:265-299 | a new timer goes to the end of the bucket of its time; every other bucket is untouched |
| `ClockModel.RemoveIs` | src/clock.cpp:302-320 | the bucket of that time keeps its other timers in order, without the canceled one, and goes with its last |
| `ClockModel.RemoveSpares` | src/clock.cpp:302-320 | cancel leaves every other bucket alone |
| `ClockModel.TimeLaws` | src/clock.cpp:323-427 | pausing stops time, advance moves it by exactly its argument and survives resume, update never moves it back |
| `ClockModel.ExpiryLaws` | src/clock.cpp:142-175 | expired and remaining timers split the table, and the remaining ones are later than now |
| `ClockModel.BatchInOrder` | src/clock.cpp:142-184 | in every run a tick's batch is the expired buckets laid end to end by index, earliest first, each in the order of its list, and is what is counted as fired |
| `ClockModel.DropIs` | src/clock.cpp:302-320 | canceling keeps the other timers of a bucket, all of them and in order |
| `ClockModel.CreatedAreMade` | src/clock.cpp:265-299 | in every run the timers accounted for are those made by calls |
| `ClockModel.TimerChanges` | src/clock.cpp:265-299 | in every run a new timer goes to the end of the bucket of its time, or into a bucket of its own |
| `ClockModel.CancelChanges` | src/clock.cpp:302-320 | in every run cancel changes only the bucket of that time, and there only takes out the timer |
| `ClockModel.SchedulesOnlyEarlier` | src/clock.cpp:119-139 | a tick is scheduled only for the earliest timer, only if it can elapse, and only if no recorded tick is as early |
| `ClockModel.SettledInTheEnd` | src/clock.cpp:455-474 | paused, with nothing due and no tick in progress, settled is true or a tick is due, and after a tick has run it is true |
| `ClockModel.SettlingOutlivesTimer` | src/clock.cpp:186-201 | a run in which settled is false although nothing is due and no tick is in progress |
| `ClockCode.Clock.Schedule` | src/clock.cpp:119-139 | the code of scheduleTick does what the model says |
| `ClockCode.Clock.Timer` | src/clock.cpp:265-299 | the in-place insertion is `AddTimer` |
| `ClockCode.Clock.Cancel` | src/clock.cpp:302-320 | the in-place removal is `Cancel`; it answers true whenever some timer has that time |
| `ClockCode.Clock.Pause` | src/clock.cpp:323-346 | stops the clock at its current time and forgets the recorded ticks, not the pending ones |
| `ClockCode.Clock.Resume` | src/clock.cpp:355-371 | restarts the clock and schedules |
| `ClockCode.Clock.Advance` | src/clock.cpp:374-389 | moves the paused clock and schedules |
| `ClockCode.Clock.Update` | src/clock.cpp:411-427 | moves the paused clock forward only |
| `ClockCode.Clock.FindExpired` | src/clock.cpp:142-175 | the loop collects all expired timers in time order and nothing else |
| `ClockCode.Clock.BeginTick` | src/clock.cpp:142-184 | the locked part of tick, its batch included |
| `ClockCode.Clock.EndTick` | src/clock.cpp:186-201 | `settling` is cleared only if nothing is due |
| `ClockCode.Clock.IsSettled` | src/clock.cpp:455-474 | answers the model's `Settled` |
| `Settling.SettleWaitsForTimers` | src/process.cpp:3378-3435 | with timers firing during the call, settle returns only when nothing is queued, held or being pushed, no timer is due and no callback runs, if and only if during the call no other thread pushes, none uses the clock, the clock is not resumed, and no tick from before the pause is in its callbacks |
| `Settling.SettleKeeps` | src/process.cpp:3378-3435 | each load of settle keeps: what it found out still holds, the event loop is in the middle of a push, or the epoch has moved on |
| `Settling.StillKept` | src/process.cpp:3410-3428 | rest is disturbed only by the callbacks of a tick, whose push bumps the epoch before the tick ends |
| `Settling.RestKept` | src/clock.cpp:142-201 | once nothing is due, a stale tick runs no callback and no clock operation disturbs the rest |
| `Settling.SettleOutwaitsTimer` | src/process.cpp:861-879 | a run in which a timer fires during the call, its callback queues a process, another thread runs it, and settle then returns |
| `Settling.PushUnsettles` | src/process.cpp:3372-3377 | a run in which another thread's push makes settle return too early |
| `Settling.TimerUnsettles` | src/process.cpp:3420-3428 | a run in which another thread makes a due timer after the clock was asked |
| `Settling.ResumeUnsettles` | src/clock.cpp:355-371 | a run in which the clock is resumed after it was asked, and a timer becomes due |
| `Settling.StaleTickUnsettles` | src/clock.cpp:161-163 | a run in which a tick collects a timer, the clock is then paused and settle called, nobody else acts, and settle returns with the callbacks still running |
| `Links.Tables.Link` | src/process.cpp:1688-1692 | adds exactly one link; the tables stay inverse and `remotes` exact |
| `Links.Tables.ExitedAddress` | src/process.cpp:2274-2306 | each link to a process at that address ends with exactly one ExitedEvent, all others stay, no CHECK fails |
| `Links.Tables.EndLinks` | src/process.cpp:2282-2305 | the loops over the linkees at the address and their linkers |
| `Links.Tables.ExitedProcess` | src/process.cpp:2309-2370 | each linker gets exactly one ExitedEvent, the exited process's own links go, and nothing mentions it any more |
| `Links.Tables.NotifyAll` | src/process.cpp:2274-2306 | every linker of one linkee is told once and unlinked |
| `Links.Tables.ForgetLinker` | src/process.cpp:2309-2370 | an exited process is removed from every linkee, with `remotes` following |
| `Links.Erase` | src/socket_manager.hpp:92-102 | removes one pair and never leaves an empty set |
| `Sockets.TablesStayConsistent` | src/process.cpp:1544-2422 | no run fails a CHECK, and in every state sockets, addresses, temps, persists, dispose, outgoing and proxies agree, with a queue exactly while one agent works |
| `Sockets.OneSenderInOrder` | src/process.cpp:1859-2151 | on a live socket what was sent is a prefix of what was asked, and never two agents work on it |
| `Sockets.SwapKeepsRest` | src/process.cpp:2373-2422 | a swap hands the unsent rest to the new socket, in order, and repeats nothing |
| `Sockets.LossIsReported` | src/process.cpp:2164-2246 | in every step of every run exited is called once for each address that loses its persistent socket without a successor, and for no other |
| `Sockets.NoFault` | src/process.cpp:2074-2151 | no CHECK of send, next or swap can fail where the tables agree |
| `Sockets.InvKept` | src/process.cpp:1544-2422 | every locked block keeps the tables consistent |
| `Sockets.CreatedKeeps` | src/process.cpp:1603-1693 | a new persistent or temporary socket keeps the tables consistent |
| `Sockets.ClosedKeeps` | src/process.cpp:2164-2246 | close keeps the tables consistent |
| `Sockets.CloseLeavesNoTrace` | src/process.cpp:2164-2246 | in every run, after a close by the receive loop, a failed connect or a failed send, no table mentions the socket |
| `Sockets.QueuedKeeps` | src/process.cpp:1859-1888 | queueing behind a sender, or starting one, keeps the order and the one sender |
| `Sockets.NextAdvances` | src/process.cpp:2074-2151 | in every run next sends the encoder that waited longest, or the socket becomes idle and, if to be disposed of, vanishes from all tables |
| `Sockets.SwappedKeeps` | src/process.cpp:2373-2422 | the swap keeps the tables consistent and the order of encoders |
| `Sockets.ReconnectTakesOver` | src/process.cpp:1603-1693 | in every run, after a reconnect no table mentions the old socket, and the new one is persistent with the same queue, proxy and disposal |
| `SocketLaws.HandedIsAsked` | src/process.cpp:1859-2055 | in every run each encoder or message handed in for a live socket, or for the persistent, temporary or new socket of its address, is added at the end of what that socket is asked, and to no other |
| `SocketLaws.SocketsAreMade` | src/process.cpp:1603-2055 | in every run link makes a persistent socket where there is none, a message a temporary one, accept a live one; proxies come and go by their calls |
| `SocketLaws.DisposalIsMarked` | src/process.cpp:1859-1888 | in every run a response that does not persist marks its socket for disposal, and one that persists does not |
| `SocketLaws.ConnectedSends` | src/process.cpp:1564-1580 | in every run a connected socket sends the message it was made for, or what waits longest |
| `SocketLaws.ConnectReceives` | src/process.cpp:1544-1562 | in every run a connect that succeeds starts the receive loop and touches no table |
| `SocketLaws.DowngradeTakesOver` | src/process.cpp:1497-1535 | in every run, after a downgrade no table mentions the old socket, and the new one has its place in each |
| `SocketLaws.OnlyTheseGo` | src/process.cpp:2074-2246 | in every run a socket goes only because it is closed, swapped out, or to be disposed of and drained |
| `Watching.RemoteLinksAreWatched` | src/process.cpp:1603-1693 | in every joint run each link to a remote process has a live persistent socket to its address, through close, failures, reconnects and downgrades |
| `Watching.EachLinkEndsOnce` | src/process.cpp:2274-2370 | in every joint run a link that was made is there, or ended with exactly one ExitedEvent, or went with its linker |
| `Watching.LossEndsItsLinks` | src/process.cpp:2184-2201 | a step that loses a persistent socket calls exited for that address only, and ends exactly the links to it, with one event each |
| `Watching.WatchKept` | src/process.cpp:2184-2201 | links end only by calls of exited, and because those calls are exactly the losses every remote link stays watched |
| `Watching.CallsAreLosses` | src/process.cpp:2184-2201 | each step calls exited for exactly the addresses that lose their persistent socket |
| `Watching.NoLinkToTheDead` | src/process.cpp:2309-2370 | in every joint run no link from or to a local process that has exited is left or made |
| `Watching.TallyKept` | src/process.cpp:2274-2370 | every step keeps the account of links |
| `Watching.LinkIsMade` | src/process.cpp:1584-1693 | in every joint run a link that succeeds is in place afterwards and tells nobody, one that fails tells the caller once and changes no link |
| `Watching.ExitEndsItsLinks` | src/process.cpp:2309-2370 | in every joint run the exit of a process ends its own links silently and every link to it with one ExitedEvent |
| `Futures.NeverUnset` | include/process/future.hpp:1000-1027 | over any run outcomes and associations once set never change, flags are never cleared and a completed future changes no more, save that recover may clear the discard flag of the future it returned |
| `Futures.CallbacksRunOnce` | include/process/future.hpp:1376-1460 | a registered callback that nobody is about to register or run has run exactly once if its kind matches the state, and otherwise never, whatever goes on elsewhere; on-discard callbacks of a recover are the exception, as its flag may be cleared |
| `Futures.NoStrayCallback` | include/process/future.hpp:1766-1822 | at any time no callback has run more often than registered, or without cause |
| `Futures.CompletionWakes` | include/process/future.hpp:1766-1822 | a completion makes due exactly the stored callbacks of its kind and the on-any ones, each as often as stored, and leaves none stored |
| `Futures.CascadeEnds` | include/process/future.hpp:1000-1027 | from any state every sequence of steps without new calls is bounded by a number computed from that state |
| `Futures.NeverStuck` | include/process/future.hpp:1000-1027 | whatever is left to do can be done |
| `Futures.OutcomeTravels` | include/process/future.hpp:852-899 | along any path of associations every future has the status of the last once nobody has anything in hand about those before it |
| `Futures.AgreeIffSerial` | include/process/future.hpp:808-909 | an associated future never has an outcome its source lacks, in any run, if and only if promises are not completed while being associated |
| `Futures.ClashDisagrees` | include/process/future.hpp:834-861 | a run in which a completion that passed its check overtakes an associate |
| `Futures.ChainStops` | include/process/future.hpp:1467-1502 | a failed or discarded head, or one that is ready with a discard, settles the later futures of a then chain the same way, with no continuation called, once nobody has anything in hand about them |
| `Futures.DiscardClimbs` | include/process/future.hpp:1157-1178 | a discard at the end of a chain with a pending head has marked every future in it once nobody has anything in hand about the chain |
| `Futures.DiscardedChain` | include/process/future.hpp:1576-1619 | once the pending futures of a chain are marked, in any continuation of the run, with anything in progress, no continuation is called; a head that becomes READY leaves all later futures DISCARDED, one that fails passes on its message; the head must not be the result of recover |
| `Futures.RecoverForgets` | include/process/future.hpp:1625-1668 | a run in which a discard of what recover returned is cleared when it recovers, and the continuation behind it is called |
| `Futures.RecoverPasses` | include/process/future.hpp:1625-1668 | once the future before it is done, what recover returned is completed or associated; a READY outcome passes through unless that future was abandoned |
| `Futures.ResetSafe` | include/process/future.hpp:1636-1660 | clearing the flag under the lock keeps the provenance of every outcome, association and discard |
| `Futures.ContinuesOnce` | include/process/future.hpp:1467-1502 | the callback of a then runs at most once, exactly once after the future before it completes, and leaves its own future completed or associated |
| `Futures.ShieldPasses` | include/process/future.hpp:1925-1936 | undiscardable's result has the status of its input once nobody has anything in hand about it |
| `Futures.ShieldHolds` | include/process/future.hpp:1925-1936 | a region of futures used from outside only through undiscardable, and never discarded directly, never sees a discard |
| `Futures.StepSafe` | include/process/future.hpp:800-1027 | every step keeps the provenance of each task, outcome, association and discard |
| `Futures.StepLag` | include/process/future.hpp:1376-1460 | every step keeps the ledger of callbacks balanced |
| `Futures.EffectsStep` | include/process/future.hpp:1467-1502 | what an invoked callback set off has happened or is under way |
| `FutureLaws.ContinuationArrives` | include/process/future.hpp:1467-1502 | in every run what the continuation of a then or a recover returned arrives: a plain value becomes the outcome, a future becomes the one it is associated with; a recover on an abandoned future is excepted |
| `FutureLaws.ContinuationIsCalled` | include/process/future.hpp:1467-1502 | in every run the continuation of a then is called if the future before it is READY without a discard, that of a recover if it is FAILED or DISCARDED |
| `FutureLaws.AskedIsMarked` | include/process/future.hpp:1157-1178 | in every run a future somebody asked to discard is marked or was completed first |
| `FutureLaws.DiscardFollows` | include/process/future.hpp:852-899 | in every run a discard of an associated future, or of what recover returned, reaches the future it stands for while that is pending |
| `FutureLaws.AbandonTravels` | include/process/future.hpp:1180-1204 | in every run abandonment passes to the future then made, unless it has gone on, and to an associated one, unless it is complete |
| `FutureLaws.CallsAreTaken` | include/process/future.hpp:1336-1460 | each call is taken up once: a registration is recorded, a discard remembered |
| `FutureLaws.PromiseTakes` | include/process/future.hpp:808-909 | setting, failing or discarding a free promise gives its future that outcome, and on any other does nothing |
| `FutureLaws.OthersTake` | include/process/future.hpp:852-1204 | associate ties only a free future, discard marks only a pending one, abandon only a pending one that is not associated unless it propagates |
| `PipeSteps.RefinesAtomic` | src/http.cpp:459-629 | every interleaving of locked blocks and of promises set after the lock does what a pipe does that answers in the locked block, with some answers still on their way |
| `PipeSteps.StepRefines` | src/http.cpp:502-629 | a locked block does what its operation does, and setting a promise changes nothing of it |
| `PipeSteps.NeverBothQueued` | src/http.cpp:459-545 | at every instant reads and writes are not both queued, reads are queued only while both ends are open, and a pending read is queued or has its answer on the way |
| `PipeSteps.KthReadGetsKthWrite` | src/http.cpp:459-576 | at every instant the k-th read that has or is about to have data has the k-th accepted non-empty write |
| `PipeSteps.DrainedBeforeEof` | src/http.cpp:459-602 | whoever sees end-of-file comes after reads that have or are about to have every accepted byte in order, and they have it already if and only if no data for an earlier read is still on its way |
| `PipeSteps.EofOvertakes` | src/http.cpp:548-602 | a run in which a read sees end-of-file while the read before it, already taken by a write, is still pending |
| `PipeSteps.ResultsAreFinal` | src/http.cpp:459-629 | a settled read never changes |
| `PipeSteps.NotifiedIff` | src/http.cpp:502-545 | over any run the writer is notified, or about to be, exactly if the reader closed while the write end was open |
| `PipeSteps.AcceptedAreWritten` | src/http.cpp:548-576 | in every interleaving the accepted writes are those made before anyone closed or failed an end, in order |
| `PipeSteps.EndReachesReaders` | src/http.cpp:579-629 | in every interleaving a failure of the write end reaches every read that gets no data with its message, and a close as end-of-file, now or on its way |
| `PipeModel.InvKept` | src/http.cpp:459-629 | every operation keeps the queues, the flow of data and what each result says |
| `PipeCode.Pipe.Settle` | src/http.cpp:529-532 | the loop sets exactly the promises taken out, and leaves what others still have to set |
| `PipeCode.Pipe.Read` | src/http.cpp:459-478 | read does what the model says |
| `PipeCode.Pipe.TakeReader` | src/http.cpp:508-525 | the locked block of Reader::close |
| `PipeCode.Pipe.CloseReader` | src/http.cpp:502-545 | throws away the backlog, fails the pending reads, notifies the writer if it was open, and owes nothing afterwards |
| `PipeCode.Pipe.Write` | src/http.cpp:548-576 | accepted exactly if both ends are open; goes to the first pending read or to the backlog |
| `PipeCode.Pipe.CloseWriter` | src/http.cpp:579-602 | gives pending reads end-of-file |
| `PipeCode.Pipe.FailWriter` | src/http.cpp:605-629 | gives pending reads the failure |
| `PipeCode.Pipe.ReadAll` | src/http.cpp:481-499 | however interleaved with locked blocks and promises of others, a finished readAll together with what earlier reads have or are about to have is the concatenation of all accepted writes; failures are those of the ends; once an end is closed every turn makes progress unless its answer is still on the way |
| `Codec.EncodeLoop` | src/http.cpp:777-826 | the loop computes `Encode` |
| `Codec.DecodeLoop` | src/http.cpp:829-863 | the loop computes `Decode`, errors included |
| `Codec.RoundTrip` | src/http.cpp:777-863 | decoding an encoded string gives it back, for all byte strings and all extra characters |
| `Codec.DecodesIff` | src/http.cpp:829-863 | decoding fails exactly on a percent sign not followed by two hexadecimal digits |
| `Codec.EncodeInjective` | src/http.cpp:777-826 | different strings never have the same encoding |
| `Codec.EncodedIsClean` | src/http.cpp:777-826 | no character that must be escaped survives |
| `Codec.EncodeQueryLoop` | src/http.cpp:927-940 | the loop computes `EncodeQuery` for the order of iteration |
| `Codec.DecodeQueryLoop` | src/http.cpp:895-924 | the loop computes `DecodeQuery`, errors included |
| `Codec.QueryComesBack` | src/http.cpp:896-940 | in every order of iteration decoding gives the map back, less an empty entry |
| `Codec.QueryRoundTripIff` | src/http.cpp:896-940 | the map comes back if and only if the empty key does not have the empty value |
| `Codec.EmptyEntryIsLost` | src/http.cpp:896-940 | the map from the empty key to the empty value comes back empty |
| `Codec.EncodesTo` | src/http.cpp:777-826 | a byte is escaped exactly if it is listed, a control character, not ASCII or extra, as a percent sign and two upper-case digits |
| `Codec.ReservedAreListed` | src/http.cpp:783-809 | the listed characters, one by one |
| `Codec.DigitsAre` | src/http.cpp:829-863 | digits are written in upper case and read in both |
| `Codec.PlainDecodes` | src/http.cpp:833-837 | outside escapes a plus becomes a space and everything else stays |
| `Codec.EscapeDecodes` | src/http.cpp:839-858 | an escape stands for the byte of its two digits, in either case |
| `Codec.SemicolonsSeparate` | src/http.cpp:900 | a semicolon separates just as an ampersand does |
| `Codec.QueryDecodesIff` | src/http.cpp:895-924 | a query decodes exactly when each of its parts does |
| `Codec.LaterWins` | src/http.cpp:902-921 | of two entries for one key the later counts |
| `Codec.QueryIsJoined` | src/http.cpp:927-940 | an encoded query is its items with one ampersand between each two and none at the end |

## Left out

- Weak memory orders: all steps are sequentially consistent.
- Sockets, TLS, files, subprocesses, the event loop back ends, gRPC and HTTP parsing: I/O and foreign code.
- The lock-free event queue and the lock-free run queue: the scheduler is modelled over the locking ones, and the linked queue on its own.
- Draining at shutdown (joining threads, finalize) and the firewall, help, metrics and profiler endpoints.
- Decomission of the last-in-first-out semaphore waking every waiter: a late caller can take a unit meant for a parked one; only the kernel semaphore is claimed to wake all.
- Per-process clocks (`Clock::order`, `Clock::update` for one process): they do not affect ticks.
- Clock.Cancel: its answer is not "this timer was removed"; the code answers true when any timer has the same time.
- Sockets: the tables are a value updated by one function per locked block, not an object, because connects and sends in progress interleave with every block; in-place update is not captured.
- Actor, RunQueue, Settling, LifoSemaphore, MpscQueue, Watching, PipeSteps and Futures: protocol steps on values, not classes, for the same reason.
- Futures of different types: all carry one value type. Weak references always find their future, and the order in which the callbacks of one future run is not modelled.
- repair, after, select and await: repair is a then that also runs on failure, `after` depends on timers. A continuation of recover that is called twice, for an abandoned future that later fails, would abort in the code; the model lets it run.
- readAll: only one reader at a time uses the pipe while it runs.
- strings::tokenize and strings::split are taken as: drop empty tokens, split at the first separator.
- Error texts: decoding reports the offending escape, not the whole message.
