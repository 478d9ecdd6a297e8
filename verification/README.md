# Verified models of libcoroc

libcoroc is an M:N coroutine runtime: coroutines run on a few VPU threads that keep their own run
queues and steal from each other, and they synchronise through channels, `select`, timers, fork-join
groups and a net poller. This project models the protocols and data structures at its centre and proves
what they keep.

Concurrent code is written as a step relation: a `State`, one `Action` per atomic access, compare-and-swap,
lock operation or lock-protected section, `Enabled` and `Step`, and `IsRun` for whole interleavings of any
number of threads. Invariants are proved action by action, and the theorems speak about every state of
every run. Code that works in place on arrays or linked nodes is written as classes whose methods are
proved against sequences, bags or maps.

| module | subject |
|---|---|
| `FutexLock` | the three-state mutex: exclusion, no lost wake-up, nobody is stuck |
| `WorkStealing` | 512-slot rings with wrapping 32-bit indices, spill, refill and stealing: no task is lost or doubled |
| `UndisturbedQueues` | the same operations from call to return when nobody interferes: how many tasks move, which and where to |
| `Scheduler` | ready counters and the sleep/wake protocol of the VPUs, and where every task is |
| `Select` | suspension with lock hand-off, one-winner select, sorted lock chains, the asynchronous request pool |
| `Channel` | circular buffer, mailbox, send/receive/close: conservation and order of messages |
| `TimerHeap` | array heap with back-indices: add, delete, and the pass that fires due timers |
| `NetWait` | the race of event, timeout and waiter on one reference-counted descriptor |
| `Group` | fork-join counting and the wake-up of the parent |
| `CuckooTables` | cuckoo hashing with eviction and doubling, on values: no entry is lost or doubled |
| `CuckooWalk` | exactly when an insertion into it returns |
| `CuckooHash` | the table itself, in place, against those functions and a map |
| `IntrusiveQueue` | the doubly linked queue whose links live in the items, against a sequence |
| `Common` | optional values, counting and sums over sequences |

Several properties one would expect turn out not to hold of the code. Each of these has a member with a
concrete run or input, and one with the exact condition under which the property does hold:

- when all VPUs sleep, a queued task need not have an announcer of its own, only one in number
  (`Scheduler.AnnouncerMayBeForAnotherTask`); all have one exactly if, at the check with which the last VPU
  went down, as many threads had counted their task and were still to announce it as had lost theirs before
  counting it (`Scheduler.OwnAnnouncerIff`, `Scheduler.SleepersExact`);
- senders overtake each other on bounded channels (`Channel.BoundedChannelsOvertake`), exactly when a send
  finds room in the buffer while another still waits (`Channel.OvertakingBreaksOrder`);
- deleting a timer can break the heap order (`TimerHeap.DeleteCanBreakHeap`, `TimerHeap.DeleteKeepsHeapIff`),
  and a firing pass can then stop with a due timer still pending (`TimerHeap.PassCanMissTimer`); when a
  deletion leaves a due timer below one that is not is exact (`TimerHeap.DeleteKeepsDueUpIff`), that a pass
  finds all due timers otherwise is one direction only (`TimerHeap.Manager.Fire`);
- `coroc_group_sync` can return with the group's lock held, which stops a notifier that has not yet read
  the parent for good (`Group.SyncCanKeepLock`, `Group.LockKeptIff`, `Group.KeptLockBlocksCloser`);
- inserting a fresh key into the hash table need not return (`CuckooHash.ThreeInTwoSlots`,
  `CuckooHash.FourInThreeSlots`); it returns, with enough doublings, exactly if no set of stored keys with
  it is larger than the number of its hash values in both tables (`CuckooWalk.ReturnsIffFits`), and then a
  given number of doublings is enough (`CuckooWalk.PlacedInTheEnd`);
- items from the middle of a range added to a queue do not record it, so extracting them does nothing
  (`IntrusiveQueue.MiddleOfRangeStays`); `IntrusiveQueue.Queue.Extract` removes exactly the items that do,
  and leaves a whole queue exactly if the item is not a first one with a stale `prev`;
- a poller's CAS can hit a descriptor that is already freed, exactly if the wait has a timer or there is a
  second poller (`NetWait.StaleClaimIff`, with the runs `NetWait.StaleAfterTimeout` and
  `NetWait.StaleAfterOther`);
- a wait without a deadline need not have a chance to return, as a failing `epoll_ctl` is ignored; it can
  return exactly if the descriptor is accepted (`NetWait.UntimedReturnsIff`).

Where code and comments disagree the model follows the code. One exception: `__resize` reads the key of
every slot, empty ones included (src/hash.c:21-23); the model skips empty slots, which is what it must mean.

## Model

| member | source | states |
|---|---|---|
| `FutexLock.RunsAreSafe` | src/futex_lock.c:16-73 | in every state of every run: at most one holder, the key is UNLOCKED exactly if there is none, and while a thread sleeps the key is SLEEPING, or an awake thread will install SLEEPING, or an unlocker owes a wake |
| `FutexLock.LockStep` | src/futex_lock.c:23-73 | each atomic access keeps mutual exclusion, the meaning of the key and `wait` never UNLOCKED |
| `FutexLock.WakeStep` | src/futex_lock.c:43-67 | each access keeps the no-lost-wakeup condition |
| `FutexLock.UnlockAssertHolds` | src/futex_lock.c:64-65 | the assertion in unlock holds whenever a holder unlocks |
| `FutexLock.StepRefinesLock` | src/futex_lock.c:16-73 | the futex refines a lock with an optional owner: a step leaves the owner alone, or takes a free lock, or frees its own |
| `FutexLock.ArrivalTakesFreeLock` | src/futex_lock.c:23-26 | the first exchange or a trylock on a free lock makes the thread its owner; on a held one a trylock fails without a trace, and a locker goes on to wait and remembers whether the key said SLEEPING |
| `FutexLock.WaiterTakesFreeLock` | src/futex_lock.c:31-46 | a waiter owns the lock after its CAS, or its exchange with SLEEPING, exactly if the lock was free, and the key is then what it remembered, or SLEEPING |
| `FutexLock.SleepsIff` | src/futex_lock.c:47 | the thread falls asleep exactly if the key still says SLEEPING, and otherwise tries again as one that has slept |
| `FutexLock.UnlockWakesIff` | src/futex_lock.c:57-68 | unlock frees the lock and owes a wake-up exactly if the key said SLEEPING |
| `FutexLock.SpinnerWins` | src/futex_lock.c:29-48 | with the lock free, a waiting thread that is awake gets it by its own steps |
| `FutexLock.WakerLeaves` | src/futex_lock.c:67 | a thread that owes a wake can deliver it and leave |
| `FutexLock.EveryoneCanLeave` | src/futex_lock.c:16-68 | from every good state, steps without spurious wake-ups bring every thread, sleepers included, out of the lock |
| `WorkStealing.NothingLostOrDuplicated` | src/vpu.c:28-133 | over every interleaving of owners and thieves each task is in as many places (rings, hands, global queue, running) as it started with, and the ring invariant holds |
| `WorkStealing.StepKeeps` | src/vpu.c:28-221 | every access keeps the invariant and moves tasks without losing or doubling one |
| `WorkStealing.OnePlaceOnly` | src/vpu.c:28-133 | a task that exists once is never in two queues, nor queued and running |
| `WorkStealing.CasIsExact` | src/vpu.c:33-39 | a CAS on the head succeeds exactly if nobody claimed since the read, and then the copied slots are the oldest n tasks |
| `WorkStealing.CasComparesModuloWord` | src/vpu.c:56-57 | the 32-bit comparison is blind to exactly the multiples of 2^32 claims |
| `WorkStealing.SlotOfWrapped` | src/vpu.c:53-54 | wrapping an index at 2^32 does not change its slot |
| `WorkStealing.StealTakesOldest` | src/vpu.c:92-131 | a thief that wins takes exactly the oldest tasks of the victim, at most 256, and leaves the rest in order; how many is `UndisturbedQueues.GrabIsExact` |
| `WorkStealing.RingBounds` | src/vpu.c:44-131 | a spill moves 256 tasks, copies fit their arrays, the steal assertion holds, a refill never finds its ring full and so never locks the global queue again |
| `WorkStealing.ClaimEvolves` | src/vpu.c:56-57 | moving the head drops the oldest n tasks of the window and nothing else |
| `WorkStealing.PublishEvolves` | src/vpu.c:77-79 | moving the tail appends the stored tasks to the window |
| `WorkStealing.StoreEvolves` | src/vpu.c:78 | writing a free slot leaves the window alone |
| `WorkStealing.AdvanceKeeps` | src/vpu.c:28-221 | the same for the accesses inside get, put, spill, refill, grab and steal |
| `UndisturbedQueues.Get` | src/vpu.c:28-42 | a get gives NULL exactly over an empty ring, and otherwise the oldest task, leaving the rest in order |
| `UndisturbedQueues.PutTask` | src/vpu.c:44-90 | a put into a ring with room appends the task; into a full one it moves the oldest 256 and then the task to the end of the global queue and leaves the other 256 |
| `UndisturbedQueues.GlobalIsQueue` | src/vpu.c:65-67 | every step of every VPU appends to the global queue at its end, takes one task off its front, or leaves it alone |
| `UndisturbedQueues.ElectFromGlobal` | src/vpu.c:188-212 | a refill takes min(length, 511) tasks off the global queue in order; the first one runs, the others fill the ring |
| `UndisturbedQueues.ElectFromNothing` | src/vpu.c:188-218 | a refill that finds the global queue empty by then changes nothing and the search goes on |
| `UndisturbedQueues.Steal` | src/vpu.c:92-133 | a steal gives NULL exactly if the victim has no task; otherwise n tasks, the oldest, leave a victim that had between 2n - 1 and 2n; the youngest of them runs and the others are the thief's ring |
| `UndisturbedQueues.GrabIsExact` | src/vpu.c:96-103 | in every run, whatever the others do: a thief that reads the tail while its head is fresh gives up exactly if the victim is empty, and otherwise goes for the larger half |
| `UndisturbedQueues.FailedCasRetries` | src/vpu.c:33-39 | a lost CAS in get, spill or grab changes nothing and starts the same request over |
| `UndisturbedQueues.Elect` | src/vpu.c:180-221 | core_elect as a whole asks the own ring, then the global queue, then the victim, hands out the oldest own task, else the first global one, else the youngest stolen one, and gives NULL exactly if all three are empty |
| `Scheduler.RunsAreSafe` | src/vpu.c:251-350 | the scheduler invariant holds in every state of every run |
| `Scheduler.NoLostWakeup` | src/vpu.c:298-350 | whenever all VPUs sleep unsignalled, at least as many threads still owe a wake-up as tasks are queued |
| `Scheduler.WakeReachesSleeper` | src/vpu.c:638-648 | a wake-up issued while all VPUs sleep must signal one of them |
| `Scheduler.WakeSignals` | src/vpu.c:638-648 | a wake-up signals the sleeper it picks and nobody else |
| `Scheduler.ReadiesWake` | src/vpu.c:529-562 | over every run, each vpu_ready on a VPU is over after exactly one vpu_wakeup_one or one yield |
| `Scheduler.SleepsIff` | src/vpu.c:298-348 | a VPU that found nothing falls asleep exactly if another one is up, or nothing is counted ready and requests are out; otherwise it is up and searches again |
| `Scheduler.ZeroMeansUncounted` | src/vpu.c:302-304 | reading `total_ready` as 0 with all VPUs down means at least as many threads still owe a count and a wake-up as tasks are queued |
| `Scheduler.CountersExact` | src/vpu.c:535-548 | `total_ready` and each `ready[p]` equal, modulo 2^32, queued plus taken-not-discounted minus queued-not-counted |
| `Scheduler.PrioritiesAgree` | src/vpu.c:269-277 | a queued task has its queue's priority and is in nobody's hands; the assertion in core_sched holds |
| `Scheduler.AnnouncerMayBeForAnotherTask` | src/vpu.c:529-562 | a run in which a task is queued, all VPUs sleep and the only thread left to wake one is announcing another task |
| `Scheduler.ZeroMeansAsMany` | src/vpu.c:302-304 | with all VPUs down and `total_ready` 0, exactly as many tasks are queued as threads have yet to count theirs |
| `Scheduler.OwnAnnouncersByNumber` | src/vpu.c:541-560 | in any state every queued task has a thread between enqueueing it and its wake-up if and only if there are as many such threads as queued tasks |
| `Scheduler.OwnAnnouncerIff` | src/vpu.c:302-304 | with all VPUs down and `total_ready` 0 that is so if and only if as many threads have counted their queued task and still owe its wake-up as have lost theirs before counting it |
| `Scheduler.SleepersExact` | src/vpu.c:298-311 | whenever all VPUs of a run sleep, their rest began with a check of the last VPU, and every queued task has its own announcer if and only if that balance held at the check |
| `Scheduler.AnnouncersStay` | src/vpu.c:541-560 | what other threads do while all VPUs rest changes nothing about that, in either direction |
| `Scheduler.CountedTasksKeepAnnouncers` | src/vpu.c:541-560 | in a run in which no task is taken before its thread has counted it, every queued task has an announcer of its own whenever all VPUs sleep |
| `Scheduler.TasksStep` | src/vpu.c:373-407 | every step keeps status, place and priority of each task consistent |
| `Scheduler.NoTaskIsLost` | src/vpu.c:239-562 | in every state of every run: a RUNNING task is on exactly one VPU, also while that VPU is inside vpu_ready; a READY one is queued or picked by exactly one VPU; a waiting or exited one is neither held nor queued |
| `Scheduler.OwnActs` | src/vpu.c:358-407 | a coroutine that leaves waits or is gone, one that yields is queued with its priority, and a new priority takes effect while it keeps running |
| `Scheduler.ExitIsFinal` | src/vpu.c:358-369 | a task that has exited never comes back, in any run |
| `Scheduler.CountersStep` | src/vpu.c:395-407 | every step keeps the counter equations |
| `Scheduler.AliveStep` | src/vpu.c:298-348 | `alive` is the number of VPUs that are up, at every step |
| `Scheduler.StepKeepsInv` | src/vpu.c:251-562 | every action keeps the whole invariant |
| `Select.RunsAreGood` | src/channel.c:101-384 | queues, locks, tags and statuses are consistent in every state of every run |
| `Select.ReadyFindsWaiting` | src/vpu.c:529-535 | every vpu_ready by a peer, a closer or a pool thread finds its target in WAIT, for the first time in that suspension |
| `Select.SelectHasOneWinner` | src/channel.c:331-378 | a suspended select ends with one completed case and one vpu_ready; `*active` is that case's channel; no quantum of it is left in a queue |
| `Select.QuantaAreLive` | src/channel.c:337-374 | a queued quantum belongs to a suspended agent and to the right case: a freed one is never reachable |
| `Select.WaitersAreQueued` | src/channel.c:337-351 | a waiting agent that nobody has completed is in the queue of each of its cases |
| `Select.EveryCaseWasTried` | src/channel.c:313-331 | in every run, when an agent enqueues itself or gives up, nobody waits on the other side of any of its cases |
| `Select.EmptyHandedGaveUp` | src/channel.c:313-331 | in every run, a call that leaves with no case completed has given up in that same call, after trying all cases |
| `Select.GivingUpIsFinal` | src/channel.c:329-383 | from then on it only releases its locks, until the agent's next call |
| `Select.OneCasePerCall` | src/channel.c:313-378 | when an operation or a select returns, at most one case has taken effect, by itself or through a peer, and `*active` is its channel |
| `Select.CloseEmptiesQueues` | src/channel.c:228-241 | when a close releases the lock, both queues of the channel are empty |
| `Select.SubmitterLeavesMutex` | src/async.c:100-117 | a submitter that is resumed is done: it never takes the pool's mutex again |
| `Select.WinnerWaits` | src/channel.c:101-110 | the owner of a fetched quantum is in WAIT with nothing completed, because its lock is released only afterwards |
| `Select.TargetWaits` | src/vpu.c:373-391 | the same at the call of vpu_ready |
| `Select.DropKeeps` | src/channel.c:103-107 | a quantum that loses the tag is dropped without any effect on its owner |
| `Select.FinishKeeps` | src/channel.c:358-378 | extraction removes all quanta of the selector and keeps the invariant |
| `Select.LocksNeverDeadlock` | include/inter/lock_chain.h:20-37 | in every reachable state, following "waits for a lock held by" from any agent that wants or holds a channel lock ends at one that can move |
| `Select.WaitCyclesAreHandOffs` | include/inter/lock_chain.h:24-37 | in every reachable state a cycle of waits exists only while core_wait is still releasing locks for a member, whose next step is enabled |
| `Select.HolderMoves` | src/channel.c:308-382 | an agent that holds locks and does not wait for one has an enabled step |
| `Select.WaitsClimb` | include/inter/lock_chain.h:24-32 | along a chain of waits without hand-offs the wanted locks strictly ascend |
| `Select.WantsHigher` | include/inter/lock_chain.h:24-32 | a waiter waits for a lock above all it holds |
| `Select.StepKeepsGood` | src/channel.c:101-384 | every action keeps the invariant and keeps waiters queued |
| `Channel.RingBuffer.CopyTo` | src/channel.c:35-48 | appends to the sequence of buffered values, or refuses exactly if it is full |
| `Channel.RingBuffer.CopyFrom` | src/channel.c:50-62 | removes the oldest value, or none exactly if it is empty |
| `Channel.RingBuffer.Clean` | src/channel.c:64-74 | empties the buffer and drops each value once, oldest first |
| `Channel.RunsAreSafe` | src/channel.c:112-252 | in every state of every run: receivers wait only over an empty buffer and send queue, messages are conserved and in line |
| `Channel.StepKeepsInv` | src/channel.c:112-252 | every operation keeps that |
| `Channel.SendServes` | src/channel.c:112-144 | a send is accepted exactly if a receiver waits, whose first gets the message, or the open channel has room; otherwise the sender queues up last if it may, and else is refused |
| `Channel.RecvServes` | src/channel.c:146-180 | a receive gets the next message in line exactly if there is one, and otherwise queues up last if it may; nobody else is turned away |
| `Channel.CloseReleases` | src/channel.c:219-252 | closing an open channel leaves nobody in either queue, refuses the waiting senders in order and drops the buffer exactly if it holds references |
| `Channel.CloseTwice` | src/channel.c:225-226 | a second close changes nothing |
| `Channel.ClosedMeansReleased` | src/channel.c:219-252 | in every state of a run only selectors wait on a closed channel that is not a mailbox |
| `Channel.TakenElsewhere` | src/channel.c:101-110 | a selector taken through another channel can no longer be completed here, its message counts as refused, and after extraction the queues do not have it |
| `Channel.OthersStayQueued` | src/channel.c:358-374 | neither of these removes anybody else |
| `Channel.EndedMailbox` | src/message.c:48-57 | the end of a mailbox closes it and releases what it holds |
| `Channel.ConserveStep` | src/channel.c:112-252 | every send is accepted, refused or pending once; what is accepted is received, buffered or dropped once |
| `Channel.ReceivedOnce` | src/channel.c:112-180 | no message is received twice, and none whose send was refused or is pending |
| `Channel.ReceiveOrder` | src/channel.c:146-159 | each sender's messages are received in its order on every channel; all in order on unbuffered channels and mailboxes |
| `Channel.SendOrder` | src/channel.c:112-144 | a send keeps the per-sender order, and the total one where promised |
| `Channel.RecvOrder` | src/channel.c:146-180 | a receive keeps both |
| `Channel.OvertakingBreaksOrder` | src/channel.c:123-127 | if what was and can still be received is in the order of the sends, an operation keeps it so exactly if it is not a buffered send past a sender that still waits |
| `Channel.NoOvertakingKeepsOrder` | src/channel.c:112-180 | a run without such sends is received in the order of the sends, on any channel |
| `Channel.BoundedChannelsOvertake` | src/channel.c:149-159 | a run on a one-slot channel in which the later sender is served first |
| `TimerHeap.SiftDownOrders` | src/time.c:132-150 | sifting down repairs everything but the pair of the start slot and its parent, which is in order exactly if it was |
| `TimerHeap.SiftUpOrders` | src/time.c:156-166 | sifting up repairs a heap that is wrong at one slot |
| `TimerHeap.Manager.Exchange` | src/time.c:120-127 | swaps two timers and their indices |
| `TimerHeap.Manager.Down` | src/time.c:132-150 | does to the deadlines what the sift on sequences does, keeping the timers and all back-indices |
| `TimerHeap.Manager.Up` | src/time.c:156-166 | likewise upwards |
| `TimerHeap.Manager.Add` | src/time.c:240-261 | the timer becomes pending, all others stay, the deadlines are sifted up, the array grows when full; the back-indices hold afterwards if and only if the timer was not pending already |
| `TimerHeap.AddKeepsHeap` | src/time.c:257-261 | adding to a heap gives a heap |
| `TimerHeap.Manager.Delete` | src/time.c:287-308 | returns 0 exactly if the timer is pending, whatever its index says; removes only it; keeps back-indices |
| `TimerHeap.DeleteKeepsHeapIff` | src/time.c:298-300 | from a heap the result is a heap if and only if the slot was last or the root, or the moved timer is not earlier than the slot's parent |
| `TimerHeap.DeleteCanBreakHeap` | src/time.c:298-300 | a heap of seven timers and a deletion that breaks it |
| `TimerHeap.RootIsEarliest` | src/time.c:182-185 | the root of a heap is the earliest timer |
| `TimerHeap.RearmedIsHeap` | src/time.c:197-202 | putting off the root and sifting it down gives a heap |
| `TimerHeap.NextRoundIsDueUp` | src/time.c:188-202 | if above every due timer there are only due ones, a round on the root keeps that |
| `TimerHeap.DeleteKeepsDueUpIff` | src/time.c:298-300 | after a deletion from a heap that holds for `now` if and only if the slot was last or the root, the moved timer is not due, or the slot's parent is |
| `TimerHeap.PassCanMissTimer` | src/time.c:182-206 | a heap, a deletion and a pass that stops with a due timer pending |
| `TimerHeap.Manager.Fire` | src/time.c:182-206 | from any array: terminates, fires only due timers and each once, one-shots leave with index -1, periodic ones are armed at now + period, other deadlines and all back-indices are kept, and the root left is not due; if above every due timer there are only due ones, all due timers fire and what remains is later than now; from a heap, in deadline order and leaving a heap |
| `TimerHeap.Manager.FireRoot` | src/time.c:183-202 | one round removes or re-arms the root, sifts, keeps back-indices and changes no other deadline |
| `NetWait.RunsAreSafe` | src/netpoll.c:65-167 | no use of the descriptor after it is freed except by a poller's CAS, nor of the deadline after the waiter has left; `__coroc_netpoll_rem` never drops the last reference; vpu_ready finds the waiter suspended, once |
| `NetWait.StaleClaimIff` | src/netpoll_epoll.c:57-67 | for any number of pollers: a run in which a poller's CAS hits a freed descriptor exists if and only if the wait has a timer or there are two pollers |
| `NetWait.LonePollerIsSafe` | src/netpoll_epoll.c:57-67 | without a timer and with one poller no action ever uses a freed descriptor |
| `NetWait.StaleAfterTimeout` | src/netpoll.c:84-108 | such a run with a timer: event, timeout, return of the waiter, CAS |
| `NetWait.StaleAfterOther` | src/netpoll_epoll.c:61-82 | such a run with two pollers that both got an event |
| `NetWait.FreedExactlyOnce` | include/inter/refcnt.h:18-35 | the count is the number of holders; the descriptor is freed once, by the leaving waiter, with epoll, timer and operation counter all cleared |
| `NetWait.OneWinner` | src/netpoll_epoll.c:61-82 | `done` is set by one party and never changes again |
| `NetWait.FirstClaimWins` | src/netpoll_epoll.c:66-81 | the first CAS on `done`, by a poller or by the timer, timed wait or not, makes its thread the one to remove and wake; any later one goes away without a change |
| `NetWait.FailedRegistration` | src/netpoll_epoll.c:39-43 | after a failed `epoll_ctl` no poller ever touches the wait: it ends with its deadline, or never |
| `NetWait.UntimedReturnsIff` | src/netpoll.c:65-82 | with any number of pollers, a run in which a wait without a deadline returns exists if and only if `epoll_ctl` accepts the descriptor |
| `NetWait.StepKeepsInv` | src/netpoll_epoll.c:38-82 | every step of waiter, timer and pollers keeps references, locks, timer and removal in agreement |
| `NetWait.RunsAreShort` | src/netpoll.c:113-142 | at most 33 actions of a wait are effective: not the report of an event nor a CAS that comes too late |
| `NetWait.EveryActionProgresses` | src/netpoll.c:84-167 | every effective action brings the end nearer, and the others do not put it off |
| `NetWait.NeverStuck` | src/netpoll.c:126-134 | someone can move unless the wait is over or an untimed waiter waits for its event, although timer lock and descriptor lock are taken in both orders |
| `NetWait.TimedWaitReturns` | src/netpoll.c:113-142 | a timed wait in which nobody can move has returned, freed its descriptor and been readied once |
| `Group.SyncIsExact` | src/group.c:98-111 | sync returns only after every task has notified, with the number of non-zero notifications |
| `Group.SyncCountsReports` | src/group.c:80-111 | in every run, what sync returns is the number of notifications with a non-zero value among the actions so far, and every task that was added has notified exactly once |
| `Group.ReadiedOnce` | src/group.c:80-96 | vpu_ready finds the parent suspended with count zero; it is called once if the parent was suspended and not at all otherwise |
| `Group.SuspendedParentWillBeWoken` | src/group.c:87-94 | a suspended parent has an unfinished task, or the task that reached zero can go on to wake it |
| `Group.LockKeptIff` | src/group.c:101-110 | sync returns with the lock held exactly if its second read gave zero |
| `Group.SyncCanKeepLock` | src/group.c:101-108 | a run in which that happens |
| `Group.KeptLockBlocksCloser` | src/group.c:87-90 | after it, a task that has still to read `parent` waits for ever |
| `Group.ReleasedGroupIsUnused` | include/inter/coroc_group.h:44-48 | if sync returns without the lock, no task touches the group again |
| `Group.StepKeepsInv` | src/group.c:75-111 | `count` is the parent's share plus unfinished tasks, `errors` the failed ones, and one party at most reaches zero, at every step |
| `CuckooWalk.ReturnsIffFits` | src/hash.c:36-62 | insertion of a fresh key returns for some number of resizes if and only if no set of the stored keys and it is larger than the number of its hash values in both tables |
| `CuckooWalk.PlacedInTheEnd` | src/hash.c:36-62 | if they fit, the doublings that make the table large plus a third of the number of keys are enough: the result is 0 and the map is extended by the key and nothing else |
| `CuckooWalk.SmallTablesStayInRange` | src/hash.c:14 | from the initial capacity and with at most 20 keys that is at most 23 doublings, so the capacity stays an int |
| `CuckooWalk.NeverPlaced` | src/hash.c:36-62 | if they do not fit, it returns for no number of resizes |
| `CuckooWalk.StoredFits` | src/hash.c:40-58 | stored keys always fit |
| `CuckooWalk.WalksEnd` | src/hash.c:40-58 | in large tables, evictions among fitting keys have at most two states for each key |
| `CuckooWalk.NoReturn` | src/hash.c:40-58 | because no key comes into hand for the same table twice |
| `CuckooWalk.CircleIsOverfull` | src/hash.c:44-57 | if a key does, the keys in hand in between are more than the slots visited, which are all they have |
| `CuckooWalk.FittingReturns` | src/hash.c:60-61 | fitting keys find their place within that number of resizes, from tables of any size |
| `CuckooTables.AddedConserves` | src/hash.c:36-62 | over all evictions and resizes the stored entries plus the one in hand are conserved; a refusal means the one in hand has a stored key |
| `CuckooTables.AddedStays` | src/hash.c:60-61 | once an insertion has returned, a larger number of resizes gives the same result |
| `CuckooTables.FreshIsAdded` | src/hash.c:46-53 | a fresh key is never refused, and when placed extends the map by itself only |
| `CuckooTables.RoundConserves` | src/hash.c:41-56 | one round stores the entry in hand, refuses it, or exchanges it with the one in its slot |
| `CuckooTables.DoubledKeeps` | src/hash.c:16-27 | the doubled table holds the same entries, each at its position |
| `CuckooTables.GrownKeeps` | src/hash.c:11-34 | doubling both tables keeps the stored entries |
| `CuckooTables.PositionDoubled` | src/hash.c:22-25 | the position in the doubled table is the old one modulo the old capacity |
| `CuckooTables.DoublingSeparates` | src/hash.c:22-25 | entries in different slots stay in different slots |
| `CuckooTables.OneSlotDecides` | src/hash.c:99-104 | a well-placed table holds an entry at most once, in the slot its hash names |
| `CuckooHash.Table.Insert` | src/hash.c:83-92 | computes the insertion on values; if a fresh key returns the map is exactly extended; one that does not fit never returns; a key in table 0 is refused and changes nothing; success always means one more entry |
| `CuckooHash.Table.Add` | src/hash.c:36-62 | result and tables after evictions and resizes are those of the insertion on values |
| `CuckooHash.Table.Evict` | src/hash.c:40-58 | the same for the loop between two resizes |
| `CuckooHash.Table.Round` | src/hash.c:41-57 | the same for one round |
| `CuckooHash.Table.Get` | src/hash.c:94-115 | returns the map's value or NULL, and removes exactly that binding when asked to; from any tables, table 0 comes first |
| `CuckooHash.Table.Double` | src/hash.c:16-27 | builds the doubled table slot by slot |
| `CuckooHash.Table.Resize` | src/hash.c:11-34 | replaces both tables by their doubles |
| `CuckooHash.ThreeInTwoSlots` | src/hash.c:7-9 | three keys that share both hashes |
| `CuckooHash.FourInThreeSlots` | src/hash.c:7-9 | four keys with three hash values, no three of which share both |
| `IntrusiveQueue.Queue.Add` | include/inter/coroc_queue.h:70-86 | appends any item to the sequence; the backward links stay right if and only if they were and an item for an empty queue has a clear `prev` |
| `IntrusiveQueue.Queue.AddRange` | include/inter/coroc_queue.h:94-111 | appends a linked chain, whatever its items record; only its ends record the queue |
| `IntrusiveQueue.Queue.Rem` | include/inter/coroc_queue.h:123-144 | removes and cleans the first item, or returns NULL on an empty queue |
| `IntrusiveQueue.Queue.Extract` | include/inter/coroc_queue.h:172-204 | removes and cleans an item anywhere in the sequence, and does nothing to one that does not record this queue; the queue is whole afterwards if and only if the item was not a first one with a stale `prev` |
| `IntrusiveQueue.Queue.Fetch` | src/vpu.c:193-207 | the refill by hand removes the first n items in order, keeps the queue whole, and leaves the removed items' links and `que` as they were |
| `IntrusiveQueue.MiddleOfRangeStays` | include/inter/coroc_queue.h:106-107 | three linked items added as a range are all still there after extracting the middle one |
| `IntrusiveQueue.LinkAll` | src/vpu.c:62-63 | linking a batch item by item gives a chain in both directions |
| `IntrusiveQueue.BypassedIsLinked` | include/inter/coroc_queue.h:188-196 | when the neighbours of a slot point past it, the remaining sequence is a whole list |

## Left out

- Context switching, stacks, signals and thread-local storage: a switch is a status step.
- src/net.c, src/vfs.c, src/boot.c, src/clock.c, src/notify.c and src/futex_impl.c: system-call plumbing; futexes, condition variables and epoll have an abstract step meaning only.
- src/netpoll_kqueue.c and src/netpoll_poll.c: other back ends of the same protocol.
- Fairness, spin counts, back-off, preemption and the random choice of victims: any enabled step may happen.
- `vpu_backtrace`: the deadlock report, which queues tasks without counting them.
- `total_iowait` and `idle`: read nondeterministically in `Scheduler`, since the source does not keep `total_iowait` exact.
- WorkStealing.NothingLostOrDuplicated: runs assume fewer than 2^32 claims between a thread's read of a head and its CAS; `CasComparesModuloWord` shows what happens otherwise.
- WorkStealing.RingBounds: the global queue is a sequence of tasks there; its links are the subject of `IntrusiveQueue`.
- UndisturbedQueues.Elect: one refill attempt and one victim; the source tries ten times for the lock and robs random victims until it gives up.
- Scheduler.NoLostWakeup: fewer than 2^32 tasks and threads; matching is by number, the form by task being conditional.
- Select.RunsAreGood: whether a buffer has room or a channel is closed is nondeterministic, the channels of one select are distinct, and lock chains come sorted (the library's qsort is not modelled).
- Select.LocksNeverDeadlock: only channel locks; a select on a closed channel may wait for ever, as in the source.
- Channel.ReceiveOrder: nothing about order between senders on bounded channels, where the source gives none.
- Channel.RingBuffer.CopyTo: elements are values, not bytes of `elemsize`.
- TimerHeap.Manager.Fire: that all due timers fire is shown under a sufficient condition, as a pass from other arrays can find them all by chance; callbacks do not touch the heap; 64-bit overflow of `now + period` and 32-bit sizes are not modelled; the daemon's sleep and start are not modelled.
- NetWait.RunsAreSafe: the CAS of a poller on a freed descriptor is excepted, as `StaleClaimIff` shows when it happens; the reported `mode` is not modelled.
- Group.SyncIsExact: counters are unbounded; tasks are added only by the parent before sync or by tasks that have not notified.
- CuckooHash.Table.Insert: observed for any given number of resizes, since the recursion in the source need not end; a key that sits in table 1 only can be stored twice, as in the source; capacity is unbounded, `CuckooWalk.SmallTablesStayInRange` saying for how many keys that makes no difference.
- IntrusiveQueue.Queue.Extract: the item is in the queue if it records it, which queues that are refilled by hand do not guarantee and never need; backward links inside the queue are right, as every way of adding items keeps them; `status` is unbounded.
- The `atomic_` wrappers of queue and hash: a lock around the operations modelled here.
