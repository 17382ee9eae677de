# Verified core of ylong_runtime

A Dafny model of the concurrent core of the asynchronous runtime `ylong_runtime`
and of its signal library `ylong_signal`, with proofs about every run of it.

What runs concurrently is a transition system: a state, the events that can
happen in it, and a step for each event, one step being one atomic operation,
one access to an unsynchronised cell or one critical section. `Runs` defines a
run and has the induction the safety theorems share; `Tally` counts and sums over
threads. What the program does alone, inside a lock or in an uncontended call, is
a class whose methods have the program's loops and are proved against a
specification.

| file | models |
|---|---|
| `Positions.dfy`, `RunQueue.dfy`, `TaskConservation.dfy`, `LateThief.dfy` | the work-stealing run queues under any interleaving of owners and thieves |
| `LocalQueue.dfy` | the same queues as objects over an array, for uncontended calls |
| `RwLock.dfy`, `Semaphore.dfy` | the asynchronous read-write lock and the semaphore below it |
| `SpinRwLock.dfy`, `Signals.dfy` | the spinning read-write lock that signal handlers may read, and signal registration on top of it |
| `Readiness.dfy` | the packed I/O readiness word and its waiters |
| `BlockingPool.dfy` | the pool of blocking threads |
| `WorkerParker.dfy`, `CurrentThreadParker.dfy`, `Oneshot.dfy` | the two parkers, one with its task queue, and the one-shot channel |
| `ReadUntil.dfy` | delimited reading of a stream that arrives in pieces |

Several expectations turn out to be false of the code in general. In each case
the model keeps the code as it is, a run or an example shows the failure, and a
theorem gives the exact condition:

- A thief that compares `front` 65536 or more head moves after it loaded it can
  take a task that was already handed out (`LateThief.HandedOutOnceIff`).
- A clear can erase readiness set since the dispatch that its observation saw if
  that dispatch is 256 or more driver turns old (`Readiness.StaleClearsHarmlessIff`);
  how old the observation itself is decides nothing
  (`Readiness.FreshObservationLoses`).
- A dispatch under a token 128 or more reuses of the slab entry old can set
  readiness in the wrong use of it (`Readiness.StaleDispatchIgnoredIff`).
- The blocking pool grows without bound, and its byte-sized counters overflow,
  when it is built with more permanent threads than its maximum size
  (`BlockingPool.SizeBoundedIff`, `BlockingPool.CountersFitIff`).
- The overflow assertion of the semaphore fails on a release of no permits when
  the capacity is reached (`Semaphore.OverflowAssertedIff`).
- The waker of a pending one-shot poll is not called when the receiver closed the
  channel before the sender left (`Oneshot.PendingPollWokenIff`).
- Reads of the spinning lock are regular but not atomic: a read that loads a
  pointer not yet published, which takes a whole store between its two loads, can
  be followed by a read of the older value (`SpinRwLock.ReadsAtomicIff`).
- A line reader loses what it had read of a line when an I/O error strikes inside
  it, and keeps counting it (`ReadUntil.LinesTask.CollectLines`); the segment
  reader does not.
- A waker can stay in a readiness slot after the poll that put it there returned
  Ready (`Readiness.ReadySlotLingers`); none stays after one that returned Pending
  (`Readiness.NoSlotLost`).

The search for work means to skip the worker's own queue, but it compares the
addresses of two handles to it, which differ, so a worker also steals from itself;
the runs below include that.

`dafny verify dfyconfig.toml` checks the whole project.

## Model

| member | source | states |
|---|---|---|
| `RunQueue.FilledOk` | ylong_runtime/src/executor/queue.rs:267-284 | a write at `rear & MASK` with room left disturbs no live and no unpublished task |
| `RunQueue.OverCasOk` | ylong_runtime/src/executor/queue.rs:296-312 | the overflow compare-exchange succeeds only on a queue of 256 tasks that nobody is stealing from |
| `RunQueue.StealCasOk` | ylong_runtime/src/executor/queue.rs:341-381 | a thief less than 2^16 head moves late wins only if nothing has left the queue since it looked, and what it claims, at most 128 tasks, is there |
| `RunQueue.NextDue` | ylong_runtime/src/executor/queue.rs:383-404 | the slot a claim reads next holds the next task of the claimed range |
| `RunQueue.MoveKeepsShape` | ylong_runtime/src/executor/queue.rs:204-412 | a step of one worker keeps what every other worker relies on: claims, reserved slots, loaded words |
| `RunQueue.NextMoveSound` | ylong_runtime/src/executor/queue.rs:204-513 | every step of a worker, on its own queue or one it steals from or both in one, keeps the queue well-formed and what the worker relies on |
| `TaskConservation.NoTaskLostOrDuplicated` | ylong_runtime/src/executor/queue.rs:204-538 | in every run with timely thieves, steals from the own queue included, each task is in local queues, workers' hands, the global list and the handed-out tasks together exactly as often as it was submitted |
| `TaskConservation.HandedOutOnce` | ylong_runtime/src/executor/queue.rs:204-538 | the tasks handed out are a sub-multiset of those submitted |
| `TaskConservation.PositionsExact` | ylong_runtime/src/executor/queue.rs:55-74 | in every run `front` and `rear` are residues of positions steal <= head <= rear <= steal + 256, every position from the steal one on is in its slot, and the tests on the words are exact |
| `TaskConservation.WritesMissLiveSlots` | ylong_runtime/src/executor/queue.rs:267-284 | in every run a slot about to be written by a push, a steal or a batch belongs to no position that is live, being stolen or written before |
| `TaskConservation.ReadsWhatIsDue` | ylong_runtime/src/executor/queue.rs:204-235 | in every run a slot about to be read by a pop, an overflow or a steal holds the task that was claimed |
| `TaskConservation.SyncNeverPanics` | ylong_runtime/src/executor/queue.rs:247-265 | in every run the assertion in `sync_steal_pos` holds |
| `TaskConservation.LengthNeverUnderflows` | ylong_runtime/src/executor/queue.rs:470-538 | in every run, with the list lock free, the global length is at least the length of the list, and the late `fetch_sub` of a batch cannot underflow |
| `LateThief.DuplicatingRun` | ylong_runtime/src/executor/queue.rs:351-381 | a run with a thief exactly 2^16 head moves late hands out one task more than was submitted |
| `LateThief.HandedOutOnceIff` | ylong_runtime/src/executor/queue.rs:351-381 | all runs whose thieves are less than `bound` moves late hand out no task twice if and only if bound <= 2^16 |
| `LocalQueue.InnerBuffer.constructor` | ylong_runtime/src/executor/queue.rs:177-195 | a new queue is empty |
| `LocalQueue.InnerBuffer.IsEmpty` | ylong_runtime/src/executor/queue.rs:198-202 | true exactly when there is nothing to pop or steal |
| `LocalQueue.InnerBuffer.Remaining` | ylong_runtime/src/executor/queue.rs:237-245 | 256 less the tasks not given back |
| `LocalQueue.InnerBuffer.IsHalfFull` | ylong_runtime/src/executor/queue.rs:55-61 | true exactly when more than 128 slots are taken |
| `LocalQueue.InnerBuffer.PopFront` | ylong_runtime/src/executor/queue.rs:204-235 | removes and returns the oldest task, open steal or not; None exactly when empty |
| `LocalQueue.InnerBuffer.PushBack` | ylong_runtime/src/executor/queue.rs:267-293 | one turn of the loop: appends the task, or from a full queue moves the older 128 tasks and then the task to the global queue, in order; goes round, with nothing changed, exactly when the queue is full and a steal is open |
| `LocalQueue.InnerBuffer.PushOverflowed` | ylong_runtime/src/executor/queue.rs:296-339 | the older half goes to the global queue in order and the newer half stays; nothing happens exactly when a steal is open |
| `LocalQueue.InnerBuffer.CopyOut` | ylong_runtime/src/executor/queue.rs:314-328 | the copy loop reads the claimed tasks in order across the end of the array |
| `LocalQueue.InnerBuffer.SyncStealPos` | ylong_runtime/src/executor/queue.rs:247-265 | gives the claimed slots back and keeps the contents |
| `LocalQueue.InnerBuffer.StealInto` | ylong_runtime/src/executor/queue.rs:341-412 | with n the half of src rounded up, (src, dst) becomes (src[n..], dst + src[..n-1]), or src[n..] + src[..n-1] when they are one queue, and src[n-1] is returned; nothing happens exactly when dst is over half full, src is empty or a steal is open |
| `LocalQueue.InnerBuffer.MoveTo` | ylong_runtime/src/executor/queue.rs:383-404 | the copy loop appends the claimed tasks but the last to dst in order, which may be the same array, and returns the last |
| `LocalQueue.GlobalQueue.PushBack` | ylong_runtime/src/executor/queue.rs:530-538 | appends a task |
| `LocalQueue.GlobalQueue.PushBatch` | ylong_runtime/src/executor/queue.rs:457-468 | appends the batch and then the task |
| `LocalQueue.GlobalQueue.PopBatch` | ylong_runtime/src/executor/queue.rs:470-513 | returns the oldest task and moves the next ones, up to a fair share within the limit, to the back of the local queue in order |
| `RwLock.MutualExclusion` | ylong_runtime/src/sync/rwlock.rs:114-211 | in every run a write guard coexists with no other guard |
| `RwLock.ReadersOwed` | ylong_runtime/src/sync/rwlock.rs:169-181 | in every run, while a writer is announced, reading readers, unused read permits and readers between their decrements number `read_wait` plus the count the writer has yet to add |
| `RwLock.WakeupsExact` | ylong_runtime/src/sync/rwlock.rs:257-265 | in every run `write_sem` is released once for each writer that waits and never for one that does not |
| `RwLock.WriterNotPassed` | ylong_runtime/src/sync/rwlock.rs:169-181 | in every run the readers that get a guard by any way after a writer announced itself are among those it counted |
| `RwLock.CountersInRange` | ylong_runtime/src/sync/rwlock.rs:302-308 | in every run the counters stay in range and the casts to usize see no negative number |
| `RwLock.NobodyBlocked` | ylong_runtime/src/sync/rwlock.rs:257-308 | in every run, if any thread is inside an operation or holds a guard, some thread can go on |
| `RwLock.StepUsesWork` | ylong_runtime/src/sync/rwlock.rs:114-211 | every step other than a new call lowers a measure of the work left |
| `RwLock.CallsFinish` | ylong_runtime/src/sync/rwlock.rs:257-308 | without new calls a run takes a bounded number of further steps |
| `Semaphore.PermitsConserved` | ylong_runtime/src/sync/semaphore_inner.rs:120-217 | in every run free, in-hand, handed-off and granted permits add up to the initial and the released ones |
| `Semaphore.NoWaiterStranded` | ylong_runtime/src/sync/semaphore_inner.rs:160-217 | in every run the smaller of free permits and queued waiters is at most the number of acquirers in their second look |
| `Semaphore.NoOverflow` | ylong_runtime/src/sync/semaphore_inner.rs:84-114 | in every run within the capacity a thread about to run the overflow assertion passes it unless the capacity is reached and every permit is free, which takes a release of none |
| `Semaphore.ReleaseOfNoneFails` | ylong_runtime/src/sync/semaphore_inner.rs:104-114 | a run in which a release of no permits meets a failing assertion |
| `Semaphore.OverflowAssertedIff` | ylong_runtime/src/sync/semaphore_inner.rs:84-114 | the assertion holds in all runs with at most `most` permits in all if and only if that is below the capacity |
| `Semaphore.WaitersQueuedOnce` | ylong_runtime/src/sync/semaphore_inner.rs:160-217 | in every run a thread is waiting exactly when it is in the list, once, or notified, and never both |
| `Semaphore.RefinesCounting` | ylong_runtime/src/sync/semaphore_inner.rs:84-217 | every step is a step of an abstract counting semaphore that gains exactly the permits released, or invisible in it |
| `Semaphore.SemaphoreInner.NotifyFirst` | ylong_runtime/src/sync/wake_list.rs:140-162 | takes the oldest waiter off the list, or reports that there is none |
| `Semaphore.SemaphoreInner.Release` | ylong_runtime/src/sync/semaphore_inner.rs:84-94 | wakes the oldest waiter or else adds one permit |
| `Semaphore.SemaphoreInner.ReleaseMulti` | ylong_runtime/src/sync/semaphore_inner.rs:104-114 | wakes the oldest waiters, one for each permit, and adds only the permits left over |
| `SpinRwLock.NoUseAfterFree` | ylong_signal/src/spin_rwlock.rs:63-128 | in every run no live read guard refers to a freed value |
| `SpinRwLock.FreedExactlyOnce` | ylong_signal/src/spin_rwlock.rs:144-163 | in every run each value is freed exactly once unless it is the current one or being stored, and a value about to be freed has no guard |
| `SpinRwLock.HolderCountsExact` | ylong_signal/src/spin_rwlock.rs:63-98 | in every run a slot's holder count is the number of readers registered on it |
| `SpinRwLock.CurrentSlotLive` | ylong_signal/src/spin_rwlock.rs:100-116 | in every run the slot named by `version` holds a live value |
| `SpinRwLock.ReadsAreRegular` | ylong_signal/src/spin_rwlock.rs:63-98 | in every run a read returns the last value whose store had returned, or the one being stored |
| `SpinRwLock.RetriesBounded` | ylong_signal/src/spin_rwlock.rs:63-98 | in every run the retries of one read are at most the stores that cleared a slot since it began |
| `SpinRwLock.RefinesRegister` | ylong_signal/src/spin_rwlock.rs:63-163 | every step is a step of an abstract regular register, and every guard is of a value it may return |
| `SpinRwLock.NewThenOld` | ylong_signal/src/spin_rwlock.rs:63-163 | a run in which a later read returns an older value |
| `SpinRwLock.LoadNewerIff` | ylong_signal/src/spin_rwlock.rs:63-98 | in every run a pointer load returns a value newer than the published one if and only if it is made between placing and publishing on the slot not yet named, and then its version load predates the last clear |
| `SpinRwLock.OlderOnlyAfterPremature` | ylong_signal/src/spin_rwlock.rs:63-163 | in every run a read that begins after another and returns an older value follows such a load |
| `SpinRwLock.ReadsAtomicIff` | ylong_signal/src/spin_rwlock.rs:63-163 | a run that has just made a read can go on to a later read of an older value if and only if the read was such a load |
| `Signals.NoSignalFallsThrough` | ylong_signal/src/common.rs:75-129 | in every run a delivery of a signal that stays registered runs the new action, or the replaced one while the new one is not yet published |
| `Signals.HandlerInstalledIff` | ylong_signal/src/unix.rs:56-108 | in every run the OS handler is the library's for exactly the registered signals, and is never recorded as an old action |
| `Signals.RaceReadHolds` | ylong_signal/src/unix.rs:56-85 | reading the fallback before the map finds the fallback of this signal or else its entry is in the map |
| `Signals.StaysSure` | ylong_signal/src/unix.rs:56-85 | a delivery under way keeps its guarantee through every step that leaves its signal registered |
| `Readiness.ReadyRoundTrip` | ylong_runtime/src/net/ready.rs:91-97 | `from_usize` undoes `as_usize` |
| `Readiness.Intersection` | ylong_runtime/src/net/ready.rs:115-121 | the intersection with an interest is empty exactly when the interest is not satisfied |
| `Readiness.StatusRoundTrip` | ylong_runtime/src/util/bit.rs:214-234 | the three masked fields of a status word are what was put into them |
| `Readiness.BuiltByMasks` | ylong_runtime/src/net/schedule_io.rs:212-217 | the word `set_readiness` builds mask by mask is the packed one |
| `Readiness.Reset` | ylong_runtime/src/net/schedule_io.rs:110-120 | a reset entry shows nothing ready and refuses tokens of the generation before |
| `Readiness.NoWaiterLost` | ylong_runtime/src/net/schedule_io.rs:325-425 | in every run a listed waiter whose interest is satisfied is about to be woken, one off the list has been told, and none is listed after a shutdown |
| `Readiness.NoSlotLost` | ylong_runtime/src/net/schedule_io.rs:129-158 | in every run the slot of a pending poll whose direction is ready is about to be emptied by a wake, and there is none after a shutdown |
| `Readiness.LockReleased` | ylong_runtime/src/net/schedule_io.rs:129-158 | in every run the holder of the waiters' lock is one step from releasing it |
| `Readiness.ReadySlotLingers` | ylong_runtime/src/net/schedule_io.rs:129-158 | a run in which a slot keeps the waker of a poll that returned Ready |
| `Readiness.ErasedOnlyBy` | ylong_runtime/src/net/schedule_io.rs:183-245 | in every run only the next use of the entry or a clear erases a flag; a clear only one it saw, never a closed one, and one set since the dispatch it saw only if the tick has come round |
| `Readiness.ClosedStays` | ylong_runtime/src/net/schedule_io.rs:183-188 | in every run a closed flag stays set until the entry is reused |
| `Readiness.ForeignTokenIgnored` | ylong_runtime/src/net/schedule_io.rs:190-212 | in every run, reuse at any moment included, the token of an earlier use that is not a multiple of 128 uses ago changes nothing but the driver, which gives up at once or after one reload |
| `Readiness.MisdirectedRun` | ylong_runtime/src/util/slab.rs:330-350 | a run in which the entry is reused 128 times between the load and the compare-exchange of a dispatch, whose readiness then lands in the wrong use |
| `Readiness.StaleDispatchIgnoredIff` | ylong_runtime/src/net/driver.rs:167-191 | no dispatch within `late` reuses of its token lands in a later use if and only if late < 128 |
| `Readiness.StaleRun` | ylong_runtime/src/net/schedule_io.rs:229-245 | for every turn from the observed dispatch on to 256 turns later, a run in which a clear with an observation made at that turn erases a newer flag |
| `Readiness.StaleClearsHarmlessIff` | ylong_runtime/src/net/schedule_io.rs:183-245 | no run loses a newer flag to a clear within `gap` driver turns of the dispatch it observed if and only if gap < 256 |
| `Readiness.FreshObservationLoses` | ylong_runtime/src/net/schedule_io.rs:183-245 | no bound on the age of the observation, zero turns included, rules that loss out |
| `Readiness.DrainSplits` | ylong_runtime/src/net/schedule_io.rs:268-277 | draining keeps or wakes every waiter, by its interest alone |
| `Readiness.ScheduleIo.constructor` | ylong_runtime/src/net/schedule_io.rs:79-86 | a new cell has a zero word and no waiter |
| `Readiness.ScheduleIo.ResetEntry` | ylong_runtime/src/net/schedule_io.rs:110-120 | the word moves to the next generation with nothing ready |
| `Readiness.ScheduleIo.SetReadiness` | ylong_runtime/src/net/schedule_io.rs:190-245 | succeeds exactly when the token's generation and a clear's tick match, and then sets tick and bits and keeps the generation |
| `Readiness.ScheduleIo.ClearReadiness` | ylong_runtime/src/net/schedule_io.rs:183-188 | removes the seen bits but the closed ones if the tick still matches, and otherwise nothing |
| `Readiness.ScheduleIo.Wake0` | ylong_runtime/src/net/schedule_io.rs:251-283 | empties the ready slots and takes exactly the satisfied waiters off the list, in order |
| `Readiness.ScheduleIo.DrainSatisfied` | ylong_runtime/src/util/linked_list.rs:144-161 | the filtering loop keeps the others in order |
| `BlockingPool.CountersExact` | ylong_runtime/src/executor/blocking_pool.rs:261-334 | in every run, up to a first overflow, idle + notified is the number of waiting threads, total the number of live ones, and a timeout finds both counters positive |
| `BlockingPool.NoTaskStranded` | ylong_runtime/src/executor/blocking_pool.rs:207-250 | in every run each notification has a thread already woken out of the condition variable, queued tasks beside idle threads have notifications, and the first queued task is taken by the next step of a busy or an already woken thread |
| `BlockingPool.TakenInOrder` | ylong_runtime/src/executor/blocking_pool.rs:336-374 | in every run tasks are taken once each in submission order |
| `BlockingPool.PermanentThreadsStay` | ylong_runtime/src/executor/blocking_pool.rs:274-305 | in every run the pool does not time out below its permanent size |
| `BlockingPool.JoinHandlesMatch` | ylong_runtime/src/executor/blocking_pool.rs:170-250 | in every run the thread list names exactly the live threads, once each |
| `BlockingPool.SizeBoundedIff` | ylong_runtime/src/builder/common_builder.rs:149-158 | all runs stay within the maximum size if the permanent threads do, and no size bounds all runs if they do not |
| `BlockingPool.OverflowingRun` | ylong_runtime/src/executor/blocking_pool.rs:207-250 | with more permanent threads than the maximum, a run takes the thread count beyond a byte |
| `BlockingPool.CountersFitIff` | ylong_runtime/src/executor/blocking_pool.rs:139-155 | all four byte-sized counters fit in all runs if and only if the permanent threads do not exceed the maximum size |
| `BlockingPool.PoolShared.constructor` | ylong_runtime/src/executor/blocking_pool.rs:44-73 | an empty pool with its two sizes, its counters valid |
| `BlockingPool.PoolShared.CreatePermanentThreads` | ylong_runtime/src/executor/blocking_pool.rs:170-192 | the loop adds one thread and one handle for each permanent thread |
| `BlockingPool.PoolShared.Spawn` | ylong_runtime/src/executor/blocking_pool.rs:207-250 | queues the task last; beside an idle thread, and only then, raises the notify count and wakes a thread still asleep, so that notifications never outnumber woken threads; else a new thread or a pool at its maximum answers; refines the submission step |
| `BlockingPool.PoolShared.Wait` | ylong_runtime/src/executor/blocking_pool.rs:308-334 | sleeps without a timeout exactly while the permanent complement is not asleep, and keeps the counters valid; refines the settling step |
| `BlockingPool.PoolShared.NextTask` | ylong_runtime/src/executor/blocking_pool.rs:336-374 | takes the oldest task, or waits exactly when there is none, and keeps the counters valid; refines the taking step |
| `BlockingPool.PoolShared.WokenPermanent` | ylong_runtime/src/executor/blocking_pool.rs:261-272 | uses up a notification or waits again, and keeps the counters valid; refines the untimed wake |
| `BlockingPool.PoolShared.WokenTemporary` | ylong_runtime/src/executor/blocking_pool.rs:274-305 | leaves the pool exactly on a timeout without a notification, with the permanent complement staying; refines the timed wake |
| `BlockingPool.PoolShared.Leave` | ylong_runtime/src/executor/blocking_pool.rs:360-374 | both checked subtractions of a leaving thread succeed |
| `BlockingPool.PoolShared.RemoveHandle` | ylong_runtime/src/executor/blocking_pool.rs:294-301 | removes the thread's own handle and no other |
| `WorkerParker.NeverPanics` | ylong_runtime/src/executor/parker.rs:74-175 | in every run no panic branch is reached |
| `WorkerParker.NoLostWakeup` | ylong_runtime/src/executor/parker.rs:74-175 | in every run a sleeping thread with no wakeup under way has no notification |
| `WorkerParker.NotificationEndsPark` | ylong_runtime/src/executor/parker.rs:74-175 | in every run a notification is used up only by the owner leaving `park` |
| `CurrentThreadParker.NeverPanics` | ylong_runtime/src/executor/current_thread.rs:98-200 | in every run no panic branch is reached |
| `CurrentThreadParker.BlockedWakeHeld` | ylong_runtime/src/executor/current_thread.rs:98-200 | in every run a wakeup of the blocked future not yet reported is in the state or about to be issued again |
| `CurrentThreadParker.NoLostWakeup` | ylong_runtime/src/executor/current_thread.rs:98-200 | in every run a sleeping thread with no unpark under way has no notification of either kind and no queued task |
| `CurrentThreadParker.NoTaskStranded` | ylong_runtime/src/executor/current_thread.rs:250-299 | in every run a queued task has a thread that looks at the queue before it parks, a notification in the state, or an unpark about to put one there |
| `CurrentThreadParker.WakesNotInvented` | ylong_runtime/src/executor/current_thread.rs:98-200 | in every run `park` reports at most as many wakeups of the blocked future as there were |
| `CurrentThreadParker.NotificationEndsPark` | ylong_runtime/src/executor/current_thread.rs:98-200 | in every run a notification is used up only by the owner leaving `park`, and a blocked one by `park` returning true |
| `Oneshot.CellsExclusive` | ylong_runtime/src/sync/oneshot.rs:165-221 | in every run neither the value nor the waker cell is used by both sides at once |
| `Oneshot.NeverPanics` | ylong_runtime/src/sync/oneshot.rs:326-442 | in every run no unreachable branch or failing unwrap is reached |
| `Oneshot.PendingPollWokenIff` | ylong_runtime/src/sync/oneshot.rs:165-221 | in every run, once the sender is gone, a pending poll has been woken if and only if the receiver had not closed first |
| `Oneshot.ClosedPollNotWoken` | ylong_runtime/src/sync/oneshot.rs:375-387 | a run in which the sender leaves a pending poll unwoken because the receiver closed first |
| `Oneshot.DeliveredAtMostOnce` | ylong_runtime/src/sync/oneshot.rs:165-188 | in every run an accepted value is received at most once and otherwise kept, and a returned one never received |
| `Oneshot.AcceptedIsAvailable` | ylong_runtime/src/sync/oneshot.rs:389-442 | in every run a receiver that asks after an accepted send finds the value |
| `ReadUntil.SegmentsJoin` | ylong_runtime/src/io/read_task.rs:401-414 | a delimiter after every segment gives the stream back, with one more if the last segment was unfinished |
| `ReadUntil.SegmentsClean` | ylong_runtime/src/io/read_task.rs:401-414 | no segment contains the delimiter |
| `ReadUntil.SegmentsUnique` | ylong_runtime/src/io/read_task.rs:401-414 | delimiter-free pieces are the segments of their own concatenation |
| `ReadUntil.Position` | ylong_runtime/src/io/read_task.rs:303-303 | the first delimiter, or None exactly when there is none |
| `ReadUntil.PollReadUntil` | ylong_runtime/src/io/read_task.rs:292-322 | whatever the reader does, bytes only move from it to the vector and are counted; Ready comes exactly after the first delimiter or at the end |
| `ReadUntil.PullStrikes` | ylong_runtime/src/io/read_task.rs:292-322 | whether a failure strikes inside a piece, reading by reading |
| `ReadUntil.SplitTask.PollNext` | ylong_runtime/src/io/read_task.rs:401-414 | hands out the next segment of the bytes not yet handed out; a suspended or failed call changes nothing of them |
| `ReadUntil.SplitTask.Collect` | ylong_runtime/src/io/read_task.rs:401-418 | the segments of the stream, for every division into pieces and every pattern of suspensions and errors |
| `ReadUntil.IoStringMeans` | ylong_runtime/src/io/read_task.rs:168-203 | the outcome follows from the two results, and only a length that ran ahead of the vector can make it panic |
| `ReadUntil.LinesTask.PollNextLine` | ylong_runtime/src/io/read_task.rs:450-473 | hands out the next line without its ending; an I/O error, which comes exactly when the reader fails before the line ends, drops what was read of the line and keeps its length, so bytes and length are kept if and only if that is nothing |
| `ReadUntil.ErrorInsideLine` | ylong_runtime/src/io/read_task.rs:450-473 | of every line of text a reader that fails after the first byte makes the line reader hand out the rest alone |
| `ReadUntil.LinesTask.CollectLines` | ylong_runtime/src/io/read_task.rs:450-477 | bytes are lost if and only if the reader fails inside a line, and if none are the lines are those of the stream, for every division into pieces |

## Left out

- Weak memory: steps are sequentially consistent; the orderings written in the source are not modelled.
- Liveness under scheduling: parkers, queues and readiness are proved not to lose what they hold, not to finish in bounded time; the lock has a bound on its steps.
- Cancellation: dropping a queued semaphore permit, a pending `read` or `write` of the lock, and polling a queued permit again without a notification.
- `release_notify`, `release_all` and `Waiter`, which give out more permits than they hold by design.
- Creating a semaphore with too many permits, which the program refuses; items of the waker list that wait for several permits; closing a semaphore; and shutting down the blocking pool.
- Failure to create a thread in the blocking pool, and a panic of a task.
- Dropping the queues, `pop_front` of the global queue (used only by that drop), the LIFO slot and the metrics counters.
- The choice of the victim and of the moment to steal, `sleeper.rs` and the wake heuristics of `async_pool.rs` and `worker.rs`.
- Dropping a readiness cell, and the slab around it: an entry is reused at any time when no call on it is under way.
- Changes of the signal table by anybody but the library after the start.
- Tasks still queued when `block_on` returns, which stay for the next call of it.
- The linked list and waker list as pointer structures; they are sequences here.
- `read_to_end`, `read_exact`, `read_line` and writing.
- UTF-8: whether bytes are text is a parameter of `ReadUntil.LinesTask`.
- Timers, channels other than the one-shot one, sockets, processes, files, parallel iterators, `ylong_io` and `ylong_ffrt`.
- BlockingPool.CountersExact: counters are unbounded numbers; what the program does after one of its bytes overflows, a panic or a wrap, is not modelled.
- BlockingPool.SizeBoundedIff: sizes are limited to those the builder accepts, 1 to 64 threads and at most 255 permanent ones.
- TaskConservation.LengthNeverUnderflows: inside a push, with the list locked, the program raises the length after the list; the two are one step here.
