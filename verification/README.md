# xdispatch2: the naive backend, modelled and verified

xdispatch2 runs operations on queues. Its naive backend brings its own thread pool, built on a
vendored lock-free queue, and its own serial queues, waitable queues, cancelation and signals. This
project models that concurrent machinery and proves what it is for.

Each component is a state machine. A state holds the shared fields and one local state per thread
(the place in the code, with the values loaded so far); one event is one atomic access, one
critical section, or something from outside such as a call, a timeout or a spurious wake-up. `Next`
is one event, `Exec` a whole run. The number of threads, the number of events and their order are
arbitrary, and an event that is not enabled changes nothing, so a statement about `Exec(..., run)`
for every `run` is a statement about every interleaving. Invariants that count threads are sums of
weights over the threads (`Threads`). Atomics are sequentially consistent.

Where the source loops over or updates plain data, a class or a method does the same in place beside
the machine and is proved against the functions the machine uses.

| file | component |
|---|---|
| `Threads.dfy` | sums over threads |
| `FreeList.dfy` | the reference-counted free list of the lock-free queue |
| `CircularIndex.dfy` | comparing and subtracting indices that wrap around |
| `BlockIndex.dfy` | the growing circular index of a sub-queue's blocks |
| `ImplicitProducer.dfy` | one sub-queue: enqueue, dequeue, blocks and their allocation |
| `ProducerHash.dfy` | the lock-free hash from threads to sub-queues |
| `Semaphore.dfy` | the counting semaphore |
| `ThreadPool.dfy` | submitters, scheduler and retiring workers |
| `Manager.dfy`, `SerialQueue.dfy` | serial queues, their drains and their lifetime |
| `WaitableQueue.dfy` | the waitable queue |
| `LightweightBarrier.dfy`, `Cancelable.dfy`, `Apply.dfy` | barrier, cancelation, consumable and `apply` |
| `Signals.dfy` | emitting signals |

Three places where the code differs from its comments, assertions or documentation; the model follows
the code:

- `concurrentqueue.h:3377-3379` explains that the block offset is a signed division. The divisor is
  unsigned, so the division is too. `CircularIndex.SignedOffsetSelectsTheSameSlot` proves that both
  select the same slot for every capacity that occurs.
- `naive_threadpool.cpp:314-317` asserts `0 <= active` and `idle <= active` of two values that are
  loaded at different moments (lines 310 and 312). Both can fail, the second for three reasons: a
  worker is started before it is counted (lines 327 and 329), a worker can be started, or restored
  after its last try (line 189), between the two loads. `ThreadPool.IdleCanExceedActive`,
  `ThreadPool.IdleCanExceedActiveWhenCounted`, `ThreadPool.IdleCanExceedActiveByRestoring` and
  `ThreadPool.ActiveCanBeNegative` are runs for each; `ThreadPool.LoadedCounters` is the exact
  condition on the two loaded values.
- `cancelable::disable` waits for the active run only in the call whose exchange finds it running.
  `Cancelable.SecondDisableDoesNotWait` gives a run in which another call returns during the run,
  `Cancelable.DisableReturnsAtOnceExactly` says exactly when that happens.

## Model

| member | source | states |
|---|---|---|
| FreeList.EveryRunKeepsTheList | src/naive/3rdparty/concurrentqueue.h:1678-1768 | in every run of any number of adders and getters (fewer than 2^31 - 2) the nodes linked from the head form a finite list without repetition and every node's word is its reference count plus the waiting bit |
| FreeList.EveryNodeIsInOnePlace | src/naive/3rdparty/concurrentqueue.h:1678-1768 | each node is linked once, or with its user, or with one thread that adds, links or has unlinked it, or waiting for its last reference: exactly one of these |
| FreeList.UnlinkedNodeIsExclusive | src/naive/3rdparty/concurrentqueue.h:1712-1720 | a thread that has unlinked a node is the only one that will return it, and the node's top bit is clear, as the assertion in line 1716 says |
| FreeList.PopRemovesExactlyTheHead | src/naive/3rdparty/concurrentqueue.h:1699-1720 | whenever the exchange of the head succeeds, the successor read earlier is still right: the list loses its head and nothing else (no ABA) |
| FreeList.LinkIsStableUnderAReference | src/naive/3rdparty/concurrentqueue.h:1743-1768 | while a getter holds its reference no step of anyone writes that node's link |
| FreeList.QuietListLosesNothing | src/naive/3rdparty/concurrentqueue.h:1678-1768 | with no operation in progress every node is linked or with its user: no node waits for ever |
| FreeList.GetRepeatsOnlyWhenDisturbed | src/naive/3rdparty/concurrentqueue.h:1693-1734 | a getter goes round its loop again only if, since it loaded the head, another thread changed the head or that node's word; otherwise it pops the node and returns it |
| FreeList.LinkRepeatsOnlyWhenDisturbed | src/naive/3rdparty/concurrentqueue.h:1743-1768 | a linker goes round its loop again only if, since it loaded the head, another thread changed the head; otherwise it links the node and leaves |
| FreeList.EveryStepMovesOn | src/naive/3rdparty/concurrentqueue.h:1678-1768 | nobody waits for anybody: each own step brings a call closer to its return or begins another round, and a round ends without a return only on a zero or changed count or after a failed exchange of the head |
| FreeList.GetGivesUpOnlyOnAnEmptyList | src/naive/3rdparty/concurrentqueue.h:1693-1734 | in every run, with any interference: a `try_get` that returned handed over a node that nobody had, or the list was empty at one of its own steps; losing an exchange never makes it give up |
| FreeList.TheListIsASet | src/naive/3rdparty/concurrentqueue.h:1678-1734 | in every run every event gives one node that was not in the list's keeping, takes one that was, or leaves the set alone: to its users the list is a set with atomic operations, the set of ImplicitProducer |
| FreeList.List.AddNode | src/naive/3rdparty/concurrentqueue.h:1678-1691 | in place, without other threads: the node becomes the new head of the list |
| FreeList.List.AddKnowingRefcountIsZero | src/naive/3rdparty/concurrentqueue.h:1743-1768 | the linking loop, in place: the node is put in front, with one reference |
| FreeList.List.TryGet | src/naive/3rdparty/concurrentqueue.h:1693-1734 | in place: the head is removed and returned, or nothing when the list is empty |
| CircularIndex.CircularLessIsLess | src/naive/3rdparty/concurrentqueue.h:602-613 | for counters less than 2^(w-1) apart, comparing their w-bit words is comparing them |
| CircularIndex.CircularLessMeaning | src/naive/3rdparty/concurrentqueue.h:602-613 | what the comparison decides for counters at any distance |
| CircularIndex.CircularLessFailsAtHalf | src/naive/3rdparty/concurrentqueue.h:602-613 | at the distance 2^(w-1) it answers no: the bound above is exact |
| CircularIndex.RoomMeansInRange | src/naive/3rdparty/concurrentqueue.h:2856-2859 | the fullness test admits a block exactly when its end stays within 2^(w-1) of the head |
| CircularIndex.IndicesStayInRange | src/naive/3rdparty/concurrentqueue.h:2854-2859 | so after any enqueues and dequeues head and tail are in the range in which the comparison is right, and the tail is never before the head, as the assertion in line 2855 says |
| CircularIndex.OffsetOfBases | src/naive/3rdparty/concurrentqueue.h:3377-3379 | the unsigned division of the word difference is the block distance modulo the number of blocks in a word |
| CircularIndex.SlotOfBlockInWords | src/naive/3rdparty/concurrentqueue.h:3372-3382 | for w-bit indices and every power-of-two capacity up to 2^w / BLOCK_SIZE, the slot is the one at the signed block distance from the tail, also across wrap-around |
| CircularIndex.SignedOffsetSelectsTheSameSlot | src/naive/3rdparty/concurrentqueue.h:3377-3379 | the signed division that the comment describes selects the same slot |
| BlockIndex.FindSelectsTheSlot | src/naive/3rdparty/concurrentqueue.h:3367-3383 | whatever header and tail position were read, and whatever key that tail slot holds by now, the computed slot is the block's |
| BlockIndex.FindIsExact | src/naive/3rdparty/concurrentqueue.h:3367-3383 | the entry found for a live block has the block's base as key and the block as value |
| BlockIndex.ReusableExactly | src/naive/3rdparty/concurrentqueue.h:3325-3329 | the next slot is reusable exactly when the block one capacity earlier is not live any more |
| BlockIndex.KeepWriteKey | src/naive/3rdparty/concurrentqueue.h:3318-3352 | storing the next block's key in a reusable slot keeps the index invariant and the keys of all live blocks |
| BlockIndex.KeepMoveTail | src/naive/3rdparty/concurrentqueue.h:3318-3352 | so does moving the tail |
| BlockIndex.KeepGrow | src/naive/3rdparty/concurrentqueue.h:3385-3432 | publishing an index twice as large with shared entries keeps it too, old headers stay usable, and the next slot is free |
| BlockIndex.CopyRound | src/naive/3rdparty/concurrentqueue.h:3403-3414 | the copying loop ends after one round and copies the slots from the oldest block to the newest |
| BlockIndex.GrowSlots | src/naive/3rdparty/concurrentqueue.h:3403-3420 | both loops, on arrays, build the slots that the machine's step publishes |
| ImplicitProducer.EveryRunKeepsTheInvariant | src/naive/3rdparty/concurrentqueue.h:2847-2995 | one enqueuer, any number of dequeuers and the other sub-queues keep the sub-queue's invariant in every run |
| ImplicitProducer.NoAccessIsUndefined | src/naive/3rdparty/concurrentqueue.h:2847-2995 | no access in any run is to a missing block, an empty slot or a slot outside an index |
| ImplicitProducer.ClaimsNeverPassTheTail | src/naive/3rdparty/concurrentqueue.h:2919-2935 | claimed indices plus decided but unclaimed dequeues never exceed the tail, and tail minus head stays below 2^63 |
| ImplicitProducer.QuietReservations | src/naive/3rdparty/concurrentqueue.h:2919-2995 | with nobody between reservation and claim, optimistic minus overcommitted reservations is the head |
| ImplicitProducer.UndisturbedDequeue | src/naive/3rdparty/concurrentqueue.h:2919-2995 | then a dequeue that nobody disturbs succeeds exactly when the sub-queue is not empty, with the oldest unclaimed element |
| ImplicitProducer.FirstReservationsSucceed | src/naive/3rdparty/concurrentqueue.h:2919-2995 | from a run in which every dequeue has its index or is over, in every continuation: no reservation numbered below the overcommit plus the tail of then ever fails, a dequeue fails only after that many reservations, and every call is still seeking, has claimed an index or failed |
| ImplicitProducer.RacingDequeues | src/naive/3rdparty/concurrentqueue.h:2919-2995 | between two such runs k racing dequeues claim k indices or everything enqueued before; without enqueues exactly the smaller of k and the number of elements, and once all have returned these are read, in order |
| ImplicitProducer.ClaimsReadInOrder | src/naive/3rdparty/concurrentqueue.h:2847-2984 | first in, first out: what is read at index i is the i-th element enqueued, and an index is read once |
| ImplicitProducer.QuietQueueReadEveryClaim | src/naive/3rdparty/concurrentqueue.h:2919-2995 | with no dequeue in progress exactly the claimed elements have been read |
| ImplicitProducer.LookupIsExact | src/naive/3rdparty/concurrentqueue.h:3367-3383 | in every run, against insertion, growth and slot reuse, a dequeuer's lookup finds its block: the assertions in lines 3376 and 3381 |
| ImplicitProducer.KeepCountStep | src/naive/3rdparty/concurrentqueue.h:1832-1848 | counting a dequeued element keeps the invariant, and the counter was below BLOCK_SIZE, as the assertion in line 1846 says |
| ImplicitProducer.EveryBlockIsInOnePlace | src/naive/3rdparty/concurrentqueue.h:3483-3542 | every block is in exactly one of: the unissued pool, the free list, another sub-queue, this one's index, or one thread's hands |
| ImplicitProducer.BlockIsReleasedOnce | src/naive/3rdparty/concurrentqueue.h:2957-2983 | one dequeuer releases a block, after all of its slots were read and while nobody else uses it |
| ImplicitProducer.NothingIsLost | src/naive/3rdparty/concurrentqueue.h:2847-2984 | an element enqueued and not read is in its slot of a live block; a full count has exactly one releaser |
| ImplicitProducer.OwnAccessesAreBounded | src/naive/3rdparty/concurrentqueue.h:2847-2995 | each operation ends after a bounded number of its own accesses and free-list calls, each such call counted as one, whatever the others do; an enqueue fails exactly when its block would end 2^63 or more behind the head, or a full index has no double within the index range, and otherwise appends its element |
| ImplicitProducer.GrowsOnlyWhenNeeded | src/naive/3rdparty/concurrentqueue.h:3325-3342 | in every run the index grows exactly when the block one capacity before the new one is still live, and a block is allocated only after the whole pool was handed out and the free list gave none |
| ProducerHash.EveryRunKeepsTheInvariant | src/naive/3rdparty/concurrentqueue.h:3864-4035 | any number of threads searching, inserting, re-adding and resizing keep the tables' invariant |
| ProducerHash.EveryTableHasRoom | src/naive/3rdparty/concurrentqueue.h:3937-4028 | every table holds fewer keys than three quarters of its capacity, so every probe sequence meets an empty slot before that |
| ProducerHash.EveryProbeLoopEnds | src/naive/3rdparty/concurrentqueue.h:3885-4026 | no probe loop of any thread goes round as often as three quarters of its table's capacity |
| ProducerHash.EmptySlotMeansAbsent | src/naive/3rdparty/concurrentqueue.h:3927-3930 | an empty slot met while searching means that the thread is not in that table |
| ProducerHash.ProducersStay | src/naive/3rdparty/concurrentqueue.h:3987-4028 | a sub-queue made for a thread is never replaced |
| ProducerHash.EveryCallReturnsTheSame | src/naive/3rdparty/concurrentqueue.h:3864-4035 | once a call of a thread returned a sub-queue, every later call of that thread returns that one |
| ProducerHash.UndisturbedCallReturns | src/naive/3rdparty/concurrentqueue.h:3864-4035 | after any run in which nobody is resizing, a call that nobody disturbs returns the thread's sub-queue within a stated number of steps, also when it has to insert, to grow the table or to add itself again |
| ProducerHash.RepeatsOnlyWhileOthersResize | src/naive/3rdparty/concurrentqueue.h:3937-4034 | whatever the others do: a resize test that finds the flag free, or room in its table, is the last one of its call; the outer loop goes round again only while another thread resizes |
| ProducerHash.EveryReturnGivesASubQueue | src/naive/3rdparty/concurrentqueue.h:3864-4035 | every step of every run that returns gives the thread the sub-queue made for it, never none |
| ProducerHash.CallAddsAgain | src/naive/3rdparty/concurrentqueue.h:3892-3925 | a call that has returned left the thread in the table that was current when it began or in a newer one: a thread found in an old table was added again |
| ProducerHash.TablesAreSmall | src/naive/3rdparty/concurrentqueue.h:3941-3960 | a table is published only when half of the current one's capacity was drawn, so no table but the first has more than four slots per thread counted |
| ProducerHash.NoSubQueueIsShared | src/naive/3rdparty/concurrentqueue.h:3864-4035 | no two threads get the same sub-queue, and as many were made as threads got one |
| ProducerHash.KeepPublish | src/naive/3rdparty/concurrentqueue.h:3941-3976 | the thread that publishes a larger table still has the current one, so no table is lost, and the invariant stays |
| ProducerHash.GrowTo | src/naive/3rdparty/concurrentqueue.h:3950-3954 | the capacity the resizing loop arrives at is large enough for the count |
| ProducerHash.NewCapacity | src/naive/3rdparty/concurrentqueue.h:3950-3954 | the resizing loop computes that capacity |
| ProducerHash.Search | src/naive/3rdparty/concurrentqueue.h:3887-3932 | the search loop on one table's arrays ends, and finds the thread exactly when it is there |
| ProducerHash.Insert | src/naive/3rdparty/concurrentqueue.h:4006-4026 | the insertion loop turns one empty slot into the thread's key and value and keeps the table's invariant |
| Semaphore.EveryRunKeepsTheInvariant | src/naive/naive_semaphore.cpp:41-138 | acquirers, waiters, releasers, timeouts and spurious wake-ups keep the semaphore's invariant in every run |
| Semaphore.TokensAreConserved | src/naive/naive_semaphore.cpp:41-138 | the count is never negative, count plus acquisitions is the initial count plus releases, and calls that returned true never exceed it |
| Semaphore.NoWakeUpIsLost | src/naive/naive_semaphore.cpp:91-138 | while a thread has decided to sleep, the count is at most the tokens of releases still to notify plus the notified threads that have not looked again |
| Semaphore.SleepersWaitForTokens | src/naive/naive_semaphore.cpp:91-138 | once all of those are through, a thread sleeps only when the count is zero |
| Semaphore.FailingSawNoToken | src/naive/naive_semaphore.cpp:41-61 | an attempt fails only in a step that saw zero, also the last one after a timeout, and one that succeeds takes one token |
| Semaphore.AcquireAlone | src/naive/naive_semaphore.cpp:41-123 | undisturbed, try, spin and wait take a token that is there at once, and a plain try fails at once exactly when there is none |
| Semaphore.ReleaseAlone | src/naive/naive_semaphore.cpp:125-138 | an undisturbed release returns with its tokens added and, if there are waiters, has woken one sleeper for one token and all sleepers for more |
| Semaphore.WaitGivesUpOnlyAfterItsTimeout | src/naive/naive_semaphore.cpp:91-123 | whatever the others do, a `wait_acquire` that returned false had slept into its timeout and looked at a count of zero after it; notifications and spurious wake-ups never make it give up |
| Semaphore.SpinGivesUpOnlyAfterItsSpins | src/naive/naive_semaphore.cpp:63-89 | a `spin_acquire` that returned false made more steps than it has spins and, unless it has none, an attempt that saw zero |
| Semaphore.OwnStepsAreBounded | src/naive/naive_semaphore.cpp:41-138 | each own step brings a call closer to its return or its sleep, except that it waits for the lock or tries again after another thread changed the count |
| Semaphore.LockIsExclusive | src/naive/naive_semaphore.cpp:91-138 | no two threads are inside the lock |
| Semaphore.Counter.TryAcquire | src/naive/naive_semaphore.cpp:41-61 | the compare-and-swap loop against any changes by others: takes exactly one token, or none having seen zero |
| Semaphore.Counter.SpinAcquire | src/naive/naive_semaphore.cpp:63-89 | the spinning loops end whatever arrives meanwhile and take one token or none |
| ThreadPool.EveryRunKeepsTheInvariant | src/naive/naive_threadpool.cpp:123-363 | submitters, schedulers, blocked threads and workers that come and go keep the pool's invariant in every run |
| ThreadPool.NoWorkIsStranded | src/naive/naive_threadpool.cpp:130-195 | while the operation counter is positive, some worker is alive and, left alone, looks at the counter again within six of its own steps, or a caller inside schedule is bound to spawn one |
| ThreadPool.WorkersLookAgain | src/naive/naive_threadpool.cpp:130-219 | whatever the others do, each own step of a living worker brings it closer to its next look at the counter, unless it is a dequeue that missed; at the first and the last try a token that is there is taken |
| ThreadPool.BoundSchedulerSpawns | src/naive/naive_threadpool.cpp:307-337 | with no worker left, whatever the others do in between: by the time such a caller has made four more steps a worker has been spawned |
| ThreadPool.OperationsAreConserved | src/naive/naive_threadpool.cpp:136-226 | every submitted operation is in one bucket or was started, exactly once; operations in buckets equal counter plus tokens taken and not yet redeemed plus operations whose token is still to be released |
| ThreadPool.NoOperationRunsTwice | src/naive/naive_threadpool.cpp:283-287 | no operation is started twice |
| ThreadPool.ScanFindsWithinFour | src/naive/naive_threadpool.cpp:197-215 | a worker with a token always has an operation to find: one of the next four buckets holds one |
| ThreadPool.LoadedCounters | src/naive/naive_threadpool.cpp:310-317 | of the two values that schedule loads, whatever happens between the loads: the idle one is at most the active one exactly when the spawns uncounted at the first load plus the workers that became active since are at most the busy workers at the second load plus those that retired since; so it holds when everybody was counted and nobody was spawned or restored in between; the active one is not negative exactly when the uncounted spawns are at most the active workers |
| ThreadPool.CountersInEveryRun | src/naive/naive_threadpool.cpp:310-317 | in one state the idle counter is at most the active one once uncounted spawns are added, and never negative |
| ThreadPool.IdleCanExceedActive | src/naive/naive_threadpool.cpp:314-329 | a run in which `idle <= active` fails on the loaded values: an uncounted worker is idle |
| ThreadPool.IdleCanExceedActiveWhenCounted | src/naive/naive_threadpool.cpp:310-317 | a run in which it fails with nobody uncounted: a worker is spawned, counted and idle between the loads |
| ThreadPool.IdleCanExceedActiveByRestoring | src/naive/naive_threadpool.cpp:185-191 | a run in which it fails with every spawn counted before: a worker is restored after its last try between the loads |
| ThreadPool.ActiveCanBeNegative | src/naive/naive_threadpool.cpp:310-315 | a run in which the active value loaded is -1: an uncounted worker has retired |
| ThreadPool.ScheduleAlone | src/naive/naive_threadpool.cpp:307-337 | a schedule of the machine that nobody disturbs ends after five steps at most and has spawned and counted one worker exactly when none was idle and fewer were active than the limit, which it therefore does not pass |
| ThreadPool.BlockAlone | src/naive/naive_threadpool.cpp:340-363 | a report of a blocked thread raises the limit by one and, where no worker is idle and the old limit was not passed, spawns a worker at once; taking it back restores the limit |
| ThreadPool.BucketsByUrgency | src/naive/naive_threadpool.cpp:265-280 | an earlier bucket holds more urgent operations: interactive before initiated before utility and default alike before background |
| ThreadPool.MostUrgentIsStarted | src/naive/naive_threadpool.cpp:197-213 | in every run a worker that has a token and begins its scan undisturbed, or finds a token, starts within six steps an operation that waits, and none that waits in any bucket is more urgent |
| ThreadPool.ExecuteAlone | src/naive/naive_threadpool.cpp:263-288 | after an execute that nobody disturbs, in any run, the operation waits behind all more urgent ones and before all less urgent ones, with one more token, and some worker is alive |
| ThreadPool.Pool.Scan | src/naive/naive_threadpool.cpp:204-213 | the cyclic scan ends whatever dequeues miss first, takes one operation from the front of its bucket, and without misses prefers the highest priority |
| Manager.RegisteredMeaning | src/naive/naive_operation_queue_manager.cpp:32-50 | a queue is registered exactly when its last registration was executed after its last unregistration |
| Manager.HandleKeeps | src/naive/naive_manual_thread.cpp:37-76 | requests are executed in the order of posting, none lost or repeated |
| Manager.EraseKeepsTheOthers | src/naive/naive_operation_queue_manager.cpp:39-50 | erasing a queue keeps every other entry, as often as it was there and in the same order |
| Manager.Registry.EraseAll | src/naive/naive_operation_queue_manager.cpp:39-50 | the erasing loop does that in place |
| Manager.Registry.RunBatch | src/naive/naive_manual_thread.cpp:55-72 | one round of the thread swaps the queued requests out and executes them in order |
| Manager.BatchesAreTheLog | src/naive/naive_manual_thread.cpp:55-72 | batch after batch is the whole log |
| Manager.EverythingIsExecuted | src/naive/naive_manual_thread.cpp:55-72 | from any moment on, the rest of the batch, one swap and the next batch execute every request ever posted |
| SerialQueue.EveryRunKeepsTheInvariant | src/naive/naive_operation_queue.cpp:97-232 | async, attach, detach, drains, the manager's thread and destruction keep the queue's invariant in every run |
| SerialQueue.JobsRunOneAtATimeInOrder | src/naive/naive_operation_queue.cpp:120-160 | started jobs are a prefix of the accepted ones and at most the last is unfinished, although the lock is released while a job runs |
| SerialQueue.OneDrainWhileThereAreJobs | src/naive/naive_operation_queue.cpp:154-184 | between critical sections exactly one drain is queued or running while the list is not empty, none otherwise, unless a job was stranded |
| SerialQueue.DrainsAreBounded | src/naive/naive_operation_queue.cpp:139-153 | a drain takes at most ten jobs and ends even if jobs add jobs |
| SerialQueue.StrandedExactly | src/naive/naive_operation_queue.cpp:173-184 | after any run there are jobs without any drain to execute them exactly when some job of the run was added to the empty list while the queue was not attached |
| SerialQueue.StrandedForever | src/naive/naive_operation_queue.cpp:173-184 | from then on no job is started any more, and it stays so whatever is added |
| SerialQueue.QueueLeavesAfterItsJobs | src/naive/naive_operation_queue.cpp:208-232 | with jobs added only while attached: after detach the unregistration is posted once, after the registration, not before every job accepted earlier has finished; once no drain is left all have finished and it was posted |
| SerialQueue.NoDrainOutlivesTheQueue | src/naive/naive_operation_queue.cpp:61-78 | when nobody holds the queue any more its unregistration was executed and no drain waits in the pool; after destruction none is left |
| SerialQueue.DetachedQueueIsDestroyed | src/naive/naive_operation_queue.cpp:61-78 | once no drain of a detached queue is left and the manager has executed its requests, the queue is not registered, nobody holds it and it is destroyed |
| SerialQueue.OperationQueue.Async | src/naive/naive_operation_queue.cpp:173-193 | the method, on the queue's fields, makes exactly the machine's step and keeps its invariant |
| SerialQueue.OperationQueue.AttachQueue | src/naive/naive_operation_queue.cpp:196-205 | the same for attach |
| SerialQueue.OperationQueue.DetachQueue | src/naive/naive_operation_queue.cpp:208-232 | the same for detach, both for an empty queue and for one that gets a last job |
| SerialQueue.OperationQueue.Drain | src/naive/naive_operation_queue.cpp:120-160 | the loop executes the first ten jobs at most, in order, whatever is added meanwhile, and notifies again exactly when jobs remain; it makes the machine's drain, from its begin to its end, and keeps the invariant |
| WaitableQueue.EveryRunKeepsTheInvariant | src/waitable_queue.cpp:48-147 | drains, waiters and adders in any interleaving keep the queue's invariant |
| WaitableQueue.OperationsRunOneAtATimeInOrder | src/waitable_queue.cpp:48-70 | operations are started in the order of adding, each once, none before the previous one finished |
| WaitableQueue.CompletionsAreCounted | src/waitable_queue.cpp:60-104 | the completion counter is what finished minus what was waited for, and is never decremented at zero |
| WaitableQueue.NoOperationIsForgotten | src/waitable_queue.cpp:143-147 | waiting operations never exceed the drains to come plus the adders about to schedule one |
| WaitableQueue.AddedIsServed | src/waitable_queue.cpp:48-147 | an undisturbed add asks for one drain, and serving one executes the operation that waited longest and counts its completion |
| WaitableQueue.WaitForAllWaitsForAll | src/waitable_queue.cpp:106-112 | wait_for_all returns exactly when everything added so far has finished and been counted |
| WaitableQueue.WaitForOneReturnsExactly | src/waitable_queue.cpp:78-104 | a round of wait_for_one returns exactly when a finished operation was not waited for yet, which it accounts for, or everything ever added has finished and was waited for |
| WaitableQueue.UndisturbedWaitForAll | src/waitable_queue.cpp:78-112 | after any run with no operation executing, an undisturbed wait_for_all returns within a stated number of steps, with everything executed in order |
| WaitableQueue.ReturnedWaitersAreRight | src/waitable_queue.cpp:106-112 | so everything added before the call has finished after it |
| WaitableQueue.WaitingEnds | src/waitable_queue.cpp:78-112 | unless something is added a measure never grows and shrinks in every productive round; a waiter sleeps only for a thread that works |
| WaitableQueue.Operations.WaitForOne | src/waitable_queue.cpp:78-104 | in place: one completion is waited for, an old one or that of the next operation, which is executed for it, or it returns at once; operations stay in order and completions counted |
| WaitableQueue.Operations.WaitForAll | src/waitable_queue.cpp:106-112 | the loop ends with everything that was added executed, in order |
| WaitableQueue.Operations.Apply | src/waitable_queue.cpp:149-155 | apply adds one operation per index and returns with all of them executed, in order |
| LightweightBarrier.EveryRunKeepsTheInvariant | src/lightweight_barrier.cpp:95-155 | waiters, completers and testers keep the barrier's invariant: one waiter object at most, shared by all |
| LightweightBarrier.NobodyPassesEarly | src/lightweight_barrier.cpp:95-122 | nobody is told "completed" before some complete has begun, and only a timed wait gives up |
| LightweightBarrier.NobodySleepsOn | src/lightweight_barrier.cpp:95-155 | once a complete has returned the next step of every sleeper returns true, tests say "completed", and a wait that begins then returns true within three steps |
| LightweightBarrier.CompletedForGood | src/lightweight_barrier.cpp:124-142 | a barrier that let somebody pass lets everybody pass from then on |
| LightweightBarrier.CallsAlone | src/lightweight_barrier.cpp:95-155 | undisturbed, after any run: a test says exactly whether the barrier is satisfied, a complete satisfies it, a wait returns exactly when it is satisfied and sleeps otherwise |
| LightweightBarrier.OwnStepsAreBounded | src/lightweight_barrier.cpp:95-155 | each own step brings a wait, complete or test closer to its return, except that a wait sleeps exactly while the barrier is not satisfied and no timeout ends it |
| LightweightBarrier.Object.Complete | src/lightweight_barrier.cpp:124-142 | in place: afterwards the barrier is satisfied |
| LightweightBarrier.Object.WasCompleted | src/lightweight_barrier.cpp:144-155 | in place: says exactly whether the barrier is satisfied |
| LightweightBarrier.Object.Wait | src/lightweight_barrier.cpp:95-122 | in place, up to the sleep: passes exactly when satisfied, otherwise sleeps on the shared waiter object |
| Cancelable.EveryRunIsValid | src/cancelable.cpp:36-72 | enter, leave and disable by any threads keep the cancelable's invariant |
| Cancelable.RunsExclude | src/cancelable.cpp:51-61 | at no time are two runs active |
| Cancelable.EnterSucceedsExactly | src/cancelable.cpp:51-61 | in every run an enter succeeds exactly when nobody ever called disable and no run is active or leaving |
| Cancelable.DisabledForGood | src/cancelable.cpp:36-61 | after any disable no enter ever succeeds |
| Cancelable.DisableReturnsAtOnceExactly | src/cancelable.cpp:42-48 | a disable from outside that found it enabled returns with no run active; one returns during a run exactly when it found it disabled already |
| Cancelable.SecondDisableDoesNotWait | src/cancelable.cpp:42-48 | a run in which the second of two concurrent disables returns while the run is active |
| Cancelable.DisableWaitsForTheRun | src/cancelable.cpp:42-48 | one that found it running returns only after that run has left and completed the barrier |
| Cancelable.WaitingDisableIsReleased | src/cancelable.cpp:63-72 | a waiting disable has somebody in the run or completing the barrier, or its next step returns |
| Cancelable.LeaveCompletes | src/cancelable.cpp:63-72 | the leave of a run that was disabled meanwhile completes the barrier; any other enables again |
| Cancelable.LeaveAlone | src/cancelable.cpp:63-72 | an undisturbed leave is over after three steps: enabled again exactly when nobody ever called disable, with the barrier satisfied otherwise |
| Cancelable.OwnStepsAreBounded | src/cancelable.cpp:36-72 | each step of a leave or a waiting disable brings it closer to its return, except that the disable sleeps exactly until the barrier is completed |
| Cancelable.RecursiveDisableNeverBlocks | src/cancelable.cpp:36-72 | after a disable from inside the run, whatever all threads do: the thread stays inside until it leaves, never waits for the barrier, and is out only after its leave has completed the barrier |
| Cancelable.Handler.Enter | src/cancelable.cpp:51-61 | in place: succeeds exactly when enabled |
| Cancelable.Handler.Leave | src/cancelable.cpp:63-72 | in place: enables again, or completes the barrier exactly when disabled meanwhile |
| Cancelable.Handler.Disable | src/cancelable.cpp:36-49 | in place: it sleeps exactly when called from outside during a run that nobody had disabled |
| Apply.EveryRunKeepsTheInvariant | src/naive/naive_parallel_queue.cpp:58-65 | the calling thread and its operations in any interleaving keep the call's invariant |
| Apply.ApplyRunsEveryIndexOnce | src/naive/naive_parallel_queue.cpp:58-65 | when apply has returned, each index below times was executed exactly once and no other |
| Apply.ResourcesAreCounted | src/naive/naive_consumable.cpp:40-50 | the resources are the indices not yet executed and consumed; the assertion in consume_resource holds |
| Apply.LastConsumerCompletes | src/naive/naive_consumable.cpp:40-50 | one operation at most completes the barrier, exactly when the resources have reached zero |
| Apply.CallerIsReleased | src/naive/naive_consumable.cpp:55-75 | the caller never sleeps for ever once all operations have finished, and returns at once for zero times |
| Apply.OwnStepsAreBounded | src/naive/naive_parallel_queue.cpp:58-65 | each step of an operation or of the caller brings it closer to its end, except that the caller sleeps exactly until the last consumer completed the barrier |
| Apply.Consumable.ConsumeResource | src/naive/naive_consumable.cpp:40-50 | in place: one resource less, and the barrier is satisfied exactly when none is left |
| Apply.Consumable.WaitForConsumed | src/naive/naive_consumable.cpp:55-75 | in place, up to the sleep: passes exactly when nothing is left or the barrier was completed |
| Apply.ApplyInOrder | src/naive/naive_serial_queue.cpp:56-67 | the submitting loop and an in-order execution run the indices in order, and the wait finds everything consumed |
| Signals.EveryRunKeepsTheInvariant | include/xdispatch/signals.h:384-418 | any number of emitters and the serial target queue keep the handler's invariant in each mode |
| Signals.PendingIsQueued | include/xdispatch/signals.h:390-416 | outside an emit the pending counter is the number of invocations queued or taken and not yet counted off |
| Signals.BatchIsFollowedUp | include/xdispatch/signals.h:399-416 | batch mode queues at most one invocation, and every emit is followed by a start of the handler |
| Signals.EveryEmitStartsTheHandlerOnce | include/xdispatch/signals.h:392-412 | single and synchronous mode start the handler exactly once per emit, in emit order |
| Signals.EverythingIsHandled | include/xdispatch/signals.h:390-416 | once the emits are over, five steps for each queued invocation leave nothing pending, with the handler started once per emit in single mode, and after the last emit in batch mode |
| Signals.EmitAlone | include/xdispatch/signals.h:384-418 | an uninterrupted emit of the machine does what the loop body does in each mode |
| Signals.Signal.Emit | include/xdispatch/signals.h:384-418 | the loop over the handlers gives every handler exactly that |

## Left out

- C++ memory orders weaker than sequential consistency, alignment and raw allocation.
- Explicit producers, tokens, bulk operations, moving, swapping and destroying queues, the scoring of sub-queues in `try_dequeue`: the thread pool does not use them, or they choose among sub-queues only.
- A limit on the size of a sub-queue (unlimited by default), allocation failures and `rewind_block_index_tail`; recycling sub-queues of exited threads, which is switched off; `size_approx`.
- ImplicitProducer.ClaimsNeverPassTheTail: indices are unbounded in the machine. CircularIndex proves that the enqueuer's comparison is right on 64-bit words; a dequeuer that sleeps through 2^63 operations between two loads is not covered.
- ImplicitProducer.EveryRunKeepsTheInvariant: the free list inside it is a set from which one step takes and gives, and which may give nothing; FreeList.TheListIsASet proves that the list is one, FreeList.GetGivesUpOnlyOnAnEmptyList when it gives nothing. The other sub-queues appear as steps that take blocks and give them back, and the index can double until it has 2^59 slots.
- ThreadPool.OperationsAreConserved: buckets are bags and the semaphore is a counter whose wait gives up only at zero; ImplicitProducer and Semaphore are about the parts, and no single machine combines them.
- ThreadPool.NoWorkIsStranded: for runs before the pool is cancelled; the destructor releases tokens without operations and the global pool is never destroyed. Operations are taken to end.
- ImplicitProducer.OwnAccessesAreBounded: not a bound on all accesses; the loops of the free list repeat as long as other threads interfere, as FreeList says.
- ThreadPool.WorkersLookAgain: a scan that competes with other workers has no bound of its own; ThreadPool.ScanFindsWithinFour says that there is always an operation ahead.
- ThreadPool.MostUrgentIsStarted: for a scan that nobody disturbs; a more urgent operation that is put into a bucket which a scan has passed waits for the next worker.
- ThreadPool.Pool.Scan: the buckets are sequences there, one front per bucket; the order among several submitters is that of enqueueing.
- Semaphore.OwnStepsAreBounded: for compare-and-swaps that do not fail spuriously; a weak one may fail any number of times.
- Semaphore.TokensAreConserved: the count is unbounded; fewer than 2^31 tokens are assumed.
- FreeList.List.TryGet: without other threads the retrying loop is left after one round, so the method has no loop; the machine has it.
- LightweightBarrier.EveryRunKeepsTheInvariant: the compare-and-swaps in lines 109 and 131 are weak in the source; a spurious failure there would lose a completion or use a null waiter, and is not modelled.
- SerialQueue.QueueLeavesAfterItsJobs: about runs in which jobs are added only between attach and detach, as the header asks; SerialQueue.StrandedExactly says what happens otherwise.
- SerialQueue.NoDrainOutlivesTheQueue: the destructor also drops notifications of jobs added after detaching; such runs are outside the statement, and the machine lets the destructor finish in one step once no drain is active.
- WaitableQueue.EveryRunKeepsTheInvariant: the tests that a waiter makes without releasing the lock are separate steps, which allows more interleavings than the source.
- Apply.ApplyRunsEveryIndexOnce: `apply` called from a job of the same serial queue blocks for ever, as the source notes; the machine does not run the caller on the queue. Preceding consumables, `add_resource`, timeouts and `group::wait` are left out; a consumable that was consumed once stays so by design.
- Signals.BatchIsFollowedUp: for a serial target queue and a handler that nobody disables. A batched invocation carries the arguments of the emit that queued it. `skip_all`, groups, chained signals and parallel target queues are left out.
- `manual_thread::cancel`, timers, sockets, `after`, exceptions in jobs, tracing, thread names and priorities, symbol lookup, backend selection and the other backends.
