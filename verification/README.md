# A verified model of the copnet coroutine library

copnet runs coroutines on a fixed number of threads. Each thread has a `Processor` whose loop polls
epoll, resumes sleepers whose deadline has passed, drains a double-buffered queue of new and woken
coroutines, resumes those whose descriptor became ready, and deletes the ones that finished.
Coroutines block on timers, descriptors and reader-writer mutexes; coroutine objects come from a
pool that reuses addresses. The project states what has to hold for this to work, and proves it.

| file | what it models |
|---|---|
| `Scheduler.dfy` | the scheduling core as a step system: any number of processors, coroutines and mutexes, every interleaving |
| `SchedulerInv.dfy`, `SchedulerFrames.dfy`, `SchedulerSteps.dfy`, `SchedulerCoSteps.dfy` | its inductive invariant and the proof that every step keeps it |
| `SchedulerTheorems.dfy` | what holds in every reachable state |
| `SchedulerRuns.dfy` | what holds over whole runs: order, delivery bounds, one deletion per life |
| `Holders.dfy` | who holds a mutex over whole runs, and the two client mistakes after which a waiter waits for nobody |
| `LockRuns.dfy` | every state of the scheduler is reached with the locks taken step by step |
| `Locking.dfy` | the three kinds of spinlock taken and released step by step over the scheduler's steps: what is held where, lock order, no vain spinning |
| `Sleepers.dfy`, `Pollers.dfy` | a sleep, and a wait for a descriptor, from end to end over whole runs |
| `WakeUps.dfy`, `LockCalls.dfy` | the wake-up of a mutex, and the lock calls, from end to end over whole runs |
| `Lives.dfy` | a new coroutine is started, a finished one deleted, over whole runs |
| `Spinlock.dfy` | the compare-and-swap loop, each atomic operation a step |
| `TaskQueue.dfy` | the double-buffered queue, each access to shared memory a step, and its imperative form |
| `MutexSections.dfy` | the critical sections of one `RWMutex`, each access to a field a step |
| `Mutexes.dfy` | the critical sections of `RWMutex` as an object |
| `Processors.dfy` | status changes, creation and clean-up as objects over the object pool |
| `MemPools.dfy`, `ObjPools.dfy` | the allocator over a byte memory, and object lifetimes on top of it |
| `SleepQueue.dfy`, `Timers.dfy` | the timer heap, and `Timer` over a one-shot kernel timer with interference from other threads |
| `Calendars.dfy` | `Time::toLocalTime` against a day count and against the Gregorian calendar |
| `Selectors.dfy` | placement of new coroutines |
| `Seqs.dfy` | sequences without duplicates |

## How the concurrent part is modelled

A step of module `Scheduler` is one access to shared state, or code of one thread that no other
thread can observe. In particular "record myself in a wait queue", "set my status", "switch to the
loop" are separate steps, so that another thread can wake a coroutine between any two of them.
The lock of a mutex is explicit because `freeLock` pushes to other processors' queues while holding
it. `Disciplined` is what clients owe the library: unlock only what you hold, and at most one waiter
per descriptor and processor; `SecondWaiterIsLost` shows what the second condition is for. The
witness of the invariant is a map that gives every constructed coroutine the one place where it is
recorded.

A section guarded by `lock_`, `newQueLock_` or `coPoolLock_` is one step in `Scheduler`. `Locking` takes
these sections apart: acquisition, section and release are moves of their own, made by any number of
threads, and a lock is only its `sem_`. A thread that has come into a section asks nothing of the
scheduler's state; that the guard of the atomic step is then true, and that every move makes one step of
`Scheduler` or none, is `Locking.AtomicStepsSuffice`. So all that is proved of `Scheduler` holds there,
and what the locks themselves promise is proved there. Conversely every reachable state of `Scheduler` is
reached there (`LockRuns.ReachableIff`). Each lock goes through a run of module `Spinlock`
(`Locking.LocksAreSpinlocks`).

In `Locking` the guarded accesses of one section are one move. `TaskQueue` takes them apart for
`newQueLock_`, whose queue the loop also reads without the lock: reads and pushes inside the section are
steps of their own, the loop reads its queue without the lock, and the result is proved to refine the
atomic pair of queues; `SchedulerRuns.QueueStep` shows that `Scheduler` makes exactly those atomic steps.
`MutexSections` does the same for `lock_` and the fields of a mutex, which are proved to change as by
the scheduler's atomic sections, each call completing those that it owes.

Every wait ends, and for its reason only: `Sleepers`, `Pollers`, `WakeUps` and `Lives` say for each of the
places where a coroutine may be recorded that the loop takes it from there, in which iteration, and where
the coroutine then goes on. The model does not restrict what clients call, what the kernel answers or how
time passes (`SchedulerTheorems.ClientsMayCall`, `SchedulerTheorems.KernelMayAnswer`,
`Sleepers.ClockIsLastTick`).

## What turned out not to hold

- The kernel timer may fire later than the earliest deadline, because the present is rounded down to
  a whole millisecond before the interval is computed. `Timers.ArmedInTimeIff` gives the exact
  condition, `Timers.ArmedTooLate` an input, and `Timers.ArmedInTheMillisecondIff` the condition at
  the library's own resolution. What `Timer.Valid` keeps is coverage up to that rounding and the
  delay between reading the clock and arming.
- A `wakeUp` is forgotten when the owner arms the timer after it (`Timers.WakeUpIsOverwritten`); it is
  still answered in time exactly if the deadline that the owner arms for has passed
  (`Timers.WakeUpSurvivesIff`, `Timers.WakeUpSurvivesResetIff`).
- A sleep may last up to 999 microseconds less than asked for (`Timers.SleepEndsIff`, input in
  `Timers.SleepTooShort`).
- A mutex can stay held for ever by a coroutine that has finished, even by an address that is no
  coroutine any more (`Holders.HeldByNobody`): the library lets a coroutine finish while it holds one,
  and exactly that is the cause (`Holders.HolderDiesIff`, `Holders.HoldersAliveIff`). A coroutine can
  also wait for itself (`Holders.WaitingForItself`), exactly by calling for a mutex that it holds
  (`Holders.WaitsForItselfIff`). Without these two mistakes every waiter waits for another, living
  coroutine (`Holders.BlockedWaitsForAnother`).
- `toLocalTime` cuts the hours to 32 bits; it can be undone exactly below that
  (`Calendars.RoundTripIff`, input in `Calendars.HoursStartOver`), and it is a Gregorian date exactly
  before March 2100 (`Calendars.GregorianIff`, input in `Calendars.March2100IsNoDate`).
- `MIN_EVENT_FIRST` is documented (src/processor_selector.h:36-38) to choose the processor with the
  fewest coroutines. If no worker has fewer than processor 0 it chooses processor 1, whatever its
  load (`Selectors.LeastLoadedIff`, `Selectors.BusierWorkerChosen`).
- With a single processor, `next` can index past the end of the vector (last clause of
  `Selectors.ProcessorSelector.Next`).

## Model

| member | source | states |
|---|---|---|
| `Spinlock.ActionKeepsExclusion` | src/spinlock.h:34-46 | every atomic operation keeps: `sem_` is 0 iff exactly one thread is inside, else 1 |
| `Spinlock.AlwaysExclusive` | src/spinlock.h:34-46 | mutual exclusion in every interleaving of any number of threads |
| `Spinlock.CasSucceedsIffFree` | src/spinlock.h:37-40 | an exchange succeeds exactly when nobody is inside, so the reset of `exp` after a failure is enough |
| `TaskQueue.StepRefines` | src/processor.cc:97-117 | each memory access of goCo, goCoBatch, the drain and the flip is an atomic append, take-head, swap or nothing on the pair (running, adding) |
| `TaskQueue.NoProducerOnDrainedQueue` | src/processor.cc:163-173 | no producer stores into the queue that the loop reads without the lock |
| `TaskQueue.StepIsFifo` | src/processor.cc:97-117 | running ++ adding is appended to at the tail by whole batches and taken from at the head, nothing else |
| `TaskQueue.RunInv` | src/processor.cc:97-178 | the invariant of the fine-grained queue in every run |
| `TaskQueue.OneFifo` | src/processor.cc:97-178 | over any run, everything appended equals everything taken followed by running ++ adding: one FIFO queue, batches contiguous |
| `TaskQueue.CallAppendsItsBatch` | src/processor.cc:97-117 | over any run, what a call appends when it leaves is what it was called with |
| `TaskQueue.InsiderLeaves` | src/processor.cc:97-117 | every step of the thread inside `newQueLock_` brings it closer to its release |
| `TaskQueue.InsiderCanStep` | src/processor.cc:97-117 | the thread inside can always make such a step |
| `TaskQueue.InsiderIsLeftAlone` | src/processor.cc:97-117 | no other thread's step pushes it back |
| `TaskQueue.NewTaskQueues.GoCo` | src/processor.cc:97-104 | appends to the adding queue and leaves the running one |
| `TaskQueue.NewTaskQueues.GoCoBatch` | src/processor.cc:109-117 | appends the whole batch, in order |
| `TaskQueue.NewTaskQueues.DrainAndFlip` | src/processor.cc:161-178 | ends although resumed coroutines push more, resumes exactly what was running, in order, and leaves all pushes to the next drain |
| `SchedulerInv.InitInv` | src/processor.cc:27-31 | the invariant holds before anything is created |
| `SchedulerTheorems.StepInv` | src/processor.cc:140-199 | every step of the loop, of a coroutine and of creation keeps the invariant |
| `SchedulerTheorems.RunInv` | src/processor.cc:140-199 | the invariant holds in every state of every run |
| `SchedulerTheorems.SingleToken` | src/processor.cc:140-211 | an executing coroutine is recorded nowhere before its suspension window; any other constructed one is recorded at exactly one place, once, and its status fits that place |
| `SchedulerTheorems.NoWakeUpDiscarded` | src/processor.cc:57-71 | every pointer that the loop resumes, but the timer's null, is in `coSet_`, READY or WAITING, and its coroutine runs next |
| `SchedulerTheorems.WakeReachesOwner` | src/mutex.cc:76-85 | a waiter, even one still between its push and its switch, is woken into its own processor's queue and nowhere else |
| `SchedulerTheorems.ReclaimedIsForgotten` | src/processor.cc:188-197 | what is deleted is a finished coroutine of that processor, and afterwards no list, set, registration or stack refers to the address |
| `SchedulerTheorems.NewAddressIsClean` | src/processor.cc:228-252 | a coroutine constructed at a recycled address starts with no reference to it but its creator's |
| `SchedulerTheorems.CurrentCoroutineAgrees` | src/processor.cc:57-92 | code of a coroutine runs on its own processor, `pCurCoroutine_` is that coroutine, and no two threads share it |
| `SchedulerTheorems.ReaderWriterExclusion` | src/mutex.cc:22-85 | WRITING iff a writer holds it, READING iff readers do, FREE iff nobody does; never both; `readingNum_` is the number of readers |
| `LockCalls.AttemptAdmits` | src/mutex.cc:22-64 | a reader is let in iff nobody writes, a writer iff nobody holds the mutex; who is let in holds it once more, who is not is last in the wait queue and about to yield |
| `LockCalls.UnlockEndsHold` | src/mutex.cc:42-74 | an unlock ends one hold of its caller's, and goes on to hand out the mutex iff nobody holds it any more |
| `LockCalls.LockCallReturns` | src/mutex.cc:22-68 | over any run, a lock call that returns, returns with exactly one more hold of the kind called for |
| `Holders.BlockedWaitsForAnother` | src/mutex.cc:22-85 | if coroutines finish only when they hold nothing and never wait for what they hold: a blocked coroutine waits for another one that is alive and holds the mutex or is releasing it, or its wake-up is already in its processor's queues |
| `Holders.HoldersAliveIff` | src/coroutine.cc:22-26 | over any run, every holder of every mutex was alive all along iff no coroutine's function returned while it held one |
| `Holders.HolderDiesIff` | src/coroutine.cc:22-26 | the same for one step |
| `Holders.HeldByNobody` | src/coroutine.cc:22-26 | a reachable state in which a mutex is written by an address that is no coroutine |
| `Holders.WaitsForItselfIff` | src/mutex.cc:22-68 | a coroutine comes to wait for itself exactly by calling wlock on a mutex it holds, or rlock on one it writes |
| `Holders.WaitingForItself` | src/mutex.cc:52-68 | a reachable state in which a writer waits in its own mutex's queue |
| `Holders.HoldKept` | src/mutex.cc:42-74 | a hold ends only by the holder's own unlock call |
| `Holders.HoldBegins` | src/mutex.cc:22-68 | a hold begins only by the holder's own lock call |
| `Holders.AliveKept` | src/processor.cc:187-197 | a coroutine's life ends only by its own return from its function |
| `SchedulerTheorems.IdleMutexHasNoWaiters` | src/mutex.cc:76-85 | a mutex that nobody holds or is releasing has no waiters |
| `Locking.AtomicStepsSuffice` | src/spinlock_guard.h:26-35 | whoever has acquired the lock of a section finds the atomic step's guard true; every move makes that step or none, so all interleavings stay within what the atomic steps reach |
| `LockRuns.ReachableIff` | src/spinlock_guard.h:26-35 | the states that some interleaving of acquisitions, sections and releases reaches are exactly those that the atomic steps reach |
| `Locking.LocksAreSpinlocks` | src/spinlock.h:34-46 | in every interleaving each lock, as all threads see it, goes through a run of module `Spinlock` |
| `Locking.HeldIsProgramPoint` | src/spinlock_guard.h:26-35 | a thread holds exactly the locks of its program point; `sem_` is 0 iff exactly one thread holds the lock, else 1 |
| `Locking.ContextSwitchHoldsNothing` | src/mutex.cc:25-37 | a thread that changes stacks, into a coroutine or out of one, holds no spinlock before and after |
| `Locking.HoldersAreInSections` | src/mutex.cc:22-85 | a holder's coroutine is in its function, in a lock call before its yield, or in freeLock; from the call of yield on it holds nothing |
| `Locking.NestingOrder` | src/mutex.cc:76-84 | the only lock ever acquired while another is held is a `newQueLock_`, under the `lock_` of one mutex |
| `Locking.SpinningEndsInTwoHops` | src/spinlock.h:34-41 | a spinning thread spins for another that can make a move other than spinning, or that spins for a third that can |
| `Locking.ThreadAdvances` | src/processor.cc:140-199 | a processor's thread that is not in client code can make a move of its own, time passing not counted, unless it spins |
| `Locking.HolderLeaves` | src/mutex.cc:76-85 | each move of a lock holder, but for failed exchanges, decreases a measure of its way out |
| `Locking.HolderIsLeftAlone` | src/mutex.cc:76-85 | no move of another thread changes that measure |
| `SchedulerTheorems.SuspendedUntilConsumed` | src/processor.cc:57-71 | a suspended coroutine changes only when its own processor's loop consumes its token |
| `SchedulerTheorems.NotBeforeDeadline` | src/timer.cc:51-64 | a sleeper is resumed only by the expiry loop, and not before its deadline |
| `Sleepers.ExpireTakesWhatIsDue` | src/timer.cc:58-64 | every entry whose deadline has passed leaves the heap for the expired ones, and every other stays |
| `Sleepers.OverdueGoesOn` | src/processor.cc:152-159 | over any run, a sleeper whose deadline has passed when its loop looks is back in its function before the drain of the same iteration |
| `Sleepers.SleepsLongEnough` | src/processor.cc:87-92 | over any run, when the caller of wait(ms) has the thread again, the clock is at least ms past what it was at the call |
| `Pollers.PollFinds` | src/processor.cc:152 | a coroutine in waitEvent becomes active by an epoll_wait iff that reports its descriptor |
| `Pollers.ReportedGoesOn` | src/processor.cc:180-185 | over any run, whoever waits for a descriptor that is reported has the thread, on its way out of waitEvent, before the clean-up of the same iteration |
| `Pollers.WaitEventReturns` | src/processor.cc:207-211 | over any run, when waitEvent returns its descriptor was reported during the call and is not registered any more |
| `Lives.NewCoroutineStarts` | src/processor.cc:228-252 | over any run, what goNewCo constructs and pushes has the thread, at the head of its function, before its processor's third iteration from the push |
| `Lives.FinishedIsDeleted` | src/processor.cc:187-197 | over any run, a coroutine that returned from its function is deleted before its processor's next iteration |
| `SchedulerTheorems.SecondWaiterIsLost` | src/processor.cc:207-211 | after waitEvent the caller is recorded anywhere iff its descriptor was not yet registered |
| `SchedulerRuns.QueueStep` | src/processor.cc:97-178 | which step appends which pointer to a processor's adding queue, which takes its running queue's head, and which flips; every other leaves both alone |
| `SchedulerRuns.ReadyIsFifo` | src/processor.cc:97-178 | running ++ adding of each processor is a FIFO queue under every step of every thread: woken and new coroutines enter at the tail, the drain takes the head |
| `SchedulerRuns.PushedStays` | src/processor.cc:162-178 | until it is taken, what was pushed is in the adding queue, and after one flip in the running queue; a second flip is impossible |
| `SchedulerRuns.DeliveredWithinTwoIterations` | src/processor.cc:140-199 | what is pushed during one iteration is taken no later than the drain of the second iteration after it |
| `SchedulerRuns.DrainTerminates` | src/processor.cc:165-173 | during a drain the running queue only shrinks, by one per resume, so the drain is bounded by its length |
| `SchedulerRuns.LastUnlockWakesAll` | src/mutex.cc:76-85 | while freeLock holds `lock_`, those woken so far followed by those still waiting are the original wait queue |
| `SchedulerRuns.ReleaseMeansAllWoken` | src/mutex.cc:76-85 | when `lock_` is released every waiter was woken, in wait order |
| `SchedulerRuns.WaitersResumeInOrder` | src/mutex.cc:80-84 | in every run, of two waiters of one processor the one that waited first is taken from that processor's running queue first |
| `WakeUps.WaiterRetries` | src/mutex.cc:25-38 | in every run, whoever is in the wait queue while freeLock holds `lock_` is executing again, at the head of the rlock or wlock it blocked in, before its processor's third iteration after the release |
| `WakeUps.WaiterWaits` | src/mutex.cc:33 | everyone in a wait queue is blocked in a lock call for that mutex |
| `WakeUps.ConsumedIsRetry` | src/processor.cc:165-173 | only the drain of its own processor resumes such a coroutine, and always at the head of its lock call |
| `SchedulerRuns.SleepersKeepOrder` | src/processor.cc:152-159 | the line of overdue and sleeping coroutines loses only its head, and new sleepers enter behind all overdue ones |
| `SchedulerRuns.SleepersResumeByDeadline` | src/timer.cc:51-64 | of two sleepers in one heap together the one with the earlier deadline, or else the lower address, is resumed first |
| `SchedulerRuns.FinishedOncePerLife` | src/processor.cc:254-257 | between two entries of an address into `removedCo_` lies its deletion |
| `SchedulerRuns.DeletedOncePerLife` | src/processor.cc:188-197 | between two deletions of an address lies a construction at it |
| `SchedulerRuns.PoolDiscipline` | src/processor.cc:188-252 | a step takes from a processor's object pool an address not in use, returns one that is, or leaves the pool alone: what `Processors` asks of its callers |
| `MutexSections.StepRefines` | src/mutex.cc:22-85 | each access to a field under `lock_` is, to the fields as the last section left them, an atomic section of the scheduler or nothing; the tests decide as the atomic section does |
| `MutexSections.FieldsAreAtomic` | src/mutex.cc:22-85 | in every interleaving of any number of threads the fields, when nobody is inside, are what a sequence of atomic sections made of them |
| `MutexSections.NobodyIsForgotten` | src/mutex.cc:76-85 | in every interleaving, whenever nobody is inside a mutex that is free, nobody waits for it |
| `MutexSections.CallDoesItsWork` | src/mutex.cc:22-85 | in every interleaving, from its acquisition to its release an attempt marks or enqueues once, and an unlock that frees the mutex hands out every waiter it found, in order; the fields it leaves are what these make of those it found |
| `MutexSections.InsiderLeaves` | src/mutex.cc:76-85 | whoever is inside can go on, and every access brings it closer to its release |
| `MutexSections.InsiderIsLeftAlone` | src/mutex.cc:76-85 | no other thread pushes it back |
| `Mutexes.Mutex.RLock` | src/mutex.cc:22-35 | returns iff the lock is free or read, else enqueues the caller; the object becomes what the scheduler step makes of its mutex, and its invariant is kept |
| `Mutexes.Mutex.RUnlock` | src/mutex.cc:42-50 | only the last reader frees the lock and wakes the waiters; the object becomes what the unlock step and freeLock's loop make of the mutex |
| `Mutexes.Mutex.WLock` | src/mutex.cc:52-64 | returns iff the lock is free, else enqueues the caller; the object becomes what the scheduler step makes of its mutex |
| `Mutexes.Mutex.WUnlock` | src/mutex.cc:70-74 | frees the lock and wakes every waiter; the object becomes what the unlock step and freeLock's loop make of the mutex |
| `Mutexes.Mutex.FreeLock` | src/mutex.cc:76-85 | each processor's adding queue gains exactly its own waiters, in wait order; running queues stay |
| `Mutexes.MineIsAll` | src/mutex.cc:80-84 | distributing the wait queue by owner loses and duplicates nobody |
| `Mutexes.MineKeepsOrder` | src/mutex.cc:80-84 | ... and keeps the order of two waiters of one processor |
| `Processors.Coroutine.Resume` | src/coroutine.cc:44-64 | switches iff READY or WAITING and then is RUNNING; otherwise nothing changes |
| `Processors.Processor.Resume` | src/processor.cc:57-71 | switches iff the pointer is known and READY or WAITING; a known pointer becomes the current one in any case; statuses, known and current pointer change as by the scheduler's resume |
| `Processors.Processor.ResumeFirst` | src/processor.cc:165-173 | a turn of the drain takes the first of the running queue, makes it known, and switches to it if it is new |
| `Processors.Processor.YieldThenResume` | src/processor.cc:57-81 | a coroutine that yields is switched back to by the next resume of its pointer, and is running and current as before |
| `Processors.Processor.GoNewCo` | src/processor.cc:228-252 | constructs at an address that is neither in use nor awaiting deletion, and pushes it |
| `Processors.Processor.KillCurCo` | src/processor.cc:254-257 | retires the current coroutine |
| `Processors.Processor.CleanUp` | src/processor.cc:187-197 | exactly the retired coroutines leave `coSet_` and the pool's use, each destroyed and freed, once and in order |
| `MemPools.ChainPush` | src/mempool.h:93-94 | writing the old head into a node outside a list and making it the head pushes it |
| `MemPools.MemPool.constructor` | src/mempool.h:36-47 | an empty pool whose blocks can hold a pointer |
| `MemPools.MemPool.Carve` | src/mempool.h:89-96 | the loop threads all new blocks on the free list, newest first, and keeps the chunk list and all other memory |
| `MemPools.MemPool.AllocAMemBlock` | src/mempool.h:78-102 | the block was not live; with a free block at hand it is the list's head and memory is untouched, otherwise every block was live and one chunk is added; no live byte changes; the invariant is kept |
| `MemPools.MemPool.FreeAMemBlock` | src/mempool.h:104-114 | null is ignored; otherwise the block becomes the head of the free list, and no other live byte changes |
| `MemPools.MemPool.Destroy` | src/mempool.h:67-76 | ends, and frees each chunk exactly once |
| `MemPools.MemPool.ClientWrite` | src/mempool.h:22-29 | any write into a live block keeps both lists and all other blocks |
| `MemPools.ClientWriteOk` | src/mempool.h:22-29 | the same on the pool's state, for every byte of every live block |
| `MemPools.AllocOk` | src/mempool.h:78-102 | taking the head, after growing if needed, keeps: lists acyclic and intact, live and free partition the carved blocks, blocks disjoint inside their chunks |
| `MemPools.FreedOk` | src/mempool.h:104-114 | freeing a live block keeps the same |
| `MemPools.AllocUndoesFree` | src/mempool.h:78-114 | allocating after a free hands the same block out; only its first word changed |
| `MemPools.FreeUndoesAlloc` | src/mempool.h:78-114 | freeing the block just taken restores every field and byte |
| `MemPools.BlocksNeverOverlap` | src/mempool.h:89-96 | two blocks share no byte, and each lies in a chunk past its header |
| `MemPools.BlockCount` | src/mempool.h:84-97 | live + free = 40k + k(k-1)/2 after k mallocs |
| `MemPools.LeastMallocs` | src/mempool.h:82-98 | the number of mallocs is the least whose capacity covers the recorded peak |
| `MemPools.PeakIsMostLive` | src/mempool.h:78-114 | over any sequence of allocations, frees and client writes the recorded peak is the most blocks that were ever live at once |
| `MemPools.NoMallocTooMany` | src/mempool.h:82-98 | over any such sequence the number of mallocs is the least whose capacity covers that |
| `ObjPools.ObjPool.NewObj` | src/objpool.h:59-80 | allocates, then constructs unless that is trivial; every address keeps a legal history |
| `ObjPools.ObjPool.DeleteObj` | src/objpool.h:82-103 | null is ignored; otherwise destroys, unless trivial, before it frees |
| `ObjPools.BornLives` | src/objpool.h:59-80 | exactly the live blocks are in use after a creation, and no address was constructed on twice |
| `ObjPools.GoneLives` | src/objpool.h:82-103 | exactly the live blocks are in use after a deletion |
| `ObjPools.DestroyedOncePerObject` | src/objpool.h:98-103 | at every address constructions and destructions alternate, as do allocations and releases |
| `SleepQueue.InsertSorted` | src/timer.h:37 | pushing keeps the heap's delivery order |
| `SleepQueue.InsertAdds` | src/timer.h:37 | ... of what was there and the new entry, once |
| `SleepQueue.DueExactly` | src/timer.cc:60 | the due entries are exactly the leading ones that the loop pops |
| `Timers.Timer.TimeIntervalFromNow` | src/mstime.cc:112-129 | never zero and always acceptable to the kernel; the distance in milliseconds, or one microsecond |
| `Timers.Timer.ResetTimeOfTimefd` | src/timer.cc:94-104 | succeeds; the timer then covers the deadline up to the rounding and the delay, whatever other threads do |
| `Timers.Timer.GetExpiredCoroutines` | src/timer.cc:51-83 | appends exactly the entries due at one reading of the clock, in order, keeps the rest, leaves the earliest sleeper covered, and the descriptor readable only if the timer fired since |
| `Timers.Timer.DrainTimeFd` | src/timer.cc:66-76 | no firing from before the call is left unread |
| `Timers.Timer.RunAt` | src/timer.cc:85-92 | adds the entry; re-arming only for a new earliest deadline leaves the earliest sleeper covered |
| `Timers.Timer.RunAfter` | src/timer.cc:106-110 | the deadline is the given time after a reading of the clock during the call |
| `Timers.Timer.WakeUp` | src/timer.cc:112-115 | the timer fires within a microsecond, and still covers the earliest sleeper |
| `Timers.Timer.Interfere` | src/timer.cc:112-115 | time, firing and other threads' wakeUp never uncover a covered deadline, and keep the timer's invariant |
| `Timers.ExpiredExactly` | src/timer.cc:60-64 | what leaves is all that is due and nothing else, by deadline, and the multiset is conserved |
| `Timers.ArmedInTimeIff` | src/timer.cc:94-104 | the timer fires by the deadline, or a microsecond from now, iff the deadline passed or the clock stood at a whole millisecond and no time was lost |
| `Timers.ArmedTooLate` | src/mstime.cc:112-129 | an input for which it fires 500 microseconds late |
| `Timers.ArmedInTheMillisecondIff` | src/timer.cc:94-104 | in whole milliseconds it fires in time iff rounding and delay add up to less than one |
| `Timers.WakeUpIsSoon` | src/timer.cc:112-115 | however long it takes, wakeUp arms one microsecond ahead |
| `Timers.WakeUpIsOverwritten` | src/timer.cc:78-82 | arming the timer after a wakeUp is as if the wakeUp had not happened |
| `Timers.WakeUpSurvivesIff` | src/timer.cc:78-82 | after a re-arming the timer still fires within a microsecond of the wakeUp iff the interval armed is at most that |
| `Timers.WakeUpSurvivesResetIff` | src/timer.cc:94-104 | for resetTimeOfTimefd: iff the deadline it arms for has passed |
| `Timers.SleepEndsIff` | src/timer.cc:51-64 | a sleeper that read the clock at one time is among those popped at another iff the time it asked for, less the microseconds gone of the starting millisecond, has passed |
| `Timers.SleepTooShort` | src/timer.cc:106-110 | a sleep of a millisecond that is over after one microsecond |
| `Calendars.ToLocalTime` | src/mstime.cc:36-110 | for every second not before the zone's 1970 the fields are in range and name that second less the zone, once the years lost to the 32-bit cut are given back; an earlier one gives 1970-01-01 00:00:00 |
| `Calendars.NamesUnique` | src/mstime.cc:36-110 | that determines the fields |
| `Calendars.MonthSums` | src/mstime.h:26 | the days before each month are those of an almanac |
| `Calendars.CountYears` | src/mstime.cc:61-77 | the year loop turns at most three times and stops in the right year of the period |
| `Calendars.SetMonthAndDay` | src/mstime.cc:102-107 | the month loop ends within the table, at the right month and day |
| `Calendars.SetDate` | src/mstime.cc:81-107 | the leap-day correction: month and day give back the day of the year, in leap years too |
| `Calendars.RoundTripIff` | src/mstime.cc:54-57 | counting days back yields the second iff the hours fit in 32 bits |
| `Calendars.HoursStartOver` | src/mstime.cc:54-57 | an input that cannot be converted back |
| `Calendars.RoundTripOfDate` | src/mstime.cc:36-110 | converting the seconds of a date yields that date |
| `Calendars.StrictlyIncreasing` | src/mstime.cc:36-110 | later seconds have lexicographically later fields |
| `Calendars.OrderAgrees` | src/mstime.h:26 | the day count orders fields as they read, and distinguishes them |
| `Calendars.GregorianIff` | src/mstime.cc:85-100 | the fields are a Gregorian date with these seconds since the Epoch (section 4.16 of POSIX.1-2017 Base Definitions) iff the second is before 2100-03-01 |
| `Calendars.March2100IsNoDate` | src/mstime.cc:85-92 | 2100-03-01 00:00:00 comes out as the 29th of February 2100 |
| `Calendars.PosixIsSeconds` | src/mstime.cc:64-70 | the Gregorian count is the every-fourth-year count less the skipped leap days |
| `Selectors.ProcessorSelector.Next` | src/processor_selector.cc:21-58 | null iff there is no processor; the least-load scan or the next in turn; out of range exactly with one processor, unless it is the first round-robin call |
| `Selectors.ProcessorSelector.Scan` | src/processor_selector.cc:29-42 | the lowest index of minimum load among 1..n-1 if that is below processor 0's load, else 1 |
| `Selectors.LeastLoadUnique` | src/processor_selector.cc:34-42 | this determines the choice |
| `Selectors.LeastLoadedIff` | src/processor_selector.cc:29-42 | the choice is a least loaded worker iff some worker is below processor 0 or the first worker is least |
| `Selectors.BusierWorkerChosen` | src/processor_selector.cc:29-42 | loads for which the busier of two workers is chosen |
| `Selectors.TimesIs` | src/processor_selector.cc:46-54 | in a window of round-robin calls a worker's turn comes after its distance, and then every n - 1 calls |
| `Selectors.RoundRobinIsFair` | src/processor_selector.cc:46-54 | in any window each worker is chosen the rounded-down or rounded-up share of times |
| `Selectors.WorkersShareEvenly` | src/processor_selector.cc:46-54 | two workers differ by one at most, and not at all over whole rounds |
| `Selectors.ZeroOnlyOnce` | src/processor_selector.h:33 | from the initial index -1 processor 0 is chosen by the first call and never again |

## Left out

- The whole loop, and mutexes as they interleave with it, are on values in module `Scheduler`, since many threads step them; `Mutexes`, `Processors` and `TaskQueue.NewTaskQueues` have the sections that run alone as objects. What is then not captured is aliasing between the objects of different threads.
- The machine is sequentially consistent, as the library's default atomics are; the unlocked `volatile` read of `runningNewQue_` and the unlocked queue reads rely on this.
- Real epoll, timerfd and ucontext: epoll returns any registered coroutines, each at most once, and possibly the timer's null; a context switch is a step; `addEv` of a fresh descriptor and `malloc` succeed.
- The wall clock of `gettimeofday` never goes back, and the kernel timer's monotonic clock runs with it.
- The event mask of `waitEvent`, and the growth of epoll's result array.
- Start-up, `stop`, `join` and destructors of `Scheduler`, `Processor` and `Spinlock`: the model starts with all processors looping.
- `Socket`, the stacks in `Context`, and the client API around `Scheduler::createNewCo`: thin wrappers.
- Mutex calls from threads that run no coroutine.
- Clients that unlock a mutex they do not hold, or let two coroutines of a processor wait for one descriptor; the two other mistakes are modelled, in `Holders`.
- Writer fairness: readers may keep arriving, so nothing is claimed about starvation.
- Latency in time: delivery is counted in loop iterations, because a `wakeUp` may be overwritten.
- Concurrent calls of `ProcessorSelector::next`, and coroutine counts that change during its scan.
- 64-bit overflow of `time_t` and of deadlines, which is undefined or absurd in the original too.
- The arguments of `new_obj` and what a constructor writes; any write into the object is covered by `MemPools.ClientWrite`.
- The accesses inside one `coPoolLock_` section are one move in `Locking`; `MemPools` and `ObjPools` have them one by one, on an object that one thread uses.
- Timers.Timer.ResetTimeOfTimefd: does not promise that the timer fires no later than the deadline, because it may (see ArmedInTimeIff).
- Calendars.StrictlyIncreasing: only where the hours fit in 32 bits, because the year starts over beyond.
- `webbench`, the example client and server, and printing.
