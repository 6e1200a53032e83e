# Verified models of the pthread protocols

The repository is a set of exercises with POSIX threads. Seven of its programs are small concurrent
protocols; this project models them, and the client of one of them, and proves what they promise over
every run, for any number of threads and any interleaving.

Each protocol has one module, built in three layers:

- **Regions.** The C functions are cut at the points where they release the mutex (unlock,
  `pthread_cond_wait`, `pthread_cond_timedwait`). Each piece is a pure function on a record of the
  struct's fields (`Enter`, `Serve`, `Fetch`, `Insert`, ...).
- **Objects.** A class with the struct's own fields (linked lists, ring buffer, counters) whose methods
  run those pieces in place. Every method is proved to do to the object what the region function does
  to the record. Where the fields are bare counters or flags, ghost state says what they stand for (who is
  inside the lock, who has arrived, what has been sent), and the contracts speak of that.
- **Protocol.** A transition system `Next(state, action)` over the record and the threads' positions,
  built from the region functions. A condition variable is modelled with sleepers that wake up by a
  signal (to one sleeper, any one), a broadcast, or spuriously (`chap3-sync/note.md`). `Machines.Run`
  follows a sequence of actions; the results hold for every such sequence.

History variables (`completed`, `taken`, `done`, `log`, `delivered`, ...) record what happened; no
guard of a step reads them.

| file | what it models |
|---|---|
| `Machines.dfy`, `Threads.dfy`, `FiniteSets.dfy`, `Modular.dfy` | runs, counting over threads, condition variables, small arithmetic |
| `LinkedFifo.dfy` | singly linked lists in the heap |
| `Barrier.dfy` | the reusable barrier |
| `BarrierClient.dfy` | the phase-separated client of the barrier, composed with the barrier's own protocol |
| `RwLock.dfy` | the read/write lock |
| `WorkQueue.dfy` | the elastic work queue and its draining destroy |
| `ThreadPool.dfy` | the thread pool, its ring buffer and its graceful shutdown |
| `FileTree.dfy`, `Crew.dfy` | the parallel tree traversal and its termination detection |
| `Alarm.dfy` | the alarm scheduler |
| `Pipeline.dfy` | the n-stage pipeline |

## Where the code departs from its intent

Three modules carry a `Variant`: `AsWritten` follows the code, `Repaired` changes what is named here,
and both are proved about.

- **Read/write lock.** `rwl_writelock` (lines 187-199) never sets `w_active`, and `rwl_readlock`
  (lines 101-111) never takes its caller out of `r_wait`. Repaired, both do. As written the lock is
  safe exactly for clients that never call `rwl_writelock` (or a single thread): otherwise two threads
  write at once, and a writer is left asleep on a free lock (`ExcludesIff`, `StrandsNobodyIff`). A further
  defect is not repaired: the cleanup handlers wake nobody up, so cancelling a thread that has been
  woken can lose its wakeup; `HandoverStep` and `StrandsNobodyIffNoneLost` say exactly when.
- **Barrier client.** `barrier_wait` overwrites the leader's -1 with the unlock's result (line 109);
  repaired, it keeps it. `out_loop` (line 33) is not initialised; in both variants each thread starts
  with a value of its own, and all can finish exactly when these give every thread the same number of
  rounds (`AllFinishIff`). A thread ends alike in both variants exactly when it goes through fewer than
  two rounds, or adds nothing in a round (`VariantsDiffer`).
- **Pipeline.** The wait of `pipe_stage` (line 85) is inverted with respect to its comment; repaired,
  a stage waits while its data is not ready. As written, with at least one stage, no input is ever
  delivered: all that comes out is from uninitialised memory, a `pipe_start` completes only if it comes
  before the first stage starts, and at most one ever does (`AsWrittenDeliversMemory`,
  `AsWrittenStartCompletesIff`).

In the work queue `idle` (lines 74 and 139) is read but never changed. That is modelled as it is: no worker is
ever signalled, and an item added when `parallelism` workers exist may lie there until one of them comes
to the end of its timed wait (`OversleptMeansFull`, `CanOversleepIff`).

Properties that hold only under a condition are stated as an equivalence: waiters are never trapped
by the wrapping cycle exactly when no more threads than the threshold use the barrier;
`barrier_destroy` can find a barrier free that a thread is still inside exactly when the threshold is at
least 2 and at most the number of threads; the work queue drains exactly when it may create a thread;
`crew_start` can return exactly when the crew has a worker and every directory opens; `pipe_start` can
complete exactly when a cell is free or some caller is not in it; an alarm goes off before an earlier
pending one exactly when it reaches its own time limit while the deadline is another's.

## Model

| member | source | states |
|---|---|---|
| `Barrier.BarrierObject.constructor` | chap7-RealCode/barrier/barrier.cxx:11 | threshold and counter are set to the count and nobody has arrived; the cycle keeps what the memory held |
| `Barrier.BarrierObject.Arrive` | chap7-RealCode/barrier/barrier.cxx:82-105 | the thread whose arrival makes up the threshold leads, and a new generation begins in which nobody has arrived; any other joins those that have arrived and saves the cycle of its own generation |
| `Barrier.BarrierObject.MustWait` | chap7-RealCode/barrier/barrier.cxx:100 | a waiter is sent back to sleep exactly when the generations completed since its own are a multiple of the range of cycle: none, as it should be, or a wrap |
| `Barrier.BarrierObject.InUse` | chap7-RealCode/barrier/barrier.cxx:42 | busy exactly when some thread has arrived in the current generation |
| `Barrier.InvHolds` | chap7-RealCode/barrier/barrier.cxx:82-105 | in every run, for any number of threads, start cycle and range: the counter plus the current arrivals is the threshold, and every waiter saved the cycle of its own generation and is recorded in it |
| `Barrier.NoEarlyRelease` | chap7-RealCode/barrier/barrier.cxx:98-105 | in every run, a waiter that leaves does so only after its own generation completed with exactly threshold threads, itself among them |
| `Barrier.GenerationsAreFull` | chap7-RealCode/barrier/barrier.cxx:86-93 | in every run, counter + waiters of the current generation = threshold, and every completed generation has threshold distinct threads and one leader, which is one of them |
| `Barrier.ArrivalsAreCounted` | chap7-RealCode/barrier/barrier.cxx:76-105 | in every run a thread's calls are the completed generations it is recorded in plus one if it has arrived in the current one, so nobody arrives twice in one generation |
| `Barrier.NeverOpensWithoutThreshold` | chap7-RealCode/barrier/barrier.cxx:11-100 | barrier_init accepts a count of zero or less, and then no generation ever completes and no waiter can leave |
| `Barrier.BusyIffSomebodyWaits` | chap7-RealCode/barrier/barrier.cxx:41-45 | barrier_destroy reports EBUSY exactly when a thread waits in the current generation |
| `Barrier.LastArrival` | chap7-RealCode/barrier/barrier.cxx:86 | with at most threshold threads, when one arrival is missing all other threads wait in the current generation |
| `Barrier.ExactHolds` | chap7-RealCode/barrier/barrier.cxx:82-105 | in every run with at most threshold threads, every waiter is of the current or the previous generation and each thread has arrived once per completed generation |
| `Barrier.TestIsExact` | chap7-RealCode/barrier/barrier.cxx:98-100 | the test cycle == barrier->cycle holds exactly while the waiter's own generation is incomplete, so nobody is released early or trapped |
| `Barrier.PhasesAreSeparated` | chap7-RealCode/barrier/barrier.cxx:82-105 | in every run with threshold threads, arrival counts differ by at most one, and a thread that may leave has arrived no more often than any other |
| `Barrier.SomeThreadMoves` | chap7-RealCode/barrier/barrier.cxx:82-105 | with threshold threads the barrier never deadlocks: some thread can arrive or can leave |
| `Barrier.TrapRun` | chap7-RealCode/barrier/barrier.cxx:87 | with more threads than the threshold there is a run, for any range of the cycle, that traps a waiter after one wrap |
| `Barrier.TrapFreeIffThreadsFit` | chap7-RealCode/barrier/barrier.cxx:82-105 | no run traps a waiter if and only if at most threshold threads use the barrier, or the threshold is 1 |
| `Barrier.NeverFreeTooSoonIff` | chap7-RealCode/barrier/barrier.cxx:41-45 | barrier_destroy never finds the barrier free while a thread is still inside barrier_wait if and only if the threshold is 1 or there are fewer threads than the threshold |
| `Barrier.FreeTooSoonRun` | chap7-RealCode/barrier/barrier.cxx:41-105 | for every threshold of at least 2 and at least that many threads, a run after which the barrier looks free while a thread is still inside |
| `Barrier.ThreadCanStep` | chap7-RealCode/barrier/barrier.cxx:82-105 | a thread outside can always arrive, and one inside moves on only when its wait has returned |
| `Barrier.VainWakeup` | chap7-RealCode/barrier/barrier.cxx:98-105 | a waiter that is woken for nothing goes back to sleep and nothing has changed |
| `BarrierClient.Setup` | chap7-RealCode/barrier/main.cxx:66-72 | increment i starts at i and column c of every thread at c + 1 |
| `BarrierClient.WorkPhase` | chap7-RealCode/barrier/main.cxx:39-43 | the two nested loops add inLoops times the increment to every column |
| `BarrierClient.LeaderPhase` | chap7-RealCode/barrier/main.cxx:50-54 | the leader's loop raises every thread's increment by one |
| `BarrierClient.WorkerSeesItsRound` | chap7-RealCode/barrier/main.cxx:39-43 | while a thread works its increment is that of its round: the leader's changes fall strictly between working phases |
| `BarrierClient.InvHolds` | chap7-RealCode/barrier/main.cxx:33-55 | in every run of the client composed with the barrier, every column holds what its thread's position says and at most one leader is changing increments |
| `BarrierClient.Deterministic` | chap7-RealCode/barrier/main.cxx:33-55 | under every interleaving a thread i that has left the loop has been through k rounds, with start + k = OUTLOOPS (or none from a start at or beyond it), and holds c + 1 + inLoops * (k*i + k(k-1)/2) in column c when the leader's status is kept, c + 1 + inLoops * k*i as written |
| `BarrierClient.StatusesAreExact` | chap7-RealCode/barrier/barrier.cxx:86-115 | in every run a thread has been given one status per call that it has returned from: -1 exactly for the generations that it led when the leader's status is kept, and otherwise 0 |
| `BarrierClient.TotalClosedForm` | chap7-RealCode/barrier/main.cxx:51-53 | that sum is k*i + k(k-1)/2 when the leader's status is kept, and k*i as written |
| `BarrierClient.AsWrittenNeverBumps` | chap7-RealCode/barrier/barrier.cxx:90-109 | as written no run ever changes an increment, since the unlock's result replaces the leader's -1 |
| `BarrierClient.VariantsDiffer` | chap7-RealCode/barrier/main.cxx:50-54 | a thread that has finished holds different columns in the two variants if and only if it went through at least two rounds and each adds something |
| `BarrierClient.NoDeadlock` | chap7-RealCode/barrier/main.cxx:33-55 | if all threads go through equally many rounds, until all have finished some thread can take a step that is not a vain wakeup |
| `BarrierClient.RunsToEnd` | chap7-RealCode/barrier/main.cxx:33-57 | and from every state that a run reaches the program can run on until all threads have finished |
| `BarrierClient.AllFinishIff` | chap7-RealCode/barrier/main.cxx:33-57 | for any values that the uninitialised out_loop holds, all threads can finish if and only if these values give every thread the same number of rounds |
| `RwLock.RwLockObject.constructor` | chap7-RealCode/rwlock/rwlock.cxx:10-13 | all four counters start at zero, with no client inside or waiting |
| `RwLock.RwLockObject.InUse` | chap7-RealCode/rwlock/rwlock.cxx:51-59 | in use exactly when some client is inside and counted, waits, or is still counted as a waiting reader; repaired, exactly when some client is inside or waits |
| `RwLock.RwLockObject.LockRead` | chap7-RealCode/rwlock/rwlock.cxx:101-115 | the caller becomes a reader exactly when no counted writer is inside, else it waits to |
| `RwLock.RwLockObject.RecheckRead` | chap7-RealCode/rwlock/rwlock.cxx:104-115 | a waiting reader becomes a reader exactly when no counted writer is inside, else it waits on; as written it goes on being counted as waiting |
| `RwLock.RwLockObject.TryLockRead` | chap7-RealCode/rwlock/rwlock.cxx:137-141 | the caller becomes a reader exactly when no counted writer is inside, else nothing changes |
| `RwLock.RwLockObject.UnlockRead` | chap7-RealCode/rwlock/rwlock.cxx:161-164 | the caller is inside no more; a writer is signalled exactly when it was the last reader and a writer waits |
| `RwLock.RwLockObject.LockWrite` | chap7-RealCode/rwlock/rwlock.cxx:187-199 | the caller becomes a writer exactly when nobody reads and no counted writer is inside, else it waits to; it is counted when repaired, and not as written |
| `RwLock.RwLockObject.RecheckWrite` | chap7-RealCode/rwlock/rwlock.cxx:191-199 | a waiting writer becomes a writer exactly when nobody reads and no counted writer is inside, else it waits on; it is counted when repaired, and not as written |
| `RwLock.RwLockObject.TryLockWrite` | chap7-RealCode/rwlock/rwlock.cxx:222-226 | the caller becomes a writer, and is counted, exactly when nobody reads and no counted writer is inside, else nothing changes |
| `RwLock.RwLockObject.UnlockWrite` | chap7-RealCode/rwlock/rwlock.cxx:250-264 | the caller is inside no more and no writer is counted; the waiting readers are woken when there are any, or any that were not forgotten, else a writer when one waits |
| `RwLock.RwLockObject.CleanUpRead` | chap7-RealCode/rwlock/rwlock.cxx:74-79 | the cancelled reader waits no more, and the counters still count |
| `RwLock.RwLockObject.CleanUpWrite` | chap7-RealCode/rwlock/rwlock.cxx:81-86 | the cancelled writer waits no more, and the counters still count |
| `RwLock.CountersAreExact` | chap7-RealCode/rwlock/rwlock.cxx:74-273 | in every run of the repaired lock, cancelled waits included, the four counters are the numbers of threads reading, writing and waiting for each |
| `RwLock.LetInExactly` | chap7-RealCode/rwlock/rwlock.cxx:101-226 | in every run of either variant a thread that asks, or looks again, is let in to read exactly when w_active is zero and to write exactly when also nobody reads; a writer let in counts in w_active from rwl_writetrylock, and from rwl_writelock only when repaired |
| `RwLock.WriterExcludes` | chap7-RealCode/rwlock/rwlock.cxx:173-273 | in every run of the repaired lock no second writer and no reader is inside beside a writer |
| `RwLock.InUseIffSomebodyInside` | chap7-RealCode/rwlock/rwlock.cxx:51-59 | rwl_destroy finds the lock in use exactly when some thread holds it or waits for it |
| `RwLock.HandoverStep` | chap7-RealCode/rwlock/rwlock.cxx:74-264 | for every step of the repaired lock: afterwards no reader sleeps while no writer is active, and no writer while nobody is active and nobody woken, if and only if the step is not a cancellation that loses a wakeup |
| `RwLock.NoLostWakeup` | chap7-RealCode/rwlock/rwlock.cxx:161-264 | in every run without cancellation, while nobody is active and somebody is counted as waiting, a waiter has been woken |
| `RwLock.StrandsNobodyIffNoneLost` | chap7-RealCode/rwlock/rwlock.cxx:74-86 | a run of the repaired lock never leaves a thread asleep on a free lock with nobody woken if and only if none of its steps cancels a woken thread while nobody is active, others are counted as waiting and none of them is woken |
| `RwLock.StrandsNobodyIff` | chap7-RealCode/rwlock/rwlock.cxx:74-264 | no run leaves a thread asleep on a free lock with nobody woken if and only if clients do not call rwl_writelock, or (repaired) there are at most two threads or no cancellation, or (as written) there is at most one thread |
| `RwLock.WriterLeftAsleepRun` | chap7-RealCode/rwlock/rwlock.cxx:101-264 | a run as written of any two or more threads, without cancellation, that leaves a writer asleep on a free lock |
| `RwLock.ExcludesIff` | chap7-RealCode/rwlock/rwlock.cxx:173-273 | a writer is alone inside in every run if and only if the lock is repaired, or there is at most one thread, or clients do not call rwl_writelock |
| `RwLock.StrandedIffCounted` | chap7-RealCode/rwlock/rwlock.cxx:161-264 | a thread is stranded exactly when nobody is counted as active, somebody is counted as waiting and no waiter is woken |
| `RwLock.CancelledReaderRun` | chap7-RealCode/rwlock/rwlock.cxx:74-79 | a run of the repaired lock with three or more threads in which a woken reader is cancelled and a writer is left asleep on a free lock |
| `RwLock.EverybodyIsServed` | chap7-RealCode/rwlock/rwlock.cxx:101-264 | from every state without a lost wakeup, unlocking and rechecking alone let every waiter in and out until nobody is left |
| `RwLock.WhoCanStep` | chap7-RealCode/rwlock/rwlock.cxx:88-273 | a thread that holds nothing can ask for the lock, one that holds it can give it up, and one that waits goes on only when woken or cancelled |
| `RwLock.VainWakeup` | chap7-RealCode/rwlock/rwlock.cxx:104-196 | a waiter that is woken for nothing goes back to sleep and nothing has changed |
| `WorkQueue.Queue.constructor` | chap7-RealCode/workqueue/workq.cxx:44-49 | the queue starts empty with no workers |
| `WorkQueue.Queue.Append` | chap7-RealCode/workqueue/workq.cxx:129-135 | tail insertion in the linked list appends one element |
| `WorkQueue.Queue.AddItem` | chap7-RealCode/workqueue/workq.cxx:129-153 | the element is queued last; a worker is signalled when some are idle, else created and counted while fewer than parallelism exist |
| `WorkQueue.Queue.ServeItem` | chap7-RealCode/workqueue/workq.cxx:171-231 | between two releases of the mutex a worker takes the first element if there is one; else it leaves, uncounted, when the queue quits or its wait has timed out, with a broadcast if it is the last of a queue that quits; else it waits |
| `WorkQueue.Queue.BeginDestroy` | chap7-RealCode/workqueue/workq.cxx:70-83 | quit is set, and the destroyer goes on to wait, exactly when workers exist |
| `WorkQueue.InvHolds` | chap7-RealCode/workqueue/workq.cxx:108-231 | in every run: counter = live workers <= parallelism, a queued element means a live worker, elements are conserved, and quit follows the destroyer |
| `WorkQueue.QueueIsServed` | chap7-RealCode/workqueue/workq.cxx:137-153 | in every run a queued element has a live worker, and elements are taken in the order in which they were added |
| `WorkQueue.WorkerDoesExactly` | chap7-RealCode/workqueue/workq.cxx:171-235 | in every run a worker that holds the mutex calls the engine with the first element if there is one; with none it is gone and the counter falls if the queue quits or its wait has timed out, and else it waits |
| `WorkQueue.WorkersFinish` | chap7-RealCode/workqueue/workq.cxx:158-236 | from every state that a run reaches the workers' own steps serve every element ever added and end with no worker left |
| `WorkQueue.LateWorkerLeaves` | chap7-RealCode/workqueue/workq.cxx:187-231 | a worker that takes the last item at the end of its timed wait leaves after the engine, without waiting again |
| `WorkQueue.WhoCanStep` | chap7-RealCode/workqueue/workq.cxx:55-236 | an item can be added until workq_destroy has returned; workers start, come to the end of their waits and go on after the engine |
| `WorkQueue.DestroyerWaits` | chap7-RealCode/workqueue/workq.cxx:70-91 | workq_destroy waits just while workers are alive, and a wakeup for nothing changes nothing |
| `WorkQueue.VainWakeup` | chap7-RealCode/workqueue/workq.cxx:185-197 | a worker that is woken for nothing goes on waiting and nothing has changed |
| `WorkQueue.DestroyDrains` | chap7-RealCode/workqueue/workq.cxx:70-92 | when workq_destroy leaves its loop no worker is alive, the queue is empty, and every element ever added has been through the engine exactly once |
| `WorkQueue.DrainsIffSomeThreadAllowed` | chap7-RealCode/workqueue/workq.cxx:46-92 | that holds in every run if and only if at least one thread is allowed |
| `WorkQueue.DestroyerIsNotStranded` | chap7-RealCode/workqueue/workq.cxx:85-91 | in every run, while the destroyer sleeps a worker is alive, even if adds during the destroy create new ones |
| `WorkQueue.LastToLeaveBroadcasts` | chap7-RealCode/workqueue/workq.cxx:215-229 | once quit is set no worker waits again, and a worker that leaves while the destroyer sleeps wakes it up exactly when no other worker is alive |
| `WorkQueue.OversleptMeansFull` | chap7-RealCode/workqueue/workq.cxx:137-153 | in every run workq_add never signals a worker, and an item is queued while all workers that are alive wait only when parallelism workers exist |
| `WorkQueue.CanOversleepIff` | chap7-RealCode/workqueue/workq.cxx:137-212 | a run can leave an item queued while workers are alive and all of them wait if and only if at least one thread is allowed |
| `WorkQueue.DestroyProgresses` | chap7-RealCode/workqueue/workq.cxx:158-236 | once quit is set every step but an add and a spurious wakeup lowers a measure of items, workers and destroyer |
| `WorkQueue.DestroyIsNeverStuck` | chap7-RealCode/workqueue/workq.cxx:85-91 | and such a step is possible until workq_destroy returns |
| `ThreadPool.Pool.constructor` | chap4-pattern/crew_gpt.cc:71-77 | the pool starts with an empty ring and not shut down |
| `ThreadPool.Pool.AddTask` | chap4-pattern/crew_gpt.cc:108-126 | the task is accepted, as the last pending one, exactly when fewer than task_queue_size are pending and the pool is not shut down |
| `ThreadPool.Pool.FetchTask` | chap4-pattern/crew_gpt.cc:195-207 | the first pending task is removed from the ring, or the worker waits, or leaves after shutdown |
| `ThreadPool.Pool.Shutdown` | chap4-pattern/crew_gpt.cc:153-156 | shutdown is set once; pending tasks stay |
| `ThreadPool.SlotIsRemainder` | chap4-pattern/crew_gpt.cc:206 | the slot i places after the head is (head + i) % task_queue_size |
| `ThreadPool.InvHolds` | chap4-pattern/crew_gpt.cc:110-219 | in every run: accepted = taken + pending, taken = done + running, sleepers have woken peers for every pending task, and workers leave only after shutdown with nothing pending |
| `ThreadPool.WorkConserving` | chap4-pattern/crew_gpt.cc:122-210 | in every run, while a worker sleeps, every pending task has a woken worker that has not yet looked |
| `ThreadPool.TakenInOrder` | chap4-pattern/crew_gpt.cc:108-126 | in every run tasks are taken in the order of acceptance, none skipped or repeated, and the ring is never over-full |
| `ThreadPool.RefusedIffFull` | chap4-pattern/crew_gpt.cc:110-126 | in every run a task is refused exactly when task_queue_size tasks are accepted and not yet taken, or the pool has been shut down |
| `ThreadPool.WorkersFinish` | chap4-pattern/crew_gpt.cc:191-219 | from every state that a run reaches the workers' own steps run every accepted task once |
| `ThreadPool.WhoCanStep` | chap4-pattern/crew_gpt.cc:95-219 | a task can be offered until the pool is joined, and a worker moves unless it sleeps or is gone |
| `ThreadPool.VainWakeup` | chap4-pattern/crew_gpt.cc:195-197 | a worker that is woken for nothing goes back to sleep and nothing has changed |
| `ThreadPool.ShutdownDrains` | chap4-pattern/crew_gpt.cc:152-168 | when the workers have been joined nothing is pending and each accepted task has been run exactly once |
| `ThreadPool.ShutdownProgresses` | chap4-pattern/crew_gpt.cc:191-219 | after shutdown nobody sleeps, nothing is accepted, and every step that changes anything lowers a measure of pending tasks, running tasks and workers |
| `ThreadPool.ShutdownIsNeverStuck` | chap4-pattern/crew_gpt.cc:163-168 | after shutdown some step other than an add is possible until the workers are joined |
| `FileTree.VisitsAreNodes` | chap4-pattern/crew.cc:132-187 | when every directory opens, each node of the tree is due exactly one visit and nothing else is |
| `FileTree.OpenIffNoFailure` | chap4-pattern/crew.cc:134-138 | every directory opens exactly when no visit is due that fails |
| `Crew.CrewObject.constructor` | chap4-pattern/crew.cc:269-271 | the crew starts with no work |
| `Crew.CrewObject.PushItem` | chap4-pattern/crew.cc:167-174 | tail insertion in the linked queue appends one item and counts it |
| `Crew.CrewObject.TakeItem` | chap4-pattern/crew.cc:104-118 | the first item is unlinked, or there is none |
| `Crew.CrewObject.Finish` | chap4-pattern/crew.cc:230-232 | the count is lowered; the item was the last when it reaches zero |
| `Crew.InvHolds` | chap4-pattern/crew.cc:82-386 | in every run: the visits the root is due are queued, in hand or logged; sleepers on go have awake peers for every queued item; crew_start sleeps only while there is work |
| `Crew.WorkCountIsExact` | chap4-pattern/crew.cc:133-249 | in every run work_count is the queued items, the items in hand and the directories that failed to open |
| `Crew.LastFinisherLeaves` | chap4-pattern/crew.cc:230-243 | a worker that reports an item done leaves, and wakes crew_start up, exactly when that was the last of the work |
| `Crew.ReturnMeansAllProcessed` | chap4-pattern/crew.cc:225-249 | when crew_start returns, every directory opened, nothing is queued or in hand, and every node of the tree has been processed exactly once |
| `Crew.WorkKeepsAWorkerAwake` | chap4-pattern/crew.cc:82-109 | while work_count exceeds the directories that failed to open, some worker is awake, although two waits with different predicates share go |
| `Crew.StepsProgress` | chap4-pattern/crew.cc:94-249 | every step but a spurious wakeup lowers the total effort of what has not been processed |
| `Crew.NeverStuck` | chap4-pattern/crew.cc:381-386 | when every directory opens and the crew has a worker, until crew_start returns a step other than a spurious wakeup is possible |
| `Crew.ReturnsIffAllOpen` | chap4-pattern/crew.cc:134-138 | crew_start can return if and only if the crew has a worker and every directory of the tree can be opened |
| `Crew.WhoCanStep` | chap4-pattern/crew.cc:82-249 | a worker moves unless it sleeps on go or is gone, the same way from either of its two waits; crew_start looks again whenever it is awake |
| `Crew.CanStart` | chap4-pattern/crew.cc:312-320 | crew_start can go ahead exactly when it has not been called before and there is no work |
| `Crew.VainWakeup` | chap4-pattern/crew.cc:82-109 | a worker that is woken for nothing goes back to the wait that it was in and nothing has changed |
| `Crew.StarterVainWakeup` | chap4-pattern/crew.cc:381-386 | so does crew_start |
| `Alarm.InsertSortedAt` | chap3-sync/alarm_cond.cc:32-47 | the new alarm goes after every earlier one and before every equal or later one |
| `Alarm.InsertSortedShape` | chap3-sync/alarm_cond.cc:32-47 | insertion adds just that alarm, and the earliest comes first |
| `Alarm.InsertKeepsSorted` | chap3-sync/alarm_cond.cc:32-47 | insertion keeps the list sorted by time |
| `Alarm.Scheduler.FindLink` | chap3-sync/alarm_cond.cc:32-43 | the walk stops at the insertion index of sorted insertion: it returns the node there, and the one before it |
| `Alarm.Scheduler.Link` | chap3-sync/alarm_cond.cc:36-47 | relinking in place puts the alarm at that position of an acyclic list |
| `Alarm.Scheduler.InsertAlarm` | chap3-sync/alarm_cond.cc:30-62 | alarm_insert refines sorted insertion, and lowers the deadline and signals exactly when the alarm is earlier or no deadline is set |
| `Alarm.Scheduler.TakeAlarm` | chap3-sync/alarm_cond.cc:80-120 | the first alarm is unlinked, and held with its time as deadline or let go off when due |
| `Alarm.NeverOversleeps` | chap3-sync/alarm_cond.cc:80-116 | in every run, when the thread is blocked and no signal is on its way, it holds an alarm no later than any pending one, or none is pending |
| `Alarm.DueMeansEnabled` | chap3-sync/alarm_cond.cc:101-112 | in every run, once a pending alarm is due the thread can move without another signal |
| `Alarm.ReinsertionKeepsDeadline` | chap3-sync/alarm_cond.cc:56-116 | reinserting a held alarm leaves the deadline at the earlier alarm, which is first in the list |
| `Alarm.EarliestGoesFirstIff` | chap3-sync/alarm_cond.cc:89-124 | an alarm that goes off is no later than all still pending if and only if it is not a held alarm that reached its time limit while the deadline was another's |
| `Alarm.LaterGoesFirstRun` | chap3-sync/alarm_cond.cc:101-112 | a run in which the alarm for time 2 goes off before the one for time 1 |
| `Alarm.DueAlarmGoesOff` | chap3-sync/alarm_cond.cc:80-124 | from every state that a run reaches, the thread by its own steps makes a pending alarm that is due go off before time moves on |
| `Alarm.AlarmsAreConserved` | chap3-sync/alarm_cond.cc:89-124 | in every run alarms set = alarms gone off + list + held, and none went off before its time |
| `Alarm.NoneGoesOffEarly` | chap3-sync/alarm_cond.cc:101-166 | in every run each alarm that has gone off was asked for, and has gone off no earlier than its seconds after that |
| `Alarm.SetGoesOffOnTime` | chap3-sync/alarm_cond.cc:30-166 | from every state that a run reaches, an alarm that is set goes off exactly its seconds later by the thread's own steps |
| `Alarm.VainWakeup` | chap3-sync/alarm_cond.cc:80-112 | a wakeup for nothing changes nothing |
| `Alarm.WhoCanStep` | chap3-sync/alarm_cond.cc:77-172 | users can set alarms whenever the thread does not hold the mutex, and the thread moves unless it is blocked, or when its held alarm is due |
| `Alarm.SetWakesIff` | chap3-sync/alarm_cond.cc:56-60 | setting an alarm wakes the blocked thread exactly when it holds none or a later one |
| `Alarm.KeepsMutex` | chap3-sync/alarm_cond.cc:101-124 | from letting an alarm go off or putting one back to its next wait the thread keeps the mutex |
| `Pipeline.Stage.constructor` | chap4-pattern/pipe.cc:117-133 | a new stage has no data ready and nothing sent or taken, and its data is whatever memory held |
| `Pipeline.Stage.SendTo` | chap4-pattern/pipe.cc:47-57 | a value is sent exactly when all sent before has been taken, and is then the last one sent |
| `Pipeline.Stage.WaitsForData` | chap4-pattern/pipe.cc:85 | repaired, the stage waits exactly while all that was sent has been taken; as written, exactly while it has not |
| `Pipeline.Stage.ClearData` | chap4-pattern/pipe.cc:93 | all that was sent has been taken |
| `Pipeline.Stage.ReceiveFrom` | chap4-pattern/pipe.cc:194-198 | the result is the oldest value sent and not yet taken, if there is one, and is then taken |
| `Pipeline.PipeCreate` | chap4-pattern/pipe.cc:103-138 | stages + 1 distinct stages linked in order, none with data ready, each with whatever its own memory held; the last is the tail |
| `Pipeline.AddStage` | chap4-pattern/pipe.cc:112-135 | one turn of the loop links one more stage to the last |
| `Pipeline.InvHolds` | chap4-pattern/pipe.cc:34-203 | in every run of the repaired pipeline, with any number of callers, what has entered is delivered or in flight, in order, active is what is in flight or being sent without what is promised, and nobody sleeps through a signal; as written too when there are no stages |
| `Pipeline.PipelineIsFunctional` | chap4-pattern/pipe.cc:84-199 | in every run, with any number of callers, the k-th result is the k-th value that entered the first cell plus the number of stages, and the values in flight are the remaining ones, in order, each increased by the cells it crossed |
| `Pipeline.InputsEnter` | chap4-pattern/pipe.cc:151-165 | in every run of either variant the values given to pipe_start are those that have entered and those about to be sent, in the order of the calls when there is one caller |
| `Pipeline.OneCallerInOrder` | chap4-pattern/pipe.cc:151-203 | with one caller, as in main, the k-th result is the k-th input plus the number of stages |
| `Pipeline.ActiveIsOccupancy` | chap4-pattern/pipe.cc:158-182 | active and the callers in pipe_result make up the values in flight and the callers in pipe_start, so between calls active is the number of values in flight; the cells with data ready are those and the ones whose stage has sent and not yet cleared |
| `Pipeline.WorkProgresses` | chap4-pattern/pipe.cc:84-98 | every step but a call and a spurious wakeup lowers the weighted distance of the data to the tail |
| `Pipeline.ResultNotStuck` | chap4-pattern/pipe.cc:193-199 | while a pipe_result that did not report empty waits, with any number of callers, some step other than a call or a spurious wakeup is possible |
| `Pipeline.ResultArrives` | chap4-pattern/pipe.cc:178-203 | it always gets a value: such steps alone bring every waiting pipe_result to its end, and the results stay functional |
| `Pipeline.StartCompletesIffRoom` | chap4-pattern/pipe.cc:151-165 | a pipe_start can complete if and only if one of the stages + 1 cells is free or some caller is not in pipe_start |
| `Pipeline.AsWrittenDeliversMemory` | chap4-pattern/pipe.cc:84-93 | as written, in every run with at least one stage, all that is delivered is what the last stage's memory held plus one, and at most one value ever enters the pipeline |
| `Pipeline.AsWrittenJams` | chap4-pattern/pipe.cc:79-97 | as written, for any number of stages, once the first stage has started the first pipe_start never completes, whatever happens |
| `Pipeline.AsWrittenStartCompletesIff` | chap4-pattern/pipe.cc:79-165 | as written, a pipe_start can complete if and only if the first stage has not started and its cell is empty |
| `Pipeline.FunctionalIff` | chap4-pattern/pipe.cc:84-199 | every run is functional, in results and in what is in flight, if and only if the pipeline is repaired or has no stages |
| `Pipeline.ResultsOkIff` | chap4-pattern/pipe.cc:84-199 | every run delivers only right results if and only if the pipeline is repaired, has no stages, or can deliver nothing at all: no callers, or as written one caller and one stage |
| `Pipeline.ReportsEmptyIff` | chap4-pattern/pipe.cc:178-191 | pipe_result reports empty exactly when everything in flight or about to be sent is promised to other callers |
| `Pipeline.StageCanStep` | chap4-pattern/pipe.cc:84-98 | a stage moves unless it sleeps or wants a mutex that is held |
| `Pipeline.CallerCanStep` | chap4-pattern/pipe.cc:151-203 | a caller that is in no call can make either; one in a call moves unless it sleeps or wants a mutex that is held |
| `Pipeline.StageVainWakeup` | chap4-pattern/pipe.cc:47-90 | a stage that is woken for nothing goes back to the wait that it was in and nothing has changed |
| `Pipeline.CallerVainWakeup` | chap4-pattern/pipe.cc:47-196 | so does a caller |

## Left out

- Error returns of pthread calls, failed allocations, creation and destruction of mutexes, condition variables and attributes, and the `valid` magic numbers: the calls are taken to succeed and to mean what POSIX says.
- Mutual exclusion inside a critical region: each region is one atomic step. Where a mutex is kept across a wait for another one (`pipe_stage`), who holds it is part of the state.
- Machine integers: `int` and `long` values do not overflow, except the barrier's `cycle`, which wraps at any range of at least 2.
- Fairness: progress is stated as a step that is always possible and a measure that every step lowers, not as a promise about the scheduler.
- Real time: the alarm clock is any nondecreasing natural number, and a timed wait of the work queue may end at any moment.
- BarrierClient.Setup: the uninitialised `array_count` of the final print loop (line 85 of main.cxx) is not modelled.
- Barrier.SomeThreadMoves: is about exactly `threshold` threads; with fewer, the barrier waits for ever by design.
- ThreadPool.ShutdownDrains: models `graceful = 1`, the only value the program uses; with `graceful = 0` a worker takes from an empty ring. The second unlock at line 171 and the field `started` are not modelled.
- Crew.ReturnsIffAllOpen: takes `readdir_r` to list every entry of a directory that opens (without itself and its parent, which the code skips); lstat, file contents and path strings are not modelled, nor the second lock of a mutex already held at line 389 and the unallocated path at lines 153-154, and `crew_start` is called once, as in `main`.
- Alarm.AlarmsAreConserved: an alarm's message is an opaque id; reading commands and printing are not modelled.
- chap3-sync/alarm_mutex.cc, chap3-sync/backoff.cc and chap4-pattern/server.cxx: weaker forms of the programs modelled here.
- chap1-introduce, chap2-threads, chap5-advance and chap6-adjust: thin demonstrations of single platform calls.
