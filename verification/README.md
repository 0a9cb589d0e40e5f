# Readers-writers toolkit: a verified model

A Dafny model of the concurrency core of the readers-writers toolkit: the three lock protocols
(`ReaderPriorityLock`, `WriterPriorityLock`, `FairMorrisLock`), the worker loops that run over them with a
shared operation budget and a shared resource, the starvation watchdog, and the fairness metric.

Threads are the indices of a sequence, so every theorem is for any number of threads. One step is one
semaphore, mutex, condition-variable or atomic operation; a thread's program counter names the operation it
performs next. Sequential consistency is assumed. A plain integer that is only touched under a mutex is
updated together with the mutex or condition operation next to it; the shared resource's `++` is a separate
load and store. Schedulers are unconstrained: a run is any sequence of enabled steps, spurious returns of the
condition waits included.

| file | content |
|---|---|
| `Counting.dfy` | counts and sums over per-thread sequences |
| `RwSpec.dfy` | the abstract readers-writers lock and the phases of a lock operation |
| `ReaderPriority.dfy`, `WriterPriority.dfy`, `FairMorris.dfy` | the three locks: operations, counting invariants, progress, and the lock as a class run one operation at a time |
| `RwLock.dfy` | the three locks behind one interface; theorems over whole runs of the open system |
| `Blocking.dfy` | exactly who keeps whom waiting in each lock, and calls that nobody disturbs |
| `Casts.dfy` | runs by a cast of threads with fixed roles, and what completes while one thread is kept waiting |
| `Overtaking.dfy`, `MonitorOrder.dfy` | exactly which casts let a blocked or sleeping thread be passed without bound, for each lock |
| `QueuedWriter.dfy`, `Precedence.dfy` | when a queued writer blocks new readers: exactly, and with hand-off posts |
| `Simulation.dfy`, `SimulationRuns.dfy`, `StuckConfigs.dfy` | the closed system: invariant, termination, conservation, data integrity, and exactly which configurations can get stuck |
| `ReadCounter.dfy`, `AbortRuns.dfy` | exactly when the unprotected reads counter is exact; what the abort signal does to its target |
| `Budgets.dfy`, `SharedBudget.dfy` | the two implementations of the budget, their one specification, and their place in the worker loops |
| `Watchdog.dfy`, `WatchdogPoll.dfy` | the watchdog racing with the workers, and one poll as an imperative loop |
| `Metrics.dfy` | the accumulation loop and Jain's index |

## Main results

1. **Deadlock freedom, decided for every configuration** (`StuckConfigs.FinishesIffSafe`). Every run that
   cannot be continued has finished all threads *if and only if* the lock is a semaphore lock, or there is no
   reader, or at most one writer, or at most two operations. The documentation promises "no deadlock" and "no
   starvation" for the fair lock without restriction (Readme.md:335-339, Readme.md:401, Readme.md:473); the
   code does not keep that, because a releasing writer prefers the readers (src/fair_morris.cpp:97-101) while
   the readers defer to any waiting writer (src/fair_morris.cpp:30).
2. **The frozen region** (`RwLock.FreezeIsPermanent`, `RwLock.NoLostWakeup`). Once a reader waits, a writer
   sleeps and no reader is active, no step of any thread ever wakes that writer or admits a reader; outside
   that region no wakeup is ever lost.
3. **Termination** (`SimulationRuns.EveryRunIsFinite`). No schedule of any of the three locks takes more than an
   explicit number of steps, condition-wait loops and broadcasts included, and four more per spurious wakeup.
4. **End to end** (`StuckConfigs.EndToEnd`). A maximal run of a safe configuration completes exactly `totalOps`
   operations and leaves `data_` at the number of writes, although the increments are not atomic.
5. **Writer precedence, decided for every state** (`QueuedWriter.QueuedWriterBlocksReaders`). The claim "a queued
   writer blocks all new readers" (include/config.hpp:37) does not hold from the moment a writer is counted
   (`QueuedWriter.ReadsPassGateIff`). From a state with a counted writer, no continuation admits a
   reader while writers are counted *if and only if* a writer's `rsem_.wait()` has returned, or every thread is a
   waiting writer.
6. **What an abort costs, decided for every configuration** (`SimulationRuns.AbortLosesAtMostOne`): every finished
   run accounts for the whole budget *if and only if* there is nothing to do or some worker is not the abort
   target. A lone target that sees the signal before its first claim leaves the whole budget undone.
7. **Published states, decided for every configuration** (`Watchdog.DoneIsPublishedIffNoCalls`): when all threads
   have finished and the watchdog is between polls, the words are sure to say so *if and only if* there is no
   thread or no operation.
8. **Overtaking, decided for every cast of threads.** The fair lock, documented as first-come-first-served, lets any
   number of writes pass a waiting thread *if and only if* there is a writer and another thread
   (`MonitorOrder.WritesPassWaitingIff`), and any number of operations pass a writer that sleeps throughout *if and
   only if* there are two writers and a third thread (`MonitorOrder.OperationsPassSleeperIff`). The priority locks
   do the same by design, in exactly the casts of `Overtaking.ReadsPassWriterIff` and
   `Overtaking.WritesPassReaderIff`.
9. **The reads counter, decided for every configuration** (`ReadCounter.ReadsExactIffOneAtATime`): `readCount_` is
   the number of reads *if and only if* there is at most one reader or at most one operation.
10. **Waiting, decided for every reachable state** (`Blocking.WaitsOnlyForHolders`). In each lock a thread in a call
    can take its next operation *if and only if* it is not asleep on a condition and nobody holds the semaphore or
    mutex which that operation takes; a call that nobody disturbs always completes (`Blocking.UndisturbedCall`).
11. **The abort target** (`AbortRuns.SignalStopsTarget`): once the signal is up it takes at most one more ticket and
    does at most one more write, each only if it had already passed the corresponding test.
12. **One abstract lock** (`RwLock.RefinesAbstractLock`, `RwLock.MutualExclusion`) and **group tokens**
    (`RwLock.WriterPriorityStates`).
13. **Two budgets, one specification** (`FetchSubBudget.Refines`, `CasBudget.Refines`), with the exact law of the
    negative counter (`FetchSubBudget.NegativeByPendingClaims`) and of the compare-exchange
    (`CasBudget.CompareExchange`), **the watchdog under races** (`Watchdog.EventsAreBounded`,
    `Watchdog.MeasureDecides`, `Watchdog.UndisturbedPoll`) and **Jain's index of the thread list with its cases of
    equality** (`Metrics.Compute`).

## Model

| member | source | states |
|---|---|---|
| StuckConfigs.FinishesIffSafe | src/main.cpp:64-152 | every run that no thread can continue has all threads finished, if and only if the configuration is safe: not the fair lock, or no reader, or at most one writer, or at most two operations |
| StuckConfigs.FrozenReachableIffUnsafe | src/fair_morris.cpp:25-106 | the frozen region of the monitor is reachable in exactly the unsafe configurations |
| StuckConfigs.UnsafeReachesFrozen | src/fair_morris.cpp:70-86 | with a reader, two writers and three operations, a run (writer in, reader asleep, second writer asleep) reaches the frozen region |
| StuckConfigs.SafeRunsFinish | src/main.cpp:64-152 | maximal runs of safe configurations finish all threads, for all three locks |
| StuckConfigs.FrozenTookThree | src/fair_morris.cpp:75-80 | a frozen monitor has consumed at least three tickets: the reader's, the writer's, and the operation the writer went to sleep behind |
| StuckConfigs.FrozenEndsStuck | src/fair_morris.cpp:25-106 | every frozen state of the closed system leads to a stuck state that is still frozen |
| StuckConfigs.EndToEnd | src/main.cpp:158-266 | a maximal run of a safe configuration without an abort finishes, completes exactly totalOps operations and leaves data_ and writeCount_ at the number of writes |
| SimulationRuns.EveryRunIsFinite | src/main.cpp:64-80 | every run with k spurious wakeups has at most (32 * totalOps + 3n + 1) * (3n + 1) + 4k steps for n threads, under each lock |
| SimulationRuns.DoInv | src/fair_morris.cpp:30-34 | every step of a thread, the signal and every spurious wakeup keep the invariant; a wakeup gives back at most three steps, anything else uses one up |
| SimulationRuns.MaximalRunFinishesUnlessFrozen | src/main.cpp:114-144 | a run that cannot be continued has finished all threads exactly when the lock is not frozen |
| SimulationRuns.Conservation | src/main.cpp:65-69 | in every state totalOps is the counter, plus the failed claims not yet added back, plus operations in flight, completed and abandoned; a thread that gave up means all operations are granted |
| SimulationRuns.FinishedRunCompletesAll | src/main.cpp:175 | a finished run without an abort has completed exactly totalOps operations and leaves the counter at 0 |
| SimulationRuns.AbortLosesAtMostOne | src/main.cpp:114-136 | every finished run, signal or not, has completed plus abandoned operations equal to the budget, if and only if the budget is not positive, or there is a reader, or a second writer, or a lone writer that is not the abort target |
| SimulationRuns.LoneTargetLosesAll | src/main.cpp:115-119 | under each lock and for any budget, a lone writer that is the abort target and sees the signal at the loop head finishes with nothing completed and nothing abandoned |
| SimulationRuns.AtMostOneAbandoned | src/main.cpp:130-136 | in every state of every run at most one operation has been abandoned |
| AbortRuns.SignalStopsTarget | src/main.cpp:114-136 | from any position with the signal up to any later one: the target's tickets grow by at most one, and only from between loop-head test and claim; its writes grow by at most one, and only from past the test under the lock, and otherwise it never comes to the resource again |
| SimulationRuns.DataIntegrity | include/shared_resource.hpp:12-23 | whenever no writer is in its critical section, data_ = writeCount_ = writes counted in opsCompleted; readCount_ never exceeds the reads performed |
| ReadCounter.ReadsExactIffOneAtATime | include/shared_resource.hpp:15 | under each lock: in every reachable state in which no reader is between load and store, readCount_ is the number of reads performed, if and only if there is at most one reader or at most one operation |
| ReadCounter.OneReadIsLost | include/shared_resource.hpp:15 | with two readers and two operations, under each lock, a run in which both readers load 0 and one read is not counted |
| ReadCounter.GoesIn | src/writer_priority.cpp:17-35 | a reader that calls any of the three locks while only readers hold it is never kept waiting, and goes in |
| SimulationRuns.ReaderSeesConstantData | src/main.cpp:71-79 | data_ does not change while a reader is between readLock and the call of readUnlock |
| Simulation.StepInv | src/main.cpp:54-152 | every step of every thread keeps the coupling of workers and lock, the ticket balance and the data invariant |
| Simulation.StepMeasure | src/main.cpp:64-144 | every step strictly lowers the termination measure |
| Simulation.FailedClaimMeansNoneLeft | src/main.cpp:65-69 | a claim that finds the counter at or below zero finds the whole budget granted, even while other failed claims hold it negative |
| Simulation.Alone | src/main.cpp:127-143 | a writer in its critical section is alone: no other worker reads or writes |
| RwLock.MutualExclusion | src/fair_morris.cpp:25-106 | every state of every run of each of the three locks has at most one writer inside, and then no reader; spurious wakeups included |
| RwLock.RefinesAbstractLock | include/rw_lock_base.hpp:12-29 | every run of each lock projects step by step to a run of the abstract lock that admits a thread only when compatible |
| RwSpec.MoveIsStep | include/rw_lock_base.hpp:12-29 | a thread moving along its phases into an exclusive state is a legal step of the abstract lock |
| RwLock.NoDeadlock | src/writer_priority.cpp:17-89 | in every state of every run in which some thread is in a call or holds the lock, an operation or a release is possible; for the fair lock unless it is frozen |
| RwLock.NoLostWakeup | src/fair_morris.cpp:28-103 | whenever mtx_ is free: a sleeping reader has an active or waiting writer, and outside the frozen region a sleeping writer has an active reader, an active writer or a woken writer |
| RwLock.FreezeIsPermanent | src/fair_morris.cpp:95-101 | from a frozen state on, whatever any thread does, the sleeping writer stays asleep and no reader is ever inside |
| RwLock.ReadersYieldToWaitingWriter | src/fair_morris.cpp:30-36 | over any stretch of a run with a writer counted as waiting, activeReaders_ never grows |
| RwLock.ReadUnlockBroadcastWakesNobody | src/fair_morris.cpp:53-58 | in every run, the signalling operation of a last reader that finds no writer counted moves nobody but itself: the broadcast is idle |
| RwLock.MonitorCounters | src/fair_morris.cpp:30-36 | whenever mtx_ is free, the four shared variables are the sizes of the matching sets of threads |
| RwLock.WriterPriorityStates | src/writer_priority.cpp:17-89 | in every reachable state rsem_ and wrt_ are each 1 minus the one group holding them, a first reader never blocks on wrt_, writerActive_ implies readCount_ = 0, and at most one thread is blocked on rsem_ |
| RwLock.ReaderPriorityStates | src/reader_priority.cpp:14-66 | in every reachable state a reader at wrt_.wait() means that no reader reads, and writerActive_ implies readCount_ <= 1, with 1 exactly while that reader stands at wrt_ |
| Blocking.WaitsOnlyForHolders | src/writer_priority.cpp:17-89 | in every reachable state of each lock, a thread in a call can take its next operation if and only if it is not asleep on a condition and no other thread is between the wait for that semaphore or mutex and its post: for wrt_ a reader of the group or a writer, for rsem_ a reader or a writer group past it |
| Blocking.UndisturbedCall | src/reader_priority.cpp:47-66 | a call during which every other thread stays outside is never kept waiting and completes by its own operations, under each lock |
| Blocking.UncontendedLock | src/fair_morris.cpp:25-86 | in every reachable state with nobody in the lock, a reader or a writer that calls it gets in without waiting, under each lock |
| Blocking.AnySleeperCanBeSignalled | src/fair_morris.cpp:54 | pthread_cond_signal on writeCond_ can wake any of the sleeping writers |
| Blocking.BroadcastWakesAllReaders | src/fair_morris.cpp:97-99 | a releasing writer that finds readers waiting wakes every sleeping reader and no writer |
| RwLock.ExecMeasure | src/fair_morris.cpp:30-34 | every operation of every lock lowers a lexicographic measure, the guard loops being its second component |
| ReaderPriority.ExecInv | src/reader_priority.cpp:14-66 | every operation keeps the counting invariant that ties mutex_, wrt_ and readCount_ to the threads |
| ReaderPriority.Progress | src/reader_priority.cpp:17-22 | some thread in a call can step, or some thread holds the lock |
| ReaderPriority.InvFacts | src/reader_priority.cpp:17-22 | semaphores stay at 0 or 1, so no post overflows; what a waiting first reader and writerActive_ imply |
| ReaderPriority.ReaderPriorityLock.constructor | src/reader_priority.cpp:5-8 | a new lock is in the initial state and valid |
| ReaderPriority.ReaderPriorityLock.ReadLock | src/reader_priority.cpp:14-25 | one operation of readLock, in place: the new state is valid and exactly the protocol's next state, or unchanged when the thread must wait |
| ReaderPriority.ReaderPriorityLock.ReadUnlock | src/reader_priority.cpp:31-41 | one operation of readUnlock, in place |
| ReaderPriority.ReaderPriorityLock.WriteLock | src/reader_priority.cpp:47-55 | one operation of writeLock, in place |
| ReaderPriority.ReaderPriorityLock.WriteUnlock | src/reader_priority.cpp:61-66 | one operation of writeUnlock, in place |
| ReaderPriority.ReaderPriorityLock.Interleave | src/reader_priority.cpp:14-66 | takes exactly the turns of any schedule, in its order, and ends valid and exclusive |
| WriterPriority.ExecInv | src/writer_priority.cpp:17-89 | every operation keeps the counting invariants of the five semaphores and two counters |
| WriterPriority.InvFacts | src/writer_priority.cpp:22-30 | no post overflows; a first reader at wrt_.wait() always finds wrt_ = 1; writerActive_ implies readCount_ = 0 |
| WriterPriority.OneBlockedOnGate | src/writer_priority.cpp:20-22 | at most one thread is blocked on rsem_ |
| WriterPriority.SomeWaitPasses | src/writer_priority.cpp:60-67 | with every thread standing at a semaphore, one of the waits can return |
| WriterPriority.Progress | src/writer_priority.cpp:17-89 | some thread in a call can step, or some thread holds the lock |
| WriterPriority.WriterPriorityLock.constructor | src/writer_priority.cpp:5-11 | a new lock is in the initial state and valid |
| WriterPriority.WriterPriorityLock.ReadLock | src/writer_priority.cpp:17-35 | one operation of readLock, in place: the new state is valid and exactly the protocol's next state, or unchanged when the thread must wait |
| WriterPriority.WriterPriorityLock.ReadUnlock | src/writer_priority.cpp:41-51 | one operation of readUnlock, in place |
| WriterPriority.WriterPriorityLock.WriteLock | src/writer_priority.cpp:57-71 | one operation of writeLock, in place |
| WriterPriority.WriterPriorityLock.WriteUnlock | src/writer_priority.cpp:77-89 | one operation of writeUnlock, in place |
| WriterPriority.WriterPriorityLock.Interleave | src/writer_priority.cpp:17-89 | takes exactly the turns of any schedule, in its order, and ends valid and exclusive |
| QueuedWriter.QueuedWriterBlocksReaders | include/config.hpp:37 | from any state of any run with a counted writer: no continuation admits a reader while writers are counted, if and only if a writer's rsem_.wait() has returned, or every thread is the writer at the gate or queues behind it for mutex2_ |
| QueuedWriter.ShutKeepsOut | src/writer_priority.cpp:60-86 | once a writer has passed the gate, or only waiting writers are left, no run admits a reader before writeCount_ is 0 again |
| QueuedWriter.ReaderGetsIn | src/writer_priority.cpp:17-35 | before that, for any thread that is not a waiting writer, operations of readers alone let a reader increment readCount_ while the writer stays counted |
| QueuedWriter.ReadsPassGateIff | include/config.hpp:37 | the documented "a queued writer blocks all new readers" fails for every cast it is about: any number of reads can start and complete while a counted writer stands at the gate, if and only if there is a reader and a writer |
| Precedence.WritersTakePrecedence | src/writer_priority.cpp:20-31 | what hand-off posts on rsem_ add: already from the moment a writer is blocked there, and while writers are counted, at most one reader is admitted; once the writers own rsem_, none is |
| Precedence.ClaimedPost | src/writer_priority.cpp:30 | a reader's post of a claimed gate goes to the blocked writer |
| Precedence.HandOffServes | src/writer_priority.cpp:30 | a handed-over gate lets its reader or writer pass at once, and nobody in between |
| Overtaking.ReadsPassWriterIff | src/reader_priority.cpp:17-37 | for every k, k reads can complete while a writer stays blocked on wrt_, if and only if there are two readers and a writer |
| Overtaking.FewReadsPass | src/reader_priority.cpp:31-41 | otherwise no run has more such reads than threads: a single reader has to post wrt_ |
| Overtaking.WritesPassReaderIff | src/writer_priority.cpp:60-86 | for every k, k writes can complete while a reader stays blocked on rsem_, if and only if there are two writers and a reader |
| Overtaking.FewWritesPass | src/writer_priority.cpp:83-86 | otherwise no run has more such writes than threads: a single writer has to post rsem_ |
| MonitorOrder.WritesPassWaitingIff | src/fair_morris.cpp:70-86 | for every k, k writes can complete while a thread that has gone to sleep is never admitted, if and only if there is a writer and another thread |
| MonitorOrder.LateWritersPassWaiting | src/fair_morris.cpp:73-75 | in every such cast the last writer comes back past the thread it has just woken, k times over |
| MonitorOrder.OperationsPassSleeperIff | src/fair_morris.cpp:92-106 | for every k, k operations can complete while one writer sleeps throughout, if and only if there are two writers and a third thread |
| MonitorOrder.LateWritersPassSleeper | src/fair_morris.cpp:97-101 | in every such cast the broadcast, or the signal picking somebody else, leaves the sleeping writer asleep |
| MonitorOrder.FewPassSleeper | src/fair_morris.cpp:50-58 | otherwise no run has more operations pass a sleeping writer than there are threads, because an active thread signals it before it returns |
| FairMorris.ExecInv | src/fair_morris.cpp:25-106 | every operation keeps the counters, the guards seen under mtx_, and "frozen or no lost wakeup" |
| FairMorris.SpuriousInv | src/fair_morris.cpp:30-34 | spurious wakeups keep the same invariant |
| FairMorris.FrozenExec | src/fair_morris.cpp:95-101 | the frozen region is closed under every operation, and no operation from it wakes a sleeping writer |
| FairMorris.FrozenSpuriousReader | src/fair_morris.cpp:30-34 | not even spurious wakeups of readers leave the frozen region |
| FairMorris.FrozenWhenFree | src/fair_morris.cpp:30-34 | with mtx_ free, frozen is exactly: activeReaders_ = 0, waitingReaders_ >= 1 and a sleeping writer |
| FairMorris.NoAdmissionPastWriter | src/fair_morris.cpp:30-36 | while a writer is counted as waiting, no operation raises activeReaders_ |
| FairMorris.Progress | src/fair_morris.cpp:25-106 | some thread in a call can step or some thread holds the lock, unless the lock is frozen and only sleepers are left |
| FairMorris.SoloExec | src/fair_morris.cpp:50-58 | a single writer sleeps only behind readers that will signal it |
| FairMorris.SoloNotFrozen | src/fair_morris.cpp:75-80 | with a single writer the lock is never frozen |
| FairMorris.CausedExec | src/fair_morris.cpp:75-80 | a sleeping writer has an admitted call before it until some call returns |
| FairMorris.FairMorrisLock.constructor | src/fair_morris.cpp:9-13 | a new lock is in the initial state and valid |
| FairMorris.FairMorrisLock.ReadLock | src/fair_morris.cpp:25-41 | one operation of readLock, in place: the new state is valid and exactly the monitor's next state, or unchanged when the thread must wait or sleeps |
| FairMorris.FairMorrisLock.ReadUnlock | src/fair_morris.cpp:47-64 | one operation of readUnlock, in place |
| FairMorris.FairMorrisLock.WriteLock | src/fair_morris.cpp:70-86 | one operation of writeLock, in place |
| FairMorris.FairMorrisLock.WriteUnlock | src/fair_morris.cpp:92-106 | one operation of writeUnlock, in place |
| FairMorris.FairMorrisLock.Interleave | src/fair_morris.cpp:25-106 | takes exactly the turns of any schedule, in its order, and ends valid and exclusive |
| TicketSpec.RunGood | src/main.cpp:175 | the specification neither loses nor invents tickets, and a refusal means that all are taken |
| FetchSubBudget.Refines | src/main.cpp:65-69 | every interleaving of fetch_sub/fetch_add claims is a run of the atomic ticket counter |
| FetchSubBudget.NegativeByPendingClaims | src/main.cpp:65-69 | in every state of every run over a budget of at least 0 the counter is negative if and only if failed claims are not yet added back, and then by exactly their number; a budget below 0 carries nothing else |
| FetchSubBudget.CounterCanGoNegative | src/main.cpp:65-69 | for every budget of at least 0 and every k from 1 to the number of threads, k failed claims at once take the counter to -k |
| FetchSubBudget.FinishedTakesAll | src/main.cpp:65-69 | when no thread can go on, exactly the budget has been taken |
| SharedBudget.RunClaims | src/main.cpp:64-80 | every run of the worker loops without the signal, under each lock, is a run of that claim protocol, step by step |
| CasBudget.Refines | tests/test_cases.cpp:65-71 | every interleaving of compare-exchange claims, weak failures included, is a run of the same ticket counter, and the counter never goes below zero |
| CasBudget.CompareExchange | tests/test_cases.cpp:65-71 | a claim that does not fail weakly succeeds if and only if the counter still has the loaded value; then one ticket is taken and the counter is one lower, otherwise nothing changes and another thread has taken a ticket since the load |
| CasBudget.OneThreadTakes | tests/test_cases.cpp:65-71 | every part of every budget can be taken |
| CasBudget.LoadDecides | tests/test_cases.cpp:67 | a thread ends exactly by a load that finds the counter at or below zero |
| CasBudget.FinishedTakesAll | tests/test_cases.cpp:62-71 | when no thread can go on, exactly the budget has been taken |
| Watchdog.EventsAreBounded | src/watchdog.cpp:66-80 | for every interleaving each lock call is flagged at most once, between polls totalEvents_ is the sum of the starveCounts, and the events never exceed the operations |
| Watchdog.MeasureDecides | src/watchdog.cpp:72-74 | in every run, the measurement leads to the store of BLOCKED if and only if the thread is published as waiting for at least the threshold (one that has stopped waiting measures 0), and otherwise to the next thread |
| Watchdog.OnlyTheStarvingAreFlagged | src/watchdog.cpp:72-75 | under a positive threshold, whenever the watchdog decides to flag a thread, it is published WAITING and now - waitStart is at least the threshold |
| Watchdog.NoEarlyEvent | src/watchdog.cpp:74-78 | nothing is counted, in total or for a thread, before the clock has advanced by the threshold |
| Watchdog.UndisturbedPoll | src/watchdog.cpp:66-81 | a poll that no worker interferes with flags and counts exactly the threads waiting for at least the threshold, visits all of them, and touches nobody else |
| Watchdog.BlockedIsYounger | include/thread_state.hpp:96-109 | from a worker's store to its next one, its published word and waitStart are what it stored, unless the watchdog has flagged it since |
| Watchdog.WordIsTruthful | include/thread_state.hpp:96-109 | the published word is the true state or BLOCKED; between polls a thread whose own starveCount is 0 is published truthfully |
| Watchdog.DoneIsPublishedIffNoCalls | tests/test_cases.cpp:232-237 | for every threshold, over the runs in which workers stop only at an empty budget: whenever all threads have finished and the watchdog is between polls, allThreadsDone answers yes, if and only if there is no thread or no operation |
| Watchdog.StaleBlockedAfterDone | tests/test_cases.cpp:232-237 | for every threshold, thread count and operation count above 0, such a run that uses up the budget, after which all threads have finished, the watchdog sleeps, and allThreadsDone answers no |
| Watchdog.DoInv | src/watchdog.cpp:58-85 | every worker store, load, measurement and BLOCKED store keeps the accounts |
| WatchdogPoll.Poller.Poll | src/watchdog.cpp:66-81 | with one reading of the clock per thread, one pass flags and counts exactly the threads waiting for at least the threshold, leaves the others alone, and a second pass with the same readings finds nobody |
| WatchdogPoll.ThreadInfo.OneWait | src/rw_lock_base.cpp:5-32 | one lock call, with any number of flags landing during its wait, adds exactly its own wait to totalWaitMs and exactly those flags to starveCount |
| Metrics.JainsIndex | src/metrics.cpp:84-97 | 0 without threads, otherwise in [1/n, 1]; 1 exactly when all counts agree, 1/n exactly when one thread did everything |
| Metrics.SpreadSign | src/metrics.cpp:82-93 | n times the sum of squares is at least the square of the sum, with equality exactly for equal counts |
| Metrics.CrossSign | src/metrics.cpp:82-93 | the square of the sum is at least the sum of squares, with equality exactly for at most one nonzero count |
| Metrics.MeanWithin | src/metrics.cpp:73-74 | a role's average wait lies between any bounds on the waits per operation of its threads |
| Metrics.PerThreadOpsElements | src/metrics.cpp:60 | the list behind the index holds exactly the operation counts of the entries that are present, zero counts included |
| Metrics.PerThreadOpsSums | src/metrics.cpp:84-90 | it has one element per entry that is present, and the same sum and sum of squares as the entries |
| Metrics.FairnessOfList | src/metrics.cpp:84-97 | what the index of that list says in terms of the threads |
| Metrics.Compute | src/metrics.cpp:45-97 | totals add up the present entries, the two averages are the means over each role's entries of their wait per operation (0 without any), throughput is operations per second, and the index is the square of the sum over n times the sum of squares for the n present entries: 1 exactly when all of them did equally much, 1/n exactly when one did everything |

## Left out

- Logger, timestamps, CSV, tables, command line, load profiles and benchmark averaging: formatting and I/O.
- Thread creation and joining, signal handlers, sleeping and getrusage: foreign calls; the abort signal is a flag that an environment step raises once.
- Memory orders, real time and fairness of the scheduler: sequential consistency and a monotone clock are assumed, and runs are finite.
- Errors of the semaphore calls (EINTR retries, EINVAL, EOVERFLOW) and try_wait, timed_wait, value: the retries change nothing, the counts are proved to stay at 0 or 1, and no lock uses the rest.
- The worker loops of main.cpp and SharedResource as mutable objects: an interleaving of threads is not one sequential loop, so the closed system is a state machine on values, with each thread's position in its loop as data.
- Hand-off of sem_post on semaphores other than rsem_: not needed, so those stay unconstrained in the precedence theorem.
- Metrics.Compute: arithmetic is over exact reals and unbounded integers.
