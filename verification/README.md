# Verified models of a StarryOS/RK3588 NPU stack

The repository runs neural-network jobs on the RK3588's NPU under StarryOS: a driver
that schedules submitted task arrays over three NPU cores, the kernel services around
it (futexes, interval timers and alarms, shared memory, vectored I/O, DMA bookkeeping,
lazy floating-point switching), the clock unit, and a benchmark that prepares matrix
multiplications in the NPU's tiled layouts. This project models the parts of that code
whose correctness depends on more than one function and proves what they promise, over
every run, input or reachable state.

How the models are built:

- **Locked sections are steps.** The scheduler, the futex storage, the alarm queue, the
  shared-memory manager and the DMA table are state machines whose steps are the sections
  the code runs under one lock; runs are arbitrary sequences of steps. Invariants are
  proved step by step, and the theorems are about all runs.
- **In-place code is in-place Dafny.** Objects whose methods update fields are classes
  with the same loops and branches; each method is proved to do exactly the step, or
  compute exactly the function, that the theorems are about.
- **Failures are values.** A failed assertion, a fault or an error return is a result of
  the model, and theorems say exactly when it happens.

Files, by component:

| files | component |
|---|---|
| `QueueTask`, `Scheduler`, `SchedulerProofs`, `SchedulerStatus`, `SchedulerTheorems`, `SchedulerOrder`, `SchedulerImpl` | NPU submit queue and scheduler |
| `Futex`, `FutexStore`, `FutexProofs`, `FutexTheorems`, `FutexTidy`, `FutexOrder`, `FutexImpl` | futex wait queues, tables and sweeping |
| `Timers`, `Alarms` | CPU-time accounting, interval timers, alarm queue |
| `MatmulLayout`, `Slices`, `Operands`, `RegCmd` | tiled layouts, lanes and slices, operand filling, register commands |
| `FpContext` | lazy floating-point context switch |
| `BiMap`, `ShmSpec`, `ShmRuns`, `ShmEffects`, `ShmImpl` | shared-memory manager |
| `IoVectors` | scatter/gather cursor |
| `Clocks` | NPU clocks and gates |
| `DmaTable`, `Stats` | DMA records, latency percentiles |
| `Options`, `Sums` | shared helpers |

Where the code does not have a property one would expect, the project gives a concrete
run and the exact condition under which it does:

- A static lane layout never sticks if and only if its in-range slots reach the completion
  target, and never reports success early if and only if they do not exceed it or lie in
  one lane (`NeverStuckIff`, `NeverEarlyIff`); every other layout has a bad run.
- A futex guard tests its entry before it locks the table; acting on the test is safe if
  and only if it still holds at the removal (`RemovalSafeIff`, `LostWaiterRace`).
- A waiter queued with bitset 0, which the system call accepts, is one no wake can match;
  every other queued waiter can be woken at its address (`WakeableIff`,
  `EmptyBitsetNeverWoken`).
- The alarm loop's assertion holds if and only if nothing pushed since the peek is due
  earlier; a deadline computed before a long delay breaks it (`AssertionIff`,
  `StaleDeadlineFailsAssertion`).
- Process exit trips an assertion if and only if a shared-memory attach of that process
  failed half way and was not repaired (`ExitTripsIff`, `FailedMappingTrips`).
- Clearing the floating-point registers leaves the control register alone
  (`ControlRegisterIff`, `ControlRegisterLeaks`).
- The feature layout stays inside its buffer if and only if the plane width divides the
  channel count or there is one cell (`FeatureRangeIff`); inside the benchmark's padded
  slot if and only if its last element does (`InputFitsIff`). Weights stay inside theirs
  if and only if two named ones do (`WeightFitsIff`), and have distinct places if and only
  if the channels fill whole groups, there is one tile of columns, or two tiles of an odd
  number of channels below 16 (`WeightInjectiveIff`); at 31 channels and 17 columns they
  fit and cannot all be held (`PartialTilesCollide`).
- The benchmark's lanes are the balanced partition if and only if task count plus lane
  count does not exceed 2^32; beyond that leading lanes stay empty, and the layout is
  still one the driver serves (`ClosedFormIff`, `BenchmarkLayoutServes`).
- The registers a command list writes give back the task's shape if and only if m is at
  most 1022 and n at most 8192 (`RecoveredIff`).

## Model

| member | source | states |
|---|---|---|
| `QueueTask.DynamicLayoutIsValid` | drivers/rknpu/src/task/taskqueen.rs:55-86 | accepts every static submit, and a dynamic one exactly when its flags and cores are known ones and the lanes, in order, continue each other without gap or overlap from 0 to the task count |
| `QueueTask.ValidLayoutPartitions` | drivers/rknpu/src/task/taskqueen.rs:55-86 | an accepted layout gives every descriptor exactly one owning lane |
| `QueueTask.ContiguousIsExact` | drivers/rknpu/src/task/taskqueen.rs:55-86 | an accepted layout offers exactly as many dispatches as completions are awaited, so it is also safe as a static layout |
| `QueueTask.ContiguousIff` | drivers/rknpu/src/task/taskqueen.rs:65-85 | the gap-free layouts said without walking them: every non-empty lane starts where those before it end, empty lanes start at 0, and the sizes add up to the task count |
| `QueueTask.AcceptableIff` | drivers/rknpu/src/task/taskqueen.rs:55-86 | the submits let through, in the header's own numbers: flag 0x20, no flag beyond 0x3F, no core beyond the third, and such a layout |
| `QueueTask.Normalize` | drivers/rknpu/src/task/taskqueen.rs:93-111 | a header with no lane filled becomes the same header with lane 0 over all tasks and nothing else changed; any other header is kept as it is |
| `QueueTask.AcceptedHeader` | drivers/rknpu/src/task/taskqueen.rs:55-111 | every non-empty submit the checks let through reaches the queue with work in some lane, and a dynamic one still gap-free after the default lane is filled in |
| `QueueTask.NextDispatchable` | drivers/rknpu/src/task/taskqueen.rs:370-404 | the next dispatch is the lowest idle lane with work in range, or the shared cursor with the lane that owns it; none exactly when there is no such work |
| `QueueTask.FindDispatchable` | drivers/rknpu/src/task/taskqueen.rs:370-404 | the search loop returns that dispatch |
| `QueueTask.NewTaskInv` | drivers/rknpu/src/task/taskqueen.rs:248-262 | a new submit starts consistent, idle and not terminal |
| `QueueTask.StaticStepInv` | drivers/rknpu/src/task/taskqueen.rs:410-449 | reserving and completing keep cursors within what each lane has in range |
| `QueueTask.DynamicNext` | drivers/rknpu/src/task/taskqueen.rs:370-404 | a healthy dynamic submit with unissued descriptors always has a next dispatch |
| `QueueTask.ExhaustedIsTerminal` | drivers/rknpu/src/task/taskqueen.rs:352-354 | a static submit with nothing running and nothing left is finished if its lanes offer at least the target |
| `QueueTask.FinishedIsIdle` | drivers/rknpu/src/task/taskqueen.rs:338-354 | a finished static submit has nothing in flight if its lanes offer at most the target |
| `QueueTask.ShortLayoutSticks` | drivers/rknpu/src/task/taskqueen.rs:282-309 | for every layout offering fewer dispatches than the target, a run that ends stuck: idle, nothing left, never finished |
| `QueueTask.LongLayoutEndsEarly` | drivers/rknpu/src/task/taskqueen.rs:282-354 | for every layout offering more dispatches than the target in several lanes, a run declared successful with a task still in flight |
| `QueueTask.OneLaneEndsIdle` | drivers/rknpu/src/task/taskqueen.rs:352-449 | with all slots in one lane, success means idle in every run |
| `QueueTask.NeverStuckIff` | drivers/rknpu/src/task/taskqueen.rs:282-449 | over all runs: no static submit ever sticks if and only if its in-range slots are at least the completion target |
| `QueueTask.NeverEarlyIff` | drivers/rknpu/src/task/taskqueen.rs:282-449 | over all runs: success always means idle if and only if its in-range slots are at most the completion target or all in one lane; lane sizes are added as 32-bit values |
| `QueueTask.SuccessAfter` | drivers/rknpu/src/task/taskqueen.rs:282-300 | in every run a static submit is declared successful if and only if its completions have reached the 32-bit sum of its lane sizes, or the task count when that sum is 0 or larger |
| `QueueTask.InRangeLayoutServes` | drivers/rknpu/src/task/taskqueen.rs:282-449 | lanes inside the array with no more tasks than descriptors never stick and never end early in any run |
| `SchedulerSpec.First` | drivers/rknpu/src/service/scheduler.rs:233-254 | the first queued submit that may run on a core, or none when none may |
| `SchedulerSpec.FirstCore` | drivers/rknpu/src/service/scheduler.rs:193-220 | the lowest idle core some queued submit fits, or none when nothing fits any idle core |
| `SchedulerSpec.AdmissibleIsWellFormed` | drivers/rknpu/src/task/taskqueen.rs:55-111 | what the submit checks and the default lane establish is what the scheduler's invariant needs of a header |
| `SchedulerProofs.CandidateIsBest` | drivers/rknpu/src/service/scheduler.rs:222-283 | the submit picked for a core has the best priority among all queued ones that fit it, and within that priority nobody before it in the queue fits |
| `SchedulerProofs.EnqueueSafe` | drivers/rknpu/src/service/scheduler.rs:178-186 | accepting a submit keeps the scheduler invariant |
| `SchedulerProofs.DispatchSafe` | drivers/rknpu/src/service/scheduler.rs:285-344 | dispatching keeps it |
| `SchedulerProofs.CompleteSafe` | drivers/rknpu/src/service/scheduler.rs:960-1095 | harvesting a completion keeps it, also for a submit that is gone |
| `SchedulerProofs.FailSafe` | drivers/rknpu/src/service/scheduler.rs:936-958 | failing a dispatch keeps it |
| `SchedulerProofs.WakeSafe` | drivers/rknpu/src/service/scheduler.rs:890-934 | signalling a waiter or dropping an unwanted result keeps it |
| `SchedulerProofs.AbortSafe` | drivers/rknpu/src/service/scheduler.rs:1252-1271 | giving up on a wait keeps it |
| `SchedulerProofs.TakeSafe` | drivers/rknpu/src/service/scheduler.rs:859-880 | handing a result back keeps it |
| `SchedulerProofs.StepSafe` | drivers/rknpu/src/service/scheduler.rs:178-1271 | every locked section keeps queues, bindings, counters, history and reported statuses consistent |
| `SchedulerProofs.RunSafe` | drivers/rknpu/src/service/scheduler.rs:178-1271 | they are consistent in every reachable state |
| `SchedulerStatus.StepEvolves` | drivers/rknpu/src/service/scheduler.rs:178-1271 | every step keeps a submit's interrupt masks and its error, and changes a descriptor only to one that records wanted bits |
| `SchedulerStatus.MasksStay` | drivers/rknpu/src/service/scheduler.rs:178-1271 | over every run, from acceptance to result: masks never change and an error is never taken back |
| `SchedulerStatus.RunWanted` | drivers/rknpu/src/service/scheduler.rs:1026-1033 | in every run every dispatched descriptor records only bits its mask asks for |
| `SchedulerStatus.InterruptOutcome` | drivers/rknpu/src/service/scheduler.rs:1015-1050 | one interrupt frees its core, records exactly the bits set in both status and mask in that one descriptor, and makes the submit a task error if and only if there are none |
| `SchedulerStatus.FailureOutcome` | drivers/rknpu/src/service/scheduler.rs:936-958 | a refused dispatch frees its core, gives the submit that error and changes no descriptor |
| `SchedulerStatus.AbortOutcome` | drivers/rknpu/src/service/scheduler.rs:1252-1271 | giving up leaves no waiter and no result; the submit stays, marked interrupted, if and only if it has tasks on cores |
| `SchedulerStatus.WakeOutcome` | drivers/rknpu/src/service/scheduler.rs:890-934 | a waiter finds the result unchanged, or marked when it could not be read back; without a waiter it is gone; other results are untouched |
| `SchedulerOrder.PushPlace` | drivers/rknpu/src/service/scheduler.rs:376-387 | pushing puts a submit behind everybody of its own or a better priority, in front of everybody else, and moves nobody |
| `SchedulerOrder.RemovePlace` | drivers/rknpu/src/service/scheduler.rs:389-410 | removing takes one submit out of line and moves nobody |
| `SchedulerOrder.StepFifo` | drivers/rknpu/src/service/scheduler.rs:178-1271 | no step lets a ready submit overtake another of its own or a better priority: whoever stays keeps its place, whoever joins stands behind |
| `SchedulerOrder.StaysAhead` | drivers/rknpu/src/service/scheduler.rs:178-1271 | over every run, whoever joins later stands behind |
| `SchedulerOrder.FirstComeFirstServed` | drivers/rknpu/src/service/scheduler.rs:222-283 | over every run, when a ready submit is dispatched onto a core, no submit of its own or a better priority that was ready before it came could have run there |
| `SchedulerOrder.NoOvertaking` | drivers/rknpu/src/service/scheduler.rs:178-186 | accepting a submit leaves every core's candidate of its own or a better priority the candidate |
| `SchedulerOrder.FirstOfTwo` | drivers/rknpu/src/service/scheduler.rs:178-344 | of two submits accepted one after the other the first is dispatched first, unless the second has a better priority |
| `SchedulerOrder.CompletedGoesBehind` | drivers/rknpu/src/service/scheduler.rs:346-375 | running submits take turns: after a completion a submit that keeps running stands behind every other of its own or a better priority, and the others keep their order |
| `SchedulerTheorems.NothingDispatchedTwice` | drivers/rknpu/src/service/scheduler.rs:285-344 | in every run no lane hands out a descriptor twice, and a dynamic submit hands out each descriptor at most once over all lanes |
| `SchedulerTheorems.CoresRunDistinctTasks` | drivers/rknpu/src/service/scheduler.rs:307-344 | in every reachable state busy cores are among the three, have their bit set in a non-zero core mask, and run pairwise distinct tasks of live submits; the only orphans come from static layouts with surplus slots |
| `SchedulerTheorems.NoLostWakeup` | drivers/rknpu/src/service/scheduler.rs:835-934 | whoever waits has a live submit or a result whose signal is due or given; no result outlives everybody's interest |
| `SchedulerTheorems.SuccessMeansEveryTaskRan` | drivers/rknpu/src/service/scheduler.rs:960-1095 | an error-free result of a layout without surplus means every in-range descriptor of every lane was dispatched and reported a non-zero status made of wanted bits only |
| `SchedulerTheorems.SuccessMeansTargetRan` | drivers/rknpu/src/service/scheduler.rs:960-1095 | for every static layout, surplus or not: an error-free result has dispatched at least the target and completed exactly it, and each task handed out was dispatched, records wanted bits only, and either reported some or is one of those still out |
| `SchedulerTheorems.FinishedPassedAll` | drivers/rknpu/src/task/taskqueen.rs:352-354 | a finished submit's cursors have passed every in-range index of every lane |
| `SchedulerTheorems.IdleMeansNothingFits` | drivers/rknpu/src/service/scheduler.rs:1097-1250 | dispatching stops only when no live submit fits any idle core |
| `SchedulerTheorems.StallCause` | drivers/rknpu/src/service/scheduler.rs:1097-1250 | live work with nothing in flight and nothing to dispatch has only two causes: a non-zero mask with none of the three core bits, or a static layout below its target |
| `SchedulerTheorems.DynamicNeverStalls` | drivers/rknpu/src/service/scheduler.rs:1097-1250 | in every run, with nothing in flight and nothing to dispatch no dynamic submit is live |
| `SchedulerTheorems.DispatchPolicy` | drivers/rknpu/src/service/scheduler.rs:1097-1250 | a running submit is served before any ready one, and the best priority that fits within its kind |
| `SchedulerImpl.RemoveFromBuckets` | drivers/rknpu/src/service/scheduler.rs:389-410 | removes an id and the queues that become empty |
| `SchedulerImpl.FindCandidate` | drivers/rknpu/src/service/scheduler.rs:233-254 | the nested loop finds the candidate the specification names |
| `SchedulerImpl.HarvestInto` | drivers/rknpu/src/service/scheduler.rs:960-1095 | applies one interrupt status to the submit that owns the core |
| `SchedulerImpl.NpuScheduler.constructor` | drivers/rknpu/src/service/scheduler.rs:155-166 | starts empty with identifiers from 1 |
| `SchedulerImpl.NpuScheduler.EnqueueSubmit` | drivers/rknpu/src/service/scheduler.rs:178-186 | new state is the enqueue step's, invariant kept |
| `SchedulerImpl.NpuScheduler.PrepareDispatch` | drivers/rknpu/src/service/scheduler.rs:307-344 | reserves, clears the stale status, binds the core |
| `SchedulerImpl.NpuScheduler.AnyRunningCandidate` | drivers/rknpu/src/service/scheduler.rs:200-209 | true exactly when a running submit fits some idle core |
| `SchedulerImpl.NpuScheduler.SelectDispatch` | drivers/rknpu/src/service/scheduler.rs:1097-1250 | one pass under the lock performs exactly the dispatch step, or changes nothing when there is none |
| `SchedulerImpl.NpuScheduler.ReclassifyTask` | drivers/rknpu/src/service/scheduler.rs:346-375 | moves a submit to the queue its state calls for and reports exactly when it became terminal |
| `SchedulerImpl.NpuScheduler.HarvestCompletion` | drivers/rknpu/src/service/scheduler.rs:960-1095 | performs the completion step, invariant kept |
| `SchedulerImpl.NpuScheduler.FailBinding` | drivers/rknpu/src/service/scheduler.rs:936-958 | performs the failure step, invariant kept |
| `SchedulerImpl.NpuScheduler.WakeTerminalTasks` | drivers/rknpu/src/service/scheduler.rs:890-934 | signals every listed submit once, invariant kept |
| `SchedulerImpl.NpuScheduler.AbortWait` | drivers/rknpu/src/service/scheduler.rs:1252-1271 | performs the abort step, invariant kept |
| `SchedulerImpl.NpuScheduler.TakeTerminal` | drivers/rknpu/src/service/scheduler.rs:859-880 | hands the result back once, or refuses while there is none |
| `SchedulerImpl.NpuScheduler.DispatchIdleCores` | drivers/rknpu/src/service/scheduler.rs:1097-1250 | terminates whatever the hardware answers, and leaves no idle core that any live submit fits |
| `SchedulerImpl.DispatchProgress` | drivers/rknpu/src/service/scheduler.rs:1097-1250 | each dispatch occupies one more core and keeps the healthy submits |
| `SchedulerImpl.FailProgress` | drivers/rknpu/src/service/scheduler.rs:936-958 | each failed dispatch removes one healthy submit |
| `FutexQueue.WakeTakesFirst` | StarryOS/core/src/futex.rs:74-86 | a wake takes exactly the first min(count, matches) matching waiters in order and leaves the other matching ones in order |
| `FutexQueue.WakeKeepsRest` | StarryOS/core/src/futex.rs:74-86 | everybody else stays in order, nobody is lost or duplicated |
| `FutexQueue.WokenShare` | StarryOS/core/src/futex.rs:74-86 | a wake takes as many as the count allows of the waiters whose bitset has a bit in common with the mask, and no other |
| `FutexQueue.WaitQueue.constructor` | StarryOS/core/src/futex.rs:39-41 | starts empty |
| `FutexQueue.WaitQueue.WaitIf` | StarryOS/core/src/futex.rs:47-70 | queues at the back exactly when the condition holds under the lock |
| `FutexQueue.WaitQueue.Wake` | StarryOS/core/src/futex.rs:74-86 | the retain loop leaves and wakes what the specification says and returns the smaller of the count and the number of waiters sharing a bit with the mask |
| `FutexQueue.WaitQueue.Requeue` | StarryOS/core/src/futex.rs:94-105 | moves a prefix to the target's back, also onto the same queue |
| `FutexStoreSpec.Tick` | StarryOS/core/src/task.rs:478-484 | counting a lookup, with or without a sweep, leaves a directory that names existing tables |
| `FutexProofs.LookupInv` | StarryOS/core/src/task.rs:339-350 | a lookup, even one that sweeps, keeps reference counts exact and every waiter accounted for |
| `FutexProofs.GuardInv` | StarryOS/core/src/futex.rs:195-218 | so does borrowing or creating an entry |
| `FutexProofs.WaitInv` | StarryOS/core/src/futex.rs:47-70 | so does queueing |
| `FutexProofs.WakeInv` | StarryOS/core/src/futex.rs:74-86 | so does waking |
| `FutexProofs.DrainInv` | StarryOS/core/src/futex.rs:94-99 | so does the first half of a requeue |
| `FutexProofs.ExtendInv` | StarryOS/core/src/futex.rs:100-105 | so does the second half |
| `FutexProofs.DropGuardInv` | StarryOS/core/src/futex.rs:236-242 | so does dropping a guard when its test and its removal are one step |
| `FutexProofs.DropHandleInv` | StarryOS/core/src/task.rs:339-350 | so does giving a table handle back |
| `FutexProofs.StepInv` | StarryOS/core/src/futex.rs:180-242 | every step keeps: counts are one for the table plus one per guard, every entry is in its slot, every enqueued waiter is woken or stands in exactly one place once |
| `FutexProofs.RunInv` | StarryOS/core/src/futex.rs:180-242 | that holds in every reachable state |
| `FutexProofs.StepLocated` | StarryOS/core/src/futex.rs:47-105 | every step keeps: each queued waiter stands in the entry of the address recorded when it queued or was last requeued |
| `FutexProofs.RunLocated` | StarryOS/core/src/futex.rs:47-105 | that holds in every run |
| `FutexProofs.AddressStays` | StarryOS/core/src/task.rs:478-490 | no step moves or discards an entry with waiters or its table |
| `FutexTheorems.WakeReaches` | StarryOS/core/src/futex.rs:195-204 | a later wake at an address, even one whose lookup sweeps, finds the queue standing there and wakes its first matching waiters, disturbing no other |
| `FutexTheorems.WokenAt` | StarryOS/core/src/futex.rs:74-86 | a wake of any count and mask wakes the waiter at a position if and only if a bit is set in both its bitset and the mask and fewer than count such waiters stand before it |
| `FutexTheorems.NoLostWaiter` | StarryOS/core/src/task.rs:465-490 | in every run every enqueued waiter that is neither woken nor being moved stands at one position of the queue its own address leads to, and a wake at that address, of any count and mask and even if its lookup sweeps, wakes it if and only if a bit is set in both its bitset and the mask and fewer than count such waiters stand before it |
| `FutexTheorems.WakeableIff` | StarryOS/api/src/syscall/sync/futex.rs:63-71 | in every run some wake at a queued waiter's address wakes it if and only if its bitset is not 0 |
| `FutexTheorems.EmptyBitsetNeverWoken` | StarryOS/api/src/syscall/sync/futex.rs:63-71 | a run that queues a waiter with bitset 0, which no wake at its address wakes |
| `FutexTheorems.OneEntryPerAddress` | StarryOS/core/src/futex.rs:207-218 | one address has one entry, so all guards for it share it |
| `FutexTheorems.RemoveNeedsNoSharer` | StarryOS/core/src/futex.rs:236-242 | removing a slot while another guard holds the entry breaks the invariant |
| `FutexTheorems.RemoveNeedsEmpty` | StarryOS/core/src/futex.rs:236-242 | removing a slot whose queue is not empty loses a waiter |
| `FutexTheorems.RemovalSafeIff` | StarryOS/core/src/futex.rs:236-242 | acting on an earlier positive test keeps the invariant if and only if the test would still be positive at the removal |
| `FutexTheorems.LostWaiterRace` | StarryOS/core/src/futex.rs:236-242 | the interleaving of test, borrow, wait and removal after which a wake at the address, of any count and mask, does not wake the queued waiter |
| `FutexTidy.StepTidy` | StarryOS/core/src/futex.rs:195-242 | every step keeps: an entry only its table holds has waiters, and the lookup counter is below a hundred |
| `FutexTidy.RunTidy` | StarryOS/core/src/futex.rs:195-242 | that holds in every run |
| `FutexTidy.EntriesInUse` | StarryOS/core/src/futex.rs:236-242 | no entry leaks: in every run every entry is held by a guard or has waiters |
| `FutexTidy.SweepDropsUnusedIff` | StarryOS/core/src/task.rs:478-490 | no table leaks: in every run the hundredth shared lookup drops a table and its name if and only if it is shared, nobody has a handle on it and nobody waits in it |
| `FutexOrder.StepInOrder` | StarryOS/core/src/futex.rs:47-105 | no step lets a waiter overtake another of its queue: whoever stays keeps its place, whoever joins stands behind |
| `FutexOrder.StaysAhead` | StarryOS/core/src/futex.rs:47-105 | over every run, whoever joins later stands behind |
| `FutexOrder.FirstComeFirstWoken` | StarryOS/core/src/futex.rs:74-86 | over every run, a wake that takes a waiter also takes every waiter sharing a bit with the mask that stood in the queue before it came |
| `FutexImpl.RetainTables` | StarryOS/core/src/task.rs:478-484 | keeps exactly the tables in use or non-empty |
| `FutexImpl.RetainNames` | StarryOS/core/src/task.rs:478-484 | keeps exactly the names of those tables |
| `FutexImpl.FutexStorage.constructor` | StarryOS/core/src/task.rs:471-476 | starts empty |
| `FutexImpl.FutexStorage.SweepTables` | StarryOS/core/src/task.rs:480-484 | the sweep performs the specified sweep |
| `FutexImpl.FutexStorage.Count` | StarryOS/core/src/task.rs:478-484 | counts the lookup and sweeps on the hundredth |
| `FutexImpl.FutexStorage.TableFor` | StarryOS/core/src/task.rs:339-350 | performs the lookup step |
| `FutexImpl.FutexStorage.Lock` | StarryOS/core/src/futex.rs:195-218 | performs the get or get-or-insert step and says which entry was locked |
| `FutexImpl.FutexStorage.WaitOn` | StarryOS/core/src/futex.rs:47-70 | performs the wait step through the entry's wait queue and says whether the caller waits |
| `FutexImpl.FutexStorage.WakeOn` | StarryOS/core/src/futex.rs:74-86 | performs the wake step through the entry's wait queue and returns the smaller of the count and the number of waiters sharing a bit with the mask |
| `FutexImpl.FutexStorage.DrainFrom` | StarryOS/core/src/futex.rs:94-99 | performs the first half of a requeue |
| `FutexImpl.FutexStorage.ExtendTo` | StarryOS/core/src/futex.rs:100-105 | performs the second half |
| `FutexImpl.FutexStorage.RequeueOn` | StarryOS/core/src/futex.rs:94-105 | performs both, and undisturbed leaves the two queues as one wait queue's requeue does, also when both guards hold one entry |
| `FutexImpl.FutexStorage.Release` | StarryOS/core/src/futex.rs:236-242 | gives one count back, freeing the entry with the last |
| `FutexImpl.FutexStorage.Unlock` | StarryOS/core/src/futex.rs:236-242 | performs the guard drop |
| `FutexImpl.FutexStorage.Close` | StarryOS/core/src/task.rs:339-350 | gives a table handle back |
| `Timers.Accounting` | StarryOS/core/src/time.rs:169-186 | over any history user and system time are the time spent in those states, and with the untracked rest they add up to the last poll |
| `Timers.ChargedIsGrowth` | StarryOS/core/src/time.rs:169-186 | over any history the virtual timer is charged what user time grew by, the profiling timer what user and system time grew by, the real timer what the clock advanced by |
| `Timers.CountsDown` | StarryOS/core/src/time.rs:91-103 | until its account, user time, user and system time, or the clock, has grown by its value a timer holds the difference and does not fire |
| `Timers.FirstFire` | StarryOS/core/src/time.rs:91-103 | an armed timer fires at exactly the first poll where its account has grown by its value, and then stands as if armed with its interval |
| `Timers.StaysOff` | StarryOS/core/src/time.rs:91-94 | a timer that is off never fires until armed |
| `Timers.NextFire` | StarryOS/core/src/time.rs:169-225 | over a whole run, between any two consecutive fires or an arming and its first fire, the growth of the account alone decides; after an arming the timer holds what was asked for, after a fire its interval |
| `Timers.SignalsAreFires` | StarryOS/core/src/time.rs:169-186 | a poll raises the signal of each timer that fires exactly once and no other |
| `Timers.SignalsInOrder` | StarryOS/core/src/time.rs:169-186 | virtual before profiling before real |
| `Timers.AlarmsAreRestarts` | StarryOS/core/src/time.rs:91-103 | a poll hands the alarm queue the new value of each timer it restarts, once each, and nothing else |
| `Timers.Polled` | StarryOS/core/src/time.rs:169-186 | a poll counts the virtual timer down in user state only, the profiling timer in user and kernel state, the real timer always |
| `Timers.TimeManager.constructor` | StarryOS/core/src/time.rs:150-158 | starts with all timers off |
| `Timers.TimeManager.Update` | StarryOS/core/src/time.rs:91-103 | counts one timer down, raising its signal and renewing its alarm when due |
| `Timers.TimeManager.Poll` | StarryOS/core/src/time.rs:169-186 | performs the poll step with its signals in order and its alarms |
| `Timers.TimeManager.SetState` | StarryOS/core/src/time.rs:189-191 | replaces the state |
| `Timers.TimeManager.SetItimer` | StarryOS/core/src/time.rs:195-209 | replaces a timer, returns the old one, renews its alarm if it runs |
| `AlarmQueue.StepInv` | StarryOS/core/src/time.rs:105-119 | every step keeps each alarm in the heap or popped, once, and the peeked alarm in the heap |
| `AlarmQueue.RunInv` | StarryOS/core/src/time.rs:227-267 | that holds in every run |
| `AlarmQueue.AssertionIff` | StarryOS/core/src/time.rs:243-252 | in every run the assertion after the unlocked poll holds if and only if no alarm pushed since the peek is due before the peeked one |
| `AlarmQueue.PopFindsAlarm` | StarryOS/core/src/time.rs:251-252 | the heap is never empty at the pop |
| `AlarmQueue.PoppedOnce` | StarryOS/core/src/time.rs:227-267 | each alarm is in the heap until popped and popped at most once |
| `AlarmQueue.NeverEarly` | StarryOS/core/src/time.rs:242-252 | no alarm is popped before its deadline |
| `AlarmQueue.DeadlineIsClockPlusDelay` | StarryOS/core/src/time.rs:105-114 | over every run an alarm's deadline is the clock its thread read plus the delay it asked for |
| `AlarmQueue.DelayHasPassed` | StarryOS/core/src/time.rs:105-119 | over every run every popped alarm was computed and pushed by some thread, and is not popped before the delay asked for has passed since the clock was read |
| `AlarmQueue.PushNotifiesIff` | StarryOS/core/src/time.rs:108-117 | a push owes a notification if and only if its deadline is before every other one |
| `AlarmQueue.StepCovered` | StarryOS/core/src/time.rs:105-119 | every step keeps: a sleeping loop with an earlier alarm in the heap has been notified or is about to be |
| `AlarmQueue.RunCovered` | StarryOS/core/src/time.rs:227-267 | that holds in every run |
| `AlarmQueue.NeverOversleeps` | StarryOS/core/src/time.rs:227-267 | in every run no alarm is slept through: once pushers have notified, a sleeping loop can resume as soon as any alarm is due, and it sleeps without deadline only while there is no alarm |
| `AlarmQueue.AtomicIsTimely` | StarryOS/core/src/time.rs:107-114 | reading the clock and pushing as one step never pushes a deadline in the past |
| `AlarmQueue.TimelyInOrder` | StarryOS/core/src/time.rs:227-267 | with such pushes nothing left in the heap is earlier than anything popped |
| `AlarmQueue.TimelyRunsAreOrdered` | StarryOS/core/src/time.rs:227-267 | with such pushes the assertion never fails and deadlines come out in nondecreasing order over the whole run |
| `AlarmQueue.StaleDeadlineFailsAssertion` | StarryOS/core/src/time.rs:107-114 | a run without that assumption in which the assertion fails |
| `MatmulLayout.FeatureInverse` | demo/npu_benchmark/src/npu_matmul.c:476-483 | reading back a feature position gives the element placed there, so distinct elements never collide |
| `MatmulLayout.FeatureInRange` | demo/npu_benchmark/src/npu_matmul.c:476-483 | positions stay inside the buffer when channels fill whole planes |
| `MatmulLayout.FeatureOnto` | demo/npu_benchmark/src/npu_matmul.c:476-483 | and then every position of the buffer is used |
| `MatmulLayout.FeatureRangeIff` | demo/npu_benchmark/src/npu_matmul.c:476-483 | positions stay inside the buffer if and only if the plane width divides the channel count or there is a single cell |
| `MatmulLayout.LastOverflows` | demo/npu_benchmark/src/npu_matmul.c:476-483 | otherwise the last element falls outside |
| `MatmulLayout.FeatureStrides` | demo/npu_benchmark/src/npu_matmul.c:476-483 | the layout by its strides: it starts at 0, channels of a plane lie side by side, columns a plane width apart, rows a line of columns, planes a whole image |
| `MatmulLayout.WeightInverse` | demo/npu_benchmark/src/npu_matmul.c:485-501 | reading back a weight position gives its kernel and channel, for both tile sizes |
| `MatmulLayout.WeightInRange` | demo/npu_benchmark/src/npu_matmul.c:485-501 | positions stay inside the buffer for whole tiles and groups |
| `MatmulLayout.WeightOnto` | demo/npu_benchmark/src/npu_matmul.c:485-501 | and then every position is used |
| `MatmulLayout.WeightStrides` | demo/npu_benchmark/src/npu_matmul.c:485-501 | channels of a tile lie side by side, kernels of a group 32 apart, channel tiles a tile of kernels, groups that many kernels |
| `MatmulLayout.Int8Places` | demo/npu_benchmark/src/npu_matmul.c:494-501 | with 32-wide tiles distinct weights get distinct positions inside the buffer, which read back |
| `Operands.FillInput` | demo/npu_benchmark/src/rknpu_scenario_workload.c:208-221 | for every shape, the nested loops leave the slot as writing the elements one by one in row order does, later writes winning |
| `Operands.FillWeights` | demo/npu_benchmark/src/rknpu_scenario_workload.c:223-235 | the same for weights |
| `Operands.PrepareInputs` | demo/npu_benchmark/src/rknpu_scenario_workload.c:208-221 | all slots are filled that way, in order, for every shape whose elements stay inside their slot |
| `Operands.PrepareWeights` | demo/npu_benchmark/src/rknpu_scenario_workload.c:223-235 | the same for weights |
| `Operands.PrepareOperands` | demo/npu_benchmark/src/rknpu_scenario_workload.c:201-236 | both buffers are filled |
| `Operands.FilledAt` | demo/npu_benchmark/src/rknpu_scenario_workload.c:208-221 | an element whose position no other visited element shares is found there afterwards |
| `Operands.FilledSlotsAt` | demo/npu_benchmark/src/rknpu_scenario_workload.c:201-236 | filling all slots leaves such an element in place in every slot, since slots do not reach into each other |
| `Operands.LastIsLargest` | demo/npu_benchmark/src/rknpu_scenario_workload.c:208-221 | no input element lies beyond the last row's last channel |
| `Operands.InputFitsIff` | demo/npu_benchmark/src/rknpu_scenario_workload.c:208-221 | for every shape, all input elements stay inside their slot if and only if the last one does, as it does for whole planes |
| `Operands.InputInjective` | demo/npu_benchmark/src/rknpu_scenario_workload.c:208-221 | for every shape, whole planes or not, distinct input elements get distinct positions |
| `Operands.InputReadBack` | demo/npu_benchmark/src/rknpu_scenario_workload.c:208-221 | for every shape that fits, a prepared slot read through the address map gives the input value of its matrix |
| `Operands.LargestWeight` | demo/npu_benchmark/src/rknpu_scenario_workload.c:223-235 | for every shape no weight lies beyond the last column's last channel or that of the last column of the tile before |
| `Operands.WeightFitsIff` | demo/npu_benchmark/src/rknpu_scenario_workload.c:223-235 | for every shape, all weights stay inside their slot if and only if those two do |
| `Operands.AlignedWeightsFit` | demo/npu_benchmark/src/rknpu_scenario_workload.c:223-235 | weights stay inside their slot when channels fill groups of 32 and columns tiles of 16 |
| `Operands.WeightInjectiveIff` | demo/npu_benchmark/src/npu_matmul.c:485-492 | for every shape, no two weights share a position if and only if the channels fill groups of 32, or there are at most 16 columns, or the channels are an odd number below 16 and there are at most 32 columns |
| `Operands.Collision` | demo/npu_benchmark/src/npu_matmul.c:485-492 | for every other shape, two weights that share a position |
| `Operands.HoldsEveryMatrixIff` | demo/npu_benchmark/src/rknpu_scenario_workload.c:223-235 | for every shape that fits, the filling loop leaves every matrix of weights, whatever its values, readable through the address map if and only if that condition holds |
| `Operands.WeightReadBack` | demo/npu_benchmark/src/rknpu_scenario_workload.c:223-235 | for every shape that fits and meets that condition, a prepared slot read through the address map gives the weight value of its matrix |
| `Operands.PartialTilesCollide` | demo/npu_benchmark/src/rknpu_scenario_workload.c:223-235 | 31 channels and 17 columns fit their slot, and no contents of the buffer hold all the benchmark's weights |
| `Operands.ExpectedOutput` | demo/npu_benchmark/src/rknpu_scenario_workload.c:439-453 | the loop computes the plain dot product |
| `Operands.MatrixIds` | demo/npu_benchmark/src/rknpu_scenario_workload.c:182-191 | shared operands have one matrix per thread; otherwise different tasks, of one thread or two, have different ones as long as the numbering fits 32 bits |
| `Operands.ValueSteps` | demo/npu_benchmark/src/rknpu_scenario_workload.c:174-180 | both operand patterns start at -5 and step through eleven values by fixed amounts per matrix, line and channel |
| `Operands.SumGroups` | demo/npu_benchmark/src/npu_matmul.c:476-492 | summing group by group is summing |
| `Operands.TiledDotIsExpected` | demo/npu_benchmark/src/rknpu_scenario_workload.c:439-453 | for every task, row and column of every shape with whole planes of 8 channels whose weights fit and do not share positions, the tile-order dot product over the buffers as filled is the plain one |
| `Operands.AlignedDotIsExpected` | demo/npu_benchmark/src/rknpu_scenario_workload.c:439-453 | in particular for 32-channel groups and 16-column tiles |
| `Operands.PartialSumsExact` | demo/npu_benchmark/src/rknpu_scenario_workload.c:174-180 | every partial sum is an integer of at most 25 per channel for matrix ids from 0 up, 225 for any id, so below 2^24 for every 16-bit channel count |
| `Slices.AlignUpIsLeast` | demo/npu_benchmark/src/rknpu_scenario_workload.c:101-103 | the least multiple of the alignment not below the value |
| `Slices.RangeFitsIff` | demo/npu_benchmark/src/rknpu_scenario_workload.c:168-172 | the overflow-free test passes if and only if the range is not empty and ends at or below 2^32 |
| `Slices.SliceInside` | demo/npu_benchmark/src/rknpu_scenario_workload.c:168-199 | when the range test passes every slice, also an only one, is aligned, inside the buffer, and unchanged by cutting its address to 32 bits |
| `Slices.SlicesAreDisjoint` | demo/npu_benchmark/src/rknpu_scenario_workload.c:168-199 | any two slices are disjoint |
| `Slices.DistributeTasks` | demo/npu_benchmark/src/rknpu_scenario_workload.c:283-302 | with its 32-bit sum the loop leaves the first n + u - 2^32 of u lanes empty, none unless that is positive, writes the closed-form partition over the others, start i*q + min(i, r), and zeroes unused lanes |
| `Slices.ClosedFormIff` | demo/npu_benchmark/src/rknpu_scenario_workload.c:293-296 | the lanes written are the closed-form ones over all u lanes if and only if n + u - 1 is below 2^32 |
| `Slices.LargestCountSkips` | demo/npu_benchmark/src/rknpu_scenario_workload.c:293-296 | 2^32 - 1 tasks on 3 cores: two lanes stay empty and the third gets everything |
| `Slices.WrittenCoversOnce` | demo/npu_benchmark/src/rknpu_scenario_workload.c:283-302 | wrapped or not, every task is in exactly one of the lanes written |
| `Slices.EachTaskInOneLane` | demo/npu_benchmark/src/rknpu_scenario_workload.c:283-302 | every task is in exactly one closed-form lane |
| `Slices.LanesBalanced` | demo/npu_benchmark/src/rknpu_mixed_workload.c:219-233 | closed-form lanes are consecutive, non-empty, nonincreasing and differ by at most one |
| `Slices.LayoutContiguous` | demo/npu_benchmark/src/rknpu_scenario_workload.c:283-302 | wrapped or not, the layout written is gap-free from 0 to the task count |
| `Slices.BenchmarkLayoutServes` | drivers/rknpu/src/task/taskqueen.rs:55-86 | for every 32-bit task count and every core count the layout as written, wrapped sum included, passes the driver's dynamic test, and as a static layout never sticks and never ends early in any run |
| `Slices.MixedNumbering` | demo/npu_benchmark/src/rknpu_mixed_workload.c:85-101 | type and ordinal stay in range, identify the task and give it back, in both layouts |
| `RegCmd.BanksAreLeast` | demo/npu_benchmark/src/npu_matmul.c:245-249 | the bank count is the least that holds the bytes |
| `RegCmd.AcceptedIff` | demo/npu_benchmark/src/npu_matmul.c:250-258 | a task is accepted if and only if a weight row fits one bank and the input fits eleven, and then the 32-bit byte count has not wrapped |
| `RegCmd.RefusedIff` | demo/npu_benchmark/src/npu_matmul.c:245-258 | the code is -1 if and only if the bytes counted in 32 bits exceed eleven banks, and -2 if and only if they do not and a weight row exceeds one |
| `RegCmd.WordRoundTrip` | demo/npu_benchmark/include/npu_hw.h:168-168 | a command word gives back its operation, value and register |
| `RegCmd.EmittedValue` | demo/npu_benchmark/src/npu_matmul.c:36-200 | each of the 108 emitted words names its block and register and carries its value whole, parameters and constants alike |
| `RegCmd.RegsDistinct` | demo/npu_benchmark/src/npu_matmul.c:36-200 | no two of the register words name the same register |
| `RegCmd.RegisterHolds` | demo/npu_benchmark/src/npu_matmul.c:36-200 | so after the list is written in order each register holds the value its word carries |
| `RegCmd.BlockOfRegister` | demo/npu_benchmark/src/npu_matmul.c:36-200 | a word's block is the one its register's address lies in |
| `RegCmd.TailWords` | demo/npu_benchmark/src/npu_matmul.c:196-199 | the four words after the registers |
| `RegCmd.InputFields` | demo/npu_benchmark/src/npu_matmul.c:41-90 | the constant input words, field by field: half precision, stride 1, conversion bypassed at scale 1, bursts of 15 |
| `RegCmd.ShapeFields` | demo/npu_benchmark/src/npu_matmul.c:44-93 | one column, one kernel element, and the surface stride of whole row groups |
| `RegCmd.OutputFields` | demo/npu_benchmark/src/npu_matmul.c:117-199 | half-precision core, output precision by the conversion flag, every later stage bypassed, three units started |
| `RegCmd.ConversionFields` | demo/npu_benchmark/src/npu_matmul.c:148-171 | element sizes and conversion by the conversion flag |
| `RegCmd.ZeroWords` | demo/npu_benchmark/src/npu_matmul.c:36-200 | every other word without a parameter is zero |
| `RegCmd.RecoveredIff` | demo/npu_benchmark/src/npu_matmul.c:211-340 | for an accepted task with no empty dimension the registers written give back shape, bank split, line entries, addresses, strides and output format if and only if m is at most 1022 and n at most 8192 |
| `RegCmd.GenMatmulFp16` | demo/npu_benchmark/src/npu_matmul.c:211-340 | returns the acceptance code; on success all 108 words are written and the four spare ones kept, on refusal the whole list is kept |
| `FpContext.StepInv` | axcpu/src/riscv/context.rs:86-109 | register writes, switches and spawns keep every saved state equal to what its task left |
| `FpContext.RunInv` | axcpu/src/riscv/context.rs:86-109 | that holds in every run |
| `FpContext.RegistersSurvive` | axcpu/src/riscv/context.rs:86-109 | at every switch of every run the incoming task is clean or initial, so the unreachable arm is never reached, finds f0-f31 as it left them or zero, and no switched-out task is dirty |
| `FpContext.OnlyOwnWrites` | axcpu/src/riscv/context.rs:86-109 | between switches only the running task's register writes change its registers |
| `FpContext.ControlRegisterIff` | axcpu/src/riscv/macros.rs:106-140 | the control register survives if and only if the incoming task was saved before or the unit already holds its value, since clearing does not touch it |
| `FpContext.ControlRegisterLeaks` | axcpu/src/riscv/macros.rs:106-140 | a run in which a new task starts with another task's control register |
| `FpContext.FpUnit.constructor` | axcpu/src/riscv/context.rs:56-64 | starts cleared and initial |
| `FpContext.FpUnit.Switch` | axcpu/src/riscv/context.rs:86-109 | saves exactly when dirty and leaves the unit as specified, reporting the unreachable arm exactly when the incoming state is dirty |
| `BiMap.InsertPairs` | StarryOS/core/src/shm.rs:195-202 | inserting keeps the two maps inverse and leaves exactly the pairs that clash with neither side, and the new one |
| `BiMap.RemovePairs` | StarryOS/core/src/shm.rs:217-234 | removing by either side removes exactly that pair and keeps the maps inverse |
| `BiMap.LookupPairs` | StarryOS/core/src/shm.rs:206-214 | both lookups agree with the set of pairs |
| `BiMap.BiBTreeMap.constructor` | StarryOS/core/src/shm.rs:186-191 | starts empty |
| `BiMap.BiBTreeMap.Put` | StarryOS/core/src/shm.rs:195-202 | performs the insert on both maps |
| `BiMap.BiBTreeMap.TakeByKey` | StarryOS/core/src/shm.rs:217-224 | performs the removal and returns the value |
| `BiMap.BiBTreeMap.TakeByValue` | StarryOS/core/src/shm.rs:227-234 | performs the removal and returns the key |
| `ShmSpec.LeaveEffect` | StarryOS/core/src/shm.rs:159-165 | detaching from a segment that knows the process changes that segment only, and deletes it with its key when it was the last and marked |
| `ShmSpec.LeaveAllIff` | StarryOS/core/src/shm.rs:354-364 | leaving all listed segments trips the assertion if and only if one of them does not know the process; otherwise it detaches from each and deletes exactly the marked ones nobody else has |
| `ShmRuns.GetInv` | StarryOS/api/src/syscall/ipc/shm.rs:43-87 | creating or finding a segment keeps the invariant |
| `ShmRuns.AttachInv` | StarryOS/api/src/syscall/ipc/shm.rs:131-157 | attaching keeps it, even when the mapping fails |
| `ShmRuns.AttachTripsIff` | StarryOS/core/src/shm.rs:146-157 | in a run whose mappings succeeded an attach fails its look-up or its assertion if and only if the segment does not exist or is already in the process's table |
| `ShmRuns.DetachInv` | StarryOS/api/src/syscall/ipc/shm.rs:199-234 | detaching never trips its assertion and keeps it |
| `ShmRuns.ExitInv` | StarryOS/core/src/shm.rs:354-367 | a completed exit keeps it |
| `ShmRuns.StepInv` | StarryOS/core/src/shm.rs:259-367 | every step keeps: keys and tables are inverse maps, counts equal attachments, whoever a segment has attached has it in its table at that address |
| `ShmRuns.RunInv` | StarryOS/core/src/shm.rs:259-367 | that holds in every run, whatever mappings fail |
| `ShmRuns.ExitTripsIff` | StarryOS/core/src/shm.rs:354-367 | in every run exit trips the assertion if and only if the process has a table entry for an existing segment that does not have it attached |
| `ShmRuns.ExitEffect` | StarryOS/core/src/shm.rs:354-367 | a completed exit removes the process everywhere, leaves all others alone, and deletes with their keys exactly the marked segments only it had |
| `ShmRuns.PairedRunsCoupled` | StarryOS/core/src/shm.rs:317-337 | when every mapping succeeds each table entry is an attachment |
| `ShmRuns.TablesAgree` | StarryOS/core/src/shm.rs:140-165 | when every mapping succeeds tables and segments agree on who has what where, counts equal attachments, and exit never trips |
| `ShmRuns.FailedMappingTrips` | StarryOS/api/src/syscall/ipc/shm.rs:131-156 | a run of two calls with one failed mapping after which exit trips the assertion |
| `ShmEffects.GetEffect` | StarryOS/api/src/syscall/ipc/shm.rs:43-87 | a get is refused, finds the segment its key names if size and flags agree, or creates an empty one under a fresh id; only creating changes anything, and no other key |
| `ShmEffects.SameKeySameSegment` | StarryOS/api/src/syscall/ipc/shm.rs:63-72 | over every run, once a get has returned a segment every later get with that key, size and flags returns it again for as long as it exists |
| `ShmEffects.AttachEffect` | StarryOS/api/src/syscall/ipc/shm.rs:89-157 | an attach records the address in the process's table and, if mapped, in the segment, counted once, and touches no other segment, table or key |
| `ShmEffects.DetachUndoesAttach` | StarryOS/api/src/syscall/ipc/shm.rs:199-234 | a detach after an attach restores the state before it, unless the segment was marked and is nobody else's, which deletes it |
| `ShmEffects.MarkEffect` | StarryOS/api/src/syscall/ipc/shm.rs:175-176 | marking for removal marks that segment and deletes nothing |
| `ShmImpl.ShmManager.constructor` | StarryOS/core/src/shm.rs:260-266 | starts empty |
| `ShmImpl.ShmManager.Get` | StarryOS/api/src/syscall/ipc/shm.rs:43-87 | finds or creates as specified |
| `ShmImpl.ShmManager.InsertShmidVaddr` | StarryOS/core/src/shm.rs:319-325 | records the pair in the process's table |
| `ShmImpl.ShmManager.AttachProcess` | StarryOS/api/src/syscall/ipc/shm.rs:131-157 | performs the attach step, or reports the failed look-up or assertion |
| `ShmImpl.ShmManager.RemoveShmaddr` | StarryOS/core/src/shm.rs:328-337 | drops the pair and an emptied table |
| `ShmImpl.ShmManager.DetachSegment` | StarryOS/core/src/shm.rs:345-364 | detaches from one segment, reporting the failed assertion |
| `ShmImpl.ShmManager.DetachAddress` | StarryOS/api/src/syscall/ipc/shm.rs:199-234 | performs the detach step and says whether the address was attached |
| `ShmImpl.ShmManager.ShmidsOf` | StarryOS/core/src/shm.rs:288-295 | lists each attached segment once |
| `ShmImpl.ShmManager.ClearProcShm` | StarryOS/core/src/shm.rs:354-367 | the loop performs the exit step, or reports the failed assertion |
| `IoVectors.TotalLength` | StarryOS/api/src/io.rs:23-36 | accepts at most 1024 vectors of non-negative length and adds them up modulo the word size |
| `IoVectors.IoVectorBufIo.constructor` | StarryOS/api/src/io.rs:76-82 | starts at the beginning of the flat stream |
| `IoVectors.IoVectorBufIo.Remaining` | StarryOS/api/src/io.rs:129-133 | the reported rest is exact if and only if the unread total is below the word size |
| `IoVectors.IoVectorBufIo.SkipEmpty` | StarryOS/api/src/io.rs:92-102 | skips used-up vectors without consuming anything |
| `IoVectors.IoVectorBufIo.Read` | StarryOS/api/src/io.rs:105-126 | delivers the next min(length, rest) bytes of the flat stream; faults if and only if one of them is unmapped; what was consumed is in the buffer and what is left is a suffix, also after a fault |
| `IoVectors.IoVectorBufIo.CopyIn` | StarryOS/api/src/io.rs:118-120 | copies a chunk or fails without a trace |
| `IoVectors.IoVectorBufIo.Write` | StarryOS/api/src/io.rs:135-157 | performs the same stores in the same order as storing one by one along the flat addresses; faults if and only if one is unmapped |
| `IoVectors.IoVectorBufIo.CopyOut` | StarryOS/api/src/io.rs:148-151 | stores a chunk or fails without a trace |
| `IoVectors.IoVectorBufIo.Advance` | StarryOS/api/src/io.rs:121-123 | moves the cursor by part of a vector and drops as many flat addresses |
| `IoVectors.ReadAll` | StarryOS/api/src/io.rs:105-126 | a sequence of reads with any buffer sizes delivers the prefix of the flat stream their total asks for and leaves the rest, however it is cut, and faults if and only if a byte of that prefix is unmapped |
| `ClockRegs.WriteElsewhere` | drivers/rk3588-clk/src/lib.rs:284-286 | a masked write leaves every disjoint field alone |
| `ClockRegs.WriteField` | drivers/rk3588-clk/src/lib.rs:330-339 | a masked write sets its own field to the value given |
| `Clocks.DisjointFields` | drivers/rk3588-clk/src/lib.rs:170-265 | fields of different clocks never share a bit |
| `Clocks.ProgramSelf` | drivers/rk3588-clk/src/lib.rs:267-436 | programming a clock makes it read the rate programmed |
| `Clocks.ProgramOthers` | drivers/rk3588-clk/src/lib.rs:267-436 | and leaves every other clock's rate alone |
| `Clocks.ProgramBits` | drivers/rk3588-clk/src/lib.rs:267-436 | which register and bits each clock's selector and divider end up in, and that no other bit changes |
| `Clocks.SelectorRates` | drivers/rk3588-clk/src/lib.rs:170-265 | the rate each selector stands for |
| `Clocks.BestDivider` | drivers/rk3588-clk/src/lib.rs:302-328 | the nested search returns the largest achievable rate not above the request, and fails if and only if there is none |
| `Clocks.FixedIsBest` | drivers/rk3588-clk/src/lib.rs:271-289 | a clock without divider takes its fastest parent not above the request, or its slowest when all are above |
| `Clocks.GatesDistinct` | drivers/rk3588-clk/src/lib.rs:438-535 | no two gates share a bit |
| `Clocks.GateByBit` | drivers/rk3588-clk/src/lib.rs:438-535 | which gates exist and which bit of which register each one is |
| `Clocks.GateBit` | drivers/rk3588-clk/src/lib.rs:438-617 | switching on clears the gate's bit, switching off sets it |
| `Clocks.SetGateEffect` | drivers/rk3588-clk/src/lib.rs:438-617 | switching a gate sets its status and no other's |
| `Clocks.LastCallWins` | drivers/rk3588-clk/src/lib.rs:170-747 | after any sequence of calls a clock reads what its last successful set reported and a gate what its last switch made it |
| `Clocks.Cru.constructor` | drivers/rk3588-clk/src/lib.rs:56-62 | starts with the registers as found |
| `Clocks.Cru.SetClock` | drivers/rk3588-clk/src/lib.rs:267-436 | reports the best rate, which the clock then reads; a failure writes nothing and means nothing achievable is low enough |
| `Clocks.Cru.SwitchGate` | drivers/rk3588-clk/src/lib.rs:438-617 | switches exactly the named gate, or refuses an unknown one |
| `DmaTable.Find` | StarryOS/core/src/task.rs:396-401 | the first record for an address |
| `DmaTable.StepConserved` | StarryOS/core/src/task.rs:368-463 | every step keeps each recorded allocation in exactly one of table, in flight and freed |
| `DmaTable.RunConserved` | StarryOS/core/src/task.rs:368-463 | that holds under every interleaving |
| `DmaTable.FreedOnce` | StarryOS/core/src/task.rs:393-463 | no allocation is ever freed twice, and after the process is dropped each was freed exactly once |
| `DmaTable.ProcessDma.constructor` | StarryOS/core/src/task.rs:308-308 | starts empty |
| `DmaTable.ProcessDma.RecordAllocation` | StarryOS/core/src/task.rs:368-381 | adds the record at the end |
| `DmaTable.ProcessDma.TakeRecord` | StarryOS/core/src/task.rs:394-403 | takes the first record for an address out, or nothing |
| `DmaTable.ProcessDma.Release` | StarryOS/core/src/task.rs:393-420 | frees on a successful unmap, puts the record back otherwise, and conserves the records |
| `DmaTable.ProcessDma.DropAll` | StarryOS/core/src/task.rs:433-463 | frees everything left, in order |
| `Stats.RankIsCeiling` | demo/npu_benchmark/src/benchmark_stats.c:12-18 | the rank is in range and is the exact rounded-up rank, and the products it is computed from stay below the sample count and ten thousand |
| `Stats.SortedPercentile` | demo/npu_benchmark/src/benchmark_stats.c:46-48 | the value at that rank is the least one that p percent of the samples do not exceed |
| `Stats.CountPermuted` | demo/npu_benchmark/src/benchmark_stats.c:39-40 | counting is independent of order |
| `Stats.SortCopy` | demo/npu_benchmark/src/benchmark_stats.c:35-40 | a sorted permutation of the samples |
| `Stats.ComputeRanks` | demo/npu_benchmark/src/benchmark_stats.c:35-48 | min, percentiles and max of the samples as given, in any order, and ordered among themselves |
| `Stats.CountLoop` | demo/npu_benchmark/src/benchmark_stats.c:50-56 | the loop's total and its count of samples above one and a half times the median |
| `Stats.ComputeStats` | demo/npu_benchmark/src/benchmark_stats.c:20-67 | nothing exactly when there are no samples; otherwise those ranks, at most half the samples above one and a half times the median, the exact number of them, a mean that times the sample count is the sum and lies between min and max, and ratios that times the median are p95 and p99 and are ordered from 1 up, or 0 when the median is 0 |

## Left out

Assumptions and parts of modelled code that the models do not capture:

- CompletedCount: adds lane cursors without a bound; only the target's sum of lane sizes wraps at 32 bits.
- HarvestCompletion: requires a non-zero interrupt status, which is what the interrupt path reports; merging statuses of several cores is not modelled.
- DispatchIdleCores: the hardware's answer to a dispatch is a parameter; register programming and tracing are not modelled.
- DropGuardInv: takes a guard's test and removal as one step, and the two reads of the test as one; what the gap between test and removal costs is stated by RemovalSafeIff.
- EntriesInUse: relies on the same one-step drop.
- WaitOn: takes an entry's queue as a wait queue object for the duration of the call and puts it back.
- WaitIf: a waiter that times out stays queued, as in the source, so the theorems speak of queued waiters; the wake-up itself is not modelled.
- RunInv: private futex tables are kept in the same directory as shared ones but are never counted or swept.
- TimelyRunsAreOrdered: assumes the clock is read no later than the deadline at the push; AtomicIsTimely shows one-step pushes meet it.
- Poll: requires a monotonic clock; widths of the nanosecond counters are not modelled, nor whose task a renewed alarm names.
- Boot: the unit is taken as cleared when the first task starts, and no task is created with the unit off.
- RegistersSurvive: a fresh user context is entered with the unit marked initial and not cleared (axcpu/src/riscv/uspace.rs:34); this is not a step, so such entries are taken to happen while the unit is initial.
- SavedOut: the save and restore code is taken as moving all 32 registers and the control register.
- AttachInv: a system call is one step, the address found is free among the process's attached segments, a failed look-up or assertion ends the call, and the 16-bit attach counter is unbounded; IPC_SET, which overwrites the counter, is not a step.
- PrepareInputs: asks that the elements stay inside their slot, as writing elsewhere is writing outside the buffer; InputFitsIff says for which shapes they do.
- PrepareWeights: asks the same; WeightFitsIff says for which shapes.
- WeightReadBack: one way for the benchmark's own values, which may agree where places are shared; HoldsEveryMatrixIff is exact over all values.
- Read: the vector array is read once and addresses do not wrap around the word size.
- CopyOut: a faulting chunk stores nothing.
- InputValue: the products of matrix ids are unbounded integers; the id itself is cut to 32 bits and may be negative.
- PartialSumsExact: states that partial sums are small integers, not the rounding of float arithmetic.
- GenMatmulFp16: takes dimensions and addresses of the width their fields have, and the constants of the configuration fields as the packed words they make.
- ComputeStats: the mean and the ratios are exact quotients, not rounded floating-point ones, and the total is exact; running out of memory is not modelled.
- SortCopy: sorts by insertion, in place of the C library's sort.
- SwitchGate: merges the enable and disable calls; reading back through the status call is Open.

Parts of the repository not modelled:

- Interrupt handling, the GEM buffer pool, driver ioctl copying and trace buffers.
- `gen_matmul_int8`, whose register words differ only in constants.
- `mmc_set_clk` and `mmc_get_clk`, whose selector encodings disagree with each other.
- ELF loading, page faults, address spaces, user pointers, sockets and file systems.
- Asynchronous plumbing, memory ordering, and the internals of hash maps, heaps and reference counting.
- LoongArch unaligned access emulation, image and audio utilities, build scripts.
