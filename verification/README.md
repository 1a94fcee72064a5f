# Verified model of the amdkfd queue scheduler, events and allocators

This project models the parts of the Linux amdkfd driver that are state machines or
algorithms with an invariant behind them, and proves those invariants for all inputs and
all runs. Where the code does not meet a property, the model keeps the code, a lemma gives
a run or an input that shows it, and another gives the exact condition under which the
property holds.

* **HWS device queue manager and runlist builder.** `Queues`, `Scheduler` describe one
  lock-protected section of the driver per step; hardware and allocation outcomes are
  inputs of a step. `SchedulerInvariant`, `SchedulerSteps`, `SchedulerRuns` prove for every
  run, whatever fails, that the counters, flags, slots and buffers agree with the queues of
  the live processes. The runlist is built from the device's own list of processes, which
  need not name those processes once each: `SchedulerSound` says exactly which steps keep
  that list right and what a wrong one does to the runlist buffer, `SchedulerCallers` which
  failures the process queue manager has to be spared for that, and `SchedulerWitness` runs
  of the process queue manager in which they happen. `SchedulerDescriptors` is about the
  queue descriptors in memory, `SchedulerStatus` about what turns the scheduler on and off,
  what each step reports of the hardware's failures and what a hang leads to, `SchedulerCoherence` proves that the active runlist is the
  right one as long as nothing fails, `SchedulerMapping` that the hardware then has exactly
  the queues that each operation promises, `SchedulerOutcomes` what the remaining operations
  leave behind, and `SchedulerRoundTrips` says exactly when restore undoes evict and resume
  undoes suspend. `RunlistIb` sizes and fills the runlist buffer, and `RunlistShape` is
  about what it says, packet by packet.
  `DeviceQueueManager` is the object with the driver's fields and loops; each of its
  operations is proved to perform exactly the corresponding step. `SdmaSlots` draws the
  consequences for SDMA engines and queue descriptors, `SdmaDoorbells` those for doorbells, and `NoHws` covers queue creation
  without the hardware scheduler, in its two sections.
* **Events.** `EventSignals` is the protocol between GPU slot writes, interrupts with
  partial ids, creates and destroys, and the interrupt worker, slot read by slot read;
  `EventRaces` shows that its conditions are exact and how they fail. `EventSearch` holds the
  lookup and the two exhaustive searches, `EventWaits` waiters, auto-reset and restarted
  waits, and `EventLatches` says what becomes of each signal.
* **HIQ ring.** `KernelQueue` refines the ring to an unbounded log of dwords and the
  packets in it.
* **Allocators and mappings.** `GttSubAllocator`, `CuMask`.
* **Transformations.** `Migration` (batched page copies against page-by-page copies) and
  `Crat` (building and parsing the virtual CRAT of the CPUs).

`Basics` and `Arithmetic` hold what the modules share. `dafny verify dfyconfig.toml`
verifies everything.

Modelling decisions:

* A queue is active when it has a ring, an address and a non-zero percentage and is neither
  evicted nor suspended (`kfd/kfd_priv.h:534-538`).
* Every section that runs under the dqm lock is one step. Waiting for the debugger in a
  destroy drops the lock, so a destroy is up to three steps.
* A process is terminated only after its last reference is gone
  (`kfd/kfd_process.c:1137`), so no other operation lands on a terminating process.
* A registration is possible whenever both queue lists of the process are empty
  (`kfd/kfd_process_queue_manager.c:334-337`), listed or not, and a create whether or not
  the registration before it succeeded.
* Bitmaps and bit masks are sets of bit numbers; the process list and queue lists are
  sequences in list order; records are values replaced in the map that holds them.
* Return codes are kept wherever the code distinguishes them.

Findings about the code:

* A destroy that has unlinked its queue can still return -ENOMEM, and the process queue
  manager then neither unregisters the process nor frees the handle
  (`kfd/kfd_process_queue_manager.c:515`). The next create registers the process a second
  time, and the runlist overflows its buffer: `DoubleRegistrationOverflows` gives the run.
  `RunsSingleIff` shows that exactly such registrations list a process twice, `RunsNeverOverflow`
  that without them the packets always fit, and `DisciplineNeverOverflows` that it takes a
  destroy with such a return code.
* The process queue manager ignores a failed `register_process`
  (`kfd/kfd_process_queue_manager.c:334-337`). `FailedRegistrationStarves` gives a run that
  ends with an active queue that no runlist maps. `RunsSoundIff` gives the exact condition
  for the list to be right all along, and `DisciplineKeepsOrder` one in terms of return
  codes.
* Reserving or releasing the debug trap VMID unmaps all queues, and if the new scheduling
  resources are refused it returns without mapping them again
  (`kfd/kfd_device_queue_manager.c:2658-2673`). `RefusedResourcesStarve` gives the run and
  `TrapVmidCoheresIff` the exact condition.
* A queue restored from a checkpoint starts inactive (`kfd/kfd_mqd_manager_v9.c:413`) even
  if it is fit to run; an eviction and restore then activate it. `RestoreUndoesEvict` gives
  the exact condition under which the pair changes nothing.
* Without the hardware scheduler a create notes whether its process is evicted, drops the
  lock to allocate the descriptor, and links the queue by that note
  (`kfd/kfd_device_queue_manager.c:564`, `kfd/kfd_device_queue_manager.c:590-592`). An
  eviction in between misses the queue, and the restore counts it twice exactly if it is fit
  to run (`EvictionBetweenMiscounts`).
* An update that turns a queue on or off leaves its GWS mark as it was, whatever has been
  assigned since; only the next update brings the two together
  (`kfd/kfd_device_queue_manager.c:911-930`). `UpdateRewrites` says exactly what an update
  leaves.
* A create publishes an event's id in the id table before it clears the slot
  (`kfd/kfd_events.c:109-125`), and the interrupt worker takes only the RCU read lock. When a
  lookup for another event meets a stale signaled slot whose id is under creation, whether
  it reads the slot before or after the id is published, the new event takes the other
  one's interrupt, and the other stays signaled with no interrupt to come:
  `CreateMetStrands` gives both runs. `StepSafeIff` gives the exact condition: only the step
  by which a lookup meets such a slot does harm, and only with no interrupt to spare and
  none queued that leads to a scan. Creating events over slots that are not signaled and
  that the GPU does not write meanwhile is always safe (`CleanSlotsNeverStrand`).
* A worker that still has a destroyed event acknowledges the slot of the event that has
  taken over its id: between lookup and acknowledgement, and in the walk of the id table
  also between fetching the event and reading its slot (`kfd/kfd_events.c:758-763`). A signal
  written in that moment is lost for good (`StaleWriteIsLost`, and `StaleFetchLoses` for a
  run from the initial state); without such a write every signal is set (`EverySignalSet`).
* A concurrent reset after the last turn of a restarted wait undoes the signal it gave
  back; `RestartLosesNothing` gives the exact condition.
* Rolling back the HIQ ring with 8-byte doorbells is right exactly when the ring size
  divides 2^32 (`RollbackCongruent`), and a drained ring accepts a packet of n dwords
  wherever its pointers stand exactly when 2n is less than the ring size
  (`DrainedAccepts`).
* Dies of one node read disjoint CU mask bits exactly when the part has no WGPs or the node
  has one die (`DiesDisjoint`).
* CRAT link entries carry NUMA ids (`kfd/kfd_crat.c:1728`) while the devices are numbered by
  the nodes with an APIC id (`kfd/kfd_crat.c:1796`, `kfd/kfd_crat.c:1837`).
  `LinksRightIffContiguous` shows that every device gets its own node's links exactly when
  no node with an APIC id comes behind one without.

## Model

| member | source | states |
|---|---|---|
| RunlistIb.SizeIsExact | kfd/kfd_packet_manager.c:41-86 | the size computed from the counters is exactly the size of the map-process, map-queues and chain packets if and only if the active count is the number of active queues the list walk meets |
| RunlistIb.SizeGap | kfd/kfd_packet_manager.c:41-86 | for any lists and counters, the packets miss the computed size by one map-queues packet per active queue the walk meets beyond those counted |
| RunlistIb.FillRunlistIb | kfd/kfd_packet_manager.c:123-231 | unless the walk meets more active queues than counted, the buffer ends up holding exactly the packets and blanks behind them, with no overflow warning and no not-enough-space error; it is full if and only if the count is right |
| RunlistIb.CreateRunlistIb | kfd/kfd_packet_manager.c:88-231 | allocating by the counters and filling by the lists gives the encoded runlist, with dwords left over if and only if the count is not what the walk meets |
| RunlistIb.MappedInRunlist | kfd/kfd_packet_manager.c:123-231 | a built runlist maps exactly the active queues of the listed processes, in list order |
| RunlistShape.RunlistInBlocks | kfd/kfd_packet_manager.c:148-210 | every runlist introduces the listed processes in order, and every queue follows its own process, marked static exactly if that is under a debug queue |
| RunlistShape.CountedAs | kfd/kfd_device_queue_manager.c:313-326 | the counters are over active queues, those on compute and debug rings, and those with GWS |
| RunlistShape.ChainClosesList | kfd/kfd_packet_manager.c:41-86 | if the counters agree with the walk, a chain packet occurs exactly if the walk meets more processes than a quantum holds, more active compute queues than there are or more than one user of GWS, and then last, with the number of dwords of the whole runlist |
| RunlistShape.RunsSayIt | kfd/kfd_packet_manager.c:216-224 | over every run in order, all of that holds of the runlist for any reachable state |
| SchedulerInvariant.WalkSums | kfd/kfd_device_queue_manager.c:313-341 | over any evict, restore, suspend or resume walk each counter moves by exactly the change in the number of queues it counts |
| SchedulerInvariant.EvictKeeps | kfd/kfd_device_queue_manager.c:1096-1153 | nested eviction keeps the counters, the eviction flags and the activity invariant |
| SchedulerInvariant.RestoreKeeps | kfd/kfd_device_queue_manager.c:1236-1297 | nested restore keeps them too and never counts a queue twice |
| SchedulerInvariant.SuspendResumeKeeps | kfd/kfd_device_queue_manager.c:968-1044 | suspending or resuming any selection of queues keeps the invariant |
| SchedulerInvariant.UpdateKeeps | kfd/kfd_device_queue_manager.c:905-935 | recomputing a queue's activity and GWS use keeps all counters equal to what they count |
| SchedulerSteps.AllocSdmaUndone | kfd/kfd_device_queue_manager.c:1487-1569 | freeing an SDMA slot undoes its allocation, by search or by restored id |
| SchedulerSteps.ReserveUndone | kfd/kfd_device_queue_manager.c:1807-1829 | a failed reservation changes nothing and a successful one can be undone completely |
| SchedulerSteps.CreateAllOrNothing | kfd/kfd_device_queue_manager.c:1792-1897 | whichever way a create fails, slots, doorbells, lists and counters end as they began |
| SchedulerSteps.CreateKeeps | kfd/kfd_device_queue_manager.c:1792-1897 | a successful create keeps the list invariant |
| SchedulerSteps.DestroyKeeps | kfd/kfd_device_queue_manager.c:2110-2147 | unlinking a queue and giving its slot and doorbell back keeps the list invariant |
| SchedulerSteps.TerminateCounts | kfd/kfd_device_queue_manager.c:2351-2384 | the two termination loops take exactly the process's own queues out of every counter and slot bitmap |
| SchedulerSteps.TerminateKeeps | kfd/kfd_device_queue_manager.c:2335-2397 | after termination the counters agree with the remaining lists |
| SchedulerRoundTrips.RestoreUndoesEvict | kfd/kfd_device_queue_manager.c:1096-1153 | restoring gives back lists and counters from before the eviction if and only if every queue is active exactly when it is fit to run |
| SchedulerRoundTrips.ResumeUndoesSuspend | kfd/kfd_device_queue_manager.c:968-1044 | resuming a selection gives back lists and counters if and only if no selected queue was suspended before and each was refused or active exactly when fit to run |
| SchedulerRuns.StepKeepsInv | kfd/kfd_device_queue_manager.c:857-2424 | every one of the 28 steps keeps the whole invariant, for every hardware and allocation outcome, registered or not |
| SchedulerRuns.RunsKeepInv | kfd/kfd_device_queue_manager.c:313-341 | in every state of every run each counter equals the number of queues of live processes it stands for, evicted or suspended queues are inactive, and eviction flags follow the nesting count |
| SchedulerRuns.RunsNeverWarn | kfd/kfd_packet_manager.c:88-121 | over every run, with every failure, the builder is never entered with a buffer still allocated |
| SchedulerRuns.RunsOwnOneBuffer | kfd/kfd_packet_manager.c:311-351 | over every run, with hangs, stops and restarts, at most one buffer is unfreed, it is the allocated one, and it exists only with an active runlist |
| SchedulerRuns.RunsFreeOnce | kfd/kfd_packet_manager.c:450-458 | over every run a buffer that was freed is never in use again, so no buffer is freed twice |
| SchedulerRuns.RunsNeverDestroySuspended | kfd/kfd_device_queue_manager.c:2051-2074 | in every interleaving around the wait, a suspended queue is unlinked only by a destroy that found the debug trap disabled |
| SchedulerDescriptors.StepCarries | kfd/kfd_device_queue_manager.c:857-2403 | every step but an update carries each queue over with its id, kind, slot, doorbell, descriptor and GWS mark, and changes its activity only to its fitness to run |
| SchedulerDescriptors.UpdateRewrites | kfd/kfd_device_queue_manager.c:878-930 | an update rewrites its own descriptor exactly if its unmap succeeds, and then the queue is active if and only if it has a ring, an address and a percentage and is neither evicted nor suspended, its GWS mark follows the assignment unless its activity changed, and nothing else changes |
| SchedulerDescriptors.RunsRewriteUnmapped | kfd/kfd_device_queue_manager.c:878-911 | over every run, a descriptor differs from one state to the next only by an update of that queue whose unmap succeeded, with the scheduler stopped or no runlist active when it was rewritten |
| SchedulerStatus.TimeoutHangs | kfd/kfd_device_queue_manager.c:141-158 | whenever a step unmaps a busy scheduler and the preemption times out, the scheduler hangs, keeps its runlist, and the step reports the timeout unless its caller ignores it |
| SchedulerStatus.HangStays | kfd/kfd_device_queue_manager.c:1961-1965 | until a start that goes through, a hung scheduler stays hung, nothing is built or sent, and a step that would need the hardware fails as an I/O error |
| SchedulerStatus.RunsFreezeAfterTimeout | kfd/kfd_device_queue_manager.c:1985-2004 | the same over every run from any step whose preemption timed out |
| SchedulerStatus.EtimeHangs | kfd/kfd_device_queue_manager.c:1980-2004 | whatever the step and the state, a step that returns -ETIME leaves the scheduler hung |
| SchedulerStatus.StepReports | kfd/kfd_device_queue_manager.c:1926-2049 | every step that unmaps and maps reports success while stopped, an I/O error under a hang or a reset, no memory if the unmap cannot be sent, and otherwise success with a runlist exactly if there is anything to map, or the failure of the map with neither runlist nor buffer left |
| SchedulerStatus.StepControls | kfd/kfd_device_queue_manager.c:1641-1740 | only starts and stops turn the scheduler on and off, and only resets and starts change the reset mark |
| SchedulerStatus.StartControls | kfd/kfd_device_queue_manager.c:1641-1709 | a start runs the scheduler and ends a reset exactly if the resources were accepted, and otherwise changes no status |
| SchedulerStatus.StopControls | kfd/kfd_device_queue_manager.c:1711-1740 | a stop turns the scheduler off whatever the hardware answers and changes no other status |
| SchedulerStatus.TrapVmidControls | kfd/kfd_device_queue_manager.c:2638-2728 | the trap VMID changes hands exactly if it was not there already and the queues could be unmapped |
| SchedulerSound.RunsSingleIff | kfd/kfd_process_queue_manager.c:334-337 | over every run, no process was ever listed twice if and only if every successful registration found its process not listed |
| SchedulerSound.RunsNeverOverflow | kfd/kfd_packet_manager.c:31-86 | over every run without such a registration, the packets fit the buffer size, so the overflow warning is not reached |
| SchedulerSound.StepSoundIff | kfd/kfd_device_queue_manager.c:1299-1370 | a step keeps every process with queues listed, once, if and only if a successful registration finds the process not listed and a successful create finds it listed |
| SchedulerSound.RunsSoundIff | kfd/kfd_process_queue_manager.c:334-337 | over every run, the list was right all along if and only if every step was such |
| SchedulerSound.RunsFillGap | kfd/kfd_packet_manager.c:41-231 | in every reachable state, the packets miss the computed size by one map-queues packet per active queue listed too often or not at all |
| SchedulerSound.RunsFillExactly | kfd/kfd_packet_manager.c:41-231 | as long as every step was in order, the computed size is exactly the size of what the list walk writes |
| SchedulerCallers.DisciplineNeverOverflows | kfd/kfd_process_queue_manager.c:488-535 | in every run of the process queue manager in which no destroy that unlinked its queue returned anything but success, -ETIME or -EIO, no process is ever listed twice and the packets fit |
| SchedulerCallers.DisciplineKeepsOrder | kfd/kfd_process_queue_manager.c:334-337 | if no registration ran out of memory either, every step was in order |
| SchedulerWitness.DoubleRegistrationOverflows | kfd/kfd_process_queue_manager.c:508-517 | a run of the process queue manager that ends with the packets exceeding the buffer size by a map-queues packet |
| SchedulerWitness.FailedRegistrationStarves | kfd/kfd_process_queue_manager.c:334-337 | a run that ends with an active queue, a running scheduler and no runlist after a failed registration |
| SchedulerWitness.RefusedResourcesStarve | kfd/kfd_device_queue_manager.c:2638-2680 | a run in which every map and unmap succeeded and the scheduler ends with an active queue and no runlist |
| SchedulerCoherence.ExecuteCoheres | kfd/kfd_device_queue_manager.c:1926-2049 | whatever happened before, an execute that succeeds on a running scheduler leaves a runlist of exactly the active queues |
| SchedulerCoherence.TrapVmidCoheresIff | kfd/kfd_device_queue_manager.c:2638-2728 | with nothing else failing, moving the trap VMID keeps coherence if and only if the resources are accepted, the scheduler is stopped or nothing is active |
| SchedulerCoherence.StepCoheres | kfd/kfd_device_queue_manager.c:857-2728 | every step in order in which no map, unmap or resource packet fails keeps runlist coherence |
| SchedulerCoherence.StartRecovers | kfd/kfd_device_queue_manager.c:1641-1709 | a successful start makes the scheduler coherent from any state with a right process list, after any failures |
| SchedulerCoherence.RunsAreCoherent | kfd/kfd_device_queue_manager.c:1926-2049 | over every run in order, from initialisation or any successful start on, while no map, unmap or resource packet fails, an active runlist maps exactly the active queues and a running scheduler with an active queue has one |
| SchedulerMapping.RunsMapExactly | kfd/kfd_device_queue_manager.c:1926-2049 | over every run in order, while nothing fails, the hardware has a live queue if and only if the scheduler runs and the queue is active |
| SchedulerMapping.UpdateMaps | kfd/kfd_device_queue_manager.c:857-958 | after an update the queue is mapped if and only if it is fully configured and neither evicted nor suspended |
| SchedulerMapping.EvictUnmaps | kfd/kfd_device_queue_manager.c:1096-1153 | after an eviction no queue of the process is mapped |
| SchedulerMapping.RestoreMaps | kfd/kfd_device_queue_manager.c:1236-1297 | the restore that ends an eviction maps exactly the queues that nothing else holds back |
| SchedulerMapping.SuspendUnmaps | kfd/kfd_device_queue_manager.c:968-1004 | a suspend unmaps exactly the selected queues that are neither new nor being destroyed |
| SchedulerMapping.ResumeMaps | kfd/kfd_device_queue_manager.c:1014-1044 | a resume maps exactly the selected suspended queues that nothing else holds back |
| SchedulerMapping.CreateGives | kfd/kfd_device_queue_manager.c:1792-1897 | a successful create links what was asked for, with the requested or the lowest free slot and doorbell, active exactly if it is new, fully configured and its process not evicted |
| SchedulerMapping.ReserveFails | kfd/kfd_device_queue_manager.c:347-410 | which reservations fail and how: no slot left, a requested slot taken, a wrong or taken doorbell, no doorbell left |
| SchedulerMapping.CreateFails | kfd/kfd_device_queue_manager.c:1799-1829 | the limit, the reservation and the descriptor's memory refuse a create in that order, each with its code |
| SchedulerMapping.CreateMaps | kfd/kfd_device_queue_manager.c:1792-1897 | and mapped exactly then |
| SchedulerMapping.DestroyUnmaps | kfd/kfd_device_queue_manager.c:2110-2147 | a destroyed queue is gone and not mapped |
| SchedulerOutcomes.RunsStayWithinLimit | kfd/kfd_device_queue_manager.c:1799-1804 | over every run the device never has more queues than its limit |
| SchedulerOutcomes.StopTakesBack | kfd/kfd_device_queue_manager.c:1711-1740 | a stop takes the queues back unless the hardware hangs, and leaves no buffer in any case |
| SchedulerOutcomes.ResetTakesBack | kfd/kfd_device_queue_manager.c:2020-2033 | the RAS reset takes the queues back and maps nothing |
| SchedulerOutcomes.MarksSet | kfd/kfd_device_queue_manager.c:2051-2074 | the steps between lock sections change the one field of the one queue they are for |
| SchedulerOutcomes.ProcessSteps | kfd/kfd_device_queue_manager.c:1299-1370 | registering and unregistering report failed memory and missing processes and change the list by one entry |
| SchedulerOutcomes.SuspendClearsNew | kfd/kfd_device_queue_manager.c:2985-3008 | a suspend makes the selected queues old exactly if it was asked to and succeeded |
| SchedulerOutcomes.TimeoutResetsWaves | kfd/kfd_device_queue_manager.c:2120-2138 | a destroy marks the process for a wave reset exactly if its unmap timed out |
| SchedulerOutcomes.TerminationResetsWaves | kfd/kfd_device_queue_manager.c:2386-2400 | a termination resets the waves unless the scheduler hangs |
| SchedulerOutcomes.KernelQueueMaps | kfd/kfd_device_queue_manager.c:1742-1770 | a debug queue puts its process under a debugger and is mapped |
| SchedulerOutcomes.RemovedKernelUnmaps | kfd/kfd_device_queue_manager.c:1772-1790 | its removal undoes both |
| SchedulerOutcomes.EvictionsNest | kfd/kfd_device_queue_manager.c:1096-1297 | each eviction adds one to the count and each restore takes one off |
| SchedulerOutcomes.InnerOnlyCounts | kfd/kfd_device_queue_manager.c:1096-1297 | an inner eviction or restore, or one of a process without a VM on the device, only counts |
| DeviceQueueManager.DeviceQueueManager.SendRunlistIb | kfd/kfd_packet_manager.c:311-351 | performs the send step on every failure path, and an allocated buffer holds the encoded runlist with blanks behind it |
| DeviceQueueManager.DeviceQueueManager.ExecuteQueues | kfd/kfd_device_queue_manager.c:2035-2049 | performs the execute step |
| DeviceQueueManager.DeviceQueueManager.RegisterProcess | kfd/kfd_device_queue_manager.c:1299-1336 | performs the register step, failing or not, listed or not, and keeps the object valid if and only if it does not list a process twice |
| DeviceQueueManager.DeviceQueueManager.UnregisterProcess | kfd/kfd_device_queue_manager.c:1338-1370 | performs the unregister step, found or not |
| DeviceQueueManager.DeviceQueueManager.EvictProcessQueues | kfd/kfd_device_queue_manager.c:1096-1153 | the loop and the nesting count perform the evict step and keep the invariant |
| DeviceQueueManager.DeviceQueueManager.RestoreProcessQueues | kfd/kfd_device_queue_manager.c:1236-1297 | performs the restore step and keeps the invariant |
| DeviceQueueManager.DeviceQueueManager.SuspendQueues | kfd/kfd_device_queue_manager.c:2923-3012 | performs the suspend step and reports the count, the ids marked valid and the ids marked failed exactly |
| DeviceQueueManager.DeviceQueueManager.ResumeQueues | kfd/kfd_device_queue_manager.c:2818-2921 | performs the resume step and reports the count, the ids marked valid and the ids marked failed exactly |
| DeviceQueueManager.DeviceQueueManager.UpdateQueueProperties | kfd/kfd_device_queue_manager.c:857-958 | performs the update step and keeps the invariant |
| DeviceQueueManager.DeviceQueueManager.CreateUserQueue | kfd/kfd_device_queue_manager.c:1792-1897 | performs the create step with all its rollbacks, registered or not, and keeps the invariant |
| DeviceQueueManager.DeviceQueueManager.DestroyUserQueue | kfd/kfd_device_queue_manager.c:2076-2168 | performs the first destroy step: busy, waiting, or unlinked |
| DeviceQueueManager.DeviceQueueManager.FinishDestroy | kfd/kfd_device_queue_manager.c:2076-2168 | performs the destroy step after the wait |
| DeviceQueueManager.DeviceQueueManager.AddKernelQueue | kfd/kfd_device_queue_manager.c:1742-1770 | performs the kernel queue creation step, registered or not |
| DeviceQueueManager.DeviceQueueManager.RemoveKernelQueue | kfd/kfd_device_queue_manager.c:1772-1790 | performs the kernel queue destruction step |
| DeviceQueueManager.DeviceQueueManager.TerminateProcess | kfd/kfd_device_queue_manager.c:2335-2403 | the three loops perform the terminate step and keep the invariant |
| DeviceQueueManager.DeviceQueueManager.StartScheduler | kfd/kfd_device_queue_manager.c:1641-1709 | performs the start step, failed or not |
| DeviceQueueManager.DeviceQueueManager.StopScheduler | kfd/kfd_device_queue_manager.c:1711-1740 | performs the stop step |
| DeviceQueueManager.DeviceQueueManager.SetTrapVmid | kfd/kfd_device_queue_manager.c:2638-2728 | performs the trap VMID step with each of its early returns |
| SdmaSlots.SplitEngines | kfd/kfd_device.c:1352-1366 | every engine is PCIe or XGMI, and XGMI gets none before PCIe has two |
| SdmaSlots.EnginesDistinct | kfd/kfd_device_queue_manager.c:1487-1569 | two live SDMA queues never share engine and queue |
| SdmaSlots.RunsNeverAliasSdma | kfd/kfd_device_queue_manager.c:108-138 | over every run, distinct live SDMA queues have distinct engine queues and disjoint descriptors |
| SdmaSlots.RunsStayInTrunk | kfd/kfd_mqd_manager.c:64-89 | over every run, a live queue's slot is never reserved, never also free, and its descriptor lies inside the trunk |
| SdmaDoorbells.RunsNeverShareSdmaDoorbell | kfd/kfd_device_queue_manager.c:361-387 | over every run on SOC15, live SDMA queues have different doorbells, each in its engine's window, provided the windows are apart |
| SdmaDoorbells.RunsNeverShareDoorbell | kfd/kfd_device_queue_manager.c:347-410 | over every run, live queues of one process never share a doorbell, on SOC15 provided the windows are apart and withheld from compute queues |
| NoHws.NoHwsManager.AllocateVmid | kfd/kfd_device_queue_manager.c:446-494 | takes the lowest free VMID, or fails exactly when there is none |
| NoHws.NoHwsManager.AllocateHqd | kfd/kfd_device_queue_manager.c:656-688 | takes the lowest descriptor of the first enabled pipe with one in round-robin order, and is busy only when no enabled pipe has any |
| NoHws.NoHwsManager.BeginCreate | kfd/kfd_device_queue_manager.c:535-590 | the section before the lock is dropped: at the limit, without a VMID or without a descriptor, slot or doorbell it fails, each with its code, and leaves everything as it was; otherwise it takes exactly the reserved resources and a VMID |
| NoHws.NoHwsManager.FinishCreate | kfd/kfd_device_queue_manager.c:591-654 | the section after it, from whatever state others left: the queue is linked and counted, or exactly what it had reserved is given back |
| NoHws.NoHwsManager.CreateQueue | kfd/kfd_device_queue_manager.c:535-654 | with nothing in between: every failure with its code, leaving everything as it was, or exactly the new queue |
| NoHws.EvictionBetweenMiscounts | kfd/kfd_device_queue_manager.c:564-592 | for all lists, if the process is evicted between the two sections, the next restore moves the active count by one more than the active queues if and only if the queue is fit to run |
| EventSignals.StepKeeps | kfd/kfd_events.c:94-185 | every harmless step keeps the interrupts sufficient: a slot write, an interrupt, each of the three steps of a create, a destroy, each micro-step of the worker |
| EventSignals.EnoughInterrupts | kfd/kfd_events.c:145-185 | over every run of harmless steps, interrupts queued or to be raised are at least as many as signaled events, or one of them leads to a scan |
| EventSignals.NothingStranded | kfd/kfd_events.c:719-780 | over every run of harmless steps, no event is left signaled with no interrupt to come |
| EventSignals.CleanSlotsNeverStrand | kfd/kfd_events.c:94-128 | over every run that creates events only over slots that are not signaled and that the GPU does not write meanwhile, all steps are harmless and nothing is stranded |
| EventSignals.EverySignalSet | kfd/kfd_events.c:703-780 | over every harmless run without a write while the worker has the event's destroyed predecessor, once no interrupt is left every event the GPU signaled has been set and acknowledged |
| EventRaces.StepSafeIff | kfd/kfd_events.c:94-185 | from every state that satisfies the invariant, a step is harmless if and only if no continuation by harmless steps strands an event |
| EventRaces.CreateMetStrands | kfd/kfd_events.c:109-125 | runs from the initial state in which a lookup meets a stale slot under creation, read before or after the id is published, and another event is stranded |
| EventRaces.StaleWriteIsLost | kfd/kfd_events.c:703-763 | a write while the worker has the destroyed predecessor of the event, fetched or held, is lost: in every continuation without another write or a destroy the event is never set |
| EventRaces.StaleFetchLoses | kfd/kfd_events.c:754-764 | a run of harmless steps from the initial state in which the walk of the id table loses a signal that way |
| EventSearch.LookupByPartialId | kfd/kfd_events.c:145-185 | returns the first signaled event among the ids from the given one on that agree with it in the valid bits, and none only if there is none |
| EventSearch.DueMeans | kfd/kfd_events.c:741-776 | a scan meets in ascending order exactly the ids with a signaled slot and a signal or debug event, and leaves the other slots as they were |
| EventSearch.SignalPage.ScanSlots | kfd/kfd_events.c:765-775 | acknowledges and sets exactly the due ids from 1 on, in order |
| EventSearch.SignalPage.ScanIdr | kfd/kfd_events.c:754-764 | acknowledges and sets exactly the due ids from 0 on, in order |
| EventSearch.SearchesAgree | kfd/kfd_events.c:741-776 | the two searches do the same if and only if id 0 is not a signaled event |
| EventSearch.SignalPage.SearchAll | kfd/kfd_events.c:741-776 | with id 0 reserved, the event count threshold does not change what happens |
| EventWaits.StepKeeps | kfd/kfd_events.c:623-643 | every step keeps the invariant that a waiter not activated is on its event's queue |
| EventWaits.ExactActivation | kfd/kfd_events.c:798-825 | a waiter is activated if and only if the event was signaled at registration, its age differed from a non-zero last seen age, or some later step set it |
| EventWaits.TestEventCondition | kfd/kfd_events.c:837-857 | complete, failed or timed out, each exactly when the waiters say so |
| EventWaits.RestartLosesNothing | kfd/kfd_events.c:919-936 | under concurrent sets and resets, every auto-reset event an interrupted wait had consumed is signaled again or another call's, if and only if the last thing done to it after the call's last turn for it was not a reset or another call was waiting for it to begin with |
| EventWaits.FinishedWaitKeepsSignal | kfd/kfd_events.c:919-936 | a wait that ends otherwise sets nothing on its way out: ages move by the sets of others only, and events nobody else touches keep their signal |
| EventWaits.EventTable.SignalEvent | kfd/kfd_events.c:623-643 | the loop over the wait queue performs the set |
| EventWaits.EventTable.InitEventWaiter | kfd/kfd_events.c:798-825 | performs the registration, or fails exactly when there is no such event |
| EventWaits.EventTable.FreeAll | kfd/kfd_events.c:919-938 | the loop performs the removal of all waiters under any concurrent sets and resets |
| EventLatches.LatchMoves | kfd/kfd_events.c:623-643 | a set leaves a manual-reset event signaled and an auto-reset event exactly if nobody was queued, a reset clears it, a wait takes an auto-reset signal, and nothing else touches the latch |
| EventLatches.QueueMoves | kfd/kfd_events.c:623-643 | a set takes off the queue whom its wake-up removed, a wait joins unless it completes, and a leave goes |
| EventLatches.CreateStarts | kfd/kfd_events.c:395-436 | a new event is not signaled, has age 1 and nobody waits for it |
| EventLatches.DestroyTells | kfd/kfd_events.c:261-279 | exactly the waiters queued on a destroyed event find out |
| EventLatches.WaitFinds | kfd/kfd_events.c:798-825 | a wait completes at once exactly if the event is signaled or, for signal events, its age differs from a non-zero last seen one |
| EventLatches.ManualResetStays | kfd/kfd_events.c:623-643 | over every run, a manual-reset event stays signaled from a set until it is reset |
| EventLatches.SignalsTakenOnce | kfd/kfd_events.c:808-810 | over any stretch of any run, waits without an age that complete at once on an auto-reset event are no more than its sets and the signal it began with |
| EventLatches.SecondWaitFindsNothing | kfd/kfd_events.c:808-810 | of two such waits without a set in between, the second finds nothing |
| EventLatches.SeenAgeMissesNothing | kfd/kfd_events.c:812-818 | over every run, a wait that passes the age it saw last is activated at once if the event was set since, unless the age went all the way round |
| KernelQueue.AcceptsIffFits | kfd/kfd_kernel_queue.c:253-270 | the two tests accept a packet if and only if it can be placed contiguously without reaching the reader |
| KernelQueue.DrainedAccepts | kfd/kfd_kernel_queue.c:253-270 | a drained ring accepts n dwords at every pointer position if and only if 2n is less than its size |
| KernelQueue.MeetOnlyWhenEmpty | kfd/kfd_kernel_queue.c:238-242 | read and write index meet only when nothing is unread |
| KernelQueue.RollbackCongruent | kfd/kfd_kernel_queue.c:312-322 | the low half of the 64-bit pointer gives the right index for every pointer if and only if the ring size divides 2^32 |
| KernelQueue.KernelQueue.AcquirePacketBuffer | kfd/kfd_kernel_queue.c:229-289 | succeeds exactly when the packet fits, appends padding and packet to the log, changes nothing otherwise |
| KernelQueue.KernelQueue.SubmitPacket | kfd/kfd_kernel_queue.c:291-310 | everything acquired becomes submitted, with 4- or 8-byte pointers |
| KernelQueue.KernelQueue.RollbackPacket | kfd/kfd_kernel_queue.c:312-322 | everything acquired since the last submit is dropped and the pointers agree again |
| KernelQueue.KernelQueue.SendPacket | kfd/kfd_packet_manager.c:353-383 | acquire, build, submit or roll back: exactly this packet joins those submitted, or none does |
| KernelQueue.KernelQueue.Consume | kfd/kfd_kernel_queue.c:238-242 | the consumer reads on in the submitted packets; over any sequence of operations all it has read is the beginning of all that was submitted, in order, with only NOPs between packets |
| GttSubAllocator.Init | kfd/kfd_device.c:1136-1160 | refuses exactly empty or too small buffers and empty chunks, and otherwise has as many chunks as fit and nothing live |
| GttSubAllocator.GttSubAllocator.Search | kfd/kfd_device.c:1204-1266 | the restart search terminates with the lowest start that fits, or fails only when no run is long enough |
| GttSubAllocator.GttSubAllocator.Allocate | kfd/kfd_device.c:1182-1284 | out of memory exactly without an object or a long enough run, failure changes nothing, the object owns a fresh run of exactly the needed chunks inside the buffer |
| GttSubAllocator.GttSubAllocator.Free | kfd/kfd_device.c:1286-1307 | the object's chunks become free and all other live objects keep theirs |
| GttSubAllocator.BytesApart | kfd/kfd_device.c:1168-1180 | objects with disjoint chunks have disjoint byte ranges |
| CuMask.MapCuMask | kfd/kfd_mqd_manager.c:98-206 | a mask bit is set if and only if its CU is active, its rank is within the mask, and the mask bit of that rank is set |
| CuMask.Deal | kfd/kfd_mqd_manager.c:189-206 | the nested loops with their early return deal the mask out exactly as ranked |
| CuMask.DealtMeans | kfd/kfd_mqd_manager.c:140-206 | in the device's terms: a bit is set if and only if its array's bitmap row has more active units than the bit's unit, the rank is within the count, and the user set one of the bits of that rank in the same word |
| CuMask.BeforeMeans | kfd/kfd_mqd_manager.c:189-206 | the units are numbered engine by engine within an array number and array by array within a unit number |
| CuMask.PairsTogether | kfd/kfd_mqd_manager.c:189-206 | on WGP parts the two units of a pair are enabled together |
| CuMask.DiesDisjoint | kfd/kfd_mqd_manager.c:174-192 | different dies read different mask bits if and only if there are no WGPs or only one die |
| Migration.CopyMemoryGart | kfd/kfd_migrate.c:123-175 | every page of a contiguous batch is copied once to its own place, in as few transfers as windows of 512 pages allow, all in the right direction |
| Migration.NextAt | kfd_amdgpu/amdgpu_res_cursor.h:125-163 | advancing the cursor within its block leaves it at the right page of the resource |
| Migration.EachPageOnce | kfd/kfd_migrate.c:276-345 | with distinct destinations, the reference copies each eligible page to its own destination exactly once and nothing else |
| Migration.CopyToVram | kfd/kfd_migrate.c:276-345 | the copies are those of the page-by-page reference through the window towards VRAM, and the i-th destination is the i-th page of the resource |
| Migration.CopyToRam | kfd/kfd_migrate.c:580-643 | the copies are those of the page-by-page reference through the window towards system memory |
| Crat.SizingIsExact | kfd/kfd_crat.c:2292-2305 | the precomputed size is always enough, and exact if and only if every node has an APIC id |
| Crat.CratImage.Fill | kfd/kfd_crat.c:1746-1852 | appends all nodes with an APIC id, or fails exactly when they do not fit |
| Crat.CreateCpuImage | kfd/kfd_crat.c:2274-2305 | building into the precomputed size never runs out of space |
| Crat.ParseCratTable | kfd/kfd_crat.c:1273-1332 | the walk by entry lengths stops after exactly the image's entries |
| Crat.AddBankAdds | kfd/kfd_crat.c:1000-1066 | a memory entry adds to the device's memory of its kind, private without cores and system otherwise, and to no other, and there stays one bank of each kind |
| Crat.ParseNodes | kfd/kfd_crat.c:963-1066 | for any set of nodes, parsing the entries gives each device the cores and memory of its node and the links filed under its number |
| Crat.BuildAndParse | kfd/kfd_crat.c:1273-1332 | building and parsing back gives one device per node with an APIC id; if all have one, the precomputed size, n(n+1) entries, and for each node its cores, one bank of the right size and its links |
| Crat.LinksRightIffContiguous | kfd/kfd_crat.c:1713-1838 | every described node's device gets that node's links if and only if no node with an APIC id comes behind one without |

## Left out

- The MES scheduler paths of the queue manager.
- Eviction and restore without the hardware scheduler beyond their flags and counters, and destruction and termination without it.
- SchedulerSteps.CreateAllOrNothing: treats a create as one step, because outside its locked parts create_queue_cpsch only touches the new queue and its process, whose mutex is held; that another process can see an SDMA slot taken by a create which has yet to link its queue is not captured.
- RunlistIb.CreateRunlistIb: has no failing packet callback, because for the queue types modelled none of them fails (`kfd/kfd_packet_manager_v9.c:269`, `kfd/kfd_packet_manager_vi.c:179`).
- Repeated ids in the array of the debugger's suspend and resume calls, of which only the first is marked; the array is a set of ids here, for one device.
- DeviceQueueManager.DeviceQueueManager.RegisterProcess: after it has listed a process twice no operation of the object is modelled, because the builder then writes past its buffer; the steps themselves and the invariant over runs cover that state. After such a process is terminated the list still names it; the model goes on walking its record, where the code would follow a pointer to freed memory.
- The handle that survives a destroy returning -ENOMEM or -EINVAL: its queue is unlinked and its descriptor freed, so what a retried destroy or an update of it does is undefined; handles of unlinked queues are not used again here.
- The debugfs hang and dump entry points; the RAS queue reset is modelled but excluded from runlist coherence.
- The total queue limit as a bound under concurrency; it is read without the lock.
- `mapped_gws_queue`, compute-active reference counts, eviction timestamps and other bookkeeping that nothing modelled reads.
- Wrap-around of the 32-bit counters and of the 32-bit buffer size in the runlist builder; both are unbounded integers here.
- Two concurrent destroys of the same queue, which the process queue manager prevents.
- Restored SDMA and doorbell ids outside their bitmaps; a bit beyond the bitmap counts as not set.
- More than one interrupt worker per process, memory barriers and the reordering of plain stores; RCU is modelled only in that a destroyed event stays readable for the worker that has it.
- In `EventSignals`, events that the GPU may not signal; their ids lie above the limit of the signal slots unless a checkpoint is restored with others.
- Destruction of an event while an already activated waiter still refers to it.
- The choice of timeouts, user copies and the age returned by a completed wait.
- Packets and entries are kept as records; the bit fields of PM4 packets, descriptors and CRAT structs are not packed into words.
- Migration errors and their cleanup, partial migration, and the return code of an empty copy.
- Malformed CRAT tables, caches, GPU entries, link weights and link bandwidths.
- The ioctl layer, mmap, dma-buf and file descriptor handling.
