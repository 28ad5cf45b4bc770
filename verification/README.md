# Glimmer: a verified model of its state machines

Glimmer shares one GPU between processes. This project models the parts of it that are protocols rather than
plumbing, and proves what they promise. It is written in Dafny 4.11; `dafny verify dfyconfig.toml` checks all of it.

Each component comes in the same layers. A `...Model` file holds the data and every operation as a function from
state to state, with the failures an operation can meet (an allocation that throws, a process that dies, a clock
reading, a foreign call's answer) as inputs. The files beside it prove the invariants, and from them the theorems
over whole runs: any sequence of operations, with any failures, in any interleaving of the locked sections. A file
named after the component holds the class or the loops that update fields and arrays in place, and every method of
it is proved equal to the function it implements, so that the theorems hold of the methods.

| component | files |
|---|---|
| Scheduler and quota ledger | `SchedulerModel`, `SchedulerSteps`, `SchedulerInvariant`, `SchedulerRuns`, `SchedulerPeek`, `SchedulerTheorems`, `SchedulerFairness`, `SchedulerPriority`, `Scheduler` |
| Shared memory quota region | `SharedQuotaModel`, `SharedQuotaCrash`, `SharedQuotaReclaim`, `SharedQuotaSystem`, `SharedQuotaRecovery`, `SharedQuotaTwoPhase`, `SharedRegion` |
| Execution submission queue | `SubmissionQueueModel`, `SubmissionQueueRuns`, `SubmissionQueueTheorems`, `SubmissionQueue` |
| Priority planner and idle window | `ExecutionPriorityModel`, `ExecutionPriorityTheorems`, `IdleWindowRuns`, `ExecutionPriority` |
| Task admission | `TaskAdmissionModel`, `TaskAdmissionTheorems`, `TaskAdmission` |
| Launch completion tracker | `LaunchTrackerModel`, `LaunchTrackerTheorems`, `LaunchTracker` |
| Reply codec | `ReplyCodecModel`, `ReplyCodecTheorems`, `ReplyCodec` |

## What turned out otherwise

Five things one would expect are not quite what the code does. Each has a concrete counterexample or an exact
condition, or both.

- A retreat does not always make progress. If the reservation is raised while low-priority tasks run, a task can be
  asked to retreat, be suspended, and nothing is dispatched (`SchedulerPriority.RetreatCanStall`). It makes progress
  exactly when the reservation leaves room (`RetreatProgress`), and always does if the reservation is not raised
  (`RetreatAlwaysHelps`).
- Pending leases are not exactly the queued tasks. A dispatch that fails to allocate ends its task as Failed but its
  pending lease stays, for ever (`TaskAdmissionTheorems.ALeaseCanBeLeftBehind`, `LeftBehindForever`). They are
  exactly the queued tasks together with those (`LeasesAgree`), so exactly the queued tasks as long as no dispatch
  fails to allocate (`ExactWithoutLoss`, `LosesIff`).
- A pair plan does not leave all exact progress usable. A peer that the ordinary plan let execute outright is left
  waiting without its progress (`ExecutionPriorityTheorems.PairCanDropProgress`); that is the only exception
  (`PairKeepsProgress`). The rebalance plan has no such exception (`RebalanceNarrows`).
- A process that dies between two stores of an operation can leave a region that passes the accounting check: after
  all or none of the stores, and in between exactly when the bytes moved are zero, or when the doubly counted midpoint
  of a commit still fits the limit. `SharedQuotaTwoPhase.CrashConsistency` states which, and that two reclaims, the
  grace period apart, make all of them harmless. The first must not be made at time 0, because a mark of 0 reads as
  no mark; `TwoPhases` has the exact condition.
- High-priority work does not always start the idle window. A snapshot with an unknown peer in it is not looked at
  further, so work seen running beside one goes unnoticed and a low-priority peer can be let through at the next
  snapshot (`IdleWindowRuns.ActivityCanGoUnnoticed`). That happens exactly when there was an unknown peer and the
  window was not already running (`ActivityUnnoticedIff`); in every other case a whole quiet spell comes first
  (`LowGrantsWait`).

## Assumptions

- Each section under a mutex is one atomic step; between sections anything may happen.
- Task ids and dispatch sequences start at 1, and zero means none; a new tenant's deficit is 0.
- Machine integers are bounded subset types; every addition and subtraction of the model is shown to stay in range,
  or the overflow test of the source is modelled.
- A process id together with its start time never names a second process, and the generation counter of the shared
  region does not wrap around (stated as a precondition of one step, `SharedQuotaRecovery.Stepped`).
- Sequence numbers of launches and serial numbers of batches are unbounded.

## Model

| member | source | states |
|---|---|---|
| SchedulerTheorems.QuotaConservation | src/core/scheduler.cc:82-318 | In every state of every run, with an allocation failure possible at every try block, reserved bytes equal the memory of the queued tasks never dispatched, committed bytes that of the running and suspended tasks, their sum is within the limit, and queued plus running tasks stay within the two configured limits together |
| SchedulerPeek.PeekRefinesSelect | src/core/scheduler.cc:488-739 | For all four policies the mutating selection removes exactly the task the read-only peek announces; for deficit round robin the peek is empty exactly when the round only accrues |
| SchedulerTheorems.DispatchTaskIsDispatchNext | src/core/scheduler.cc:158-207 | Dispatching a queued task by id succeeds exactly when dispatching the next task would return that id, and then with the same result and the same final state |
| SchedulerTheorems.DispatchesAreUnique | src/core/scheduler.cc:271-276 | Of two dispatches of one task in a run the later carries a strictly larger sequence, saturation of the counter included, so no pair of task and sequence repeats |
| SchedulerTheorems.DispatchRaises | src/core/scheduler.cc:209-285 | A dispatched task was queued and gets a sequence above any it ever had |
| SchedulerTheorems.SequencesGrowOver | src/core/scheduler.cc:271-276 | Over any part of a run the sequence of a known task never falls and a forgotten id never returns |
| SchedulerTheorems.LimitsStay | src/core/scheduler.cc:69-80 | The configuration and the memory limit are those of the first state, throughout |
| SchedulerFairness.WrrBoundedWaiting | src/core/scheduler.cc:518-559 | A tenant that stays backlogged among a fixed set of tenants is served within as many selections as the other tenants' weights add up to, plus one |
| SchedulerFairness.WrrScanDrops | src/core/scheduler.cc:518-559 | While a tenant is backlogged every selection serves somebody, and each that serves another strictly lowers the measure of what is ahead of it |
| SchedulerFairness.AheadAdvance | src/core/scheduler.cc:814-821 | Moving the cursor on removes exactly the rest of the current turn from what is ahead |
| SchedulerFairness.DrrBoundedWaiting | src/core/scheduler.cc:561-604 | An unchanged head of a queue among N tenants is selected within N times (quanta it lacks plus one) selections, counting the empty rounds that a dispatch by id commits |
| SchedulerFairness.QuantaNeededIsCeiling | src/core/scheduler.cc:584-592 | The quanta a head lacks are its shortfall divided by the weight, rounded up |
| SchedulerFairness.DrrScanDrops | src/core/scheduler.cc:561-604 | Every visit of a round that does not serve the waiting head brings it one visit closer |
| SchedulerFairness.DrrConservation | src/core/scheduler.cc:561-604 | At every point of every run each tenant's deficit plus the work units selected for it equals its starting deficit plus its weight times the quanta granted |
| SchedulerFairness.DrrVisitBooks | src/core/scheduler.cc:584-592 | A visit that serves nothing adds exactly one weight to the deficit: the saturating branch is never taken |
| SchedulerFairness.SpecsStay | src/core/scheduler.cc:82-156 | The parameters a task was submitted with never change while it is known |
| SchedulerFairness.StepTurn | src/core/scheduler.cc:158-207 | Only a selection moves the cursor, the budget or a deficit; every other operation leaves the ring of known tenants alone |
| SchedulerPriority.ReservedSlotsStayFree | src/core/scheduler.cc:462-486 | Over every run in which the reservation is not raised, low-priority running tasks never exceed the running limit minus the reserved slots |
| SchedulerPriority.StepKeepsSlots | src/core/scheduler.cc:462-486 | Every operation other than raising the reservation keeps the reserved slots free of low-priority tasks |
| SchedulerPriority.RetreatProgress | src/core/scheduler.cc:287-330 | When a retreat is requested of a task, suspending it succeeds, and the next dispatch without allocation failure returns a task of strictly higher priority if and only if the reservation leaves room for one |
| SchedulerPriority.RetreatAlwaysHelps | src/core/scheduler.cc:320-330 | With the reserved slots free of low-priority tasks there always is that room |
| SchedulerPriority.RetreatCanStall | src/core/scheduler.cc:401-408 | A concrete run in which the reservation was raised under running low-priority tasks, a retreat is requested, and the dispatch after the suspension returns nothing |
| SchedulerPriority.PeekIsWorkConserving | src/core/scheduler.cc:622-739 | Under every policy but deficit round robin a task is found exactly when one is queued |
| SchedulerPriority.DispatchSucceeds | src/core/scheduler.cc:209-285 | A permitted dispatch of a selected task succeeds unless an allocation fails |
| SchedulerPriority.BestSurvivesSuspend | src/core/scheduler.cc:301-305 | A suspended task of lower priority does not displace the best candidate |
| SchedulerRuns.StepKeeps | src/core/scheduler.cc:82-408 | Every operation, with every pattern of allocation failures, keeps the invariant: queues hold exactly the queued tasks once each, the running list exactly the running ones, handles match states, and the ledger equals the sums |
| SchedulerRuns.RunKeeps | src/core/scheduler.cc:82-408 | The invariant holds in every state of every run |
| SchedulerRuns.SelectTakes | src/core/scheduler.cc:488-620 | A selection under any policy takes exactly one queued task off its own queue, or leaves every queue as it was |
| SchedulerRuns.StepRecords | src/core/scheduler.cc:82-381 | Records change only as allowed: parameters stay, only a dispatch changes a sequence, only a submission adds an id and only the next one |
| SchedulerRuns.DispatchSelectedKeeps | src/core/scheduler.cc:209-285 | Dispatch of a selected task keeps the invariant on the success path and on each of its three failure paths |
| SchedulerInvariant.InitialInv | src/core/scheduler.cc:69-80 | A new scheduler satisfies the invariant |
| SchedulerInvariant.SubmitKeeps | src/core/scheduler.cc:82-156 | Submission keeps the invariant whichever allocation fails |
| SchedulerInvariant.FinishKeeps | src/core/scheduler.cc:752-775 | Finishing keeps the invariant and succeeds exactly for a running task: accounting never makes it fail |
| SchedulerInvariant.CancelQueuedKeeps | src/core/scheduler.cc:777-798 | Cancelling a waiting task keeps the invariant and succeeds exactly for a queued task, suspended ones included |
| SchedulerInvariant.SuspendKeeps | src/core/scheduler.cc:287-318 | Suspension keeps the invariant and succeeds exactly for a running task with a sequence left, unless its queue cannot grow |
| SchedulerInvariant.ForgetKeeps | src/core/scheduler.cc:369-381 | Forgetting an ended task gives no bytes back twice: the ledger still equals the sums |
| Scheduler.QuotaLedger.constructor | src/core/quota_ledger.cc:92-93 | An empty ledger under the given limit |
| Scheduler.QuotaLedger.TryReserve | src/core/quota_ledger.cc:95-108 | Reserves exactly when the bytes are available under the saturating usage, and never takes usage past the limit |
| Scheduler.QuotaLedger.ReleaseBytes | src/core/quota_ledger.cc:110-118 | Takes bytes off the committed total, or refuses and changes nothing when there are not that many |
| Scheduler.QuotaLedger.CommitHandle | src/core/quota_ledger.cc:54-65 | Moves an attached handle's bytes from reserved to committed and detaches it; otherwise nothing changes |
| Scheduler.QuotaLedger.CancelHandle | src/core/quota_ledger.cc:67-77 | Returns an attached handle's bytes and detaches it; a detached handle is left alone |
| Scheduler.Scheduler.constructor | src/core/scheduler.cc:69-80 | At least one running slot, and a reservation no larger than the slots |
| Scheduler.Scheduler.SubmitTask | src/core/scheduler.cc:82-156 | Refines the submission function for every fault; a submission that is not accepted changes nothing at all |
| Scheduler.Scheduler.RecordTask | src/core/scheduler.cc:111-153 | Tenant, record and queue entry appear together or not at all, whichever of the allocations throws |
| Scheduler.Scheduler.PeekBest | src/core/scheduler.cc:717-739 | Whatever order the map yields its queues in, the result is the best queued task of the policy |
| Scheduler.Scheduler.PeekQueue | src/core/scheduler.cc:722-736 | The better of the candidate so far and every queued task of one queue |
| Scheduler.Scheduler.PeekWrr | src/core/scheduler.cc:654-688 | Finds, without changing anything, the first queued task of the nearest backlogged tenant from the cursor on |
| Scheduler.Scheduler.PeekDrr | src/core/scheduler.cc:690-715 | Finds, without changing anything, the head of the nearest tenant whose deficit covers it |
| Scheduler.Scheduler.FirstLive | src/core/scheduler.cc:673-683 | The first entry of a queue whose task is still queued |
| Scheduler.Scheduler.PeekNext | src/core/scheduler.cc:622-634 | The peek of the configured policy |
| Scheduler.Scheduler.AdvanceTenant | src/core/scheduler.cc:814-821 | The next tenant in cyclic order, with no budget left over |
| Scheduler.Scheduler.RemoveFromQueue | src/core/scheduler.cc:800-812 | Exactly the first occurrence of the id leaves its tenant's queue |
| Scheduler.Scheduler.EraseFirst | src/core/scheduler.cc:808-811 | The list without the first occurrence of the id |
| Scheduler.Scheduler.SelectBest | src/core/scheduler.cc:606-620 | Removes the best queued task and counts it off |
| Scheduler.Scheduler.DropStaleEntries | src/core/scheduler.cc:576-583 | Entries of ended tasks leave the front of the queue; the rest stays |
| Scheduler.Scheduler.VisitWrr | src/core/scheduler.cc:536-556 | One visit serves the tenant's first queued task and spends its budget, or passes on |
| Scheduler.Scheduler.SelectWrr | src/core/scheduler.cc:518-559 | Refines the weighted scan over at most all tenants |
| Scheduler.Scheduler.VisitDrr | src/core/scheduler.cc:575-601 | One visit serves a head its deficit covers, or grants one quantum |
| Scheduler.Scheduler.SelectDrr | src/core/scheduler.cc:561-604 | Refines the deficit scan over at most all tenants |
| Scheduler.Scheduler.SelectNext | src/core/scheduler.cc:488-500 | Refines the selection of the configured policy |
| Scheduler.Scheduler.DispatchSelectedTask | src/core/scheduler.cc:209-285 | Refines the dispatch function on success and on each failure path: quota is committed, or given back and the task Failed |
| Scheduler.Scheduler.CountLow | src/core/scheduler.cc:468-473 | The number of running tasks below the threshold |
| Scheduler.Scheduler.ReservationBlocksLow | src/core/scheduler.cc:462-486 | Decides exactly whether reserved capacity keeps a low-priority next task waiting |
| Scheduler.Scheduler.DispatchNextTask | src/core/scheduler.cc:158-173 | Refines dispatch of the next task and keeps the invariant |
| Scheduler.Scheduler.DispatchTaskById | src/core/scheduler.cc:175-207 | Refines dispatch by id, the accruing deficit round included, and keeps the invariant |
| Scheduler.Scheduler.SuspendTask | src/core/scheduler.cc:287-318 | Refines suspension; succeeds exactly for a running task with a sequence left |
| Scheduler.Scheduler.IsRetreatRequested | src/core/scheduler.cc:320-330 | Decides exactly whether a strictly more important task waits |
| Scheduler.Scheduler.Finish | src/core/scheduler.cc:752-775 | Refines completion, failure and cancellation of a running task; succeeds exactly if it runs |
| Scheduler.Scheduler.CancelQueuedTask | src/core/scheduler.cc:777-798 | Refines cancellation of a waiting task; succeeds exactly if it is queued |
| Scheduler.Scheduler.CancelById | src/core/scheduler.cc:342-358 | Refines cancellation in either live state |
| Scheduler.Scheduler.ForgetTask | src/core/scheduler.cc:369-381 | Refines forgetting, with the handle's destruction |
| Scheduler.Scheduler.ReserveSlots | src/core/scheduler.cc:401-408 | Refines setting the reservation, capped at the running limit, under the priority policy only |
| SharedQuotaCrash.TornOperation | src/control/shared_memory_quota.cc:984-1174 | For every operation and every prefix of its stores, doubly counted midpoint of commit included: exactly which torn regions pass the accounting check, and that taking the slot of one that passes off the totals leaves the region it would have left before the operation |
| SharedQuotaCrash.SameEviction | src/control/shared_memory_quota.cc:190-290 | If stores to one slot leave a region that passes the check, taking that slot off the totals and clearing it leaves each device total equal to the sum over the survivors |
| SharedQuotaCrash.AcceptedIff | src/control/shared_memory_quota.cc:190-260 | A region that differs in one slot and the totals passes the check exactly when slot and totals moved by the same amounts and stayed in bounds |
| SharedQuotaCrash.EvictKeeps | src/control/shared_memory_quota.cc:612-620 | Taking a slot's counters off the totals and clearing it keeps the books right |
| SharedQuotaCrash.HeldWithin | src/control/shared_memory_quota.cc:240-243 | What a slot holds never exceeds the device totals, so no subtraction underflows |
| SharedQuotaCrash.OpKeeps | src/control/shared_memory_quota.cc:922-1181 | A complete reserve, commit, cancel, release or close keeps the books right |
| SharedQuotaReclaim.ReclaimKeeps | src/control/shared_memory_quota.cc:547-623 | Reclaiming keeps the books right, always reports valid accounting, and changes a slot only if it carries exactly the identity found dead, in the way its phase demands |
| SharedQuotaReclaim.TornReclaim | src/control/shared_memory_quota.cc:585-620 | Whatever prefix of a reclaim was stored before the recovering process died, taking the slot of a region that passes the check off the totals leaves the same region |
| SharedQuotaReclaim.ReturnOne | src/control/shared_memory_quota.cc:588-595 | Between the two stores of one device's returned reservation the check passes exactly when there was nothing to return |
| SharedQuotaReclaim.SecondPhaseEvicts | src/control/shared_memory_quota.cc:612-620 | The second phase leaves exactly the region without the slot |
| SharedQuotaReclaim.FirstPhaseClears | src/control/shared_memory_quota.cc:585-602 | With nothing committed the first phase leaves exactly the region without the slot |
| SharedQuotaReclaim.ReclaimSlotKeeps | src/control/shared_memory_quota.cc:552-620 | One slot's reclaim keeps the books right and touches nothing but that slot and its devices |
| SharedQuotaSystem.NextKeepsBooks | src/control/shared_memory_quota.cc:700-1181 | Every interleaving of register, reserve, commit, cancel, release, close and recovery steps by any processes keeps every device total equal to the per-process sums and within its limit |
| SharedQuotaSystem.RegisterKeeps | src/control/shared_memory_quota.cc:743-835 | Registration keeps the books right on each of its outcomes, the rolled-back device record included |
| SharedQuotaSystem.ReserveKeeps | src/control/shared_memory_quota.cc:903-985 | Reservation keeps the books right, the device record it may create included |
| SharedQuotaSystem.RegistrationCrash | src/control/shared_memory_quota.cc:759-829 | A process that dies at any step of its registration leaves a region that passes the check exactly if it had not yet claimed the slot or had finished filling it in; the registration is an event of the runs that a process can die in |
| SharedQuotaSystem.ReleaseKeeps | src/control/shared_memory_quota.cc:1141-1181 | Release keeps the books right |
| SharedQuotaSystem.OpenDeviceKeeps | src/control/shared_memory_quota.cc:939-955 | Activating an unused device record changes no sum |
| SharedQuotaSystem.Judge | src/control/shared_memory_quota.cc:162-176 | Only a copied, complete identity whose process is really gone is judged dead, in its own position |
| SharedQuotaRecovery.OnlyTheDeadAreTouched | src/control/shared_memory_quota.cc:547-564 | With any steps between copying identities and reclaiming, a finished or interrupted reclaim touches a slot only if the very registration found dead still holds it |
| SharedQuotaRecovery.NeverAgain | src/control/shared_memory_quota.cc:816-828 | Short of wrap-around of the generation counter, a registration that has ended never reappears in any slot |
| SharedQuotaRecovery.RecoveredOnce | src/control/shared_memory_quota.cc:625-650 | Of several recoveries that found the same process dead, one ends its registration; the others leave its slot alone and leave the whole region, device totals included, as if they had not carried it, so no byte is given back twice |
| SharedQuotaRecovery.ReclaimingSkips | src/control/shared_memory_quota.cc:551-564 | A reclaim, finished or cut short, leaves the same region whether or not it carries an identity its slot no longer has |
| SharedQuotaRecovery.TwoReclaimsEnd | src/control/shared_memory_quota.cc:585-620 | Two reclaims that hold a registration dead, the first at a time other than 0 and the second the grace period later, end it, whatever other processes do and wherever they die in between |
| SharedQuotaRecovery.MarkStays | src/control/shared_memory_quota.cc:585-610 | A mark once set stays with its registration until that ends |
| SharedQuotaRecovery.InitialSane | src/control/shared_memory_quota.cc:357-390 | A region nobody has used has its books right, no mark and no generation in use, so runs can start from it |
| SharedQuotaRecovery.MarkOrigin | src/control/shared_memory_quota.cc:585-595 | Every mark was set by one earlier reclaim that found the process dead, at that reclaim's time, and committed bytes stayed charged ever since |
| SharedQuotaRecovery.GraceIsKept | src/control/shared_memory_quota.cc:606-620 | A reclaim gives committed bytes back only at least the grace period after a nonzero mark that an earlier reclaim of the same registration set |
| SharedQuotaRecovery.TornOnlyByACrash | src/control/shared_memory_quota.cc:262-290 | Over every run the books are right until a process dies between two stores, and a torn region is never written again |
| SharedQuotaRecovery.NextEvolves | src/control/shared_memory_quota.cc:533-835 | In every step every slot ends free, goes on as the same registration with at most one mark set by a reclaim, is a new registration under a new generation, or was claimed by a process that died before it had filled it in |
| SharedQuotaRecovery.NextSane | src/control/shared_memory_quota.cc:533-835 | Generations in use are distinct and were issued, marks lie in the past, and judged identities belong to dead processes, after every event |
| SharedQuotaRecovery.ReclaimEventTrail | src/control/shared_memory_quota.cc:547-623 | Wherever a recovering process dies, a slot keeps its committed bytes unless the reclaim of a marked orphan past the grace period cleared it |
| SharedQuotaRecovery.OpTrail | src/control/shared_memory_quota.cc:700-1181 | However far an owner's operation got, only the owner's active slot changed and it was not marked |
| SharedQuotaTwoPhase.CrashConsistency | src/control/shared_memory_quota.cc:984-1174 | A process that dies after any number of the stores of any operation leaves a region that passes the check exactly in the stated cases, and then two reclaims of its slot by the code, the grace period apart, leave the very region they would have left had it died before the operation |
| SharedQuotaTwoPhase.ReclaimCrashIsHarmless | src/control/shared_memory_quota.cc:585-620 | If a recovering process dies after any number of the stores of a reclaim and the region passes the check, two later reclaims leave the very region they would have left without it |
| SharedQuotaTwoPhase.CrashIsHarmless | src/control/shared_memory_quota.cc:552-620 | Two reclaims leave the same region, the one without the slot, whatever stores to that slot came before, as long as the books are right and the slot is cleared or keeps its registration |
| SharedQuotaTwoPhase.TwoPhases | src/control/shared_memory_quota.cc:585-620 | Exactly when two reclaims of a slot take it off the totals and clear it; otherwise the slot keeps its registration and its committed bytes. A mark made at time 0 reads as no mark |
| SharedQuotaTwoPhase.TwoPhasesEvict | src/control/shared_memory_quota.cc:585-620 | A first reclaim at a time other than 0 and a second one the grace period later always leave the region without the slot |
| SharedQuotaTwoPhase.TwoRecoveries | src/control/shared_memory_quota.cc:547-623 | Two whole recoveries, the grace period apart, clear every slot of the processes they hold dead, touch no other slot, and leave the totals equal to the sums over what is left |
| SharedRegionState.SharedRegion.constructor | src/control/shared_memory_quota.cc:357-390 | A new region: all records free, generation 1, books right |
| SharedRegionState.SharedRegion.CheckAccounting | src/control/shared_memory_quota.cc:190-260 | The machine-width check with overflow tests decides exactly whether every total is the unbounded sum and every record well formed |
| SharedRegionState.SharedRegion.CheckDevices | src/control/shared_memory_quota.cc:193-209 | Decides whether every device record is free and empty, or active and within its limit |
| SharedRegionState.SharedRegion.CheckSlots | src/control/shared_memory_quota.cc:211-250 | Running totals equal the sums over the slots seen, or the books are wrong |
| SharedRegionState.SharedRegion.AddSlot | src/control/shared_memory_quota.cc:230-249 | Adds one slot to the totals, and rejects only when the books really are wrong, overflow included |
| SharedRegionState.SharedRegion.IsUnused | src/control/shared_memory_quota.cc:213-218 | Whether the slot holds no bytes at all |
| SharedRegionState.SharedRegion.SetDeviceReserved | src/control/shared_memory_quota.cc:984 | One store, in place |
| SharedRegionState.SharedRegion.SetDeviceCommitted | src/control/shared_memory_quota.cc:1103 | One store, in place |
| SharedRegionState.SharedRegion.SetSlotReserved | src/control/shared_memory_quota.cc:985 | One store, in place |
| SharedRegionState.SharedRegion.SetSlotCommitted | src/control/shared_memory_quota.cc:1104 | One store, in place |
| SharedRegionState.SharedRegion.SetState | src/control/shared_memory_quota.cc:586 | One store, in place |
| SharedRegionState.SharedRegion.SetSince | src/control/shared_memory_quota.cc:587 | One store, in place |
| SharedRegionState.SharedRegion.ClearProcessSlot | src/control/shared_memory_quota.cc:529-531 | The slot becomes empty and free |
| SharedRegionState.SharedRegion.FindDeviceSlot | src/control/shared_memory_quota.cc:498-507 | The first active record of the device, or none when there is none |
| SharedRegionState.SharedRegion.FindFreeDeviceSlot | src/control/shared_memory_quota.cc:509-517 | The first free device record, or none when there is none |
| SharedRegionState.SharedRegion.FindFreeProcessSlot | src/control/shared_memory_quota.cc:519-527 | The first free slot, or none when there is none |
| SharedRegionState.SharedRegion.OpenDeviceSlot | src/control/shared_memory_quota.cc:939-955 | The device's record, created in the first free place if it has none |
| SharedRegionState.SharedRegion.IsOwner | src/control/shared_memory_quota.cc:891-898 | Whether the slot is active and carries the caller's full identity |
| SharedRegionState.SharedRegion.RegisterProcess | src/control/shared_memory_quota.cc:743-835 | Refines registration with each error and its rollback; refuses a region whose books are wrong |
| SharedRegionState.SharedRegion.Reserve | src/control/shared_memory_quota.cc:903-985 | Refines reservation in place; refuses a region whose books are wrong |
| SharedRegionState.SharedRegion.Commit | src/control/shared_memory_quota.cc:1074-1109 | Refines commit in place; refuses a region whose books are wrong |
| SharedRegionState.SharedRegion.MoveReserved | src/control/shared_memory_quota.cc:1103-1106 | The four stores of a commit, in program order |
| SharedRegionState.SharedRegion.Cancel | src/control/shared_memory_quota.cc:1111-1139 | Refines cancellation in place; refuses a region whose books are wrong |
| SharedRegionState.SharedRegion.Release | src/control/shared_memory_quota.cc:1141-1181 | Refines release in place; refuses a region whose books are wrong |
| SharedRegionState.SharedRegion.Close | src/control/shared_memory_quota.cc:700-730 | Refines the destructor: an empty slot is cleared, one with bytes becomes an unmarked orphan |
| SharedRegionState.SharedRegion.SnapshotProcesses | src/control/shared_memory_quota.cc:533-545 | The identities of all registered slots, in place |
| SharedRegionState.SharedRegion.CheckCovered | src/control/shared_memory_quota.cc:566-579 | Whether the devices can give back everything the slot holds |
| SharedRegionState.SharedRegion.HasCommitted | src/control/shared_memory_quota.cc:596-599 | Whether the slot still holds committed bytes |
| SharedRegionState.SharedRegion.ReturnAllReservations | src/control/shared_memory_quota.cc:588-595 | The first phase's loop performs exactly the listed stores, and leaves committed bytes alone |
| SharedRegionState.SharedRegion.ReturnAll | src/control/shared_memory_quota.cc:612-619 | The second phase's loop performs exactly the listed stores |
| SharedRegionState.SharedRegion.MarkAndReturn | src/control/shared_memory_quota.cc:585-602 | The first phase performs exactly the listed stores |
| SharedRegionState.SharedRegion.ReclaimProcess | src/control/shared_memory_quota.cc:552-620 | Refines the reclaim of one slot |
| SharedRegionState.SharedRegion.ReclaimDeadProcesses | src/control/shared_memory_quota.cc:547-623 | Refines the pass over all slots |
| SharedRegionState.SharedRegion.Recover | src/control/shared_memory_quota.cc:625-650 | The reclaiming half of a recovery succeeds exactly when the books were right, and leaves them right |
| SubmissionQueueTheorems.QueueAccounting | src/backend/execution_submission_queue.cc:118-171 | In every state of every run: the bytes charged are those of the payloads not yet destroyed and within the limit, entries are bounded and strictly increasing by sequence, at most one is at the driver, none is retained that is acknowledged, stopped and released, and every unstopped entry has its payload with the issue window inside it |
| SubmissionQueueTheorems.RunKeeps | src/backend/execution_submission_queue.cc:214-609 | The invariant holds in every state of every run, releases interleaved with other calls included |
| SubmissionQueueRuns.StepKeeps | src/backend/execution_submission_queue.cc:214-609 | Every locked section keeps the invariant and touches at most one entry: updates it forward, appends it under the next sequence, or removes it once stopped and answered |
| SubmissionQueueRuns.InFlightIsCharged | src/backend/execution_submission_queue.cc:154-171 | A payload taken out of its entry is still charged and its entry still releasing: both assertions of the release hold |
| SubmissionQueueRuns.AcceptKeeps | src/backend/execution_submission_queue.cc:271-325 | Acceptance keeps the invariant on every status |
| SubmissionQueueRuns.AcknowledgeKeeps | src/backend/execution_submission_queue.cc:512-521 | Acknowledging keeps the invariant, whether the entry then goes or waits for its release |
| SubmissionQueueRuns.TakePayloadKeeps | src/backend/execution_submission_queue.cc:157-162 | Taking the payload out of the entry keeps the bytes charged |
| SubmissionQueueRuns.DischargeKeeps | src/backend/execution_submission_queue.cc:164-170 | Discharging the destroyed payload takes off exactly its bytes and lets the entry go |
| SubmissionQueueTheorems.TokensAreUnique | src/backend/execution_submission_queue.cc:334-350 | No pair of sequence and generation is issued twice in a run |
| SubmissionQueueTheorems.StaleTokens | src/backend/execution_submission_queue.cc:125-130 | A token of an earlier generation than the one last issued changes nothing for the rest of the run |
| SubmissionQueueTheorems.IssueAdvances | src/backend/execution_submission_queue.cc:138-150 | An issue happens only on a queue that is not quarantined with nothing at the driver, raises the entry's generation, and hands out exactly the issue window of a payload that is there |
| SubmissionQueueTheorems.RepliesAreFinal | src/backend/execution_submission_queue.cc:417-501 | A reply once written is never changed, through pauses and resumptions, and its sequence is never reused |
| SubmissionQueueTheorems.ClientsSeeOneReply | src/backend/execution_submission_queue.cc:503-510 | What a client reads under a receipt is at all later times the same reply or nothing |
| SubmissionQueueTheorems.QuarantineIsFinal | src/backend/execution_submission_queue.cc:557-601 | Quarantine, which implies closing, is permanent; nothing is issued, resumed or accepted afterwards |
| SubmissionQueueTheorems.OldestFirst | src/backend/execution_submission_queue.cc:334-350 | Without a receipt the oldest waiting command is issued |
| SubmissionQueueTheorems.IssuedAsAccepted | src/backend/execution_submission_queue.cc:271-350 | Unless it was rewritten on purpose, what is issued under a sequence, first or resumed, is byte for byte the request accepted under it |
| SubmissionQueueTheorems.EmptyMeansReleased | src/backend/execution_submission_queue.cc:603-609 | A shutdown that reports success leaves nothing charged and nothing in flight |
| SubmissionQueueTheorems.InitialInv | src/backend/execution_submission_queue.cc:93-101 | A new queue satisfies the invariant |
| SubmissionQueueModel.FindIssue | src/backend/execution_submission_queue.cc:125-130 | A token finds an entry only in its own generation |
| SubmissionQueueModel.Packed | src/backend/execution_submission_queue.cc:304-307 | The parameters lead the payload, whose size is the capacity |
| SubmissionQueueModel.Overwritten | src/backend/execution_submission_queue.cc:409-414 | Exactly the addressed bytes are replaced |
| SubmissionQueueState.SubmissionQueue.constructor | src/backend/execution_submission_queue.cc:93-101 | A new, empty queue |
| SubmissionQueueState.SubmissionQueue.FindEntry | src/backend/execution_submission_queue.cc:110-116 | The entry with the receipt's sequence, for a receipt of this queue only |
| SubmissionQueueState.SubmissionQueue.FindIssued | src/backend/execution_submission_queue.cc:125-130 | The entry in the token's generation |
| SubmissionQueueState.SubmissionQueue.AnyIssuing | src/backend/execution_submission_queue.cc:132-136 | Whether any entry is at the driver |
| SubmissionQueueState.SubmissionQueue.FindQueued | src/backend/execution_submission_queue.cc:341-345 | The first waiting entry, or the one the receipt names |
| SubmissionQueueState.SubmissionQueue.CollectEntry | src/backend/execution_submission_queue.cc:118-123 | The entry goes exactly when acknowledged, stopped and released |
| SubmissionQueueState.SubmissionQueue.Bind | src/backend/execution_submission_queue.cc:214-234 | Refines binding: one thread ever, and a vanished one quarantines the queue |
| SubmissionQueueState.SubmissionQueue.AcceptCommand | src/backend/execution_submission_queue.cc:271-325 | Refines acceptance with each refusal; the capacity test cannot underflow |
| SubmissionQueueState.SubmissionQueue.Append | src/backend/execution_submission_queue.cc:299-317 | The new entry, its charge and the next sequence together |
| SubmissionQueueState.SubmissionQueue.ReadResult | src/backend/execution_submission_queue.cc:503-510 | The reply, until acknowledged |
| SubmissionQueueState.SubmissionQueue.AcknowledgeResult | src/backend/execution_submission_queue.cc:512-521 | Refines acknowledgement |
| SubmissionQueueState.SubmissionQueue.StopAccepting | src/backend/execution_submission_queue.cc:588-593 | Refines closing |
| SubmissionQueueState.SubmissionQueue.EnterQuarantine | src/backend/execution_submission_queue.cc:595-601 | Refines quarantine |
| SubmissionQueueState.SubmissionQueue.ShutDown | src/backend/execution_submission_queue.cc:603-609 | Reports success exactly when empty, and then nothing is charged or in flight |
| SubmissionQueueState.SubmissionQueue.Take | src/backend/execution_submission_queue.cc:334-350 | Refines taking a command |
| SubmissionQueueState.SubmissionQueue.Limit | src/backend/execution_submission_queue.cc:352-364 | Refines shortening the issue window before the first issue |
| SubmissionQueueState.SubmissionQueue.CopyParameters | src/backend/execution_submission_queue.cc:366-380 | The issue window before the first issue |
| SubmissionQueueState.SubmissionQueue.Replace | src/backend/execution_submission_queue.cc:382-396 | Refines replacing the parameters before the first issue |
| SubmissionQueueState.SubmissionQueue.Patch | src/backend/execution_submission_queue.cc:398-415 | Refines patching inside the issue window during an issue |
| SubmissionQueueState.SubmissionQueue.PublishResult | src/backend/execution_submission_queue.cc:417-428 | Refines publishing the driver's answer to a first issue |
| SubmissionQueueState.SubmissionQueue.PublishFailedPreparation | src/backend/execution_submission_queue.cc:449-460 | Refines rejecting after preparation, payload retained |
| SubmissionQueueState.SubmissionQueue.FailUncertainIssue | src/backend/execution_submission_queue.cc:430-447 | Refines an uncertain failure: no second reply, and quarantine |
| SubmissionQueueState.SubmissionQueue.PauseStopped | src/backend/execution_submission_queue.cc:541-555 | Refines pausing, for a successful native reply only |
| SubmissionQueueState.SubmissionQueue.ResumePaused | src/backend/execution_submission_queue.cc:557-574 | Refines resumption under the next generation, or quarantine when there is none |
| SubmissionQueueState.SubmissionQueue.FinishResumed | src/backend/execution_submission_queue.cc:576-586 | Refines the return of a continuation |
| SubmissionQueueState.SubmissionQueue.Reject | src/backend/execution_submission_queue.cc:462-481 | Refines the first section of rejecting a waiting command |
| SubmissionQueueState.SubmissionQueue.RejectTaken | src/backend/execution_submission_queue.cc:483-501 | Refines the first section of rejecting a taken command |
| SubmissionQueueState.SubmissionQueue.CompleteStopped | src/backend/execution_submission_queue.cc:523-539 | Refines the first section of completing a stopped command |
| SubmissionQueueState.SubmissionQueue.MovePayload | src/backend/execution_submission_queue.cc:157-162 | First locked section of a release: the payload leaves the entry, still charged |
| SubmissionQueueState.SubmissionQueue.DischargePayload | src/backend/execution_submission_queue.cc:164-170 | Second locked section: the charge goes without underflow, and so may the entry |
| ExecutionPriorityTheorems.ExecuteIsSafe | src/core/execution_priority.cc:206-308 | In a priority mode permission to execute implies that no peer of higher priority has any work, none of lower priority has work on the device, nothing is unknown, and the command is the one observed |
| ExecutionPriorityTheorems.NobodyStalls | src/core/execution_priority.cc:206-308 | In every mode, with work present and nothing unknown, some peer may execute or some peer is on the device |
| ExecutionPriorityTheorems.LowerWorkRetreats | src/core/execution_priority.cc:292-304 | Below a peer with work nobody executes, and whoever is on the device is asked to retreat unless a held reservation needs its progress |
| ExecutionPriorityTheorems.UnknownStopsAll | src/core/execution_priority.cc:278-279 | One unknown peer quarantines every decision |
| ExecutionPriorityTheorems.ProfileIsExclusive | src/core/execution_priority.cc:262-284 | Profile mode lets at most one peer execute, and none while anything is on the device |
| ExecutionPriorityTheorems.ProgressIsExact | src/core/execution_priority.cc:246-257 | Progress is authorised only as the exact tuple of a reservation that a peer on the device holds |
| ExecutionPriorityTheorems.PairNarrows | src/core/execution_priority.cc:132-200 | A pair plan grants nothing while anything is on the device or unknown, and lets exactly its grants execute, each of which the ordinary plan let execute under the same command |
| ExecutionPriorityTheorems.PairKeepsProgress | src/core/execution_priority.cc:173-179 | A pair plan leaves a peer its exact progress if and only if the ordinary plan did not let that peer execute outright |
| ExecutionPriorityTheorems.PairCanDropProgress | src/core/execution_priority.cc:173-179 | A concrete snapshot on which a peer with usable progress is left waiting by a pair plan that grants nothing |
| ExecutionPriorityTheorems.RebalanceNarrows | src/core/execution_priority.cc:77-130 | A rebalance is the ordinary plan, or lets nobody execute, asks exactly its legs and those already asked to retreat, and keeps every exact progress |
| IdleWindowRuns.LowGrantsWait | src/core/execution_priority.cc:31-75 | Over every run: after an issue at or above the threshold, after such work seen running in a snapshot with nothing unknown in it, and after waiting high-priority work or unknown state seen while the window runs, no peer below the threshold may execute before a whole undisturbed quiet spell of the configured duration |
| IdleWindowRuns.QuietSpellReopens | src/core/execution_priority.cc:57-63 | At the end of such a spell the ordinary plan applies in full |
| IdleWindowRuns.WindowNarrows | src/core/execution_priority.cc:64-73 | Applied to any plan, the window lets execute only whom the plan did, under the same command, and changes nothing for peers at or above the threshold |
| IdleWindowRuns.WindowRemembers | src/core/execution_priority.cc:41-63 | After any of these events the window is open only if a whole quiet spell has passed since, and a running spell began at a quiet observation since |
| IdleWindowRuns.ActivityCanGoUnnoticed | src/core/execution_priority.cc:41-47 | A concrete pair of snapshots: high-priority work runs beside an unknown peer, and the next snapshot lets a peer below the threshold execute |
| IdleWindowRuns.ActivityUnnoticedIff | src/core/execution_priority.cc:41-55 | After high-priority work was seen on the device, the next snapshot can let a peer below the threshold execute exactly when the first had an unknown peer in it and the window was not running |
| IdleWindowRuns.LowAloneExecutes | src/core/execution_priority.cc:31-75 | A window that is not running lets a peer below the threshold execute when it is alone and ready |
| IdleWindowRuns.GrantsLowOnlyWhenOpen | src/core/execution_priority.cc:31-75 | A peer below the threshold executes only at a quiet observation that leaves the window open |
| IdleWindowRuns.NextIs | src/core/execution_priority.cc:31-75 | How activity, disturbance, quiet and ignored events move the window |
| ExecutionPriorityModel.Highest | src/core/execution_priority.cc:239-244 | The maximum over the competing peers: an upper bound, attained, and absent exactly when nobody competes |
| ExecutionPriorityLoops.PlanPeers | src/core/execution_priority.cc:206-308 | Refines the ordinary plan |
| ExecutionPriorityLoops.CheckPeers | src/core/execution_priority.cc:216-245 | Decides whether sessions, observations and commands are well formed, and finds the highest competing priority |
| ExecutionPriorityLoops.CheckPeer | src/core/execution_priority.cc:223-238 | Decides whether one peer's observed epoch and command are well formed |
| ExecutionPriorityLoops.IsNewSession | src/core/execution_priority.cc:218-221 | Whether no earlier peer has this session |
| ExecutionPriorityLoops.CheckProgress | src/core/execution_priority.cc:246-257 | Decides whether every dependency is that of a held reservation |
| ExecutionPriorityLoops.CheckLowerRunning | src/core/execution_priority.cc:258-261 | Whether work of lower priority is on the device |
| ExecutionPriorityLoops.FindProfilePeer | src/core/execution_priority.cc:262-271 | The one peer of profile mode, paused work first |
| ExecutionPriorityLoops.FillDecisions | src/core/execution_priority.cc:272-306 | One decision per peer, as the mode demands |
| ExecutionPriorityLoops.FindPeer | src/core/execution_priority.cc:252-253 | The first peer of the session, or none when there is none |
| ExecutionPriorityLoops.CheckUnknown | src/core/execution_priority.cc:42 | Whether any peer is unknown |
| ExecutionPriorityLoops.CheckRunning | src/core/execution_priority.cc:263-264 | Whether any peer is on the device |
| ExecutionPriorityLoops.PlanTwo | src/core/execution_priority.cc:132-200 | Refines the pair plan |
| ExecutionPriorityLoops.CheckLeg | src/core/execution_priority.cc:143-158 | Decides whether a leg names the current command and measured configuration of a peer |
| ExecutionPriorityLoops.WithholdAll | src/core/execution_priority.cc:175-179 | Every ordinary permission and command is withheld |
| ExecutionPriorityLoops.GrantLegs | src/core/execution_priority.cc:180-199 | Refines granting both shared legs or the serial one |
| ExecutionPriorityLoops.PlanCheckpoint | src/core/execution_priority.cc:77-130 | Refines the rebalance plan |
| ExecutionPriorityLoops.CheckRetreatLegs | src/core/execution_priority.cc:85-97 | Decides whether all legs are distinct running peers of one priority |
| ExecutionPriorityLoops.CheckTrigger | src/core/execution_priority.cc:98-109 | Decides whether the trigger is a fresh ready command of that priority outside the legs |
| ExecutionPriorityLoops.NamesLeg | src/core/execution_priority.cc:124-128 | Whether the session is one of the legs |
| ExecutionPriorityLoops.WithholdForCheckpoint | src/core/execution_priority.cc:113-128 | New starts are withheld, exact progress kept, legs asked to retreat |
| ExecutionPriorityLoops.IdleWindow.constructor | src/core/execution_priority.cc:6-8 | A window without history |
| ExecutionPriorityLoops.IdleWindow.Note | src/core/execution_priority.cc:14-18 | Refines noting an issue |
| ExecutionPriorityLoops.IdleWindow.RemainingTime | src/core/execution_priority.cc:20-25 | The time left of a running spell |
| ExecutionPriorityLoops.IdleWindow.CheckMatches | src/core/execution_priority.cc:36-40 | Decides whether the plan is for these peers and time has not gone back |
| ExecutionPriorityLoops.IdleWindow.Observe | src/core/execution_priority.cc:46-52 | High-priority work on the device is activity; any high-priority work is reported |
| ExecutionPriorityLoops.IdleWindow.ApplyTo | src/core/execution_priority.cc:31-75 | Refines applying the window to a plan |
| ExecutionPriorityLoops.IdleWindow.HoldBack | src/core/execution_priority.cc:64-73 | Exactly the executions below the threshold are held back, exact progress kept |
| TaskAdmissionTheorems.LeasesAgree | src/control/task_admission.cc:41-168 | In every state of every run through the service with tracking on, active leases are exactly the running tasks, and pending leases exactly the queued tasks together with those a failed dispatch ended |
| TaskAdmissionTheorems.ExactWithoutLoss | src/control/task_admission.cc:41-168 | As long as no claim loses its task, pending leases are exactly the queued tasks |
| TaskAdmissionTheorems.LosesIff | src/core/scheduler.cc:223-270 | A dispatch loses the task it selected exactly when one of its allocations fails |
| TaskAdmissionTheorems.LostGrows | src/control/task_admission.cc:121-168 | A task is lost exactly by a claim whose dispatch fails to allocate, and stays lost |
| TaskAdmissionTheorems.LeftBehindForever | src/control/task_admission.cc:231-259 | The pending lease of a lost task is never removed, although the task is over |
| TaskAdmissionTheorems.ALeaseCanBeLeftBehind | src/control/task_admission.cc:121-139 | A concrete run: a submission, then a claim whose dispatch fails to allocate, after which the task has failed and its pending lease is still there |
| TaskAdmissionTheorems.OnlyTheSubmitter | src/control/task_admission.cc:351-436 | In process-bound mode completing, failing or keeping alive succeeds if and only if the task runs and the caller is its submitter |
| TaskAdmissionTheorems.ClaimsAreOwned | src/control/task_admission.cc:141-168 | In process-bound mode only the submitter can claim, and its claim is never undone for ownership |
| TaskAdmissionTheorems.ReapEnds | src/control/task_admission.cc:438-526 | Reaping cancels the expired waiting task or fails the expired running one it picks and drops the lease; a lease left behind is only renewed |
| TaskAdmissionTheorems.NotReapedEarly | src/control/task_admission.cc:438-466 | A running task is not reaped within the timeout after its lease was granted or renewed |
| TaskAdmissionTheorems.HeldOn | src/control/task_admission.cc:351-369 | No later step shortens a lease while the clock does not go back |
| TaskAdmissionTheorems.NextSound | src/control/task_admission.cc:41-526 | Every call of the service keeps agreement, ownership and the scheduler's invariant |
| TaskAdmissionTheorems.RunSound | src/control/task_admission.cc:41-526 | They hold in every state of every run |
| TaskAdmissionTheorems.InitialSound | src/control/task_admission.cc:24-39 | They hold before any task |
| TaskAdmissionTheorems.DispatchTaskIs | src/core/scheduler.cc:175-207 | Dispatch by id goes through with the policy's selection exactly when that selection is the wanted task |
| TaskAdmissionTheorems.SubmitSound | src/control/task_admission.cc:41-98 | Submission keeps them, the cancelled registration included |
| TaskAdmissionTheorems.ClaimSound | src/control/task_admission.cc:121-168 | Both claims keep them, whichever allocation fails |
| TaskAdmissionTheorems.ReapSound | src/control/task_admission.cc:438-526 | Reaping keeps them |
| TaskAdmissionState.TaskAdmission.constructor | src/control/task_admission.cc:24-39 | A new service over a new scheduler |
| TaskAdmissionState.TaskAdmission.SubmitTask | src/control/task_admission.cc:41-98 | Refines submission: the task is cancelled again when registration or recording fails |
| TaskAdmissionState.TaskAdmission.Cancel | src/control/task_admission.cc:100-109 | Refines cancellation in either live state |
| TaskAdmissionState.TaskAdmission.CancelQueued | src/control/task_admission.cc:111-119 | Refines cancellation of a waiting task |
| TaskAdmissionState.TaskAdmission.Record | src/control/task_admission.cc:231-294 | Refines recording the lease of a dispatched task |
| TaskAdmissionState.TaskAdmission.ClaimAny | src/control/task_admission.cc:121-139 | Refines claiming the next task |
| TaskAdmissionState.TaskAdmission.ClaimTask | src/control/task_admission.cc:141-168 | Refines claiming a task by id |
| TaskAdmissionState.TaskAdmission.KeepAlive | src/control/task_admission.cc:351-369 | Refines the heartbeat |
| TaskAdmissionState.TaskAdmission.End | src/control/task_admission.cc:371-427 | Refines completion and failure |
| TaskAdmissionState.TaskAdmission.FindExpired | src/control/task_admission.cc:447-465 | Some expired lease, or proof that there is none |
| TaskAdmissionState.TaskAdmission.ReapExpired | src/control/task_admission.cc:438-526 | Refines reaping, for whichever lease the map yields |
| TaskAdmissionState.TaskAdmission.ReapWaiting | src/control/task_admission.cc:468-490 | Refines reaping a waiting task |
| TaskAdmissionState.TaskAdmission.ReapRunning | src/control/task_admission.cc:491-526 | Refines reaping a running task |
| TaskAdmissionState.TaskAdmission.SettleLease | src/control/task_admission.cc:506-516 | The lease goes with its task, or gets another deadline |
| LaunchTrackerTheorems.ExactlyOneCall | src/interceptor/launch_completion_tracker.cc:36-290 | In every reachable state every batch ever opened is in the map without a gate call, or is gone with exactly one |
| LaunchTrackerTheorems.CompleteIsEarned | src/interceptor/launch_completion_tracker.cc:197-230 | A batch is completed only if it was closed, nothing in it failed or was lost, and every event in it succeeded and was destroyed |
| LaunchTrackerTheorems.PendingAndBatches | src/interceptor/launch_completion_tracker.cc:52-69 | Every pending launch has a batch, and every closed batch in the map has a pending launch |
| LaunchTrackerTheorems.PolledIsPending | src/interceptor/launch_completion_tracker.cc:199-234 | The launch being finalized is still pending under its own batch, so the branch for a missing batch is never taken |
| LaunchTrackerTheorems.StopAnswersAll | src/interceptor/launch_completion_tracker.cc:265-290 | After stopping, every batch has had exactly one call |
| LaunchTrackerTheorems.NextSound | src/interceptor/launch_completion_tracker.cc:36-290 | Every locked section of callers and monitor keeps the invariant, in any interleaving |
| LaunchTrackerTheorems.RunSound | src/interceptor/launch_completion_tracker.cc:36-290 | The invariant holds in every state of every run |
| LaunchTrackerTheorems.TrackKeeps | src/interceptor/launch_completion_tracker.cc:52-74 | Tracking keeps it, whichever allocation fails |
| LaunchTrackerTheorems.CloseKeeps | src/interceptor/launch_completion_tracker.cc:84-113 | Closing keeps it |
| LaunchTrackerTheorems.FailKeeps | src/interceptor/launch_completion_tracker.cc:115-142 | Failing keeps it, the call without a batch included |
| LaunchTrackerTheorems.PickKeeps | src/interceptor/launch_completion_tracker.cc:146-162 | Polling and stopping keep it |
| LaunchTrackerTheorems.FinalizeKeeps | src/interceptor/launch_completion_tracker.cc:197-234 | Finalizing keeps it |
| LaunchTrackerTheorems.SweepKeeps | src/interceptor/launch_completion_tracker.cc:275-289 | The sweep keeps it and leaves no batch |
| LaunchTrackerTheorems.CompletionEarned | src/interceptor/launch_completion_tracker.cc:226-230 | A closed batch that has not failed and has nothing pending has seen all its events succeed |
| LaunchTrackerTheorems.FinalizeIs | src/interceptor/launch_completion_tracker.cc:197-234 | Finalizing is marking the batch failed if it went badly, removing the launch, and ending the batch if that was the last |
| LaunchTrackerTheorems.EmptySound | src/interceptor/launch_completion_tracker.cc:15-17 | A new tracker satisfies the invariant |
| LaunchTrackerState.LaunchTracker.constructor | src/interceptor/launch_completion_tracker.cc:15-17 | A new tracker |
| LaunchTrackerState.LaunchTracker.AnyPending | src/interceptor/launch_completion_tracker.cc:97-99 | Whether the task has a pending launch |
| LaunchTrackerState.LaunchTracker.MarkLost | src/interceptor/launch_completion_tracker.cc:126-130 | Exactly the task's launches are marked |
| LaunchTrackerState.LaunchTracker.OpenBatch | src/interceptor/launch_completion_tracker.cc:122-123 | A batch for the task, new only if there was none |
| LaunchTrackerState.LaunchTracker.EndBatch | src/interceptor/launch_completion_tracker.cc:135-136 | The batch leaves the map and one call is owed |
| LaunchTrackerState.LaunchTracker.TrackLaunch | src/interceptor/launch_completion_tracker.cc:52-69 | Refines the locked section of tracking, each exception included |
| LaunchTrackerState.LaunchTracker.Close | src/interceptor/launch_completion_tracker.cc:84-113 | Refines closing, with the call it owes |
| LaunchTrackerState.LaunchTracker.FailTask | src/interceptor/launch_completion_tracker.cc:115-142 | Refines failing, with the call it owes |
| LaunchTrackerState.LaunchTracker.FailOpen | src/interceptor/launch_completion_tracker.cc:124-137 | Refines failing an existing batch |
| LaunchTrackerState.LaunchTracker.PickNext | src/interceptor/launch_completion_tracker.cc:147-162 | Refines picking the next launch in turn; the index is always in range |
| LaunchTrackerState.LaunchTracker.LeavePending | src/interceptor/launch_completion_tracker.cc:189-192 | Refines the monitor leaving a launch whose event is not ready |
| LaunchTrackerState.LaunchTracker.FindPending | src/interceptor/launch_completion_tracker.cc:201-205 | The launch with this task and sequence, or none when there is none |
| LaunchTrackerState.LaunchTracker.FinalizeLaunch | src/interceptor/launch_completion_tracker.cc:194-237 | Refines finalizing; the batch is always there |
| LaunchTrackerState.LaunchTracker.SettleBatch | src/interceptor/launch_completion_tracker.cc:211-230 | Refines judging the batch and ending it if that was the last launch |
| LaunchTrackerState.LaunchTracker.RemoveLaunch | src/interceptor/launch_completion_tracker.cc:201-210 | Exactly the polled launch leaves, and the index stays in range |
| LaunchTrackerState.LaunchTracker.BeginStopping | src/interceptor/launch_completion_tracker.cc:265-269 | Refines the start of stopping |
| LaunchTrackerState.LaunchTracker.SweepAll | src/interceptor/launch_completion_tracker.cc:275-289 | Refines the sweep in whatever order the map yields; nothing is left |
| ReplyCodecTheorems.DecodesWhatItEncodes | src/control/execution_protocol.cc:468-552 | Decoding what was encoded gives the same reply, whenever encoding succeeds |
| ReplyCodecTheorems.EncodesWhatItDecodes | src/control/execution_protocol.cc:468-552 | Encoding what was decoded gives the same bytes, for all accepted bytes within the limit |
| ReplyCodecTheorems.NothingIsAmbiguous | src/control/execution_protocol.cc:507-552 | Two byte strings that decode alike are equal |
| ReplyCodecTheorems.DecodedIsValid | src/control/execution_protocol.cc:507-552 | Decoded arguments are not empty, in order, disjoint and inside the parameter block, and the reply satisfies every rule of its disposition |
| ReplyCodecTheorems.ArgumentsAreDisjoint | src/control/execution_protocol.cc:33-38 | The chained check gives order, disjointness and containment of all pairs, without wrap-around |
| ReplyCodecTheorems.ArgumentsDecode | src/control/execution_protocol.cc:530-538 | Valid arguments survive encoding and decoding |
| ReplyCodecTheorems.ArgumentsEncode | src/control/execution_protocol.cc:501-503 | Decoded arguments encode to the bytes they came from |
| ReplyCodecTheorems.FixedDecodes | src/control/execution_protocol.cc:512-518 | The eight fixed fields survive encoding and decoding |
| ReplyCodecTheorems.FixedEncodes | src/control/execution_protocol.cc:492-500 | The eight fixed fields encode to the bytes they came from |
| ReplyCodecTheorems.SignRoundTrip | src/control/execution_protocol.cc:527-528 | Reinterpreting the sign is a bijection |
| ReplyCodecModel.IntegerOfBytes | src/control/execution_protocol.cc:11-21 | A value below 256 to the n survives n little-endian bytes |
| ReplyCodecModel.BytesOfInteger | src/control/execution_protocol.cc:11-21 | n bytes are the little-endian form of the integer they stand for |
| ReplyCodec.PayloadWriter.constructor | src/control/execution_protocol.cc:314 | An empty payload under its limit |
| ReplyCodec.PayloadWriter.AppendInteger | src/control/execution_protocol.cc:18-21 | The shifting loop appends exactly the little-endian bytes |
| ReplyCodec.PayloadWriter.WriteWord | src/control/execution_protocol.cc:339-348 | Writes four bytes exactly when they fit, otherwise nothing |
| ReplyCodec.PayloadWriter.WriteLong | src/control/execution_protocol.cc:349-358 | Writes eight bytes exactly when they fit, otherwise nothing |
| ReplyCodec.PayloadWriter.WriteBlob | src/control/execution_protocol.cc:359-371 | Writes length and bytes exactly when both fit, otherwise nothing |
| ReplyCodec.PayloadReader.constructor | src/control/execution_protocol.cc:378-379 | A reader at the beginning |
| ReplyCodec.PayloadReader.ReadInteger | src/control/execution_protocol.cc:11-16 | The shifting loop computes exactly the little-endian value |
| ReplyCodec.PayloadReader.ReadWord | src/control/execution_protocol.cc:380-385 | Reads four bytes exactly when they are there, otherwise nothing |
| ReplyCodec.PayloadReader.ReadLong | src/control/execution_protocol.cc:386-391 | Reads eight bytes exactly when they are there, otherwise nothing |
| ReplyCodec.PayloadReader.ReadBlob | src/control/execution_protocol.cc:392-398 | Reads exactly as many bytes as the length says, if they are there |
| ReplyCodec.EncodeReply | src/control/execution_protocol.cc:468-506 | Refines encoding: fails exactly for a reply that is not valid or does not fit |
| ReplyCodec.CheckArguments | src/control/execution_protocol.cc:485-490 | Decides the chained validity of the arguments |
| ReplyCodec.WriteHeader | src/control/execution_protocol.cc:491-500 | Writes the fixed fields exactly when all fit |
| ReplyCodec.WriteWords | src/control/execution_protocol.cc:492-496 | Writes four words exactly when all fit |
| ReplyCodec.WriteLongs | src/control/execution_protocol.cc:497-498 | Writes three long fields exactly when all fit |
| ReplyCodec.WriteArguments | src/control/execution_protocol.cc:501-503 | Writes all arguments exactly when all fit |
| ReplyCodec.DecodeReply | src/control/execution_protocol.cc:507-552 | Refines decoding, every refusal included |
| ReplyCodec.ReadFixed | src/control/execution_protocol.cc:512-518 | Reads the fixed fields exactly when all are there |
| ReplyCodec.ReadArguments | src/control/execution_protocol.cc:529-538 | Refines reading the arguments |
| ReplyCodec.Check | src/control/execution_protocol.cc:33-38 | Decides the validity of one argument |
| ReplyCodec.EndOf | src/control/execution_protocol.cc:536 | The end of a valid argument lies after the previous one and inside the block |

## Left out

- Queue wait and service time statistics, observers, logging, heartbeat timestamps of processes and of launches, and the read-only usage and statistics calls: they do not influence the state machines.
- Ownership of `QuotaReservation` objects: a handle is a value in its task's record; move construction, move assignment and `abandon` are not modelled, destruction is modelled when a task is forgotten.
- A failure to lock the ledger's own mutex while a reservation is cancelled is not modelled.
- Scheduling policies are an enumeration of four values; the fallback for an unsupported value is not modelled.
- Fork handling, unlock failures with their rollback, the health flag, reservation tokens and their bookkeeping inside one process (`active_reservation_ids`; a call names its device record and bytes instead), and opening, naming, mapping and removing a region: only the locked sections on a ready region are modelled.
- The retry of a reservation that exceeded the quota, after one recovery: it is a reservation, a recovery and a reservation, each of which is modelled.
- SharedQuotaSystem.Judge: a process is found dead only if it is dead; that the liveness test eventually finds every dead process is not stated (what follows once two recoveries have found it is, in `TwoReclaimsEnd`).
- Retained host storage of the submission queue (`allocate_host_storage`), its snapshot counters, and the process check after a fork.
- Entries of the submission queue are values in a sequence, found by their sequence number; that the source shares them by pointer with a releasing thread appears as the bytes in flight.
- Waiting for a claim (`wait_claim`) is a loop around the modelled claim; its condition variable and state generation are left out, and so are dispatches and completions observed from outside the service.
- TaskAdmissionModel times are unbounded naturals; the submission and start times kept for observers are left out.
- The tracker's event creation, recording and destruction are calls to the driver: their results are inputs, and a track call that fails is followed by the modelled failure of its task as a separate step. A gate call counts as made in the step that owes it.
- Allocation failures inside the codec, which make it return nothing, are left out, and so are string fields and all other messages of the protocol.
- CUDA, NVML and symbol interception, sockets, text protocols and endpoints, the other wire codecs, small quota wrappers, the adaptive controller and the executors: foreign calls, forwarding or repetition of the above.
