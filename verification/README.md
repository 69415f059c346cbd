# SMP3 multipath core, modelled and proved in Dafny

SMP3 carries one byte stream over several unreliable carrier connections ("legs"). This project models the
parts of its `core/` package that are hardest to get right and proves what they promise, for every input,
every run and every interleaving:

- **The reliable stream** (`StreamRx`, `StreamTx`, `TxRetirement`, `AckReport`, `TxLedger`, `StreamSession`): the
  receive window, the transmit ledger with its per-leg accounting and cumulative-ACK retirement, and the whole session
  of sender, receiver and a network that loses, repeats and reorders frames.
- **Dispatch and repair** (`Repair`, `Dispatch`, `DispatchSafety`, `DispatchRetirement`, `DispatchCallers`,
  `PendingQueues`): queue calls, leg writers, carrier failures and same-ID replacements over that ledger, the
  goroutines that make the calls under each scheduler, the retry planner and the bounded repair batch.
- **Coordinated drain** (`DrainEndpoint`, `DrainProtocol`, `DrainCompletion`, `DrainLingering`, `DrainAgent`): the
  two-party commit protocol that removes a leg, between two endpoints and an unreliable message set.
- **Bounded rescue** (`RescueWindow`, `RescueBudget`, `RescueInvariant`, `RescueRun`, `RescueManager`): the byte
  budget for rescue copies, with its sliding window, burst token and one-per-epoch rule.
- **Admission and assignment** (`Admission`, `Assigner`): probation of slow legs and the weighted assigner.
- **Bounded caches** (`RttCache`, `DatagramDedup`, `CapacityRegistry`), each against a simple unbounded
  specification.

`Prelude` and `Sorting` hold shared definitions. Code that only computes is a function. An object that the source
updates in place is a class whose methods are tied, field by field, to a function of the old state; what the source
promises is then proved about those functions. Protocols and concurrent code are step systems: one mutex-protected
method, one completed frame write or one delivered message is one step, and theorems range over every sequence of
steps. Times are integer nanoseconds and counters are unbounded integers, so that "never wraps" is a theorem; rates
and weights are reals.

Some promises hold only under a condition. Each has its condition proved exact, for all inputs:

- the reorder limit is never hit (`OverflowIffWindowTooLarge`);
- a gracefully retired leg stays free of records (`StaysCleanIff`, with a run that breaks it in
  `OvertakenCallDirties`, and the same run as the callers make it in `OvertakenReaderDirties`);
- under the aggregation scheduler every record has someone to send it (`OrphanedIff`, with runs that break it in
  `MoverOrphans` and `HintOrphans`; `OrphanedForever` says that nothing mends them);
- drains without carrier failures always leave a leg open (`LegLeftIff`, with runs that break it in `LastLegLetGo` and
  `StaleStartLetsGo`: under the drain lock the guard counts registered carriers, and a closed one lingers in the
  registry);
- the rescue budget's counters, and its observer's, are those of the last 60 s (`CountersMatchHistory`,
  `ObserverAgrees`). `LateOriginalLingers` breaks it with an original stamped before the one it follows, which the
  budget accepts. The engine never makes that call: txLoop alone records originals, with clock stamps in order, and for
  such runs `InTimeCountersMatch` and `InTimeDecisionsMatch` hold without a condition;
- one rescue write per epoch (`OneWritePerEpochIff`);
- the byte cap of a recovering leg (`ByteCapIff`);
- no datagram ID is delivered twice (`NeverAgainIff`).

## Model

| member | source | states |
|---|---|---|
| `StreamRx.RxWindow.constructor` | core/stream_rx.go:54-62 | a new window expects ordinal 0 and retains nothing |
| `StreamRx.RxWindow.Insert` | core/stream_rx.go:64-85 | classification and new window of one arriving frame: late, duplicate, ready, buffered or over the reorder limit |
| `StreamRx.RxWindow.CommitReady` | core/stream_rx.go:89-98 | the frontier moves by one exactly when a frame was ready |
| `StreamRx.RxWindow.PopContiguous` | core/stream_rx.go:102-114 | the frame at the frontier, if retained, leaves the window and becomes ready |
| `StreamRx.RxWindow.RefreshGapAt` | core/stream_rx.go:143-154 | the gap clock starts with a gap, restarts when the gap moves and stops when it closes |
| `StreamRx.RxWindow.DeliverRun` | core/stream_engine.go:4486-4626 | rxLoop's inner loop hands out the whole contiguous run behind a ready frame, in order, and nothing else |
| `StreamRx.RxWindow.Receive` | core/stream_engine.go:4486-4626 | one turn of rxLoop: a gap-filling frame is delivered with the run behind it, anything else delivers nothing, and no deliverable frame stays behind |
| `StreamRx.InsertKeeps` | core/stream_rx.go:64-85 | the byte counter stays the sum of the retained payloads, retained ordinals stay above the frontier, at most MaxReorderFrames are retained, and the limit is reported exactly for a new frame that finds the window full |
| `StreamRx.CommitKeeps` | core/stream_rx.go:89-98 | committing keeps the same invariant |
| `StreamRx.PopKeeps` | core/stream_rx.go:102-114 | popping keeps it, and the byte counter never underflows |
| `StreamRx.InsertOutsideTheLoopStrands` | core/stream_rx.go:64-114 | counterexample: an insert between a commit and the last pop loses the window's consistency, so rxLoop's discipline is needed |
| `StreamRx.RunIsMaximal` | core/stream_rx.go:102-114 | a delivered run is gapless and ends at the first missing ordinal |
| `StreamRx.RunAndRestPartition` | core/stream_rx.go:102-114 | run and rest account for every retained frame once |
| `TxLedger.Ledger.constructor` | core/stream_tx.go:241-256 | an empty ledger satisfies the ledger invariant |
| `TxLedger.Ledger.Add` | core/stream_tx.go:310-332 | the next ordinal is assigned to a new, unclaimed, unowned record |
| `TxLedger.Ledger.ClaimTransit` | core/stream_tx.go:437-459 | an ordinary claim succeeds exactly for an outstanding record not already claimed |
| `TxLedger.Ledger.ClaimRescue` | core/stream_tx.go:464-517 | a rescue claim succeeds exactly for an outstanding record of that owner, not already rescued and not in transit on that leg |
| `TxLedger.Ledger.NoteRescueQueued` | core/stream_tx.go:521-546 | the cooldown starts exactly for the attempt still claimed or already sent |
| `TxLedger.Ledger.EndLocalEnqueue` | core/stream_tx.go:1067-1072 | the record becomes visible to the retry planner |
| `TxLedger.Ledger.AbandonAttempt` | core/stream_tx.go:556-576 | only the attempt with that leg and start time is cleared |
| `TxLedger.Ledger.CommitAttemptSent` | core/stream_tx.go:595-642 | a completed write frees its claim and records the newest send |
| `TxLedger.Ledger.Invalidate` | core/stream_tx.go:655-713 | every claim and last send of the failed leg is wiped, whatever the map order, and nothing else |
| `TxLedger.Ledger.OutstandingForLeg` | core/stream_tx.go:353-368 | the number of outstanding records that depend on the leg |
| `TxLedger.Ledger.Assign` | core/stream_tx.go:887-924 | ownership moves and both legs' counters move with it |
| `TxLedger.Ledger.MarkAdmitted` | core/stream_tx.go:860-872 | admission takes a record's bytes out of its owner's pending count once |
| `TxLedger.Ledger.ApplyACK` | core/stream_tx.go:729-828 | the retiring loop computes the specified retirement and report, for future, stale and advancing ACKs |
| `StreamTx.CountersNeverUnderflow` | core/stream_tx.go:860-924 | per leg 0 <= pending <= ordinary bytes and frames >= 0, so no unsigned subtraction wraps |
| `StreamTx.AddKeepsSound` | core/stream_tx.go:313-332 | adding keeps `outstanding` exactly [ackedNext, nextSequence) and every leg's counters equal to its sums |
| `StreamTx.AssignKeepsSound` | core/stream_tx.go:887-924 | so does every assignment and reassignment |
| `StreamTx.AdmitKeepsSound` | core/stream_tx.go:860-872 | and every admission |
| `StreamTx.Invalidated` | core/stream_tx.go:655-713 | one record after its leg failed: claims and last send on that leg gone, owner and payload kept |
| `TxRetirement.AckKeepsSound` | core/stream_tx.go:729-828 | an ACK keeps the ledger invariant, classifies itself exactly and retires exactly the ordinals below it |
| `TxRetirement.RetireTotals` | core/stream_tx.go:729-828 | released count and retired bytes are those of the retired range |
| `TxRetirement.RetireJudgesOnce` | core/stream_tx.go:729-828 | each retired owned record gets exactly one of the five verdicts, at its owner |
| `TxRetirement.RetireCreditsOnce` | core/stream_tx.go:729-828 | the acked bytes attributed to the legs add up to those of the retired records that name a leg, once each |
| `TxRetirement.AckReportIsExact` | core/stream_tx.go:729-828 | the totals of an advancing ACK's report: records and bytes retired, one verdict for each record a leg stops owning, and attributed bytes, never more than the retired ones |
| `AckReport.LegBytesAreExact` | core/stream_tx.go:756-775 | per leg, AckedBytes and SampleBytes are the sums over the retired records credited to it, and over the clean ones among them |
| `AckReport.LegProofsAreExact` | core/stream_tx.go:778-813 | per leg, each of the five verdicts counts exactly the retired records it applies to, and UniqueBytes are the bytes of the proven ones |
| `AckReport.LegAgesAreExact` | core/stream_tx.go:795-801 | FeedbackMin and FeedbackMax are attained bounds of the positive proof ages, and zero exactly when there is none |
| `AckReport.LegSampleStartIsExact` | core/stream_tx.go:769-774 | SampleAssignedMin is the earliest assignment among the sampled records, or unset when there is none |
| `AckReport.LegGenerationIsLast` | core/stream_tx.go:789-790 | UniqueGeneration is that of the last record the leg measured |
| `StreamSession.StepKeeps` | core/stream_engine.go:4072-4223 | every step of sender, network and receiver keeps the two-sided session invariant |
| `StreamSession.PrefixDelivery` | core/stream_engine.go:4486-4626 | in every run the four frontiers never cross, delivered bytes are the concatenation of the first payloads entered in the ledger, and no undelivered record is retired |
| `StreamSession.DeliveryIsMaximal` | core/stream_engine.go:4486-4626 | while rxLoop waits, everything that arrived without a gap has been delivered and acknowledged |
| `StreamSession.CloseIsComplete` | core/stream_engine.go:1650-1695 | a CLOSE exists only after everything was delivered, is never rejected, and its acceptance means the whole log was read |
| `StreamSession.DrainedKeeps` | core/stream_engine.go:1878-1927 | the drain before CLOSE ends only with TX stopped and nothing outstanding |
| `StreamSession.CloseKeeps` | core/stream_engine.go:3520-3534 | a CLOSE always names the receive frontier when it arrives |
| `StreamSession.TokensConserved` | core/stream_engine.go:1777-1870 | tokens = outstanding + held + retired but unreleased, so the window never exceeds MaxInflightFrames |
| `StreamSession.OverflowIffWindowTooLarge` | core/stream_rx.go:72-84 | the reorder-limit failure is reachable exactly when MaxInflightFrames >= MaxReorderFrames + 2 |
| `Repair.PlanRetries` | core/stream_repair.go:32-49 | exactly the records nobody holds and not last sent on a live leg, once each, lowest first |
| `Repair.RepairWhen` | core/stream_repair.go:80-101 | an overdue frontier is repaired exactly with one live leg or with its own leg live, its own leg is avoided when there are others, and a leg to use exists |
| `Repair.InsertBounded` | core/stream_repair.go:117-131 | the in-place bounded insertion keeps the eight lowest of those seen |
| `Repair.CollectLowest` | core/stream_repair.go:111-132 | whatever the map order, the eight lowest eligible records in ascending order |
| `Repair.CutToBudget` | core/stream_repair.go:133-143 | the longest prefix within the byte budget, the first record always kept |
| `Repair.RestrictedBatch` | core/stream_repair.go:106-146 | nothing unless the frontier is the oldest record and owned; otherwise that prefix of those eight |
| `Repair.LowestIsUnique` | core/stream_repair.go:111-132 | there is only one list of the eight lowest |
| `Repair.BatchIsDetermined` | core/stream_repair.go:106-146 | two visits of the map in any orders return the same batch |
| `DispatchSafety.SentEffect` | core/stream_tx.go:595-642 | a commit takes effect exactly when the lane is claimed on that leg, whatever its start time |
| `DispatchSafety.InvalidateEffect` | core/stream_engine.go:3557-3602 | invalidation wipes exactly the failed leg's claims and last sends |
| `DispatchSafety.BeginSafe` | core/stream_engine.go:2554-2562 | a queue call that found its carrier open, on a lane nobody has, meets no live attempt of that lane there; that its callers enter no other lane is `DispatchCallers.EntersFreeLane` |
| `DispatchSafety.ClaimSafe` | core/stream_engine.go:2567-2570 | a claim made after the carrier failed is still held by its call |
| `DispatchSafety.EndCallSafe` | core/stream_engine.go:2572-2664 | a call that ends either leaves its claim with the open carrier's writer or withdraws it, and never takes another's |
| `DispatchSafety.CommitSafe` | core/stream_engine.go:3384-3385 | a writer's late commit never marks a record sent on a carrier already invalidated |
| `DispatchSafety.LegStepSafe` | core/stream_engine.go:990-1031 | attach, close, unregister, invalidate, exit and drain steps keep every claim and last send attended |
| `DispatchSafety.NoStrandedData` | core/stream_repair.go:32-49 | in every run every outstanding record is in local enqueue, held by a call, the attached generation's writer or a pending invalidation, last sent on the present carrier of an available leg, or planned for retry |
| `DispatchSafety.QuietClaims` | core/stream_engine.go:3557-3602 | with no queue call in progress every claim is with the one attached generation's writer or about to be wiped |
| `DispatchRetirement.OwnClaimsKept` | core/stream_engine.go:2554-2664 | until a queue call claims, its lane is free; from then on the lane's claim is the call's own or gone |
| `DispatchRetirement.DrainedLegIsClean` | core/stream_coordinated_drain.go:857-877 | after a graceful retirement no outstanding record was last sent on the leg, and one depends on it exactly while a leftover queue call holds its claim or once a stale choice of the assigner has made the leg its owner |
| `DispatchRetirement.StaysCleanIff` | core/stream_coordinated_drain.go:857-877 | the leg stays free of records in every continuation until another carrier attaches, if and only if no such call or choice is left over |
| `DispatchRetirement.RetiredLegStaysClean` | core/stream_coordinated_drain.go:857-877 | so it does when no queue call and no choice names the leg at its retirement |
| `DispatchRetirement.OvertakenCallDirties` | core/stream_engine.go:2554-2570 | counterexample: a call that checked a carrier before its failure, replacement and the replacement's retirement claims a record on the retired leg |
| `DispatchCallers.EntersFreeLane` | core/stream_engine.go:2554-2570 | a queue call looks only at its carrier before it claims, and yet under the static and adaptive schedulers neither the application reader nor the retransmit loop ever enters a lane that is claimed or in a call |
| `DispatchCallers.TurnKeeps` | core/stream_engine.go:3751-3768 | every turn of reader, retry plan and rescue plan is one step of the dispatch system, or none, and keeps each lane with one caller |
| `DispatchCallers.CallersRefine` | core/stream_engine.go:1832-1858 | every run of these callers is a run of the dispatch system, so its theorems hold of them |
| `DispatchCallers.CallersStrandNothing` | core/stream_engine.go:3700-3735 | in every run of the callers every outstanding record is attended to |
| `DispatchCallers.OvertakenReaderDirties` | core/stream_engine.go:2554-2570 | counterexample, as a run of the callers: the application reader checks a carrier for its record and claims the record there after the carrier failed and its replacement was retired |
| `PendingQueues.StepKeeps` | core/stream_assignment_debug.go:326-450 | every step of planner, pending queues, feeders, movers of failed carriers and retransmit loop keeps custody: each record is retired, admitted, hinted, dropped or in a place, and its lane is taken only by the call that has it |
| `PendingQueues.OneHolder` | core/stream_assignment_debug.go:362-416 | in every run a record is in one place at most, and there once: the planner, one pending queue, one feeder or one mover |
| `PendingQueues.EntersFreeLane` | core/stream_assignment_debug.go:418-450 | in every run a feeder enters only a free lane: unclaimed, in no retry call, and with nobody else holding the record |
| `PendingQueues.AcceptedOnce` | core/stream_engine.go:2598-2602 | in every run a record is admitted by its feeder, or accepted by the startup hint, at most once |
| `PendingQueues.OrphanedIff` | core/stream_assignment_debug.go:326-360 | in every run an outstanding record has nobody left to make a queue call for it if and only if a mover found no carrier for it or the reader placed it by its startup hint, because the retransmit loop passes every unadmitted record by |
| `PendingQueues.OrphanedForever` | core/stream_assignment_debug.go:136-143 | whatever follows, such a record stays so until an ACK covers it, and a free lane of it is never claimed again |
| `PendingQueues.MoverOrphans` | core/stream_assignment_debug.go:337-341 | counterexample: a carrier fails with a record in its pending queue, and the mover that popped it finds no other carrier and returns |
| `PendingQueues.HintOrphans` | core/stream_engine.go:3053-3065 | counterexample: a record placed by the startup hint has no assignment, and is passed by after its carrier failed |
| `PendingQueues.RetryEntersTakenLane` | core/stream_engine.go:3751-3764 | counterexample: the retry plan is made before its pending records are left out, so the retransmit loop can enter a lane a feeder has just taken; under this scheduler only the feeders enter free lanes alone |
| `DrainAgent.Agent.constructor` | core/stream_engine.go:836-845 | an endpoint starts without legs and operations |
| `DrainAgent.Agent.Schedule` | core/stream_engine.go:2554-2562 | new DATA goes exactly to a registered carrier that is neither closed nor behind its barrier |
| `DrainAgent.Agent.Close` | core/stream_engine.go:593-602 | a closed connection takes no more DATA but leaves its carrier registered, and no drain invariant breaks |
| `DrainAgent.Agent.Detach` | core/stream_engine.go:3557-3573 | handling a carrier's failure takes it out of the registry and leaves its drain operation to end by itself |
| `DrainAgent.Agent.HasControlLeg` | core/stream_coordinated_drain.go:417-426 | whether another open carrier can take control frames |
| `DrainAgent.Agent.AskDrain` | core/stream_coordinated_drain.go:138-158 | the checks before the lock: an open target, another registered leg and another open carrier for control frames; nothing but the question itself is remembered |
| `DrainAgent.Agent.StartDrain` | core/stream_coordinated_drain.go:159-187 | under the drain lock a drain starts only with two registered legs free of operations and the very carrier asked about still registered and open, and then with the barrier up |
| `DrainAgent.Agent.HandleControl` | core/stream_coordinated_drain.go:531-632 | only a message of the active operation, from the peer generation it first heard, on its own carrier has an effect; the first must find the carrier open |
| `DrainAgent.Agent.Answer` | core/stream_coordinated_drain.go:586-625 | which flag each message kind sets, and which make the operation terminal |
| `DrainAgent.Agent.AcceptIntent` | core/stream_coordinated_drain.go:634-684 | duplicate, conflicting, replayed, refused (closed carrier or too few registered ones) and accepted intents |
| `DrainAgent.Agent.IsReady` | core/stream_coordinated_drain.go:428-443 | ready means registered, open, barred and idle |
| `DrainAgent.Agent.SetCommit` | core/stream_coordinated_drain.go:249-262 | the initiator commits exactly an operation that is ready on both sides, announced and without error |
| `DrainAgent.Agent.AbortDrain` | core/stream_coordinated_drain.go:779-817 | an uncommitted drain restores a carrier that still stands, a committed one gives it up |
| `DrainAgent.Agent.ForceRecovery` | core/stream_coordinated_drain.go:846-855 | forced recovery closes and unregisters a carrier that still stands and never reopens it |
| `DrainAgent.Agent.RetireLeg` | core/stream_coordinated_drain.go:857-877 | retirement happens exactly when the carrier is ready |
| `DrainAgent.Agent.CompleteAcknowledged` | core/stream_coordinated_drain.go:357-405 | an acknowledged drain retires a ready carrier, waits for a closed one to leave the registry, and counts it as retired once it has left idle |
| `DrainAgent.Agent.RetireRemote` | core/stream_coordinated_drain.go:735-745 | the responder's last act |
| `DrainEndpoint.AdvanceSound` | core/stream_coordinated_drain.go:586-632 | every flag change keeps the endpoint invariant: ready means idle, committed means ready and barred |
| `DrainEndpoint.AbortSound` | core/stream_coordinated_drain.go:779-817 | aborting keeps it |
| `DrainEndpoint.RetireSound` | core/stream_coordinated_drain.go:857-877 | retiring keeps it |
| `DrainProtocol.StepKeeps` | core/stream_coordinated_drain.go:531-632 | every step of either endpoint keeps the two-sided invariant: nothing is done on a commitment the peer has not made |
| `DrainProtocol.CommitIsFinal` | core/stream_coordinated_drain.go:779-855 | once a side has set commitSent or commitRequested it never schedules DATA on that carrier again, whatever follows |
| `DrainProtocol.RetiredOnBothSides` | core/stream_coordinated_drain.go:686-763 | a carrier retired by one side is open for DATA on neither and carries nothing either way |
| `DrainProtocol.GuardLeavesOpen` | core/stream_coordinated_drain.go:160-163 | the guard on registered carriers leaves an open one, even while finished operations linger, unless a closed carrier lingers |
| `DrainProtocol.LiveKeptIff` | core/stream_coordinated_drain.go:634-684 | a step without failure leaves an endpoint without an open carrier exactly when it opens a drain of the last, its own or the peer's |
| `DrainProtocol.LegLeftIff` | core/stream_coordinated_drain.go:657-678 | without carrier failures or abandoned commits, for drains from both sides in any interleaving: an open carrier is left throughout the run if and only if every operation it opens finds another one open |
| `DrainProtocol.AlwaysALegLeft` | core/stream_coordinated_drain.go:657-678 | so without failures, and if no intent arrives and no drain takes its lock while a closed carrier lingers in the registry, an endpoint that had a carrier always has one open for DATA |
| `DrainLingering.LastLegLetGo` | core/stream_coordinated_drain.go:657-678 | counterexample, with every message read from a carrier both sides hold: without any failure an endpoint that is draining one carrier accepts a drain of its last open one, while the closed one of the drain before is still registered |
| `DrainLingering.StaleStartLetsGo` | core/stream_coordinated_drain.go:147-163 | counterexample: a drain that found another carrier open takes the lock after that carrier was drained, and the last open one is barred |
| `DrainCompletion.DrainCanComplete` | core/stream_coordinated_drain.go:138-319 | from every state in which both sides can spare the idle carrier and share another one, some run without failures retires it on both, each message sent and read on an open carrier |
| `RescueBudget.ExemptionNeedsPositiveEvidence` | core/stream_bounded_rescue.go:86-118 | exactly which evidence exempts a copy, and restriction never matters |
| `RescueWindow.RatioIsFloor` | core/stream_bounded_rescue.go:1130-1133 | the split ratio is floor(bytes * basis points / 10000) |
| `RescueWindow.PruneCounts` | core/stream_bounded_rescue.go:1097-1128 | pruning keeps a counter equal to its queue's total, whatever the queue's order, and its saturating subtractions never saturate |
| `RescueWindow.PruneExactIff` | core/stream_bounded_rescue.go:1097-1128 | pruning leaves every byte after the cutoff, and none but those if and only if no older bytes stand behind a newer event |
| `RescueWindow.EventWindow.PruneBefore` | core/stream_bounded_rescue.go:1097-1128 | the two pruning loops |
| `RescueWindow.EventWindow.Scan` | core/stream_bounded_rescue.go:449-465 | the observer's saturating sums over both queues |
| `RescueInvariant.AffordableBound` | core/stream_bounded_rescue.go:652-689 | an affordable payload keeps accepted + reserved within quota + remaining burst, in debt or not |
| `RescueInvariant.ReserveBalances` | core/stream_bounded_rescue.go:652-717 | Reserve keeps every byte account, and in full mode leaves the budget within its quota |
| `RescueInvariant.RemoveBalances` | core/stream_bounded_rescue.go:873-1006 | settling or releasing moves each byte to accepted or released and never overdraws the burst token |
| `RescueInvariant.RemovalNeverSaturates` | core/stream_bounded_rescue.go:995-1006 | releasing a reservation never finds its counters too small |
| `RescueInvariant.RemoveLinks` | core/stream_bounded_rescue.go:979-993 | pending entries and reservations stay in bijection when one is removed |
| `RescueInvariant.AckWires` | core/stream_bounded_rescue.go:1008-1044 | an ACK keeps the bijection and keeps acknowledged records only for pending copies |
| `RescueRun.RunAccounts` | core/stream_bounded_rescue.go:873-1006 | in every run burstCommitted + burstReserved <= BurstBytes, reserved counters are sums, and reserved = released + accepted + outstanding |
| `RescueRun.RunAdmission` | core/stream_bounded_rescue.go:652-717 | after any run, a full-mode admission leaves accepted + reserved <= floor(original * bp / 10000) + BurstBytes - burstCommitted |
| `RescueRun.RunRecords` | core/stream_bounded_rescue.go:1008-1044 | in every run a record below the ACK frontier has a pending reservation, and pending entries match reservations one to one |
| `RescueRun.CountersMatchHistory` | core/stream_bounded_rescue.go:1097-1128 | after any run, with time stamps in any order: the accepted counter is the sum over the complete history of the last 60 s; the original counter is at least that, and exactly that if and only if no older bytes were recorded after newer ones |
| `RescueRun.LateOriginalLingers` | core/stream_bounded_rescue.go:1097-1108 | counterexample for the budget alone: an original stamped before the one it follows stays counted after its 60 s |
| `RescueRun.DecisionMatchesHistory` | core/stream_bounded_rescue.go:652-689 | so Reserve grants everything the complete history affords, and nothing else unless originals were recorded out of order |
| `RescueRun.InTimeCountersMatch` | core/stream_engine.go:1834-1836 | with originals in the order of their stamps, as txLoop records them, both counters are the sums over the complete history of the last 60 s |
| `RescueRun.InTimeDecisionsMatch` | core/stream_engine.go:1834-1836 | and Reserve grants exactly what that history affords |
| `RescueRun.ObserverAgrees` | core/stream_bounded_rescue.go:449-487 | what the non-mutating observer approves Reserve approves; its sums are Reserve's if and only if no older bytes stand behind a newer original, and then so is its verdict |
| `RescueRun.OneWritePerEpochIff` | core/stream_bounded_rescue.go:734-794 | each (sequence, generation, epoch) starts at most one rescue write in every run exactly outside C-only mode |
| `RescueManager.Manager.constructor` | core/stream_bounded_rescue.go:315-347 | an empty budget, valid: counters are the sums they stand for and pending entries match reservations |
| `RescueManager.NewManager` | core/stream_bounded_rescue.go:315-347 | a budget exactly for an acceptable configuration |
| `RescueManager.Manager.RecordOriginal` | core/stream_bounded_rescue.go:370-403 | new state and verdict for an original; valid as long as the window's bytes fit 64 bits |
| `RescueManager.Manager.Reserve` | core/stream_bounded_rescue.go:538-717 | new state and decision, check by check, keeping the budget valid |
| `RescueManager.Manager.RollingBudgetEligible` | core/stream_bounded_rescue.go:449-487 | the observer computes the specified verdict |
| `RescueManager.Manager.BeginWrite` | core/stream_bounded_rescue.go:734-794 | which reservations may start writing, and what becomes of the others |
| `RescueManager.Manager.RevalidateBeforeWrite` | core/stream_bounded_rescue.go:815-868 | a queued copy stays, turns exempt or is canceled |
| `RescueManager.Manager.Settle` | core/stream_bounded_rescue.go:873-956 | accepted bytes are charged base first, the rest released, over-acceptance clamped |
| `RescueManager.Manager.Release` | core/stream_bounded_rescue.go:960-977 | only an unstarted reservation can be released |
| `RescueManager.Manager.AckThrough` | core/stream_bounded_rescue.go:1008-1038 | the deleting loop over the records, in any order |
| `Admission.ProbationBound` | core/stream_admission.go:691-888 | in every run the states exclude each other, a pending probe means restricted, and byteLimit - probe + proofBytes <= bytes confirmed since the probe |
| `Admission.RecoveringExposure` | core/stream_admission.go:214-230 | a recovering leg takes another record only with less on it than its probe plus what was confirmed, and with no byte allowance only when nothing is on it; never beyond the frame limit |
| `Admission.OnlyProofGraduates` | core/stream_admission.go:691-888 | the only step to normal is a fresh unique ACK while recovering |
| `Admission.NoShortcut` | core/stream_admission.go:395-461 | a leg seen restricted and later normal has met such an ACK in between |
| `Admission.ByteCapIff` | core/stream_admission.go:1255-1266 | the byte allowance stays under its hard cap in every run exactly when a chunk is at most 16 MiB |
| `Admission.RampKeeps` | core/stream_admission.go:851-888 | widening spends the proof that pays for it and respects both caps |
| `Admission.Table.OrdinaryAssigned` | core/stream_admission.go:280-346 | a restricted leg's record starts a probe worth its own bytes |
| `Admission.Table.ProbeWriteStarted` | core/stream_admission.go:395-424 | only an unexpired probe's own write opens recovery |
| `Admission.Table.CancelPendingProbe` | core/stream_admission.go:425-439 | a reassigned probe ends without recovery |
| `Admission.Table.ExpirePendingProbe` | core/stream_admission.go:441-461 | a probe past its pre-write budget starts a new restricted cycle |
| `Admission.Table.Rejoin` | core/stream_admission.go:466-510 | a new carrier generation keeps no proof of the old one |
| `Admission.Table.MayTake` | core/stream_admission.go:214-230 | when a restricted, recovering or normal leg may take one more record |
| `Admission.Table.RestrictOrdinary` | core/stream_admission.go:552-579 | restriction starts a new epoch and drops all proof |
| `Admission.Table.AdmissionAck` | core/stream_admission.go:623-920 | both passes over the legs and the new cohort for a graduate's peers |
| `Admission.Prove` | core/stream_admission.go:691-888 | one leg's decisions in their order: stale, too slow, graduated or widened |
| `Assigner.Choose` | core/stream_assignment_debug.go:249-264 | the usable leg with the lowest score, the lowest ID on ties, none exactly when none is usable |
| `Assigner.ReweighKeepsFinish` | core/stream_assignment_debug.go:235-247 | a weight change leaves the normalized finish where it was |
| `Assigner.StepKeepsLag` | core/stream_assignment_debug.go:199-264 | assignment, weight change and epoch each keep the lag bound |
| `Assigner.LagBound` | core/stream_assignment_debug.go:199-264 | over any run no finish leads another by more than the largest payload over the least weight |
| `Assigner.FairSinceEpoch` | core/stream_assignment_debug.go:216-232 | since an epoch began, bytes gained per unit of weight differ by at most that |
| `Assigner.CallIsSteps` | core/stream_assignment_debug.go:199-315 | a whole call on a fresh record is a run of those steps |
| `Assigner.AssignKeepsLag` | core/stream_assignment_debug.go:159-323 | a call of Assign that takes no unadmitted record from another owner keeps the lag bound, from a fresh scheduler on |
| `Assigner.CallsKeepLag` | core/stream_assignment_debug.go:159-323 | over any sequence of such calls and graduation epochs, with whatever weights and epochs they bring, no finish leads another by more than the largest payload over the least weight |
| `Assigner.SettleKeepsAccounts` | core/stream_assignment_debug.go:278-315 | assignment, reassignment and the unaccounted move of an admitted record keep service equal to the records charged |
| `Assigner.ReleaseNeverUnderflows` | core/stream_assignment_debug.go:303-305 | the rollback of a reassigned record never wraps |
| `Assigner.Scheduler.Assign` | core/stream_assignment_debug.go:159-323 | the owner kept, the epoch, the weight update, the choice and the accounting of one call; no leg is returned exactly when none is usable or an unadmitted record is gone |
| `Assigner.Scheduler.StartEpoch` | core/stream_admission.go:928-946 | a graduation rebases every leg that has weight, and each of them starts level |
| `RttCache.CacheEqualsFullView` | core/stream_rtt_probe_cache.go:422-464 | after any samples in any time order the cache is the newest five, by time then arrival, within 30 s of the newest ever recorded |
| `RttCache.FeedbackIsMedianOfNewest` | core/stream_rtt_probe_cache.go:357-403 | feedback is absent exactly when none of them is fresh, else the true median of the fresh ones, dated by the newest of them |
| `RttCache.MedianIsMedian` | core/stream_rtt_probe_cache.go:387-402 | the middle of the sorted samples is the median by rank counts |
| `RttCache.SampleCache.Record` | core/stream_rtt_probe_cache.go:422-464 | the window edge, the filter, the in-place sort and the cut |
| `RttCache.SampleCache.ReadFeedback` | core/stream_rtt_probe_cache.go:370-402 | the read path computes the specified feedback |
| `Sorting.InsertionSort` | core/stream_rtt_probe_cache.go:449-457 | the in-place loop leaves the stably sorted list |
| `DatagramDedup.DedupWindow.AcceptDatagramID` | core/datagram_engine.go:518-552 | verdict and new window of one datagram |
| `DatagramDedup.DedupMatchesHistory` | core/datagram_engine.go:518-552 | within the window of the maximum an ID is accepted exactly when it never was before; stripe mode never rejects a fresh ID; the window stays within 2 * DedupWindow |
| `DatagramDedup.NeverTwice` | core/datagram_engine.go:518-552 | no replicable datagram is accepted twice in any run |
| `DatagramDedup.NeverAgainIff` | core/datagram_engine.go:518-552 | for every configuration and size, no run delivers an ID again in a datagram of that size if and only if datagrams of that size may be replicated |
| `CapacityRegistry.Registry.Open` | core/carrier_capacity.go:80-112 | pruned, one reference per named leg, pruned again; every named entry is present and dated now |
| `CapacityRegistry.Registry.Prune` | core/carrier_capacity.go:115-132 | only unreferenced entries go, the idle ones always and others only above the limit |
| `CapacityRegistry.Registry.ObserveDemand` | core/carrier_capacity.go:169-205 | a provider's unfinished demand and its entry's backlog move by what it produced and may retire |
| `CapacityRegistry.Registry.Close` | core/carrier_capacity.go:352-382 | closing returns all references and all unfinished demand, once, and dates the entries it named |
| `CapacityRegistry.OpenKeeps` | core/carrier_capacity.go:80-112 | refs stay the open references and backlog the unfinished demand of every entry |
| `CapacityRegistry.DemandKeeps` | core/carrier_capacity.go:169-205 | observing demand keeps both, and the saturating subtraction never saturates |
| `CapacityRegistry.CloseKeeps` | core/carrier_capacity.go:352-382 | so does closing, for references and backlog alike |
| `CapacityRegistry.DropAllDates` | core/carrier_capacity.go:352-382 | the idle time starts for exactly the entries the provider named |
| `CapacityRegistry.PruneKeeps` | core/carrier_capacity.go:115-132 | pruning removes no entry an open provider uses |

## Left out

- Goroutines, channels, tickers, contexts and connections: nondeterministic steps stand for them, and nothing is said about real time or eventual progress beyond `DrainCanComplete`.
- HMAC and SHA-256, HELLO and READY negotiation and the frame codecs: messages are already authenticated values; of the codec only the rule that Ready, Commit and CommitAck carry no outstanding frames is kept.
- Telemetry, trace hooks, benchmark switches and diagnostics: they only observe.
- Estimators of rate, capacity and feedback: `Admission` takes their verdicts with each ACK, `Assigner` takes weights, and `CapacityRegistry` counts references and backlog but not demand rates.
- RTT probing itself (tokens, pending probes, bindings and generations of core/stream_rtt_probe_cache.go): only recording samples and reading feedback are modelled, on one binding and direction.
- Head-of-line correction of the assigner and the recovery-probe calls it makes: the choice is the uncorrected best leg.
- Client, front end, panel, configuration parsing and scripts.
- StreamSession.PrefixDelivery: the session takes a frame write and a delivery as single steps; which leg carries a frame does not matter to it, and `Dispatch` models legs.
- DispatchSafety.NoStrandedData: an attempt is named by its start time, taken from a clock that moves with every claim.
- DispatchCallers.CallersRefine: the callers of the static and adaptive schedulers; the aggregation scheduler also runs the decoupled assigner's feeders, a third caller, and `PendingQueues` models who answers for a record there, without the claims, writers and carriers of `Dispatch`.
- DispatchCallers.CallersStrandNothing: under the aggregation scheduler it fails, see `PendingQueues.OrphanedIff`.
- PendingQueues.OrphanedForever: speaks of ordinary queue calls; with dynamic capacity the frontier rescue may still copy an orphan at the frontier. Queue capacities and wake-ups only delay a step, and are not modelled.
- DrainProtocol.RetiredOnBothSides: retirement and forced recovery close a carrier and unregister it in one step; everywhere else the two are steps of their own.
- DrainProtocol.LegLeftIff: an abandoned commit on a carrier that still stands counts as a carrier failure, because it closes the carrier for the peer too.
- DrainAgent.Agent.AcceptIntent: the replay high-water mark is not claimed to be monotone, since a conflicting intent overwrites it.
- RescueWindow.EventWindow.PushAccepted: the heap of accepted events is the list in which it would be popped; its array layout is not modelled.
- RescueRun.RunAccounts: like every theorem of that module it speaks of runs in which the window never holds 2^64 bytes of originals, where the counter of the source would wrap.
- RescueRun.CountersMatchHistory: read at a time not before the latest stamp seen; an earlier reading would miss what has been pruned since.
- RescueManager.Manager.Reserve: candidate links, per-target byte counts and rejection statistics are not kept.
- Admission.NoShortcut: eventual graduation is not claimed; a new carrier generation zeroes the byte allowance that the ramp needs positive.
- Assigner.LagBound: like `CallsKeepLag` it speaks of stretches with every leg selectable, no path penalty and no unadmitted record taken from another owner; floating-point rounding is not modelled.
