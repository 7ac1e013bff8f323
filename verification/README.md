# Agent delivery and snapshot protocol

Three parts of trace-flow in Dafny, with proofs of what they promise.

**Deliveries and snapshots** (`apps/agent-consumer`). One coordinator per organization hands out
increasing sequence numbers and lets the earliest active delivery write. Writes mark days dirty and
link the two days of every fact that moves. A gate drains the deliveries and captures whole connected
components of complete dirty days as a numbered generation; a runner drives external Copies under a
leased claim and publishes the days. The published tables are a cache over a versioned store of facts,
kept right by a state machine that failures, takeovers, expiry, operators and erasure interrupt.

**The trace batcher** (`apps/proxy-consumer`). A durable queue that sends each trace at most once to
each target and loses none, although an insert that fails may or may not have taken effect.

**Two loops of agent ingest** (`apps/agent-ingest`). Packing facts into messages of bounded JSON size,
and collapsing the rows of one identity.

## How the files build on each other

- `Contract` holds limits; `DayGraph` defines connectivity and the reference selection;
  `DirtyGraphSelection` is the worklist search proved against it; `CopyPlan` is the chunk plan and the
  cursor keys.
- `CoordinatorModel` gives each public call as a function on the tables. `CoordinatorInvariants`,
  `CoordinatorRuns`, `CoordinatorSafety` and `CoordinatorFaults` prove what holds of every call and of
  every run. `CoordinatorObject` is the object: methods that update the tables in the order of the
  coordinator's transactions and are proved to do what the functions say. `CoordinatorReplies` and
  `CoordinatorAcceptance` say call by call when it is accepted, and `WritePermit` that deliveries always get
  their turn.
- `FactStore` is the versioned store, `DeliveryPartitions` the plan of a delivery, `DeliveryWrite` the
  writing of one category and the reading of its receipts.
- `Publication` puts coordinator, store, Copies and manifests into one world of interleaved steps.
  `PublicationInvariants`, `PublicationSnapshots` and `PublicationCalls` prove its invariant,
  `PublicationRuns` what readers can rely on. `SnapshotRounds` and `Draining` show that rounds can always
  be carried through, are few, and end with exactly the days they cannot clear; `Liveness` puts deliveries
  and rounds together. `IncompleteDays` gives the
  exact condition for resolving incomplete days, and `EarlyResolution` a run that breaks it.
- `SnapshotClaims` tells what a claim is worth while others act. `SnapshotRunnerObject` is the runner as a
  method over the coordinator object, with failing calls, lost answers and takeovers; its proof shows
  that it makes only calls the world allows, and intents only under a slot of `GlobalCapacity`. It also shows
  that a calm run, in which nobody else acts and every call is answered, does exactly what `SnapshotTurns`
  computes from the tables and the answers of the Copy service; `RunProgress` proves what such runs add up to.
  `DeliverySteps` and `DeliveryReceipt` do the same for the crash-prone receipt of a delivery, which reaches
  its end unless it names a real obstacle.
  `OrganizationErasure` is one erasure pass.
- `TraceBatcherObject` with `Utf16`, and `FactChunker` with `Utf8` and `FactIdentities`, are the other two parts.

A pause, a crash, a lost reply or an answer from outside is a nondeterministic choice inside a method;
callers know of a pause only what its contract says. A thrown error is a `Refused` reply or an error value.

## Where the code does not keep a stated rule

- Attempt numbers: `isAgentSnapshotCopyAttempt` accepts one number for two generations. Example and exact
  condition: `CopyPlan.AttemptCollisionExample`, `CopyPlan.SharedAttempts`. The generation in the key keeps
  the Copies apart.
- Row order in identity normalisation: rows that agree but have no numeric position are kept by order.
  Example and exact condition: `FactIdentities.TieExample`, `FactIdentities.OrderFreeIffUntied`. Rows with
  numeric positions are never tied.
- Resolving incomplete days: the coordinator accepts any of them, but the facts stay traceable if and only if
  every fact live on a resolved day is indexed there or about to be buried there (`Publication.Resolvable`,
  `IncompleteDays.ResolveKeepsFactsIff`); then no continuation shows a fact twice
  (`IncompleteDays.ResolvedSafely`). Example of the opposite, ending with a fact published on two days:
  `EarlyResolution.ResolvingTooEarlyPublishesTwice`.

## Model

| member | source | states |
|---|---|---|
| DayGraph.SelectIsCapture | apps/agent-consumer/src/agent-delivery-dirty-graph.ts:81-108 | The selection is a union of whole components without an incomplete day; it is empty exactly when no such component exists, always holds the component with the newest last day, has at most 7 days or is exactly that component, and leaves out only components that do not fit |
| DayGraph.ConnectedOutsideClosed | apps/agent-consumer/src/agent-delivery-dirty-graph.ts:111-122 | Deleting the links inside a published capture leaves every other pair of dirty days as connected as before |
| DayGraph.DrainEndsWithStuckDays | apps/agent-consumer/src/agent-delivery-dirty-graph.ts:80-122 | Selecting and clearing again and again ends with exactly the days connected to an incomplete day |
| DirtyGraphSelection.BuildAdjacency | apps/agent-consumer/src/agent-delivery-dirty-graph.ts:71-79 | The adjacency lists hold, for each dirty day, exactly the dirty days a link joins to it |
| DirtyGraphSelection.CollectComponent | apps/agent-consumer/src/agent-delivery-dirty-graph.ts:81-97 | The worklist collects exactly the connected component of its start day, once each |
| DirtyGraphSelection.EligibleParts | apps/agent-consumer/src/agent-delivery-dirty-graph.ts:81-101 | The list holds each component without an incomplete day once, sorted, newest last day first |
| DirtyGraphSelection.SelectSnapshotDirtyDays | apps/agent-consumer/src/agent-delivery-dirty-graph.ts:61-109 | The returned days are ascending and are the reference selection of which SelectIsCapture speaks |
| CopyPlan.SnapshotCopyPlans | apps/agent-consumer/src/snapshot-runner-support.ts:58-75 | The plans cut the days in order into chunks of at most 31 with the attempt number of their place; planning fails exactly when the chunks or attempt numbers run out |
| CopyPlan.PlanAgreesWithCursor | apps/agent-consumer/src/agent-snapshot-progress.ts:236-255 | At every cursor position the key the coordinator computes from the number of days alone is the key of the chunk plan, and it is a valid attempt of its generation |
| CopyPlan.RetainedWindowIsPlannable | apps/agent-consumer/src/agent-delivery-coordinator-contract.ts:2-12 | A full retention window needs at most 12 chunks, so a retained capture can be planned up to the safe range of attempt numbers |
| CopyPlan.KeysAreDistinct | apps/agent-consumer/src/agent-snapshot-progress.ts:243-255 | Different cursor positions of a generation have different keys |
| CopyPlan.ChunkedAttemptsAreDisjoint | apps/agent-consumer/src/snapshot-tinybird.ts:56-73 | Chunked attempts of different generations never collide: the multiplier 16 exceeds 12 chunks |
| CopyPlan.SharedAttempts | apps/agent-consumer/src/agent-delivery-coordinator-contract.ts:14-30 | An attempt number is valid for two generations exactly when the later generation is a chunk attempt of the earlier one |
| CopyPlan.AttemptCollisionExample | apps/agent-consumer/src/agent-delivery-coordinator-contract.ts:14-30 | The smallest collision: attempt 16 is valid for generations 1 and 16 |
| CopyPlan.EveryDayIsCopiedToEveryTarget | apps/agent-consumer/src/snapshot-runner-support.ts:58-75 | For every captured day and target some cursor position copies that day to that target |
| CoordinatorInvariants.StepKeepsInv | apps/agent-consumer/src/agent-delivery-coordinator.ts:118-713 | Every public call, with any arguments at any time, keeps the invariant: frozen capture, one intent at the cursor, matching check, no failure row during a snapshot, incomplete days dirty, at most 64 deliveries with distinct sequences, bounded pending days and links |
| CoordinatorInvariants.LeavingConservesPendingDays | apps/agent-consumer/src/agent-delivery-coordinator.ts:205-221 | A delivery that completes or expires moves its days from in delivery to dirty; the union that the capacity limit counts does not change |
| CoordinatorInvariants.OnlyIntent | apps/agent-consumer/src/agent-ingestion-erasure.ts:87-121 | An outstanding Copy intent is the only one, and it exists only in phase snapshot |
| CoordinatorInvariants.PrepareCheckKeeps | apps/agent-consumer/src/snapshot-checks.ts:79-120 | Counting a check keeps the budgets and the match between check row and cursor |
| CoordinatorInvariants.FailWithKeeps | apps/agent-consumer/src/snapshot-failure.ts:29-36 | Recording a failure after dropping the capture keeps the invariant, so a failure row implies an open gate |
| CoordinatorFaults.ImpossibleFaultsNeverHappen | apps/agent-consumer/src/agent-delivery-coordinator.ts:118-713 | In no run does a call end in one of the errors for inconsistent tables: missing lease or progress, bad cursor, unexpected intent count or link count, a second failure row, a check that does not match its cursor |
| CoordinatorFaults.OneLinkForEachPair | apps/agent-consumer/src/agent-delivery-dirty-graph.ts:146-162 | A table of ordered links over n days holds at most n(n-1)/2 of them, so the node limit implies the link limit |
| CoordinatorRuns.ReachableInv | apps/agent-consumer/src/agent-delivery-coordinator.ts:118-713 | The invariant holds after every run from the empty tables |
| CoordinatorRuns.StepMoves | apps/agent-consumer/src/agent-delivery-coordinator.ts:315-418 | A call leaves the generation alone, begins the next one, advances its cursor by one done settlement of the key at the cursor, or ends it |
| CoordinatorRuns.HistoryHolds | apps/agent-consumer/src/agent-snapshot-progress.ts:146-179 | The keys a run settled as done for a generation are its first keys in cursor order, each once |
| CoordinatorRuns.FinishedMeansEveryCopySettled | apps/agent-consumer/src/agent-delivery-coordinator.ts:380-395 | A generation is finished only after every one of its Copy keys was settled as done, each exactly once and in cursor order, and with no intent outstanding |
| CoordinatorRuns.SettledByClaimHolder | apps/agent-consumer/src/agent-delivery-coordinator.ts:608-633 | Whoever settles a Copy as done holds the claim at that moment, and the settled key is the one at the cursor |
| CoordinatorRuns.EndedGenerationsStayEnded | apps/agent-consumer/src/agent-delivery-snapshots.ts:142-157 | An ended generation is never begun, settled or finished again |
| CoordinatorRuns.GenerationsIncrease | apps/agent-consumer/src/agent-delivery-snapshots.ts:45-92 | Generations begin in strictly increasing order |
| CoordinatorRuns.CaptureIsFrozen | apps/agent-consumer/src/agent-snapshot-progress.ts:236-241 | While a generation is active its days, and so its number of Copies, do not change, and its cursor never goes back |
| CoordinatorSafety.StepEffects | apps/agent-consumer/src/agent-delivery-coordinator.ts:118-713 | What each call may change: reservations keep their sequence and change only under their own name, intents appear only by recording, and only a finished snapshot or a completed erasure clears a retained dirty mark |
| CoordinatorSafety.WritersInSequenceOrder | apps/agent-consumer/src/agent-delivery-reservations.ts:46-52 | The write permit is handed over in sequence order over whole runs, even when deliveries expire out of order |
| CoordinatorSafety.SequenceNamesDelivery | apps/agent-consumer/src/agent-delivery-coordinator-storage.ts:92-114 | A sequence number names one delivery over the whole run |
| CoordinatorSafety.DirtyMarksSurvive | apps/agent-consumer/src/agent-delivery-snapshots.ts:142-171 | Failing, abandoning and re-claiming never lose a dirty mark of a retained day |
| CoordinatorSafety.CountTestMeansEveryDayIncomplete | apps/agent-consumer/src/snapshot-runner.ts:69-70 | In every reachable state the test that there are no more dirty than incomplete days means that every dirty day is incomplete |
| CoordinatorSafety.ErasureFence | apps/agent-consumer/src/agent-ingestion-erasure.ts:199-229 | After an erasure begins, active deliveries and outstanding intents never grow and no generation begins |
| CoordinatorSafety.ErasureReadyIsFinal | apps/agent-consumer/src/agent-ingestion-erasure.ts:203-244 | Once an erasure reported ready, every day, link, capture and progress table stays empty and every later report is ready |
| CoordinatorObject.Coordinator.PruneRetainedDays | apps/agent-consumer/src/agent-delivery-coordinator-storage.ts:159-183 | Removes days and links that left the window, except captured days |
| CoordinatorObject.Coordinator.RecoverExpiredGate | apps/agent-consumer/src/agent-delivery-snapshots.ts:159-171 | Reopens a drain that outlived its lease; a snapshot never expires by itself |
| CoordinatorObject.Coordinator.MarkDirtyDays | apps/agent-consumer/src/agent-delivery-coordinator-storage.ts:141-152 | The days are dirty, and incomplete if asked |
| CoordinatorObject.Coordinator.Reserve | apps/agent-consumer/src/agent-delivery-coordinator.ts:118-154 | Gives a new delivery the next sequence, returns an identical one, refuses a different one, and waits while the gate is closed or 64 are active; over the day limit everything is rolled back |
| CoordinatorObject.Coordinator.AcquireWrite | apps/agent-consumer/src/agent-delivery-coordinator.ts:170-174 | Grants the write exactly to the delivery with the smallest sequence, whatever the gate does |
| CoordinatorObject.Coordinator.ReplaceDirtyDays | apps/agent-consumer/src/agent-delivery-coordinator.ts:176-197 | The writer replaces its days, within the window and the day limit, or nothing changes |
| CoordinatorObject.Coordinator.LinkDirtyDays | apps/agent-consumer/src/agent-delivery-dirty-graph.ts:23-59 | The writer links days of its own plan; over the limits nothing changes |
| CoordinatorObject.Coordinator.PlanWrite | apps/agent-consumer/src/agent-delivery-coordinator.ts:236-251 | Days first, then links, as two transactions: the days stay when the links are refused |
| CoordinatorObject.Coordinator.Complete | apps/agent-consumer/src/agent-delivery-coordinator.ts:205-225 | The delivery is gone and its days are dirty |
| CoordinatorObject.Coordinator.FinishDelivery | apps/agent-consumer/src/agent-delivery-coordinator.ts:253-275 | Completes a reservation that is there and compares its days with the plan; a missing one is a success |
| CoordinatorObject.Coordinator.Expire | apps/agent-consumer/src/agent-delivery-coordinator.ts:277-294 | After its end a delivery leaves with all its days dirty and incomplete |
| CoordinatorObject.Coordinator.ResolveIncompleteDays | apps/agent-consumer/src/agent-delivery-coordinator.ts:296-313 | All given days must be incomplete, then they no longer are |
| CoordinatorObject.Coordinator.RequestSnapshot | apps/agent-consumer/src/agent-delivery-snapshots.ts:20-43 | Starts or continues the drain, or reports the snapshot in progress |
| CoordinatorObject.Coordinator.BeginSnapshot | apps/agent-consumer/src/agent-delivery-snapshots.ts:45-92 | With no delivery active, captures the selected days under the next generation, or reopens the gate when nothing can be captured |
| CoordinatorObject.Coordinator.PrepareManifest | apps/agent-consumer/src/agent-snapshot-progress.ts:46-65 | Stamps the manifest once, after the last Copy |
| CoordinatorObject.Coordinator.FinishSnapshot | apps/agent-consumer/src/agent-delivery-snapshots.ts:114-140 | Clears the captured days and the links inside them, only for the claim holder, after the last Copy and with no intent outstanding |
| CoordinatorObject.Coordinator.FailCapture | apps/agent-consumer/src/agent-delivery-snapshots.ts:142-157 | Drops the capture and keeps every dirty mark |
| CoordinatorObject.Coordinator.FailSnapshot | apps/agent-consumer/src/agent-delivery-coordinator.ts:397-418 | The claim holder gives the generation up, with or without a failure record, unless a Copy is outstanding |
| CoordinatorObject.Coordinator.GetStats | apps/agent-consumer/src/agent-delivery-coordinator.ts:691-713 | Reading the counters recovers an expired drain and prunes |
| CoordinatorObject.Coordinator.ClaimSnapshot | apps/agent-consumer/src/agent-snapshot-progress.ts:67-94 | Takes the claim when it is free, expired or already ours |
| CoordinatorObject.Coordinator.GetProgress | apps/agent-consumer/src/agent-snapshot-progress.ts:125-144 | Tells the claim holder cursor, total and days |
| CoordinatorObject.Coordinator.RenewClaim | apps/agent-consumer/src/agent-snapshot-progress.ts:96-107 | Extends the lease of the claim holder |
| CoordinatorObject.Coordinator.ReleaseClaim | apps/agent-consumer/src/agent-snapshot-progress.ts:109-123 | Ends the lease of the claim holder at once |
| CoordinatorObject.Coordinator.AssertSnapshotActive | apps/agent-consumer/src/agent-delivery-snapshots.ts:94-112 | Holds for the claim holder while every captured day is retained |
| CoordinatorObject.Coordinator.RecordIntent | apps/agent-consumer/src/agent-ingestion-erasure.ts:87-121 | Records the intent of the key at the cursor and starts its check |
| CoordinatorObject.Coordinator.AttachJob | apps/agent-consumer/src/agent-delivery-coordinator.ts:590-606 | Attaches a job to the intent at the cursor, never another one than before |
| CoordinatorObject.Coordinator.SettleIntent | apps/agent-consumer/src/agent-delivery-coordinator.ts:608-633 | A done Copy advances the cursor; a failed one ends the generation with a failure record; all in one transaction |
| CoordinatorObject.Coordinator.RejectIntent | apps/agent-consumer/src/agent-delivery-coordinator.ts:635-653 | A Copy that never started ends the generation with a failure record |
| CoordinatorObject.Coordinator.RemoveIntent | apps/agent-consumer/src/agent-ingestion-erasure.ts:149-197 | Removes the intent whose job matches |
| CoordinatorObject.Coordinator.FailWith | apps/agent-consumer/src/snapshot-failure.ts:29-36 | Ends the generation and records why, or rolls everything back |
| CoordinatorObject.Coordinator.PrepareCheck | apps/agent-consumer/src/snapshot-checks.ts:79-120 | Counts a due check against its budget with growing delays, and blocks when the budget is used up |
| CoordinatorObject.Coordinator.RequireRecovery | apps/agent-consumer/src/agent-delivery-coordinator.ts:470-474 | The next check looks for the job again |
| CoordinatorObject.Coordinator.AbandonUnstarted | apps/agent-consumer/src/snapshot-recovery.ts:20-61 | Retires a generation whose one outstanding Copy an operator proved never started |
| CoordinatorObject.Coordinator.Resume | apps/agent-consumer/src/agent-delivery-coordinator.ts:476-523 | Clears a failure, or unblocks the checks of an expired claim |
| CoordinatorObject.Coordinator.SettleErasureState | apps/agent-consumer/src/agent-ingestion-erasure.ts:203-244 | Reports what keeps an erasure waiting; when nothing does, clears every table |
| CoordinatorObject.Coordinator.BeginErasure | apps/agent-consumer/src/agent-ingestion-erasure.ts:60-70 | Raises the fence once |
| CoordinatorObject.Coordinator.GetErasureState | apps/agent-consumer/src/agent-delivery-coordinator.ts:566-570 | Reports the erasure and settles it when it can |
| CoordinatorObject.Coordinator.AttachErasureJob | apps/agent-consumer/src/agent-delivery-coordinator.ts:655-662 | Attaches a job behind the fence, without a claim |
| CoordinatorObject.Coordinator.SettleErasureIntent | apps/agent-consumer/src/agent-delivery-coordinator.ts:664-674 | Removes an intent behind the fence, without a claim |
| CoordinatorObject.Coordinator.AbandonErasureSnapshot | apps/agent-consumer/src/agent-delivery-coordinator.ts:676-689 | Drops the active capture behind the fence when no Copy is outstanding |
| CoordinatorObject.Coordinator.Handle | apps/agent-consumer/src/agent-delivery-coordinator.ts:118-713 | Serves any call and logs it, so the tables of every object are those of its run |
| WritePermit.GrantedIffEarliest | apps/agent-consumer/src/agent-delivery-coordinator.ts:170-174 | An unexpired delivery with its own payload is granted the write if and only if no active delivery has a smaller sequence; the gate does not matter |
| WritePermit.OthersAreRefused | apps/agent-consumer/src/agent-delivery-reservations.ts:46-52 | An unknown delivery, another payload or a delivery past its end is refused, and nothing changes |
| WritePermit.EveryoneLeaves | apps/agent-consumer/src/agent-delivery-coordinator.ts:170-294 | From any reachable tables the deliveries can all leave by their own calls alone: the earliest asks, is granted, plans and completes, and those past their end expire |
| WritePermit.DrainComesToItsEnd | apps/agent-consumer/src/agent-delivery-snapshots.ts:20-92 | A drain always comes to its end: after such turns no delivery is active and a capture is no longer put off |
| Liveness.NeverStuck | apps/agent-consumer/src/agent-delivery-snapshots.ts:20-140 | From any reachable tables outside a snapshot and an erasure the deliveries can leave in turns, then snapshot calls can publish every day that is not joined to an incomplete one, and then a new delivery is admitted as long as its days fit |
| CoordinatorReplies.AdmittedIff | apps/agent-consumer/src/agent-delivery-coordinator.ts:118-154 | A new delivery is admitted if and only if it is proper, no erasure began, the gate lets it in and deliveries, numbers and days are left; it waits exactly when only the gate or the number of deliveries is in the way |
| CoordinatorReplies.RepeatedIff | apps/agent-consumer/src/agent-delivery-coordinator.ts:118-154 | Asking again gets the same sequence exactly when everything is as it was, and otherwise an error |
| CoordinatorReplies.RequestClosesTheGate | apps/agent-consumer/src/agent-delivery-snapshots.ts:20-43 | After a request for a snapshot nobody is admitted until the lease is over, and then the gate lets in again |
| CoordinatorReplies.NothingToCaptureReopens | apps/agent-consumer/src/agent-delivery-snapshots.ts:59-90 | When nothing can be captured, beginning a snapshot opens the gate and changes nothing else |
| CoordinatorReplies.DeliveriesComeFirst | apps/agent-consumer/src/agent-delivery-snapshots.ts:53-58 | While deliveries are active no snapshot begins |
| CoordinatorReplies.CountersForgetOldDays | apps/agent-consumer/src/agent-delivery-coordinator.ts:691-713 | Reading the counters forgets exactly the days outside the window and opens a gate whose lease is over |
| CoordinatorReplies.ExpiredIff | apps/agent-consumer/src/agent-delivery-coordinator.ts:277-294 | An active delivery is expired exactly at or after its end; before it nothing changes |
| CoordinatorReplies.ResolvedIff | apps/agent-consumer/src/agent-delivery-coordinator.ts:296-313 | Days are resolved exactly when there are some, not too many, and all are incomplete |
| CoordinatorReplies.ClaimedIff | apps/agent-consumer/src/agent-snapshot-progress.ts:67-94 | Whoever asks gets the claim exactly if it is theirs or its lease is over, and then for a whole lease |
| CoordinatorReplies.ClaimIsExclusive | apps/agent-consumer/src/agent-snapshot-progress.ts:67-94 | Over two calls: once a claim is taken nobody else gets it before its lease is over, and everybody can afterwards |
| CoordinatorReplies.RenewedIff | apps/agent-consumer/src/agent-snapshot-progress.ts:96-107 | Exactly the holder of a live claim can renew it, for a whole lease |
| CoordinatorReplies.ReleasedIff | apps/agent-consumer/src/agent-snapshot-progress.ts:109-123 | Exactly the holder of a live claim can give it up, at once |
| CoordinatorReplies.FailedCopyEnds | apps/agent-consumer/src/agent-delivery-coordinator.ts:608-633 | A Copy settled as failed ends its generation: the gate is open, the failure is recorded and every retained mark is kept |
| CoordinatorReplies.RejectedCopyEnds | apps/agent-consumer/src/agent-delivery-coordinator.ts:635-653 | So does a Copy that never started |
| CoordinatorReplies.GivenUpIff | apps/agent-consumer/src/agent-delivery-coordinator.ts:397-418 | The holder of a live claim can give the generation up exactly while no Copy is outstanding |
| CoordinatorReplies.FailureHoldsSnapshots | apps/agent-consumer/src/agent-delivery-coordinator.ts:476-523 | A recorded failure refuses further snapshots until an operator resumes that generation, which leaves nothing of it |
| CoordinatorReplies.CheckedIff | apps/agent-consumer/src/snapshot-checks.ts:79-120 | A check may be made exactly when it is due, not blocked and within fifteen status or three receipt checks; a due check beyond its budget blocks the generation; any other changes nothing |
| CoordinatorReplies.WaitIsDelay | apps/agent-consumer/src/snapshot-checks.ts:104-109 | The waits between checks are ten seconds, half a minute and then a minute, and for receipts one, two, four and five minutes |
| CoordinatorReplies.ResumedCheckIsDue | apps/agent-consumer/src/agent-delivery-coordinator.ts:476-523 | Over three calls: after an operator resumes a blocked generation, whoever takes the claim can check at once |
| CoordinatorReplies.StampedOnce | apps/agent-consumer/src/agent-snapshot-progress.ts:46-65 | Preparing a stamped manifest again changes nothing, so its time is kept |
| CoordinatorReplies.AbandonedIff | apps/agent-consumer/src/snapshot-recovery.ts:20-61 | An operator can retire a generation exactly if its claim is over and its one outstanding Copy has no job and was given up on |
| SnapshotClaims.OtherCallUntouched | apps/agent-consumer/src/agent-snapshot-progress.ts:125-164 | As long as a claim stands and no erasure has begun, no call made without it has moved the cursor, the capture or the intents |
| SnapshotClaims.KeysAreRecordedOnce | apps/agent-consumer/src/agent-ingestion-erasure.ts:87-121 | No Copy key is ever recorded twice in a run, whatever fails, is taken over or erased in between |
| SnapshotClaims.PublishableStays | apps/agent-consumer/src/agent-snapshot-progress.ts:46-65 | A stamped manifest can land at any later time: its generation is then still active or already published |
| SnapshotClaims.OthersSince | apps/agent-consumer/src/snapshot-runner.ts:64-67 | Whatever others do in a pause, a claim that stands after it has lost nothing |
| FactStore.WriteOrderIsIrrelevant | apps/agent-consumer/src/delivery-partitions.ts:39-61 | The order and the repeats of a delivery's writes do not matter: the same rows leave the same store |
| FactStore.RewritingChangesNothing | apps/agent-consumer/src/agent-delivery.ts:296-315 | Writing any of a delivery's rows again after a crash changes nothing |
| FactStore.DeliveryRefinesPlainMap | apps/agent-consumer/src/delivery-partitions.ts:39-61 | The day-partitioned store with tombstones refines a plain map: a delivery in revision order keeps each identity live in one day, with its newest content, and touches no other identity |
| FactStore.SerializedRunsRefinePlainMap | scripts/bench/agent_benchmark_fixture.py:11-14 | Any number of deliveries in revision order do to the store what their updates do to the plain map |
| FactStore.SettledMeansOneDay | apps/agent-consumer/src/delivery-partitions.ts:18-62 | In a settled store an identity is live in at most one day |
| DeliveryPartitions.VersionCategory | apps/agent-consumer/src/delivery-rows.ts:44-87 | One versioned row for each identity; it fails exactly when two rows of one identity differ |
| DeliveryPartitions.DeliveryRows.PreparePartitions | apps/agent-consumer/src/delivery-partitions.ts:18-62 | Fails, leaving the rows as they were, exactly when the index has this or a later revision; else adds a tombstone for each identity indexed on another day and returns all days touched, sorted |
| DeliveryPartitions.DeliveryRows.PartitionLinks | apps/agent-consumer/src/delivery-partitions.ts:64-86 | Fails exactly when a tombstone has no live row on another day; else returns the pairs of old and new day |
| DeliveryPartitions.PreparedLinksAreTheMoves | apps/agent-consumer/src/delivery-partitions.ts:39-86 | Reading the links back from prepared rows never fails and gives exactly the days of the facts that move |
| DeliveryPartitions.PlanDelivery | apps/agent-consumer/src/agent-delivery.ts:261-295 | The whole plan of a delivery: each category gets its rows and the tombstones of those that move, days are all days touched, links are exactly the moved pairs and lie inside the days; the one error is an overtaking revision, which changes nothing |
| DeliveryWrite.DeliveryCategoryIsPresent | apps/agent-consumer/src/delivery-write.ts:42-90 | An error exactly when a receipt is for no row or disagrees in content; else true exactly when the rows have distinct identities and every row its receipt |
| DeliveryWrite.ConfirmedMeansLanded | apps/agent-consumer/src/delivery-write.ts:42-90 | A confirmed category has landed row by row |
| DeliveryWrite.WriteDeliveryCategory | apps/agent-consumer/src/delivery-write.ts:93-114 | The inserts hold every row as often as given, all rows of a day in one insert and in order, and at most 30 days each |
| PublicationInvariants.StartInv | apps/agent-consumer/src/agent-delivery-coordinator-storage.ts:15-65 | The empty world satisfies the invariant behind publication |
| PublicationInvariants.LandKeeps | apps/agent-consumer/src/delivery-write.ts:93-114 | Each single row that lands, at any moment of a planned write, keeps the invariant |
| PublicationSnapshots.RunCopyKeeps | apps/agent-consumer/src/snapshot-runner.ts:156-174 | A Copy job keeps the invariant whenever it runs while its intent is outstanding |
| PublicationSnapshots.PublishKeeps | apps/agent-consumer/src/snapshot-tinybird.ts:190-207 | Publishing the manifest of a fully copied generation keeps every fact visible in one day and linked to where it is now |
| PublicationCalls.ServeKeeps | apps/agent-consumer/src/agent-delivery-coordinator.ts:118-570 | Every coordinator call that the world allows keeps the invariant; it allows every call but beginning an erasure, under the conditions its callers keep to |
| PublicationCalls.NextKeepsInv | apps/agent-consumer/src/snapshot-runner.ts:45-317 | Every step of the whole protocol keeps the invariant, in any interleaving |
| PublicationRuns.FactsAreVisibleInOneDay | apps/agent-consumer/src/agent-delivery-dirty-graph.ts:61-122 | In every run no snapshot table ever shows one fact identity in two days |
| PublicationRuns.MovedFactsStayLinked | apps/agent-consumer/src/delivery-partitions.ts:39-86 | A fact published in one day and stored in another is connected to it by links among dirty or in-delivery days |
| PublicationRuns.CleanDaysAreCoherent | apps/agent-consumer/src/agent-delivery-snapshots.ts:114-140 | A day that is neither dirty nor in an active delivery is published exactly as it is stored |
| PublicationRuns.TablesAlwaysAgree | apps/agent-consumer/src/agent-snapshot-progress.ts:236-255 | All nine snapshot tables always show the same facts of a day |
| PublicationRuns.LaterRevisionNeverFound | apps/agent-consumer/src/delivery-partitions.ts:31-38 | In a serialized run the delivery that holds the write never finds its own or a later revision |
| PublicationRuns.FactsLiveOnceBetweenDeliveries | apps/agent-consumer/src/delivery-partitions.ts:18-62 | Between deliveries a fact is live in two days only if one of them is incomplete |
| PublicationRuns.PublishedTwiceIffLiveTwice | apps/agent-consumer/src/snapshot-tinybird.ts:190-207 | Publishing a fully copied capture shows a fact on two of its days exactly when the store holds it live on both |
| IncompleteDays.ResolveKeepsFactsIff | apps/agent-consumer/src/agent-delivery-coordinator.ts:296-313 | The exact condition of resolving incomplete days: after an accepted call the facts stay traceable if and only if every fact live on a resolved day is indexed there or about to be buried there by the planned writer |
| IncompleteDays.ResolvedSafely | apps/agent-consumer/src/agent-delivery-coordinator.ts:296-313 | When the condition is met, no continuation of the protocol ever shows a fact on two days |
| IncompleteDays.LiveTwiceIsPublishedTwice | apps/agent-consumer/src/agent-delivery-snapshots.ts:45-92 | A fact live on two days that the next snapshot selects can be published on both, by allowed steps alone |
| EarlyResolution.ResolvingTooEarlyPublishesTwice | apps/agent-consumer/src/agent-delivery-coordinator.ts:296-313 | A run from the empty store in which the code accepts the call although the condition fails, and the next snapshot publishes one fact on two days; every other step is allowed |
| PublicationRuns.PlanLinksAreTheMoves | apps/agent-consumer/src/delivery-partitions.ts:64-86 | The links a stored plan asks for are those of the facts that change day |
| Draining.RoundsKeepDrain | apps/agent-consumer/src/agent-delivery-dirty-graph.ts:80-122 | Without new deliveries, snapshot calls never change what draining will leave, and dirty days only shrink |
| Draining.FinishedRoundShrinks | apps/agent-consumer/src/agent-delivery-snapshots.ts:114-140 | Every finished round clears at least one dirty day |
| Draining.DrainingEndsWithStuckDays | apps/agent-consumer/src/agent-delivery-snapshots.ts:45-140 | If, after any rounds, nothing is left to capture, exactly the days that were connected to an incomplete day when draining started are left |
| Draining.FinishedRoundsAreFew | apps/agent-consumer/src/agent-delivery-snapshots.ts:114-140 | In every run of snapshot calls the finished rounds and the dirty days that are left together are at most the dirty days at the start |
| Draining.UnderWayIsFinished | apps/agent-consumer/src/snapshot-runner.ts:136-261 | A round that is under way can be carried to its end from wherever its cursor stands |
| Draining.DrainingCanEnd | apps/agent-consumer/src/agent-delivery-snapshots.ts:45-140 | From any tables without an active delivery, once an old lease is over and while numbers last, some run of snapshot calls ends with exactly the days connected to an incomplete day, in at most as many rounds as it clears days |
| SnapshotRounds.CopiesAreCarried | apps/agent-consumer/src/agent-snapshot-progress.ts:146-179 | Under a live claim all Copies that remain can be recorded, attached and settled one after the other, whether or not one is outstanding already |
| SnapshotRounds.AcceptsClaim | apps/agent-consumer/src/agent-snapshot-progress.ts:67-94 | A claim whose lease is over can be taken, and its holder can go on at the cursor |
| CoordinatorAcceptance.PlannedIff | apps/agent-consumer/src/agent-delivery-coordinator.ts:176-197 | The earliest delivery before its end, and nobody else, may replace its days, by any retained ones within the limit |
| CoordinatorAcceptance.LinkedIff | apps/agent-consumer/src/agent-delivery-dirty-graph.ts:23-59 | It may add exactly links between different retained days of its plan, within the limits |
| CoordinatorAcceptance.PlannedThenLinked | apps/agent-consumer/src/agent-delivery-coordinator.ts:236-251 | Planning with links is planning and then linking: when a link is refused the new days stay |
| CoordinatorAcceptance.CompletedIff | apps/agent-consumer/src/agent-delivery-coordinator.ts:253-275 | Whoever has the payload may complete at any time; the days are dirty then, and only a different plan is an error |
| CoordinatorAcceptance.ProgressIff | apps/agent-consumer/src/agent-snapshot-progress.ts:125-144 | Exactly the holder of a live claim reads the progress, and reads the true days, cursor and total |
| CoordinatorAcceptance.ActiveIff | apps/agent-consumer/src/agent-delivery-snapshots.ts:94-112 | The snapshot is confirmed exactly to the holder of a live claim while every captured day is retained and no erasure began |
| CoordinatorAcceptance.RecordedIff | apps/agent-consumer/src/agent-ingestion-erasure.ts:87-121 | An intent is recorded exactly for the key at the cursor of a live claim while none is outstanding, with a fresh check due in five seconds |
| CoordinatorAcceptance.AttachedIff | apps/agent-consumer/src/agent-delivery-coordinator.ts:590-606 | A job is attached exactly to the outstanding Copy at the cursor, and never another one than before |
| CoordinatorAcceptance.SettledIff | apps/agent-consumer/src/agent-delivery-coordinator.ts:608-633 | A Copy is settled as done exactly with its own job at the cursor of a live claim; then the cursor is one further |
| CoordinatorAcceptance.FailureNeedsItsJob | apps/agent-consumer/src/agent-delivery-coordinator.ts:608-653 | A settlement as failed needs the job of the Copy, and a rejection a Copy without one; else nothing changes |
| CoordinatorAcceptance.ManifestIff | apps/agent-consumer/src/agent-snapshot-progress.ts:46-65 | The manifest is stamped exactly under a live claim, after the last Copy, while every captured day is retained |
| CoordinatorAcceptance.FinishedIff | apps/agent-consumer/src/agent-delivery-snapshots.ts:114-140 | Exactly then the snapshot can be finished |
| CoordinatorAcceptance.FinishClears | apps/agent-consumer/src/agent-delivery-snapshots.ts:114-140 | Finishing clears exactly the captured days and the links inside them, and opens the gate |
| CoordinatorAcceptance.RecoveryIff | apps/agent-consumer/src/agent-delivery-coordinator.ts:470-474 | Exactly the holder of a live claim can ask for the job to be looked for again |
| CoordinatorAcceptance.RequestAnswers | apps/agent-consumer/src/agent-delivery-snapshots.ts:20-43 | A request is answered with the snapshot under way, with the drain if a retained day is dirty, or with an error; a drain that lives keeps its lease |
| CoordinatorAcceptance.ResumedIff | apps/agent-consumer/src/agent-delivery-coordinator.ts:476-523 | An operator may resume exactly a generation that failed, or one whose claim is over and whose check is blocked |
| CoordinatorAcceptance.ErasureBegins | apps/agent-consumer/src/agent-ingestion-erasure.ts:60-70 | An erasure begins once, and it is ready exactly when no delivery, snapshot or Copy is left; then no day or link is |
| CoordinatorAcceptance.ErasureIsReported | apps/agent-consumer/src/agent-delivery-coordinator.ts:566-570 | Asked later it is ready exactly then, and before it has begun nothing is reported |
| CoordinatorAcceptance.ErasureSettles | apps/agent-consumer/src/agent-delivery-coordinator.ts:655-674 | Behind the fence exactly a job that fits is attached, and exactly an intent with its job removed |
| CoordinatorAcceptance.ErasureAbandons | apps/agent-consumer/src/agent-delivery-coordinator.ts:676-689 | The active generation is abandoned exactly once no Copy is outstanding |
| SnapshotRunnerObject.SnapshotRunner.Run | apps/agent-consumer/src/snapshot-runner.ts:45-317 | Whatever fails, is lost or is taken over, the run stays within the allowed steps; a complete result means the generation was published and finished; at most one Copy is started, and only for a generation whose slot was granted. In a calm run result and tables are exactly those of SnapshotTurns.RunTurn, given what the Copy service said |
| SnapshotRunnerObject.SnapshotRunner.Admit | apps/agent-consumer/src/snapshot-runner.ts:58-97 | A run is admitted only with the true days, total and cursor of a generation, as long as its claim stands. When calm it is turned away or admitted exactly as SnapshotTurns.EntryOf says, and an admitted generation can be gone on with |
| SnapshotRunnerObject.SnapshotRunner.TakeClaim | apps/agent-consumer/src/snapshot-runner.ts:64-67 | A claim that is granted comes with the true cursor and days; when calm it is granted exactly if it is ours or its lease is over |
| SnapshotRunnerObject.SnapshotRunner.BeginGeneration | apps/agent-consumer/src/snapshot-runner.ts:78-96 | A begun generation is admitted only once its progress was read back under the claim; when calm it is admitted exactly if something was captured |
| SnapshotRunnerObject.SnapshotRunner.RunGeneration | apps/agent-consumer/src/snapshot-runner.ts:125-261 | It goes on only when the generation was published and finished; it reports expired days only once the claim is gone; it starts at most one Copy, under a granted slot. When calm it ends exactly as SnapshotTurns.GenerationEnds says |
| SnapshotRunnerObject.SnapshotRunner.RunCopies | apps/agent-consumer/src/snapshot-runner.ts:136-233 | The Copies run in cursor order to the end, and the loop terminates because each turn moves the cursor. When calm it stops only at a turn that does not go on |
| SnapshotRunnerObject.SnapshotRunner.RunCopy | apps/agent-consumer/src/snapshot-runner.ts:136-233 | A turn of the loop starts, checks or settles the Copy at the cursor and moves on only after a done settlement. A calm turn ends exactly as the answer of the Copy service says: done moves the cursor, failed ends the generation, anything else is continued later |
| SnapshotRunnerObject.SnapshotRunner.StartNext | apps/agent-consumer/src/snapshot-runner.ts:156-174 | A Copy is submitted only after its intent was accepted, and then the run ends; when calm it is recorded, submitted and its receipt attached, or a rejected one ends the generation |
| SnapshotRunnerObject.SnapshotRunner.RecordCopy | apps/agent-consumer/src/snapshot-runner.ts:144-161 | An accepted intent is for the planned key, and the planned chunk is what the coordinator expects copied |
| SnapshotRunnerObject.SnapshotRunner.CheckJob | apps/agent-consumer/src/snapshot-runner.ts:176-225 | A job counts as done, or as failed, exactly as the service reported it, and as done only when the outstanding Copy has run; when calm the service is asked exactly when a check is due |
| SnapshotRunnerObject.SnapshotRunner.PollJob | apps/agent-consumer/src/snapshot-runner.ts:203-224 | A job that is attached is over exactly if the service reports it done or failed, and is taken for what it reports |
| SnapshotRunnerObject.SnapshotRunner.RecoverJob | apps/agent-consumer/src/snapshot-runner.ts:189-202 | So is a job that was found again, which is attached first |
| SnapshotRunnerObject.SnapshotRunner.ReadIntent | apps/agent-consumer/src/snapshot-runner-support.ts:84-95 | Conflicting intents are seen only by a runner that has lost its claim |
| SnapshotRunnerObject.SnapshotRunner.SettleCopy | apps/agent-consumer/src/snapshot-runner.ts:224-228 | A Copy is settled as done only when its job has run and as failed only when the service reported its job failed; when calm a done one moves the cursor and a failed one ends the generation |
| SnapshotRunnerObject.SnapshotRunner.ReadProgress | apps/agent-consumer/src/agent-delivery-coordinator.ts:333-353 | The progress read under the claim is that of the active generation |
| SnapshotRunnerObject.SnapshotRunner.PublishGeneration | apps/agent-consumer/src/snapshot-runner.ts:235-261 | An expired day means the claim is gone; the manifest is stamped, then published, then the snapshot is finished; when calm this happens exactly if a check may be made and the manifest lands |
| SnapshotRunnerObject.SnapshotRunner.PublishManifest | apps/agent-consumer/src/snapshot-tinybird.ts:190-207 | A manifest row that lands publishes a stamped generation or repeats a published one |
| SnapshotRunnerObject.SnapshotRunner.FinishSnapshot | apps/agent-consumer/src/snapshot-runner.ts:254-261 | Asked for only after publishing; success means the generation is over and published |
| SnapshotRunnerObject.SnapshotRunner.FailSnapshot | apps/agent-consumer/src/snapshot-runner.ts:287-294 | Asked for only while Copies remain, or without a claim that stands |
| SnapshotRunnerObject.SnapshotRunner.WithoutSlot | apps/agent-consumer/src/snapshot-runner.ts:126-134 | Without a slot a calm run gives an untouched generation up, keeping every mark, and continues any other later |
| SnapshotRunnerObject.SnapshotRunner.Conclude | apps/agent-consumer/src/snapshot-runner.ts:299-317 | A calm finish gives the slot back and asks for another run when a complete day is left |
| SnapshotRunnerObject.SnapshotRunner.Recover | apps/agent-consumer/src/snapshot-runner.ts:262-298 | Whatever went wrong, the calls made after it are allowed ones and no completion is reported; when calm a failed generation stays failed and gives its slot back, one under way is continued, and any other is failed |
| SnapshotRunnerObject.RequireCurrent | apps/agent-consumer/src/snapshot-runner-support.ts:84-95 | No intent, the expected one, or a conflict; nothing else |
| SnapshotRunnerObject.ListDays | apps/agent-consumer/src/agent-snapshot-progress.ts:188-234 | The captured days in ascending order, the same list the chunks are cut from |
| SnapshotRunnerObject.ExpiredMeansLost | apps/agent-consumer/src/snapshot-runner-support.ts:77-82 | In a fixed window captured days never expire under a claim that stands |
| SnapshotTurns.OnwardTurn | apps/agent-consumer/src/snapshot-runner.ts:206-233 | A turn that goes on moves the cursor by one and leaves everything else as it was, ready for the next |
| SnapshotTurns.ThrownIsFailedOrReady | apps/agent-consumer/src/snapshot-runner.ts:262-298 | After any error of a calm run its generation has failed, or it can still be gone on with |
| SnapshotTurns.CaptureIsServed | apps/agent-consumer/src/agent-delivery-snapshots.ts:45-92 | Beginning a snapshot with no delivery active either captures a generation that is ready to be run or leaves the gate free |
| RunProgress.DoneCopyGoesOn | apps/agent-consumer/src/snapshot-runner.ts:224-232 | When the job of the outstanding Copy is reported done, the turn goes on with the cursor one further |
| RunProgress.FailedCopyStops | apps/agent-consumer/src/snapshot-runner.ts:224-228 | When it is reported failed, the generation ends with the failure that names the job |
| RunProgress.UnhinderedRunAdvances | apps/agent-consumer/src/snapshot-runner.ts:45-317 | A run with its check due, its slot granted and a cooperating Copy service publishes the generation or starts a further Copy of it |
| RunProgress.ContinuedRunsAreFew | apps/agent-consumer/src/snapshot-runner.ts:45-317 | Over any number of such runs: fewer than twice as many as there are Copies are continued, so the generation is published |
| RunProgress.ErrorsAreRecorded | apps/agent-consumer/src/snapshot-runner.ts:262-298 | An admitted calm run that ends in an error has opened the gate, kept every retained mark and recorded the failure |
| RunProgress.FailureTurnsRunsAway | apps/agent-consumer/src/snapshot-runner.ts:60-61 | A recorded failure turns every later run away |
| RunProgress.DeliveriesAreWaitedFor | apps/agent-consumer/src/snapshot-runner.ts:71-77 | While deliveries are active a run closes the gate and is tried again later |
| RunProgress.RunCaptures | apps/agent-consumer/src/snapshot-runner.ts:68-86 | With no delivery active and something to capture, a run begins the next generation with exactly the selected days |
| OrganizationErasure.Eraser.Erase | apps/agent-consumer/src/organization-erasure.ts:36-50 | Ready is reported only when every table is empty. A calm pass reports ready exactly when no delivery is active and the job of every outstanding Copy was found to be over; an error exactly when one could not be looked for |
| OrganizationErasure.Eraser.SettleOutstanding | apps/agent-consumer/src/organization-erasure.ts:5-34 | A job that was found is attached, exactly the intents whose job is over are removed, and nothing else changes; no intent is removed unless its job was reported over |
| OrganizationErasure.Eraser.Conclude | apps/agent-consumer/src/organization-erasure.ts:43-50 | The generation that is left is abandoned once no Copy is outstanding; when calm it is ready exactly if no delivery and no Copy is left |
| OrganizationErasure.KeysAreValid | apps/agent-consumer/src/agent-ingestion-erasure.ts:297-308 | Every outstanding key passes the key checks again, so an erasure can settle it |
| GlobalCapacity.GuardedStep | apps/agent-consumer/src/snapshot-capacity.ts:56-83 | Any coordinator call keeps every outstanding intent within the slots, if an intent is recorded only under a granted slot, which every request of the runner meets |
| GlobalCapacity.PauseKeeps | apps/agent-consumer/src/snapshot-capacity.ts:117-137 | Being terminal is stable: what one read saw still holds after any pause |
| GlobalCapacity.SnapshotCapacity.AtMostTwoOutstanding | apps/agent-consumer/src/snapshot-capacity.ts:56-150 | At every moment at most two pairs of organization and generation have an outstanding Copy intent |
| GlobalCapacity.SnapshotCapacity.Acquire | apps/agent-consumer/src/snapshot-capacity.ts:56-83 | Granted exactly if the generation was seen active and there is room, where a pair that is terminal at the start gives its slot up; a grant holds a slot, only slots of terminal pairs were given up for it, and a refusal changes no slot |
| GlobalCapacity.SnapshotCapacity.Release | apps/agent-consumer/src/snapshot-capacity.ts:85-99 | At most the slot of the given pair is freed, and only if the pair is terminal; a pair that is terminal at the start has no slot after it |
| GlobalCapacity.SnapshotCapacity.IsTerminal | apps/agent-consumer/src/snapshot-capacity.ts:126-137 | Two separate reads with pauses suffice to know a pair terminal, and a pair that is terminal when asked is found to be |
| GlobalCapacity.SnapshotCapacity.ReapTerminalSlots | apps/agent-consumer/src/snapshot-capacity.ts:139-150 | Every freed slot was that of a terminal pair, the others are left alone, and every pair that was terminal at the start is freed |
| DeliveryReceipt.AgentDelivery.LeavesExactlyOnce | apps/agent-consumer/src/agent-delivery.ts:239-431 | Across crashes, lost replies and retries a reservation leaves the coordinator exactly once: expired, or completed after every row of its plan was written, and those rows are still stored unless a later revision replaced them; a complete receipt has no reservation |
| DeliveryReceipt.AgentDelivery.Register | apps/agent-consumer/src/agent-delivery.ts:78-138 | A returned sequence is stored, and one is returned unless something was lost, the coordinator put the delivery off or refused it, it is over or an erasure began; a receipt is dropped only under an erasure and without a reservation |
| DeliveryReceipt.AgentDelivery.DiscardUnderErasure | apps/agent-consumer/src/agent-delivery.ts:119-133 | After a refused or unanswered reserve call the receipt stays, or it is cleared under an erasure once no reservation is left |
| DeliveryReceipt.AgentDelivery.Process | apps/agent-consumer/src/agent-delivery.ts:156-237 | Finished means that the receipt is complete, the reservation gone and a live row for every fact of the message landed; it finishes unless there was a mishap, a real refusal, rows that cannot be planned, its end or a message for another receipt; it waits only while it does not hold the permit |
| DeliveryReceipt.AgentDelivery.ProcessInner | apps/agent-consumer/src/agent-delivery.ts:239-320 | The holder of the write commits and completes unless something is lost, the coordinator refuses or its rows cannot be planned; only a delivery without the permit waits |
| DeliveryReceipt.AgentDelivery.PutPlan | apps/agent-consumer/src/agent-delivery.ts:263-268 | Storing the plan makes the delivery the writer, with the rows prepared against the index as it still is |
| DeliveryReceipt.AgentDelivery.CallPlanWrite | apps/agent-consumer/src/agent-delivery.ts:289-295 | The call plans exactly the days and links of the stored rows, which the world demands of it |
| DeliveryReceipt.AgentDelivery.LandRow | apps/agent-consumer/src/delivery-write.ts:93-114 | Only rows of the planned write land, one at a time |
| DeliveryReceipt.AgentDelivery.CommitRows | apps/agent-consumer/src/agent-delivery.ts:261-317 | Committing is stored once the plan was accepted and every row of it was written; only a mishap, a refused plan or rows that cannot be planned prevent it |
| DeliveryReceipt.AgentDelivery.CommitCategory | apps/agent-consumer/src/agent-delivery.ts:296-315 | A category is marked done only after its rows landed, looked up first when an earlier attempt is unclear |
| DeliveryReceipt.AgentDelivery.MayFinish | apps/agent-consumer/src/agent-delivery.ts:397-413 | A committing delivery may complete: all planned rows have landed and its plan was accepted |
| DeliveryReceipt.AgentDelivery.FinishCommit | apps/agent-consumer/src/agent-delivery.ts:397-431 | Completing removes the reservation and is then stored; only a mishap prevents it |
| DeliveryReceipt.AgentDelivery.Alarm | apps/agent-consumer/src/agent-delivery.ts:337-395 | Past its end a receipt is cleared unless there is an obstacle, and only once its reservation is gone; before it the queue is woken exactly for a committed delivery or the next one to write, unless there is an obstacle; a complete receipt goes at its end and not before |
| DeliveryReceipt.AgentDelivery.ExpireReceipt | apps/agent-consumer/src/agent-delivery.ts:369-386 | While the expiry is not stored the reservation and its history are untouched; the receipt is cleared exactly when the reservation is gone, which left with all its days, and only a mishap or a refused expiry prevents it |
| DeliverySteps.OwnFinish | apps/agent-consumer/src/agent-delivery-coordinator.ts:253-275 | Finishing a reservation with its planned days removes it and is never refused |
| DeliverySteps.OwnExpire | apps/agent-consumer/src/agent-delivery-coordinator.ts:277-294 | Expiring is refused exactly before the end of the delivery; else it removes the reservation with every retained day dirty and incomplete |
| DeliverySteps.OthersLeaveAlone | apps/agent-consumer/src/agent-delivery-coordinator.ts:118-713 | Calls about other deliveries and snapshots never touch this reservation, nor take the permit from it |
| DeliverySteps.PermitStays | apps/agent-consumer/src/agent-delivery-reservations.ts:46-52 | Whoever holds the write permit keeps it whatever calls others make |
| DeliverySteps.ForeignPathStays | apps/agent-consumer/src/agent-delivery.ts:239-320 | Whatever others do in a pause, the reservation, the stored plan and the landed rows stay, no cell falls back to an older row, and the facts do not change under the holder of the permit |
| DeliverySteps.PriceAndPrepare | apps/agent-consumer/src/agent-delivery.ts:263-268 | It fails exactly when two rows of an identity differ or the index has this or a later revision; else the plan holds the priced row of every fact, is the one the world calls prepared and comes with its links |
| DeliverySteps.PreparedCoversFacts | apps/agent-consumer/src/delivery-rows.ts:29-42 | Whatever the prices, the live rows of a prepared delivery are in the cells of its facts, and every fact has one |
| DeliverySteps.MovesAreLinks | apps/agent-consumer/src/delivery-partitions.ts:64-86 | The pairs read back from the lists of all categories are the links of the prepared rows |
| TraceBatcherObject.TraceBatcher.WrittenAtMostOnce | apps/proxy-consumer/src/batcher.ts:450-579 | No trace is written twice to one target |
| TraceBatcherObject.TraceBatcher.NothingLost | apps/proxy-consumer/src/batcher.ts:741-883 | Each ledger key belongs to exactly one row, which is stored whole or was written to every target |
| TraceBatcherObject.TraceBatcher.InsertMessageTraces | apps/proxy-consumer/src/batcher.ts:741-883 | A known message changes nothing, an invalid trace rolls everything back, else exactly the new traces are queued |
| TraceBatcherObject.TraceBatcher.SendTraceBatch | apps/proxy-consumer/src/batcher.ts:472-579 | Every row has the fate of what was heard of it: written and marked, free to be tried again, or kept for an operator because it could not be sent or its answer was final or unclear; recursive halving terminates; nothing stays in flight unless a crash left it |
| TraceBatcherObject.TraceBatcher.SendHalves | apps/proxy-consumer/src/batcher.ts:504-512 | The halves are sent one after the other and combined by what is known of both |
| TraceBatcherObject.TraceBatcher.SendOnce | apps/proxy-consumer/src/batcher.ts:524-579 | An attempt is announced before it is made and settled exactly by its answer: the rows are marked, free again, to be halved, or kept for an operator |
| TraceBatcherObject.TraceBatcher.Settle | apps/proxy-consumer/src/batcher.ts:541-578 | Written rows are marked and their record goes; a retryable answer or one that asks for halving frees the rows; any other keeps them for an operator |
| TraceBatcherObject.TraceBatcher.FlushTarget | apps/proxy-consumer/src/batcher.ts:377-384 | The oldest free rows of a target were tried, unless one of them is to be tried again, and each has its fate |
| TraceBatcherObject.TraceBatcher.SelectHealthyRows | apps/proxy-consumer/src/batcher.ts:419-436 | The oldest unsent rows without an active record, at most one batch, with their whole text |
| TraceBatcherObject.TraceBatcher.Flush | apps/proxy-consumer/src/batcher.ts:362-417 | A flush that runs already, or without a healthy row, changes nothing; in one that ends every target had its turn and every row tried has its fate, no record is added if every answer was written or retryable, nothing of its own is in flight and no row is left that every target has |
| TraceBatcherObject.TraceBatcher.WrittenEverywhereIsGone | apps/proxy-consumer/src/batcher.ts:362-417 | A row that a flush wrote to every target is gone after it |
| TraceBatcherObject.TraceBatcher.DeleteFullySent | apps/proxy-consumer/src/batcher.ts:629-661 | A row is deleted only when every target is marked sent |
| TraceBatcherObject.TraceBatcher.Restart | packages/tinybird-client/src/recovery.ts:143-160 | Exactly the records a crash left in flight are blocked as uncertain; the others stay as they are |
| TraceBatcherObject.TraceBatcher.Reconcile | apps/proxy-consumer/src/batcher.ts:679-708 | A blocked record is resolved once: confirmed rows are delivered, and rows that were not written are free again; flushes in progress are not disturbed |
| TraceBatcherObject.SplitRowsByBytes | apps/proxy-consumer/src/batcher.ts:899-915 | The batches are the rows in order, none empty, each within the limit or one row, and none closed too early |
| TraceBatcherObject.NewTracesFacts | apps/proxy-consumer/src/batcher.ts:774-836 | The new traces of a message have distinct keys the ledger lacked, and are all it gains |
| TraceBatcherObject.SortTraces | apps/proxy-consumer/src/batcher.ts:770-836 | New, changed and repeated traces are told apart in order; an invalid one stops the message |
| TraceBatcherObject.StoreMessage | apps/proxy-consumer/src/batcher.ts:838-877 | Every queued trace is stored exactly once, inline or as chunks that join back to it |
| TraceBatcherObject.MarkSent | apps/proxy-consumer/src/batcher.ts:609-627 | Marks are set in bounded statements, with the effect of one |
| Utf16.ChunkEnd | packages/tinybird-client/src/recovery.ts:602-614 | Bisection finds the longest chunk that fits, or a single unit |
| Utf16.NextChunk | packages/tinybird-client/src/recovery.ts:601-616 | The chunk ends a unit earlier rather than part a surrogate pair, and with six bytes or more something is always left |
| Utf16.SplitChunks | packages/tinybird-client/src/recovery.ts:597-621 | With six bytes or more splitting never fails; the chunks fit, are not empty, part no surrogate pair and join back to the text |
| Utf16.PartsKeepBytes | packages/tinybird-client/src/recovery.ts:597-621 | The chunks take exactly as many encoded bytes as the text |
| Utf16.PartsAreWellFormed | packages/tinybird-client/src/recovery.ts:615-625 | The chunks of a text without lone surrogates have none either |
| Utf16.SameBytes | packages/tinybird-client/src/recovery.ts:598-598 | Counting encoded bytes by code units and by characters agrees |
| FactChunker.ChunkFacts | apps/agent-ingest/src/chunker.ts:93-129 | Rejects the first fact that fits in no message, before packing any; else cuts the facts into consecutive runs that fit, none of them empty and none opened while its first fact still fitted before |
| FactChunker.AssertFactsFit | apps/agent-ingest/src/chunker.ts:70-85 | Finds the first fact that fits in no message |
| FactChunker.CountIsExact | apps/agent-ingest/src/chunker.ts:103-128 | The running size is the exact JSON byte length of the message, commas included, up to the difference in the base size |
| FactChunker.FactsArePreserved | apps/agent-ingest/src/chunker.ts:93-129 | Over all messages each category has exactly its facts, in order |
| FactChunker.MessagesFit | apps/agent-ingest/src/chunker.ts:93-154 | Every message holds a fact and stays within the limit, also with the time and trace of a later attempt |
| FactChunker.CutIsUnique | apps/agent-ingest/src/chunker.ts:115-128 | There is only one such cut, so it does not depend on how it was computed |
| FactChunker.BoundariesAreStable | apps/agent-ingest/src/chunker.ts:131-154 | Under stable packing neither the enqueue time nor the trace moves a boundary or changes an error |
| FactChunker.RejectedIffOversized | apps/agent-ingest/src/chunker.ts:70-85 | Packing is rejected if and only if some fact fits in no message |
| FactChunker.SmallTracesAreCovered | apps/agent-ingest/src/chunker.ts:136-153 | Times within the safe integers and headers within the limit never break the reserve |
| FactIdentities.CollapseFacts | apps/agent-ingest/src/fact-identity-conflicts.ts:76-110 | The loop computes the reference result: at the place of each first row, the first of its agreeing rows with the lowest position; and reports each row that disagrees with its first |
| FactIdentities.NormalizeAgentFactIdentities | apps/agent-ingest/src/fact-identity-conflicts.ts:62-74 | Succeeds exactly when in every category the rows of one identity agree, and then normalises each; else reports the first category that fails |
| FactIdentities.ConflictFreeIffAgree | apps/agent-ingest/src/fact-identity-conflicts.ts:100-108 | There is a conflict exactly when two rows of one identity differ beyond an excluded position |
| FactIdentities.OneRowPerIdentity | apps/agent-ingest/src/fact-identity-conflicts.ts:95-108 | On success each identity keeps one row, one of its own with the lowest position; rows without identity stay |
| FactIdentities.KeptRowsAreRows | apps/agent-ingest/src/fact-identity-conflicts.ts:76-110 | Nothing is invented: every row kept was given |
| FactIdentities.NormalisingTwice | apps/agent-ingest/src/fact-identity-conflicts.ts:62-110 | Normalising is idempotent and finds no conflict in its own result |
| FactIdentities.AgreementIsOrderFree | apps/agent-ingest/src/fact-identity-conflicts.ts:100-106 | Success does not depend on the order of the rows |
| FactIdentities.OrderFreeIffUntied | apps/agent-ingest/src/fact-identity-conflicts.ts:106-108 | The rows kept do not depend on the order if and only if no identity has two different rows and no numeric position |
| FactIdentities.NumericRowsAreUntied | apps/agent-ingest/src/fact-identity-conflicts.ts:124-127 | Rows with numeric positions are never tied, so for them the result is independent of the order |
| FactIdentities.DeliveriesAreOrderFree | apps/agent-ingest/src/fact-identity-conflicts.ts:62-74 | A delivery with numeric positions, its rows given in another order, is refused alike and keeps the same rows in every category |
| FactIdentities.TieExample | apps/agent-ingest/src/fact-identity-conflicts.ts:124-127 | A missing and a null turn index: both rows agree and the first in order wins |

## Left out

- HTTP handlers, Tinybird and R2 requests, encryption, schema and regular-expression checks, exact-key checks and SHA-256: calls to them are nondeterministic steps, and contents are compared as values.
- Sentry, spans, producer trace links and logging: they do not change protocol state.
- Alarms, wake-up times, debouncing and snapshot timing: a step may happen at any time, and the runner's wake-up test is a nondeterministic answer.
- Dates and time zones: a day is an integer in the order of ISO strings, and each call gets one clock reading with the bounds of the retained window; some coordinator calls read the clock more than once.
- The publication theorems hold for a fixed retention window, a store that starts empty and an organization whose erasure has not begun; a write lands while its delivery is active or not at all; incomplete days are resolved only under the condition of `Publication.Resolvable`. What they assume of deliveries and of the runner is proved of DeliveryReceipt.AgentDelivery and SnapshotRunnerObject.SnapshotRunner.
- A Copy reads its days at one instant, and a Copy of an ended generation may still write its own rows; partial Copy output becomes visible only with the manifest.
- The number of snapshot tables is the constant nine of the target list.
- A manifest row that lands again after its generation was published is taken to change nothing, because readers use the greatest generation of a day.
- CoordinatorObject.Coordinator.GetStats: the counters themselves are not part of the reply; the runner reads them from the tables after the call.
- Listing calls of the coordinator (next delivery, schedule, outstanding intents) read the fields directly.
- SnapshotRunnerObject.SnapshotRunner.Run: what a run does exactly is stated for calm runs, at one instant and before the deadlines; when others act, calls are lost or a deadline strikes, only what it keeps to is stated. The runner's identifier is not random, so its claim may be one that an earlier run left.
- SnapshotRunnerObject.SnapshotRunner.PublishManifest: a row that lands after the method gave up is the publish step of the world, which any pause may contain.
- OrganizationErasure.Eraser.Erase: the dead letters and the stored objects that are deleted after the coordinator is ready are not modelled, and intents are settled one at a time instead of four at once.
- DeliveryReceipt.AgentDelivery.Alarm: stored bodies, their removal and waking the next delivery after a completion are not modelled.
- DeliveryReceipt.AgentDelivery.CallPlanWrite: the links are kept with the stored rows instead of being read back from them each time; they are a function of the rows.
- DeliverySteps.PriceAndPrepare: a price is a nondeterministic content of a message row, and the index is read at one instant for all categories.
- GlobalCapacity.SnapshotCapacity.Acquire: the runner asks for a slot with the contract of this method; the two objects are not run against each other.
- DeliveryReceipt.AgentDelivery.CommitCategory: the receipt lookup is taken to confirm a category only when all its rows landed, which DeliveryWrite proves of the lookup.
- TraceBatcherObject.TraceBatcher.SendTraceBatch: whether a batch parses and its encoded size are nondeterministic; API key normalisation is not modelled.
- TraceBatcherObject.TraceBatcher.Reconcile: operators must be right about what was written; the two dead-letter operations and paging are not modelled.
- TraceBatcherObject.TraceBatcher.Flush: the targets are different from each other, as those of a configuration are; flush times and alarms are not modelled, and the counter of healthy traces is the test whether there is one.
- Utf8.ByteLength: JSON texts of facts are sequences of characters, because JSON escapes lone surrogates.
- FactChunker.ChunkFacts: facts and trace headers are given by their JSON text; validating the messages afterwards is not modelled.
- FactIdentities.CollapseFacts: canonical JSON is equality of values with objects as maps, and numbers are reals; the sorted list of session identifiers in the error is not modelled.
- DeliveryWrite.DeliveryCategoryIsPresent: receipts are compared by identity, day and deletion as a triple instead of a joined string.
- The batched lookup of identity days: its result is the index itself.
- Convex tables, API keys, billing, pricing, redaction, dashboards, the desktop collector and the command line: they would add easy members only.
