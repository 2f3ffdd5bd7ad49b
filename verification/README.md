# Verified model of the rollout coordinator and the trainer's batching

A Dafny model of three parts of the repository, with the properties they are there for.

* **The coordinator's durable state machine.** `CoordinatorTables` holds the tables as one value: policies,
  scheduler settings and sources, groups, assignments, lease attempts, worker sessions and lease requests.
  Tables keyed by another table's key are optional columns of that table's rows. `CoordinatorOperations`
  says what each transaction does to the tables, row by row and independent of row order.
  `CoordinatorRepository.Repository` is the object with the committed tables in its field `db`: each method
  works on its own copy, loops over selected rows as the source does (`CoordinatorLoops`), and assigns `db`
  when it commits; a raised error leaves `db` alone. `CoordinatorInvariants`, `CoordinatorExpiry`,
  `CoordinatorSteps` and `CoordinatorGrowth` show that every transaction keeps the invariant;
  `CoordinatorRuns`, `CoordinatorConstraints`, `CoordinatorReplay`, `CoordinatorProgress` and
  `FairScheduling` draw the conclusions for whole runs. `CoordinatorEffects`, `LeaseRenewals`,
  `EnvelopeDecisions`, `Refusals`, `LeaseChoices`, `CatalogDecisions` and `GroupContents` say in columns,
  without the helpers of `CoordinatorOperations`, when each transaction succeeds and what it then changes.
  `TrainingLedger`, `BatchSelection` and `BatchEmission` account processed rollouts into training batches, and
  `LedgerRules` says in columns what they list, select, drop and record. `LedgerRuns` is the state machine of
  coordinator and result processor together, in which coordinator transactions fall between any two database
  calls of the processor; `EmissionRuns` shows that the emission loop is a stretch of such a run, and
  `LagWindows` and `OvertakenBatch` say what the lag read by a pass is worth when its batch is committed.
  `CrashConsistency` is the write-temp, link, sync, unlink, commit protocol with a crash between any two steps.
* **The packer and balancer.** `Balance` (Karmarkar-Karp on equal-sized tuples and swap refinement),
  `Preparation`, `Packing`, `Materialization`, `Distribution`, `ImageSidecars` and `SequenceBoundaries`, over
  the data of `MicroBatches`. `SampleRecords`, `PackingRules`, `DistributionRules` and `BalanceRules` state in the
  samples' own fields what preparation keeps, where packing puts a sample, what padding adds and what balancing
  leaves unimproved.
* **Three smaller pieces.** `InferenceBroker` (stop-and-wait exchange), `TrainableBranches` (each shared
  sampled node trains once) and `PassMetrics` (pass@k and pass^k).

Conventions. Identities are natural numbers whose order stands for the order of their text. Times, weights
and virtual finishes are reals; the clock, identity factories and lease identities are parameters, the clock
nondecreasing over a run. A SHA-256 digest is an injective function, so a digest is the digested value. A run
starts from the tables that `initialize_run` leaves. The invariant kept by every transaction is
`CoordinatorInvariants.Invariant`; what any later state keeps of an earlier one is
`CoordinatorTables.Evolves`.

## Model

| member | source | states |
|---|---|---|
| CoordinatorRuns.RunKeeps | src/aether_rl/coordinator/database.py:224-233 | Every committed state of every run of the modelled transactions satisfies the whole invariant: foreign keys and unique constraints, row states, attempt numbers, group readiness, staleness and slot capacity. |
| CoordinatorConstraints.ConstraintsHold | src/aether_rl/coordinator/migrations.py:5-251 | No committed state of any run violates a foreign key or a UNIQUE column of the coordinator's tables: policies, groups, assignments, attempts, accepted results, failures, requests. |
| CoordinatorConstraints.AcceptedOnce | src/aether_rl/coordinator/migrations.py:104-116 | No two accepted results share a lease or an envelope digest. |
| CoordinatorRuns.RunEvolves | src/aether_rl/coordinator/database.py:224-233 | Any later state evolves from any earlier one: rows stay, terminal rows are frozen, leases never shrink, closed leases stay closed, ready groups stay ready, request grants stay, the active version never falls. |
| CoordinatorRuns.LeaseStates | src/aether_rl/coordinator/database.py:901-999 | An assignment is leased exactly when it has one active lease, its current one; it is terminal exactly when it has an outcome and succeeded exactly when it has an accepted result. |
| CoordinatorRuns.OutcomeFinal | src/aether_rl/coordinator/database.py:1826-1872 | A terminal assignment's row, outcome included, is the same in every later state. |
| CoordinatorRuns.ReadyGroupsComplete | src/aether_rl/coordinator/database.py:1400-1437 | A group is ready exactly when it has group_size outcomes, so the size check of `ready_groups` cannot fire. |
| CoordinatorRuns.ReadyStays | src/aether_rl/coordinator/database.py:2002-2013 | Recomputation never makes a ready group collecting again. |
| CoordinatorRuns.AttemptsNumbered | src/aether_rl/coordinator/database.py:945-999 | The attempts of an assignment are exactly 1 to attempt_count, and attempt_count never passes max_attempts although leasing does not test it. |
| CoordinatorRuns.ChangesBounded | src/aether_rl/coordinator/database.py:1826-1912 | At most 2 * max_attempts steps of any run change the state of an assignment. |
| CoordinatorRuns.LeaseTimes | src/aether_rl/protocol.py:216-224 | A committed lease always passes the response's expiry validation: created_at <= issued_at < expires_at <= deadline; expiry never moves back. |
| CoordinatorRuns.SlotsRespected | src/aether_rl/coordinator/database.py:533-545 | At every time a session's live active leases without a delivered cancellation number at most its inference slots. |
| CoordinatorRuns.StaleWorkCancelled | src/aether_rl/coordinator/database.py:1914-1959 | With a lag limit configured, a train assignment beyond it is finished, or leased under a cancelled lease; none waits. |
| CoordinatorRuns.CancelledNeverWaits | src/aether_rl/coordinator/database.py:1334-1356 | An assignment whose lease was cancelled is never in pending or retry_wait again. |
| CoordinatorRuns.LeasedWithinLag | src/aether_rl/coordinator/database.py:922-999 | A newly handed out lease is within the policy lag and within max_attempts. |
| CatalogDecisions.SlotsNeverOver | src/aether_rl/coordinator/database.py:533-545 | The same in columns: at no state of a run do more leases that are active, in time and not notified take a slot of a session than it has. |
| CoordinatorEffects.OutdatedHandled | src/aether_rl/coordinator/database.py:1914-1959 | The same in columns: with a lag limit, train work whose policy version plus the lag is below the active version has ended or is under a cancelled lease. |
| LeaseChoices.LeaseUpToDate | src/aether_rl/coordinator/database.py:922-999 | A new lease is never for work whose policy version plus the lag is below the active version. |
| CoordinatorRuns.InitializedInvariant | src/aether_rl/coordinator/database.py:256-288 | The tables of a freshly initialized run satisfy the invariant. |
| CoordinatorReplay.Fenced | src/aether_rl/coordinator/database.py:1772-1798 | Once a lease is closed or its time has run out, no result or failure in its name changes the tables, at any later state. |
| CoordinatorReplay.DeadForever | src/aether_rl/coordinator/database.py:1078-1142 | No transaction, renewals and heartbeats included, revives a lease that is closed or out of time. |
| CoordinatorReplay.ResultReplay | src/aether_rl/coordinator/database.py:1800-1813 | After a result was accepted its replay is acknowledged as a duplicate and changes nothing; any other envelope for the assignment is a conflict and changes nothing. |
| CoordinatorReplay.FinishedRefuses | src/aether_rl/coordinator/database.py:1268-1370 | No result or failure envelope changes a finished assignment's tables; only exact replays succeed. |
| CoordinatorReplay.FailureReplay | src/aether_rl/coordinator/database.py:1815-1824 | A recorded failure is acknowledged again with the same terminal flag; a different envelope for the lease is a conflict. |
| CoordinatorReplay.RequestReplay | src/aether_rl/coordinator/database.py:911-921 | A lease request that was granted a lease gets that lease ever after, never a second one, and no other request shares it. |
| CoordinatorProgress.AlwaysServed | src/aether_rl/coordinator/database.py:1001-1010 | With the clock fixed, a pending request with a free slot gets a new active lease whenever a source is enabled, and a group is created exactly when nothing was schedulable. |
| CoordinatorProgress.LeasedInOrder | src/aether_rl/coordinator/database.py:942-957 | The leased assignment is schedulable and is preceded by another only while the first has waited less than the preference time, and then only by ones whose policy the worker has not loaded. |
| LeaseChoices.LeaseChosen | src/aether_rl/coordinator/database.py:942-989 | The new lease is of the first eligible assignment by (sequence, index, identity), unless that one has waited less than the preference time and an eligible one has a loaded policy: then it is of the first of those. The lease is fresh: issued now, active, for the requesting session, ending after the duration or at the deadline before that. |
| LeaseChoices.LeaseDecided | src/aether_rl/coordinator/database.py:901-999 | A request is answered again as it was, refused without effect, or answered from what expiry and cancellation leave: with no lease exactly when the session has no slot left or no assignment is eligible, and otherwise with the one new lease and no other change. |
| LeaseChoices.LeasedOrCreated | src/aether_rl/coordinator/database.py:1001-1010 | A request is leased to at once; only if it then still waits with a slot left and nothing eligible is a group created by need, and then leased from. |
| CoordinatorProgress.ReleasedLive | src/aether_rl/coordinator/database.py:917-941 | Expiry and cancellation never take a slot of a session. |
| CoordinatorExpiry.ExpiredKeeps | src/aether_rl/coordinator/database.py:1874-1912 | Expiry keeps the invariant and only lets rows evolve. |
| CoordinatorExpiry.ExpiredClears | src/aether_rl/coordinator/database.py:1874-1912 | After expiry no lease is due and no waiting assignment is past its deadline. |
| CoordinatorExpiry.CancelledKeeps | src/aether_rl/coordinator/database.py:1914-1959 | Cancellation establishes that no stale train work waits, from any otherwise sound state, and keeps the rest. |
| CoordinatorExpiry.RetryRow | src/aether_rl/coordinator/database.py:1826-1872 | A retry or a terminal failure leaves a valid row that ranks lower, without a current lease. |
| CoordinatorExpiry.RetryDecision | src/aether_rl/coordinator/database.py:1835-1872 | A failure is retried exactly when it may be, an attempt is left and the back-off ends before the deadline; otherwise the outcome names which of these failed. |
| CoordinatorExpiry.BackoffDoubles | src/aether_rl/coordinator/database.py:1836 | The back-off starts at the base delay and doubles until it reaches the maximum. |
| CoordinatorExpiry.DelayPositive | src/aether_rl/coordinator/database.py:1836 | The back-off is positive and never above the maximum delay. |
| CoordinatorEffects.ExpiryOfLease | src/aether_rl/coordinator/database.py:1874-1900 | Expiry ends exactly the active leases whose expiry or whose assignment's deadline has passed. |
| CoordinatorEffects.ExpiryOfRow | src/aether_rl/coordinator/database.py:1874-1912 | Through expiry an assignment under a lease with time left stays as it is; otherwise its attempt ends, in a retry or with the outcome named, or for good if it was cancelled; an open one fails exactly when its deadline has passed. |
| CoordinatorEffects.LeaseEndsFor | src/aether_rl/coordinator/database.py:1262-1370 | In any transaction a lease stays active until its own result or failure is accepted, or it is out of time and expires. |
| CoordinatorEffects.ExpiredOutOfTime | src/aether_rl/coordinator/database.py:1874-1912 | Over every run a lease that expired was out of time at the step that expired it. |
| CoordinatorEffects.NothingOutOfTime | src/aether_rl/coordinator/database.py:1262-1266 | After `expire_leases` no active lease is past its expiry or its deadline, and no open assignment is past its deadline. |
| CoordinatorEffects.HeldThroughExpiry | src/aether_rl/coordinator/database.py:1874-1912 | An assignment under a lease with time left keeps state, attempt and lease through reconciliation and expiry. |
| CoordinatorEffects.CancellationOfRow | src/aether_rl/coordinator/database.py:1914-1959 | Cancellation ends exactly the open assignments that are outdated under the lag, marks the leased ones, and leaves every other row. |
| CoordinatorEffects.CancellationOfLease | src/aether_rl/coordinator/database.py:1914-1959 | Cancellation notifies exactly the active leases of outdated work that were not notified before. |
| CoordinatorSteps.RecordHeartbeatKeeps | src/aether_rl/coordinator/database.py:427-510 | A heartbeat keeps the invariant and every lease it renews grows within the deadline. |
| CoordinatorSteps.AnswerExact | src/aether_rl/coordinator/database.py:474-505 | Every lease named in a heartbeat is answered: each live, uncancelled one has a renewal with the expiry it then has, each other one is stopped, and there is one answer per name. |
| CoordinatorSteps.BeatExact | src/aether_rl/coordinator/database.py:476-505 | A cancelled lease is stopped and its cancellation delivered; a renewed one ends after the clock, no earlier than before and by its deadline; any other is unchanged. |
| CoordinatorSteps.RenewLeaseKeeps | src/aether_rl/coordinator/database.py:1078-1142 | A renewal keeps the invariant and never shortens a lease or passes its deadline. |
| LeaseRenewals.HeartbeatAccepted | src/aether_rl/coordinator/database.py:427-473 | A heartbeat is accepted exactly from its own session, later than the last, about known policies and its own leases; otherwise nothing changes. |
| LeaseRenewals.HeartbeatExtends | src/aether_rl/coordinator/database.py:474-510 | Exactly the named leases that live are extended: to at least now plus the duration or to the deadline, never below the old expiry nor above the larger of it and now plus the duration. Cancelled ones are notified, and the answer has a renewal with the committed expiry or a stop for each name. |
| LeaseRenewals.RenewalExact | src/aether_rl/coordinator/database.py:1078-1142 | A renewal succeeds exactly for a living lease of its owner, named for its assignment and sent in order, or as a stop for an acknowledged cancelled one; it extends the lease by the same bounds, answers with the committed expiry, or changes nothing. |
| LeaseRenewals.RenewalAlone | src/aether_rl/coordinator/database.py:1078-1142 | A renewal extends no other lease. |
| CoordinatorSteps.AcceptResultKeeps | src/aether_rl/coordinator/database.py:1268-1317 | Accepting a result keeps the invariant. |
| CoordinatorSteps.AcceptFailureKeeps | src/aether_rl/coordinator/database.py:1319-1370 | Accepting a failure keeps the invariant, whether it retries, exhausts or ends a cancelled assignment. |
| EnvelopeDecisions.ResultDecided | src/aether_rl/coordinator/database.py:1268-1317 | A result is accepted for the first time exactly when its assignment has no outcome and it names the assignment's current active lease with equal attempt, worker and session, before expiry and deadline, with the assignment's policy and its exact manifest. |
| EnvelopeDecisions.ResultCommitted | src/aether_rl/coordinator/database.py:1293-1317 | An accepted result changes its assignment, its lease and the state of their group, as listed, and nothing else. |
| EnvelopeDecisions.FailureDecided | src/aether_rl/coordinator/database.py:1319-1370 | A failure is recorded for the first time exactly when its lease has no failure on record and it names the current active lease with equal attempt, worker and session, in time. |
| EnvelopeDecisions.FailureCommitted | src/aether_rl/coordinator/database.py:1326-1370 | A recorded failure closes its lease; its assignment waits for another attempt or ends with the outcome named, for good if it was cancelled; nothing else changes. |
| Refusals.HeartbeatRefused | src/aether_rl/coordinator/database.py:427-473 | The error of a refused heartbeat: a bad duration comes before a foreign session, a message out of order, an unknown policy and a foreign lease. |
| Refusals.RequestRefused | src/aether_rl/coordinator/database.py:512-545 | The error of a refused new request: a foreign session comes before a message out of order, an unknown policy and too few free slots. |
| Refusals.LeaseRefused | src/aether_rl/coordinator/database.py:901-941 | The error of a refused leasing: a bad duration comes before an unknown request, a foreign session or policy, and missing settings. |
| Refusals.RenewalRefused | src/aether_rl/coordinator/database.py:1078-1142 | The error of a refused renewal: a bad duration, another assignment named, a lease that has ended, a foreign one, a cancelled one, a message out of order, in this order. |
| Refusals.ResultRefused | src/aether_rl/coordinator/database.py:1772-1813 | The error of a refused result: an unknown assignment comes before one that has ended or another lease, a lease out of time and another policy. |
| Refusals.FailureRefused | src/aether_rl/coordinator/database.py:1772-1824 | The error of a refused failure: another failure on record comes before an unknown assignment, another lease and a lease out of time. |
| CoordinatorSteps.ActivatePolicyKeeps | src/aether_rl/coordinator/database.py:350-366 | Activation keeps the invariant, staleness included, and never lowers the active version. |
| CoordinatorSteps.ConfigureSchedulerKeeps | src/aether_rl/coordinator/database.py:368-377 | Setting a lag limit reconciles stale work in the same transaction. |
| CatalogDecisions.PolicyRecorded | src/aether_rl/coordinator/database.py:324-348 | A policy is recorded exactly when its version is positive and unused, its identity new and its lineage the run's; repeating it changes nothing. |
| CatalogDecisions.PolicyActivated | src/aether_rl/coordinator/database.py:350-366 | A policy becomes active exactly when it is recorded and not older than the active one, and exactly the work outdated by it is cancelled. |
| CatalogDecisions.RecordedAndActivated | src/aether_rl/coordinator/database.py:296-310 | Recording and activation succeed together, with the tables of the second after the first, or change nothing. |
| CatalogDecisions.SchedulerConfigured | src/aether_rl/coordinator/database.py:368-377 | The settings are taken exactly when neither is negative, and exactly the work outdated under the new lag is cancelled. |
| CatalogDecisions.WorkerRegistered | src/aether_rl/coordinator/database.py:391-425 | A session belongs to one worker with one set of capabilities of the run's lineage; registering it again with the same changes nothing, with others is refused. |
| CatalogDecisions.RequestValidated | src/aether_rl/coordinator/database.py:512-555 | A new lease request is recorded undecided exactly when its own session sends it, later than the last, with known policies and no more slots than are free; a known one is told how it was decided. |
| CatalogDecisions.NoWorkMarked | src/aether_rl/coordinator/database.py:557-571 | An undecided request is marked as having no work once; a decided one keeps its decision. |
| CoordinatorGrowth.IssueKeeps | src/aether_rl/coordinator/database.py:958-989 | Leasing a schedulable assignment to a session with a free slot keeps the invariant. |
| CoordinatorGrowth.IssuedNumbered | src/aether_rl/coordinator/database.py:961-984 | A new lease takes the next attempt number, so UNIQUE (assignment_id, attempt) holds. |
| CoordinatorGrowth.CreateNextGroupKeeps | src/aether_rl/coordinator/database.py:722-825 | Creating a group keeps the invariant: group_size members at distinct indices, a fresh creation key and sequence, lag zero. |
| CoordinatorGrowth.KeyFree | src/aether_rl/coordinator/database.py:748-772 | The next creation key of a source is never taken, so the branch for an existing key is unreachable. |
| GroupContents.CreatesNext | src/aether_rl/coordinator/database.py:722-825 | Creation adds the next group of the enabled source of the kind with the least (virtual_finish, source_id): for the active policy, with that occurrence's task, its members at distinct indices with the source's attempts and timeout, the source moved on by one occurrence and group_size / weight, and nothing else changed. It creates none exactly when no source may, and fails only on an identity already used. |
| GroupContents.RunContents | src/aether_rl/coordinator/database.py:746-818 | In every state of every run each group carries the task, kind and size of its source's occurrence, and each member its group's policy and age and its source's attempts and timeout. |
| GroupContents.TaskOfOccurrence | src/aether_rl/coordinator/database.py:746-749 | A source's n-th group exists for each n below its cursor and carries task n modulo the number of tasks. |
| CoordinatorLoops.ExpireAll | src/aether_rl/coordinator/database.py:1874-1912 | The expiry loops, in any row order, compute the row-by-row meaning of expiry. |
| CoordinatorLoops.CancelStale | src/aether_rl/coordinator/database.py:1914-1959 | The nested cancellation loops, in any row order, compute the row-by-row meaning of cancellation. |
| CoordinatorLoops.BeatLeases | src/aether_rl/coordinator/database.py:474-505 | The heartbeat loop renews, delivers or stops each named lease and answers in the order named. |
| CoordinatorLoops.SelectFirst | src/aether_rl/coordinator/database.py:942-950 | The scan finds the candidate that precedes every other in (sequence, group_index, assignment_id). |
| CoordinatorLoops.SelectNext | src/aether_rl/coordinator/database.py:735-739 | The scan finds the source that precedes every other in (virtual_finish, source_id). |
| CoordinatorRepository.Repository.LeaseNextCompatible | src/aether_rl/coordinator/database.py:901-999 | The method commits exactly the specified tables and answer, or leaves the tables alone on an error, and keeps the invariant. |
| CoordinatorRepository.Repository.LeaseOrCreateNextCompatible | src/aether_rl/coordinator/database.py:1001-1010 | The chained transactions, each reading the clock anew, do what the progress theorem is about. |
| CoordinatorRepository.Repository.CreateNextGroup | src/aether_rl/coordinator/database.py:722-825 | The inserts and the source update commit the specified tables; a reused identity fails and changes nothing. |
| CoordinatorRepository.Repository.RecordHeartbeat | src/aether_rl/coordinator/database.py:427-510 | Errors leave the tables alone; success commits renewals, deliveries and the session's clock. |
| CoordinatorRepository.Repository.RenewLease | src/aether_rl/coordinator/database.py:1078-1142 | Errors, a cancelled lease without acknowledgement included, leave the tables alone. |
| CoordinatorRepository.Repository.AcceptResult | src/aether_rl/coordinator/database.py:1283-1317 | The transaction commits result, outcome, lease, row, cancellation flag and group together, or nothing. |
| CoordinatorRepository.Repository.AcceptFailure | src/aether_rl/coordinator/database.py:1326-1370 | The transaction commits failure, lease, row and group together, or nothing. |
| CoordinatorRepository.Repository.RecordAndActivatePolicy | src/aether_rl/coordinator/database.py:296-310 | A refused activation also rolls the recording back. |
| CoordinatorRepository.Repository.ExpireLeases | src/aether_rl/coordinator/database.py:1262-1266 | Reconciliation and expiry commit together. |
| FairScheduling.RunFair | src/aether_rl/coordinator/database.py:722-825 | Over every run of creations by need and registrations, virtual_finish of an enabled source is ahead of any other's by at most group_size / weight of its own. |
| GroupContents.RunShares | src/aether_rl/coordinator/database.py:722-825 | The same with the price written out: ahead of any other enabled source by at most its own group_size / weight. |
| GroupContents.RunServes | src/aether_rl/coordinator/database.py:735-824 | Over every run, creations of any kind included, a source's virtual finish grows by exactly group_size / weight for each of its groups. |
| FairScheduling.RunPaid | src/aether_rl/coordinator/database.py:818-824 | A source's virtual finish has grown by exactly its cost for every group created for it. |
| FairScheduling.FairService | src/aether_rl/coordinator/database.py:722-825 | Sources that stood level have since received normalised service within one group's cost of each other. |
| FairScheduling.RegisteredTogether | src/aether_rl/coordinator/database.py:712-720 | Enabled sources registered one after the other start level. |
| CatalogDecisions.SourceRegistered | src/aether_rl/coordinator/database.py:673-720 | A new source starts at its first occurrence with the least virtual finish of the enabled sources; the same one again changes nothing and another specification is refused. |
| TrainingLedger.RecordGroupKeeps | src/aether_rl/coordinator/database.py:1439-1492 | A group is recorded exactly when it is ready and not yet recorded; exactly its rollouts start to wait, nothing else moves, and the same output again is accepted while a different one is not. |
| TrainingLedger.ArtifactsUnique | src/aether_rl/coordinator/migrations.py:252-289 | No two processed groups and no two training batches have the same artifact digest. |
| TrainingLedger.DiscardKeeps | src/aether_rl/coordinator/database.py:1528-1541 | A discard moves exactly the named rollouts, all waiting and named once, out of the waiting ones. |
| TrainingLedger.RecordBatchKeeps | src/aether_rl/coordinator/database.py:1543-1591 | Recording a batch keeps steps 1 to n without gaps, (step, ordinal) unique and ordinals gap-free, and moves exactly its members. |
| LedgerRules.RecordGroupDecided | src/aether_rl/coordinator/database.py:1439-1492 | A group is recorded exactly when it is new and ready; its rollouts, and no others, start to wait, and nothing else changes. |
| LedgerRules.DiscardDecided | src/aether_rl/coordinator/database.py:1528-1541 | Rollouts are discarded exactly when all named ones wait and none is named twice; only they move. |
| LedgerRules.RecordBatchDecided | src/aether_rl/coordinator/database.py:1543-1591 | A batch is recorded exactly when it is the next step, has members and samples and its members all wait; each member moves to its position and nothing else changes. |
| BatchSelection.Select | src/aether_rl/coordinator/results.py:439-485 | The selection is the shortest sufficient prefix of the earliest-starting identity that has enough, and is empty exactly when none has. |
| BatchSelection.ListWaiting | src/aether_rl/coordinator/database.py:1494-1511 | The listing holds exactly the waiting rollouts in (sequence, ordinal, group) order. |
| LedgerRules.SelectedExactly | src/aether_rl/coordinator/results.py:439-485 | Of the rollouts with one policy version and adapter that come first in the listing among those with enough, the selection is the fewest in order that are enough; it is empty exactly when no such kind has enough. |
| LedgerRules.SelectedSize | src/aether_rl/coordinator/results.py:439-485 | A selection limited by size has exactly the size. |
| LedgerRules.PassExactly | src/aether_rl/coordinator/results.py:368-415 | A pass lists all that waits by sequence, ordinal and group. It discards exactly the rollouts more than the lag behind the version read, if there are any; otherwise the selection becomes the next batch with its samples in order, or is discarded when it has none. |
| BatchEmission.ResultProcessor.EmitReadyBatches | src/aether_rl/coordinator/results.py:368-415 | The loop ends. Pass i acts on the window it reads and on the listing of all that waits: it drops exactly the stale rollouts if there are any, else the selection if it has no sample, else emits it as the next step. Placed rollouts never move, no rollout stops waiting but in a pass, and nothing is left to do. |
| BatchEmission.LossExplained | src/aether_rl/coordinator/results.py:374-398 | A rollout that the loop discarded was stale for the window of a pass, or a member of a selection without samples. |
| BatchEmission.PassEffect | src/aether_rl/coordinator/results.py:374-414 | A pass is never refused, moves exactly its members, and leaves fewer waiting. |
| EmissionRuns.EmissionReaches | src/aether_rl/coordinator/results.py:368-422 | What the loop's contract allows is a stretch of a run whose passes are the logged ones in order, whatever the coordinator commits between its database calls. |
| LedgerRuns.LedgerRunKeeps | src/aether_rl/coordinator/results.py:245-255 | Over every run of coordinator and result processor from an empty ledger: the coordinator's invariant, the ledger's accounting, each recorded group drawn from a ready group with its policy, and each batch made of its rollouts. |
| LedgerRuns.LedgerRunEvolves | src/aether_rl/coordinator/database.py:1439-1591 | A recorded group, a recorded batch and the place of a rollout that no longer waits never change again. |
| LedgerRuns.BatchesExact | src/aether_rl/coordinator/results.py:390-414 | At every moment of a run each batch holds exactly the samples of the rollouts placed in it, in ordinal order, all of one policy. |
| LedgerRuns.TrainedOnce | src/aether_rl/coordinator/database.py:1586-1591 | A rollout that is in a batch stays at its place for ever, and no other rollout ever has that place. |
| LedgerRuns.OnlyTrainRollouts | src/aether_rl/coordinator/results.py:287-289 | Every waiting, discarded or batched rollout belongs to a ready train group. |
| LedgerRuns.DrawnPolicies | src/aether_rl/coordinator/migrations.py:17-30 | Because policy versions are unique, recorded payloads of one version carry one policy and one adapter. |
| LedgerRuns.RecordedAsMade | src/aether_rl/coordinator/results.py:262-366 | A recorded group is a ready one with its sequence number; its payload carries the manifest and adapter of the group's policy, stamped on every sample, and an eval group has no rollout. |
| LedgerRuns.ActReads | src/aether_rl/coordinator/results.py:369-420 | Every pass of a run acts on what waits at its commit, with the active version of one earlier state and the lag limit of a later one, between which and its commit the ledger did not change. |
| LedgerRuns.EmittedHomogeneous | src/aether_rl/coordinator/results.py:399-414 | Every batch emitted in a run is recorded as the next step, is of one policy, so the homogeneity assertions never fire, and is within the lag by the version and the limit read for it. |
| LedgerRuns.DroppedForReason | src/aether_rl/coordinator/results.py:375-398 | Over every run a discarded rollout was stale by the version and limit read for its pass, or selected without a sample. |
| LagWindows.LagAtCommit | src/aether_rl/coordinator/results.py:373-414 | When it is committed a batch is within the lag exactly when its version is within the limit of the last configuration since the limit was read, counted from the last activation since the version was read; always if nothing of the kind was committed. |
| LagWindows.WindowStep | src/aether_rl/coordinator/database.py:350-389 | Only a committed activation moves the active version, and only a committed configuration the lag limit. |
| OvertakenBatch.RecordedBeyondLag | src/aether_rl/coordinator/results.py:373-414 | A concrete run from an initialized database, with lag limit 0, records a batch of version 0 while version 1 is active. |
| CrashConsistency.CrashConsistent | src/aether_rl/coordinator/spool.py:24-52 | At every moment, crashes included, each committed row has its artifact with its digest, publication meets no conflicting file, and the next batch step's file is free. |
| CrashConsistency.RecoveryExact | src/aether_rl/coordinator/database.py:1610-1659 | When recovery finishes, the stored artifacts are exactly the referenced ones and nothing is incoming. |
| CrashConsistency.NextSafe | src/aether_rl/coordinator/results.py:142-184 | Each step of publication, commit, crash or recovery keeps committed rows backed by synced files. |
| CrashConsistency.LinkDetects | src/aether_rl/coordinator/spool.py:24-52 | Linking fails exactly on a file with other content, which it leaves alone; otherwise the artifact is there. |
| CrashConsistency.RecoveryDetects | src/aether_rl/coordinator/database.py:1610-1659 | Recovery stops exactly when a row's artifact is missing or differs. |
| CrashConsistency.LinkMayVanish | src/aether_rl/coordinator/spool.py:24-52 | A crash may lose a file that was linked but whose directory was not synced. |
| CrashConsistency.RemovalMayReturn | src/aether_rl/coordinator/database.py:1610-1659 | A crash may bring back a file that was removed without a sync. |
| CrashConsistency.ArtifactStore.Publish | src/aether_rl/coordinator/results.py:165-184 | Publication leaves the artifact stored and synced under its name, other files and temporaries as they were, and every intermediate state in the trace. |
| CrashConsistency.ArtifactStore.Recover | src/aether_rl/coordinator/results.py:142-163 | Recovery ends with stored equal to referenced without reaching its error exits. |
| InferenceBroker.HandedInOrder | src/aether_rl/coordinator/inference.py:72-110 | Requests are handed out in submission order; every handed out request except the active one has a stored reply that never changes. |
| InferenceBroker.ServedAgain | src/aether_rl/coordinator/inference.py:99-103 | Until its reply is stored the same request is served to every exchange. |
| InferenceBroker.CompletedOnce | src/aether_rl/coordinator/inference.py:48-70 | A waiter completes at most once, with the stored reply, or refused because the lease closed. |
| InferenceBroker.Broker.Exchange | src/aether_rl/coordinator/inference.py:72-105 | Wrong session, oversized or different replies are refused without effect; otherwise the reply is stored and the next answer served, other leases untouched. |
| InferenceBroker.ReplyMovesOn | src/aether_rl/coordinator/inference.py:84-110 | The exchange that brings the reply to the active request answers its waiter and is served the head of the queue, or waits when it is empty. |
| InferenceBroker.Broker.Request | src/aether_rl/coordinator/inference.py:48-66 | A request joins the queue of an open lease with a pending waiter, or is refused without effect. |
| InferenceBroker.LeaseExchange.Close | src/aether_rl/coordinator/inference.py:39-46 | Closing refuses exactly the waiters that are not done. |
| TrainableBranches.IterTrainableBranches | src/aether_rl/orchestrator/trajectories.py:68-88 | The loops yield, in branch order, each branch left with something to train and its mask. |
| TrainableBranches.TrainedOnce | src/aether_rl/orchestrator/trajectories.py:68-88 | A sampled node with something to train keeps its mask at its first occurrence and is masked out at every other. |
| TrainableBranches.MaskExactly | src/aether_rl/orchestrator/trajectories.py:76-86 | Node by node a branch's mask is false exactly for a sampled node with something to train that occurred before, and the node's own mask otherwise. |
| TrainableBranches.YieldedExactly | src/aether_rl/orchestrator/trajectories.py:87-88 | The samples are of exactly the branches with a token left to train, each with its mask, in branch order. |
| TrainableBranches.FirstYielded | src/aether_rl/orchestrator/trajectories.py:68-88 | The branch where a trainable sampled node first occurs is yielded. |
| TrainableBranches.TotalTrained | src/aether_rl/orchestrator/trajectories.py:68-88 | The yielded trainable tokens are those of the distinct sampled nodes plus, per occurrence, whatever other nodes mask in; skipped branches lose nothing. |
| TrainableBranches.TotalDistinct | src/aether_rl/orchestrator/trajectories.py:68-88 | With all-false masks on unsampled nodes the total is that of the distinct sampled nodes. |
| TrainableBranches.MaskLength | src/aether_rl/orchestrator/trajectories.py:78-86 | A mask is as long as its branch. |
| PassMetrics.PassBounds | src/aether_rl/orchestrator/metrics.py:24-34 | pass^k <= c/n <= pass@k, both in [0, 1], equal at k = 1. |
| PassMetrics.PassMonotone | src/aether_rl/orchestrator/metrics.py:24-34 | pass@k never falls and pass^k never rises with k. |
| PassMetrics.ComputePassMetrics | src/aether_rl/orchestrator/metrics.py:24-34 | The doubling loop ends and reports exactly the powers of two up to n, each as the two shares of draws below. |
| PassMetrics.PassShares | src/aether_rl/orchestrator/metrics.py:24-34 | pass@k is the share of the k-subsets of the attempts that hold one with reward 1.0, and pass^k the share of those that hold no other. |
| PassMetrics.DrawsCounted | src/aether_rl/orchestrator/metrics.py:24-34 | The binomial coefficient is the number of k-subsets. |
| PassMetrics.CorrectCounts | src/aether_rl/orchestrator/metrics.py:24-34 | The correct attempts counted are the indices with reward 1.0. |
| Balance.BalancedPartition | src/aether_rl/trainer/utils.py:259-265 | k equal groups hold each index once; the spread of the loads is at most the largest of k consecutive sorted weights, so k times the largest load is at most the total plus (k - 1) spreads. |
| Balance.LoadsTotal | src/aether_rl/trainer/utils.py:225-226 | The loads of an equal partition add up to the sum of the weights. |
| Balance.PopFirst | src/aether_rl/trainer/utils.py:202-220 | Popping the heap removes the state that comes before every other in the order of spread and heaviest set. |
| BalanceRules.FirstHasLargestSpread | src/aether_rl/trainer/utils.py:202-206 | The popped state has the largest difference between its first and last set, and of those with as much the heaviest first set, by index list when equally heavy. |
| BalanceRules.SetsSorted | src/aether_rl/trainer/utils.py:176-191 | A state's sets stand heaviest first, equally heavy ones by descending index list. |
| BalanceRules.PairsSorted | src/aether_rl/trainer/utils.py:211-215 | The weights are dealt to the initial states in ascending order, equal ones by index. |
| BalanceRules.GroupsAscend | src/aether_rl/trainer/utils.py:199-200 | Each group lists its indices in ascending order. |
| Balance.KarmarkarKarp | src/aether_rl/trainer/utils.py:208-222 | The heap loop ends in an equal partition within the largest initial spread. |
| Balance.MergeSpread | src/aether_rl/trainer/utils.py:193-197 | A reversed merge never exceeds the larger of the two spreads. |
| Balance.ChunkSpreadBound | src/aether_rl/trainer/utils.py:211-215 | The largest initial spread is at most the largest weight minus the smallest. |
| BalanceRules.ChunkAttained | src/aether_rl/trainer/utils.py:211-215 | The largest initial spread is that of some run of k consecutive sorted weights, or 0. |
| Balance.EachIndexOnce | src/aether_rl/trainer/utils.py:259-265 | In an equal partition each index stands in exactly one group at one position. |
| Balance.SwapLowersSpread | src/aether_rl/trainer/utils.py:233-256 | A swap with a better score strictly lowers the spread, even when taken for its lower maximum. |
| Balance.FindBestSwap | src/aether_rl/trainer/utils.py:234-248 | The four nested loops find a best-scoring improving swap, or there is none. |
| Balance.RefineBySwapping | src/aether_rl/trainer/utils.py:229-256 | Refinement ends, keeps an equal partition, never raises the spread, and stops only where no swap improves. |
| BalanceRules.SwapsGainNothing | src/aether_rl/trainer/utils.py:229-256 | In loads alone: exchanging any two indices of different groups of the result makes some group heavier than the heaviest, or keeps the heaviest load and leaves a group as light as the lightest. |
| Balance.MaxLoadBound | src/aether_rl/trainer/utils.py:259-265 | The heaviest group exceeds the average by at most (k - 1)/k of the spread. |
| Packing.CostFormula | src/aether_rl/trainer/utils.py:157-160 | The bin cost is the linear coefficient times the token count plus the quadratic one times the sum of squares. |
| Packing.FirstFitKeepsItems | src/aether_rl/trainer/batch.py:431-441 | First Fit keeps the multiset of samples. |
| Packing.FirstFitGood | src/aether_rl/trainer/batch.py:254-281 | A bin fits the length limit unless it holds one oversized sample, and its samples agree on carrying routed experts. |
| PackingRules.SortedForPacking | src/aether_rl/trainer/batch.py:427-431 | Samples are packed by ascending LoRA and then by descending length, without changing the order of samples alike in both. |
| PackingRules.AcceptsExactly | src/aether_rl/trainer/batch.py:254-281 | A bin accepts exactly the samples that keep it within the limit, agree with its samples on carrying routed experts, share the LoRA where images are involved, and whose image tensors stack on those of every sample in it. |
| PackingRules.FirstFitTaken | src/aether_rl/trainer/batch.py:431-441 | Each sample in turn goes to the first bin it fits, and to a new one only when it fits none. |
| PackingRules.PackedSound | src/aether_rl/trainer/batch.py:412-450 | In every packed bin the samples are within the limit or one alone, agree on carrying routed experts, stack their images, and with images in it all have one LoRA, although `can_add` compares with the first sample only. |
| Packing.FirstFitUtilisation | src/aether_rl/trainer/batch.py:431-441 | For text samples with the same routed-experts presence, twice the total exceeds the limit once per bin when there are two or more bins. |
| Packing.FirstFitPairs | src/aether_rl/trainer/batch.py:431-441 | Any two of those bins together exceed the limit. |
| Packing.SplitBinItems | src/aether_rl/trainer/batch.py:290-307 | A split keeps the samples and its two running workloads are those of its sides. |
| Packing.SplitBinBalanced | src/aether_rl/trainer/batch.py:290-307 | The two sides differ by at most the heaviest sample. |
| Packing.SplitBinSides | src/aether_rl/trainer/batch.py:290-307 | Both sides are non-empty exactly when some sample costs something. |
| Packing.ExpandCount | src/aether_rl/trainer/batch.py:395-409 | With positive costs splitting reaches exactly the smaller of the target and what the text bins can be split into. |
| PackingRules.SplitsHeaviest | src/aether_rl/trainer/batch.py:395-409 | Below the target the bin split next is the costliest with several text samples and no image, the last of equally costly ones; with none such, splitting ends. |
| Packing.TextCapacity | src/aether_rl/trainer/batch.py:395-409 | For text bins that capacity is the number of samples. |
| Packing.TargetLeast | src/aether_rl/trainer/batch.py:444-447 | The target is the least positive multiple of the worker count that is not below the bin count. |
| Packing.PackedCount | src/aether_rl/trainer/batch.py:412-448 | With positive costs the packer ends with the target count exactly when the First Fit bins can be split that far, and with a count divisible by the workers exactly then or when that capacity is divisible. |
| Packing.TextPackedCount | src/aether_rl/trainer/batch.py:412-448 | For text samples: the target is reached exactly when there are at least that many samples, and the count is divisible exactly then or when the sample count is. |
| Packing.ExpandKeepsItems | src/aether_rl/trainer/batch.py:395-409 | Splitting keeps the multiset of samples. |
| Packing.ExpandKeepsLimit | src/aether_rl/trainer/batch.py:395-409 | Splitting never takes a bin over the length limit. |
| Packing.PackIntoMicroBatches | src/aether_rl/trainer/batch.py:412-450 | Sorting, First Fit, splitting and materialisation yield exactly the specified micro batches or the first error. |
| Packing.MicroBatchBin.SplitByWorkload | src/aether_rl/trainer/batch.py:290-307 | The loop over the ranked samples builds the specified sides as fresh bins. |
| Materialization.Materialize | src/aether_rl/trainer/batch.py:310-392 | The extending loop yields the concatenated streams with their fills, or fails as the first offending sample does. |
| Materialization.PackedAligned | src/aether_rl/trainer/batch.py:370-372 | A materialised bin of prepared samples is aligned, so its assertions never fire. |
| Materialization.PackedRecords | src/aether_rl/trainer/batch.py:332-368 | The token records of the packed batch are those of the samples, in order. |
| Materialization.UnpackRestoresSample | src/aether_rl/trainer/batch.py:332-370 | Cutting every required stream at the sequence lengths gives back each sample's stream. |
| Materialization.UnpackRestoresOptional | src/aether_rl/trainer/batch.py:341-351 | Cutting an optional stream gives back each sample's stream or its fill. |
| Materialization.LoraCountsTotal | src/aether_rl/trainer/batch.py:368 | The LoRA token counts add up to the token count. |
| PackingRules.PackedCarries | src/aether_rl/trainer/batch.py:310-392 | A packed batch carries an optional stream exactly when one of its samples does; its sequence lengths are theirs, and each LoRA's count is the number of its tokens. |
| PackingRules.MaterializesExactly | src/aether_rl/trainer/batch.py:310-392 | A bin cannot be materialised exactly when a LoRA index is unknown or two layouts of routed experts meet. |
| Materialization.KwargsStacked | src/aether_rl/trainer/batch.py:360-366 | Well-shaped sidecar tensors are stacked in sample order, with the shape saying so. |
| PackingRules.StackedLayout | src/aether_rl/trainer/batch.py:360-366 | Stacked tensors have the names, types and trailing dimensions of every image sample in the bin, when these can be stacked. |
| Preparation.TruncateMm | src/aether_rl/trainer/batch.py:56-94 | The cut is within the limit, keeps exactly the placeholders of the kept images, a maximal prefix of images; complete tensors are left with exactly the rows of the kept images. |
| Preparation.TruncationUnique | src/aether_rl/trainer/batch.py:56-94 | That description leaves one truncation only. |
| Preparation.SliceHoldsRows | src/aether_rl/trainer/batch.py:45-53 | A slice holds the rows its shape declares exactly when the tensor has that many. |
| Preparation.TruncatedRows | src/aether_rl/trainer/batch.py:92-93 | After the cut a tensor holds the first rows it declares exactly when it had the rows of the kept images; the grid always does. |
| Preparation.TruncatedShape | src/aether_rl/trainer/batch.py:56-94 | In terms of the input alone: a cut tensor holds the rows it declares exactly when it covers every run of leading images whose placeholders survive the limit. |
| Preparation.TruncatedExact | src/aether_rl/trainer/batch.py:56-94 | Tensors with at least the rows the grid asks for come out with exactly those of the kept images, in number and in content. |
| Preparation.ShortTensorCut | src/aether_rl/trainer/batch.py:45-53 | A concrete sample whose well-shaped tensor lacks an image's rows is cut to a tensor that declares a row it does not have. |
| Preparation.PreparedEmpty | src/aether_rl/trainer/batch.py:150-172 | A prepared sample is empty exactly when it had no token, there is no room, or it starts inside an image that does not fit. |
| Preparation.PreparedComplete | src/aether_rl/trainer/batch.py:109-222 | Preparation keeps complete image tensors complete, under the same names. |
| ImageSidecars.SidecarsArrive | src/aether_rl/trainer/batch.py:360-366 | If the samples' image tensors are complete, every packed batch's are: under the names its samples carry, holding their rows in order, as many as declared and as the stacked grid asks for. |
| ImageSidecars.PackedKeysAgree | src/aether_rl/trainer/batch.py:254-281 | All multimodal samples of a packed bin carry the same tensor names, so stacking never misses one. |
| Preparation.PrepareSample | src/aether_rl/trainer/batch.py:109-222 | A prepared sample is the sample cut to the limit without splitting an image, in one way only; refusal is exactly the listed error conditions. |
| SampleRecords.PreparedTokens | src/aether_rl/trainer/batch.py:150-222 | Every token of a prepared sample is the sample's own: its id, mask, advantage or 0.0, logprob, temperature, reference logprob, three weights, type id, environment and routed experts are the sample's streams at that index, and an optional stream is there exactly when the sample carries it. |
| SampleRecords.PreparedLength | src/aether_rl/trainer/batch.py:150-190 | A sample within the limit is kept whole, one without images up to the limit, and one with images up to where `_truncate_mm` cuts. |
| SampleRecords.PreparedLayout | src/aether_rl/trainer/batch.py:45-53 | Preparation keeps the names, types and trailing dimensions of the image tensors, cut or not. |
| SampleRecords.RefusedExactly | src/aether_rl/trainer/batch.py:97-222 | A sample is refused exactly when its type ids are misaligned or missing for images, it has rl tokens but no advantages, its environment has the reserved name, its images cannot be told apart for a cut, or its streams do not line up. |
| Distribution.PrepareBatch | src/aether_rl/trainer/batch.py:576-617 | Every rank gets equally many micro batches, each step has one modality on all ranks, the trained token records of the grid are what the samples' own streams say about the kept tokens, and the grid deals their packed, padded batches out evenly per modality. |
| DistributionRules.PackingFailsExactly | src/aether_rl/trainer/batch.py:412-450 | A batch of preparable samples fails exactly when a LoRA index is unknown or two layouts of routed experts meet in a bin. |
| DistributionRules.PaddedGroup | src/aether_rl/trainer/batch.py:567-573 | A modality's batches are followed by as few dummies of the first as make them divisible by the ranks. |
| DistributionRules.ModalityGroups | src/aether_rl/trainer/batch.py:596-606 | The two modality groups are together all the batches, each of its own modality. |
| Distribution.RanksBalanced | src/aether_rl/trainer/batch.py:463-465 | The costs of any two ranks for a modality differ by at most the difference between its costliest and its cheapest batch. |
| Distribution.DistributeGroup | src/aether_rl/trainer/batch.py:453-465 | A padded group is dealt out evenly by a balanced partition. |
| Distribution.DealBatches | src/aether_rl/transport/filesystem.py:131-133 | Joining the two modalities gives lists of one length, so the sender's length check holds. |
| Distribution.PaddingDivides | src/aether_rl/trainer/batch.py:479 | The padded length is a multiple of the granularity. |
| Distribution.PaddedRecords | src/aether_rl/trainer/batch.py:468-518 | Padding leaves every record as it was and adds only records no loss reads. |
| DistributionRules.PaddedTail | src/aether_rl/trainer/batch.py:468-518 | The k-th padding token has id 1, is masked out at position k with temperature 1.0 and no environment, and has 0.0 in every other stream the batch has. |
| DistributionRules.PaddedRest | src/aether_rl/trainer/batch.py:468-518 | Padding extends the last sequence and the last LoRA, routes its tokens to expert 0, and adds or drops no stream. |
| DistributionRules.PadsToLeast | src/aether_rl/trainer/batch.py:468-480 | A batch is padded to the least multiple that holds it and left alone when it is one. |
| Distribution.PaddedLoraCounts | src/aether_rl/trainer/batch.py:508-511 | After padding the LoRA counts still add up to the padded length. |
| Distribution.DummyTrainsNothing | src/aether_rl/trainer/batch.py:554-564 | A dummy batch trains no token and keeps alignment. |
| DistributionRules.DummyTokens | src/aether_rl/trainer/batch.py:554-564 | A dummy has its source's tokens masked out, with no advantage and no loss weights, and everything else its source has. |
| Distribution.PartitionTrained | src/aether_rl/trainer/batch.py:463-465 | Dealing a group out by an equal partition neither loses nor repeats a trained token. |
| SequenceBoundaries.BoundariesExact | src/aether_rl/utils/sequence.py:6-35 | For any position ids, shards included, boundaries stand at 0, at the end and at each zero between. |
| SequenceBoundaries.LengthsExactly | src/aether_rl/utils/sequence.py:38-52 | Stored lengths are refused exactly when there is none, one is zero or they do not add up to the total; otherwise the boundaries rise by them from 0 to the total. |
| SequenceBoundaries.BoundariesAgree | src/aether_rl/utils/sequence.py:38-52 | Before padding, boundaries from position ids equal those from stored lengths. |
| SequenceBoundaries.PreparedFresh | src/aether_rl/trainer/batch.py:139-222 | Prepared samples start at position zero with their own length, and are all non-empty exactly when each has a token and does not start inside an image that does not fit. |
| SequenceBoundaries.PreparedBoundaries | src/aether_rl/utils/sequence.py:6-52 | For the packed micro batches of such samples both derivations give the boundaries of the samples. |
| SequenceBoundaries.PaddingAddsOneBoundary | src/aether_rl/trainer/batch.py:490-495 | After padding there is exactly one more boundary from position ids, where the padding starts. |

## Left out

- Groups created by hand and direct leases (`create_group`, `create_lease`): no other module calls them, and a hand-made group may be stale until the next step.
- Association of offered leases (`associate_offered_lease`): the request is already granted the lease it names, so it changes nothing.
- `release_unoffered_lease`: it deletes the lease row before clearing the reference to it while immediate foreign keys are on.
- Everything before `initialize_run`, schema migrations and the file lock: runs start from an initialized database.
- Verification of policy artifacts on disk: a recorded policy is taken as verified.
- Timestamps that no transaction reads back (registration, last seen, accepted_at, requested_at) and result processing states (`claim_pending_results`, `mark_result_processed`): they guard nothing modelled here.
- Environments, task payloads and sampling settings: carried through unread.
- CoordinatorRepository.Repository.ExpireLeases: does not return the number of expired leases.
- CoordinatorRepository.Repository.AcceptResult: models the transaction; the same checks made before publication change nothing, and publication is in `CrashConsistency`.
- CoordinatorRepository.Repository.RegisterWorker: leaves out the workers table, which only remembers when a worker was first seen.
- FairScheduling.RunFair: is about creations by need (kind None), as leasing makes them; creation restricted to one kind is fair only within that kind.
- BatchSelection.Select: leaves out the counter of mixed-policy prefixes, which does not affect the selection.
- LedgerRuns.EmittedHomogeneous: the lag is that of the readings, because the code reads the version and the limit in database calls before the one that records the batch; `LagWindows` has the exact condition at the commit.
- BatchEmission.ResultProcessor.EmitReadyBatches: takes artifact publication and decoding as done; `CrashConsistency` is about the files.
- Processing of a ready group into samples (`_process_group`, filters, scoring): it enters the ledger as a payload that names the group and carries its policy, with any rollouts stamped with that policy.
- CrashConsistency.CrashConsistent: a batch file left behind by a `record_training_batch` that raises without a crash is not a step; in the runs of `LedgerRuns` that transaction is never refused.
- CrashConsistency.NextSafe: one publication is in flight at a time, while the source can interleave the publication of a result and of a batch, each in its own store.
- CrashConsistency.ArtifactStore.Publish: symlink, directory and permission checks, and the emptied step directories, are not modelled; file contents are synced before they are linked.
- InferenceBroker.Broker.Exchange: two concurrent exchanges on one lease, and asyncio scheduling beyond atomic steps, are not modelled; waking and timing out are the steps `Woken` and `TimedOut`.
- TrainableBranches.IterTrainableBranches: object identity is the node's identity; tokens, log-probabilities and images of a sample are not modelled.
- PassMetrics.ComputePassMetrics: works on exact rationals, without floating-point rounding.
- Weights, virtual finishes, delays and clock readings are exact reals, without floating-point rounding.
- `_WeightedSet` and micro batches are values: merging, padding in place and the sharing of one dummy batch among its copies are not captured.
- The heap of `heapq` is a list that is scanned: popping removes the state that comes before every other.
- Tensors are sequences of rows rather than bytes, and image data are rows with their declared shape.
- SequenceBoundaries.CuFromPositions: does not return the longest sequence length.
- Ascending LoRA order inside split bins: splitting re-sorts by cost, and the repository allows one run.
- The model-specific FLOP coefficients of the bin cost: any two coefficients are allowed.
- HTTP handlers, the worker client, policy distribution, the monitor, models, optimizers and evaluation scripts.
