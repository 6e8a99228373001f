# Verification of the crash-safe journaled filesystem operations

The library changes files and directories under a journal kept in SQLite: it writes down what it is
about to do, does it, writes down that it did it, and can later undo it or refuse to. This project
models that protocol in Dafny and proves what it promises, with a crash allowed before and after every
durable step.

* `Steps` has the batch phases and what can happen to one durable step: it proceeds, raises or dies
  before or after its effect, or finds its lease lost.
* `Snapshots`, `Backups`, `FileRecoveryPlanning` are observations of a path, the guarded restore of a
  file, and the planner that decides from surviving records whether to restore, leave alone or refuse.
* `FileMutation` is one journaled write or delete as a state machine over those, with its failure
  records and the drivers that recover it; `FileMutationSafety` and `FileMutationProgress` are the
  theorems of safety and progress, `FileMutationOutcomes` and `FileRecoveryOutcomes` say how runs and
  recoveries end; `JournaledFiles` is the same call on mutable state, proved equal to it.
* `TransactionRollback` composes many mutations on many paths and undoes them newest first.
* `OperationJournal` has leases, batches and the guards of every journal write; `JournalSafety` proves
  fencing, idempotency and supersession over every interleaving, `JournalOutcomes` when each write goes
  through and what it leaves; `JournalStores` is the store updated in
  place, with transactions undone when they raise.
* `RecoveryOutcomes` and `DirectoryCaptureOutcomes` say how recovery attempts and captures end.
* `RecoveryActions`, `DirectoryCapture`, `ReplayClaims`, `ArtifactCleanup`, `ContentStore`,
  `LegacyAdoption`, `TreeRestore`, `RecursiveMkdir`, `SnapshotBundle`, `TransactionClaims` and `Newlines`
  are the components of those names.

A history is a sequence of events, chosen freely, and the states they lead to; the main theorems are
about every state of every history. A method on a class is proved equal to the transition it carries
out, so the theorems about transitions hold of the methods.

Taken as given: SHA-256 (FIPS 180-4) is injective, and so is the digest of a lease token; identifiers
from uuid4 are new; one SQLite transaction is all or nothing; atomic replacement, deletion, rename
without replacement and creating a tag once are single steps; a newly written file gets an inode number
not seen at its path before; device numbers and modification times of new files are arbitrary.

Where the code differs from what one would expect of it, the code is followed:

* "Noop means the mutation never took effect" is false for a protected write that creates a file
  (`CreationCalledUntouched`); `NoopMeansUntouchedIff` says for which requests it holds. A noop is safe in
  every case (`NoopIsSafe`).
* A run of recovery actions can return although an action of the attempt has failed, if it had failed
  before the run began (`FailureHandedBack`, `ReturnMeansFineIff`). Batch recovery always begins a new
  attempt, so its success is sound (`SuccessMeansAllFine`).
* Recovering every batch of an owner frees all claims of the group only if the group has a scope
  (`GroupFreedIff`, `UnscopedClaimSurvives`).

## Model

| member | source | states |
|---|---|---|
| FileRecoveryPlanning.RestoreRestsOnRecords | src/safe_fs_ops/operation_journal/file_recovery_planning.py:88-184 | A restore verdict names a recorded backup of this very path, and expects only a state on record: the after-checkpoint, an observation equal to the intended result, or what a run still preparing had seen |
| FileRecoveryPlanning.NoopRestsOnRecords | src/safe_fs_ops/operation_journal/file_recovery_planning.py:208-253 | A noop verdict rests on a snapshot taken at failure or replay that agrees with one taken before in all eight fields, inode included, and on a run that died preparing or had recorded its intent |
| FileRecoveryPlanning.VerdictIgnoresOthers | src/safe_fs_ops/operation_journal/file_recovery_planning.py:271-286 | Checkpoints about other resources or paths never change a verdict |
| Backups.RestoreReachesBefore | src/safe_fs_ops/filesystem_ops/backups.py:162-271 | Whatever a restore reports as done is the state the backup was taken of: existence, content, permissions |
| Backups.RestoreGoesThroughIff | src/safe_fs_ops/filesystem_ops/backups.py:162-313 | When a restore goes through: the kept bytes are whole, and the before-state is there already, or a file or nothing that is expected or may be overwritten |
| Backups.RestoreOverwritesOnlyExpected | src/safe_fs_ops/filesystem_ops/backups.py:274-313 | A restore writes only over the content it was told to expect, and only where the before-state is not there already |
| Backups.RestoreIsIdempotent | src/safe_fs_ops/filesystem_ops/backups.py:195-203 | A second restore finds its work done, whatever it is told to expect |
| FileMutationSafety.BeforeStateOrResult | src/safe_fs_ops/operation_journal/filesystem_mutations.py:1355-1591 | At every moment of every history of crashes, exceptions, lost leases, retries and recoveries the path holds the before-state or exactly what the mutation left; a batch recorded as recovered holds the before-state |
| FileMutationSafety.RecoveryRestoresOrLeaves | src/safe_fs_ops/operation_journal/filesystem_recovery.py:74-198 | Every recovery by every driver leaves the file as it found it or puts the before-state back; success is recorded only on the before-state, and a refusal touches nothing |
| FileMutationSafety.MutationRunsAtMostOnce | src/safe_fs_ops/operation_journal/filesystem_mutations.py:1377-1431 | One start and one call of the mutation, however often the request is retried or recovered |
| FileMutationSafety.WriteAhead | src/safe_fs_ops/operation_journal/filesystem_mutation_checkpoints.py:27-148 | By the time a protected path can differ, the backup of its true before-state and the intended result are in the journal |
| FileMutationSafety.NoopIsSafe | src/safe_fs_ops/operation_journal/file_recovery_planning.py:208-253 | A noop verdict, in every history, means the path holds the before-state; for a file that existed before, also that the mutation never took effect |
| FileMutationSafety.NoopMeansUntouchedIff | src/safe_fs_ops/operation_journal/file_recovery_planning.py:353-368 | "Noop means the mutation never took effect" holds in all histories exactly when the request is not a protected write to a missing path |
| FileMutationSafety.CreationCalledUntouched | src/safe_fs_ops/operation_journal/file_recovery_planning.py:208-253 | The history in which it fails: a file is created, the run dies, a replay removes the file and dies, the next replay finds the path missing and calls it untouched |
| FileMutationSafety.RestoredKeepsInv | src/safe_fs_ops/filesystem_ops/backups.py:204-242 | A restore planned from the journal of this request leaves the before-state and keeps every record truthful |
| FileMutationProgress.ReplayCompletesIff | src/safe_fs_ops/workspace_rollback.py:416-480 | A run that stopped anywhere is finished off by one undisturbed replay exactly when its intended result had been recorded; otherwise the replay refuses and touches nothing |
| FileMutationProgress.SuccessRollsBackIff | src/safe_fs_ops/workspace_rollback.py:743-773 | A succeeded batch is undone by one undisturbed rollback exactly when its caller had asked for a backup |
| FileMutationProgress.VerdictWithIntent | src/safe_fs_ops/operation_journal/file_recovery_planning.py:135-184 | With the intent on record, a replay's verdict is a restore expecting exactly what the path holds, or a noop |
| FileMutationProgress.VerdictWithoutIntent | src/safe_fs_ops/operation_journal/file_recovery_planning.py:195-205 | Without it the verdict of a replay is manual intervention |
| FileMutationOutcomes.UndisturbedRunSucceedsIff | src/safe_fs_ops/operation_journal/filesystem_mutations.py:1355-1591 | An undisturbed call succeeds exactly when the path allows the mutation; it leaves the content and permissions asked for (or kept, or the owner's only), the batch succeeded and the whole evidence in the journal. Otherwise the path is as it was and one failure record shows it |
| FileMutationOutcomes.ExceptionsAreTold | src/safe_fs_ops/operation_journal/filesystem_failure_records.py:51-261 | A run that is not killed, whatever exceptions and lost leases it meets, ends succeeded or wanting recovery with one failure record that saw the path |
| FileMutationOutcomes.PreparingExceptionIsNoted | src/safe_fs_ops/operation_journal/filesystem_mutations.py:1445-1475 | An exception of a preparing step is noted as one of preparing, with what the path holds, and the mutation is not called |
| FileMutationOutcomes.CallingExceptionIsNoted | src/safe_fs_ops/operation_journal/filesystem_mutations.py:1476-1516 | One of the authority check, or of a mutation that changed nothing, is noted as no preparing |
| FileMutationOutcomes.FailedLookIsNoted | src/safe_fs_ops/operation_journal/filesystem_failure_records.py:51-131 | Where looking at the path fails too, the failure is noted without a snapshot |
| FileMutationOutcomes.LateExceptionKeepsWhatWasSeen | src/safe_fs_ops/operation_journal/filesystem_failure_records.py:188-261 | A later exception is noted with what was seen after the mutation, however a second look would end |
| FileRecoveryOutcomes.EndedRunRecoversIff | src/safe_fs_ops/operation_journal/file_recovery_planning.py:88-253 | A run that ended failed or wanting recovery is undone by one undisturbed recovery of any driver exactly when its checkpoints and failure record prove enough; otherwise the recovery refuses and touches nothing, the rollback drivers without starting where there is no backup |
| FileRecoveryOutcomes.InterruptedRunRecoversIff | src/safe_fs_ops/operation_journal/journal_recovery.py:238-311 | The same for a run that died and was interrupted by a newer lease |
| FileRecoveryOutcomes.RecoveryCompletesIff | src/safe_fs_ops/workspace_rollback.py:416-480 | From every state of every history that lost no backup, which batches each driver takes up, and that an undisturbed recovery ends on the before-state exactly when the evidence decides for it |
| FileRecoveryOutcomes.ExceptionsAreUndone | src/safe_fs_ops/workspace_rollback.py:743-794 | A protected mutation that was called and failed with exceptions only is always undone by the next undisturbed recovery |
| JournaledFiles.JournaledFile.DoAll | src/safe_fs_ops/operation_journal/filesystem_mutation_checkpoints.py:42-148 | The preparing steps run in order up to the first that raises or dies, each durable before the next |
| JournaledFiles.JournaledFile.Run | src/safe_fs_ops/operation_journal/filesystem_mutations.py:1410-1444 | The journaled call on mutable state is the transition the safety theorems are about, and a failing before-snapshot is recorded |
| JournaledFiles.JournaledFile.PrepareAndMutate | src/safe_fs_ops/operation_journal/filesystem_mutations.py:1445-1489 | An exception while preparing or while checking authority is recorded, with a snapshot, before it goes on |
| JournaledFiles.JournaledFile.MutateAndFinish | src/safe_fs_ops/operation_journal/filesystem_mutations.py:1490-1516 | An exception of the mutation itself is recorded the same way |
| JournaledFiles.JournaledFile.Finish | src/safe_fs_ops/operation_journal/filesystem_mutations.py:1534-1584 | What follows the mutation on mutable state is the transition whose outcome UndisturbedRunSucceedsIff and LateExceptionKeepsWhatWasSeen state |
| JournaledFiles.JournaledFile.RecordFailure | src/safe_fs_ops/operation_journal/filesystem_failure_records.py:51-131 | The failure checkpoint, the failed phase and the wish for recovery, with the marker as fallback when the lease is lost |
| JournaledFiles.JournaledFile.RecordLateFailure | src/safe_fs_ops/operation_journal/filesystem_failure_records.py:188-261 | The same after the mutation |
| JournaledFiles.JournaledFile.RestoreFile | src/safe_fs_ops/filesystem_ops/backups.py:162-242 | The path changes only if the guarded restore lets it |
| JournaledFiles.JournaledFile.RecoverBatch | src/safe_fs_ops/operation_journal/filesystem_recovery.py:74-198 | One recovery of one driver on mutable state is the recovery whose outcome RecoveryCompletesIff and EndedRunRecoversIff state |
| TransactionRollback.RollbackUndoesTransaction | src/safe_fs_ops/workspace_rollback.py:113-171 | After any sequence of succeeded writes and deletes on any paths, newest-first rollback meets every expected-current check and ends in the initial existence, content and permissions everywhere |
| TransactionRollback.PathIsRestored | src/safe_fs_ops/workspace_rollback.py:743-773 | The same per path: batches failing on other paths do not matter |
| TransactionRollback.WritesAreProven | src/safe_fs_ops/filesystem_ops/backups.py:274-313 | Whatever fails in between, a restore writes only over the content its batch left, and writes what its batch had found |
| TransactionRollback.EveryPathIsHistoric | src/safe_fs_ops/workspace_rollback.py:113-171 | After any partial rollback each path holds what it held, or what some batch of the transaction had found there |
| TransactionRollback.Workspace.RollBackAll | src/safe_fs_ops/workspace_rollback.py:122-156 | The loop computes that rollback; failures are collected and never stop it |
| JournalSafety.WritersAreOrdered | src/safe_fs_ops/operation_journal/journal_guards.py:72-235 | Fencing: in every history the rows of a batch are ordered by the token of the lease that wrote them, and none exceeds the lease counter |
| JournalSafety.StaleLeaseIsRefused | src/safe_fs_ops/operation_journal/journal_guards.py:389-433 | Once a lease with a higher token has written a batch, no write of any kind by a lower one succeeds, whatever clock it reads, the lost-lease marker included |
| JournalSafety.OnlyNewerLeasesInterrupt | src/safe_fs_ops/operation_journal/journal_guards.py:389-407 | A planned, running or failed batch is interrupted only by a lease newer than every lease that has written it |
| JournalSafety.HistoryOnlyGrows | src/safe_fs_ops/operation_journal/journal_batch.py:247-399 | No committed row is lost or reordered; no batch token or lease counter goes back |
| JournalSafety.OneBatchPerKey | src/safe_fs_ops/operation_journal/journal_batch.py:69-166 | Two batches with the same idempotency key are the same batch |
| JournalSafety.StartsAtMostOnce | src/safe_fs_ops/operation_journal/journal_guards.py:361-380 | A batch has at most one successful start, before which there is no record of it |
| JournalSafety.SupersededStaysSuperseded | src/safe_fs_ops/operation_journal/journal_guards.py:238-266 | A recovery attempt superseded by any later recovery row is never active again |
| JournalSafety.SupersededIsRefused | src/safe_fs_ops/operation_journal/journal_recovery.py:143-192 | No authority check and no write bearing a superseded attempt succeeds, from any lease |
| JournalSafety.AttemptHasOneWriter | src/safe_fs_ops/operation_journal/journal_guards.py:128-151 | Every row written under an attempt bears the token of the lease that started it, with no recovery row in between: a newer lease never writes under the old id |
| JournalSafety.HandoffNeverActive | src/safe_fs_ops/operation_journal/journal_guards.py:178-235 | After a handoff row no attempt is active, which is why an action write that took over undoes itself |
| JournalSafety.WriteKeeps | src/safe_fs_ops/operation_journal/journal_artifact_cleanup.py:364-387 | Every kind of batch write, cleanup and abandoned-success writes included, keeps the fencing invariant and adds rows of its own token only; what each write leaves is WriteGoesThroughIff |
| JournalOutcomes.WriteGoesThroughIff | src/safe_fs_ops/operation_journal/journal_guards.py:72-266 | For each of the eleven writes of a batch: when it goes through, told on lease currency, tokens, phases and rows, and the phase, the binding and the rows it leaves, with their writer; nothing else changes |
| JournalOutcomes.PhaseIsTold | src/safe_fs_ops/operation_journal/journal_batch.py:482-513 | In every history the phase of a batch is the one its newest telling row names |
| JournalOutcomes.AcquireGoesThroughIff | src/safe_fs_ops/workspace_state/leases.py:86-213 | A lease can be taken exactly when nobody holds it, and is then held by the taker alone until it expires |
| JournalOutcomes.HolderKeepsOrReleases | src/safe_fs_ops/workspace_state/leases.py:232-341 | Only the holder renews or releases; renewed it is held for the time asked for, released by nobody |
| JournalOutcomes.CreateGoesThroughIff | src/safe_fs_ops/operation_journal/journal_batch.py:69-166 | A key makes one planned batch; only the same request under the same lease name finds it again |
| JournalStores.JournalStore.Acquire | src/safe_fs_ops/workspace_state/leases.py:86-213 | A lease is taken only when its row has expired, and each taking raises the counter |
| JournalStores.JournalStore.CreateBatch | src/safe_fs_ops/operation_journal/journal_batch.py:69-166 | The same request finds its batch again, any other under the key is refused, a new key makes a batch |
| JournalStores.JournalStore.StartBatchOperation | src/safe_fs_ops/operation_journal/journal_batch.py:247-328 | The start transaction, rebinding the lease where needed |
| JournalStores.JournalStore.TakeOver | src/safe_fs_ops/operation_journal/journal_guards.py:178-235 | Token, owner and digest are raised and the superseding row inserted |
| JournalStores.JournalStore.StartRecoveryAttempt | src/safe_fs_ops/operation_journal/journal_recovery.py:78-141 | The start of an attempt, after a takeover if the lease is newer |
| JournalStores.JournalStore.RecordRecoveryPhase | src/safe_fs_ops/operation_journal/journal_recovery.py:385-452 | The phase records of a recovery; a raise after the takeover puts the tables back |
| JournalStores.JournalStore.RecordRecoveryAction | src/safe_fs_ops/operation_journal/journal_recovery_actions.py:206-292 | An action row; a takeover made for it is undone by the check that follows |
| RecoveryActions.LogsArePaths | src/safe_fs_ops/operation_journal/journal_guards.py:49-69 | In every attempt, whatever interrupts it, the log of each action is a path of the transition table from planned on |
| RecoveryActions.PathsAreShort | src/safe_fs_ops/operation_journal/journal_guards.py:49-69 | Those paths written out: planned, possibly attempted, ended once; nothing fails or succeeds that was not attempted |
| RecoveryActions.ReturnMeansFineIff | src/safe_fs_ops/operation_journal/filesystem_recovery.py:200-241 | A run that returns leaves every action succeeded or skipped exactly when none of its attempt had already failed or gone manual before |
| RecoveryActions.SuccessMeansAllFine | src/safe_fs_ops/operation_journal/filesystem_recovery.py:74-198 | A batch recovery records success only if every planned action ended succeeded or skipped and the attempt stayed active throughout |
| RecoveryActions.FailureHandedBack | src/safe_fs_ops/operation_journal/filesystem_recovery.py:258-264 | Run again on an attempt with a failed action, the run returns and hands the failure back as completed |
| RecoveryOutcomes.RowsTellWhatHappened | src/safe_fs_ops/operation_journal/filesystem_recovery.py:243-420 | In every attempt, wherever cut short: succeeded means the handler completed, skipped that it skipped, failed that it broke, manual that it asked for help or there is none |
| RecoveryOutcomes.UndisturbedPaths | src/safe_fs_ops/operation_journal/filesystem_recovery.py:200-241 | In an undisturbed attempt each action is planned, attempted and ended as its handler ends, up to the first that raises; those behind it stay planned |
| RecoveryOutcomes.SuccessRecordedIff | src/safe_fs_ops/operation_journal/filesystem_recovery.py:74-198 | Success is recorded exactly when the actions have ids of their own, every handler completes or skips, and the attempt stays active through all its interactions with the journal |
| RecoveryOutcomes.KnownPlansAreLeft | src/safe_fs_ops/operation_journal/filesystem_recovery.py:501-512 | What an attempt has planned already is left alone |
| RecoveryOutcomes.AttemptingIsHandledAgain | src/safe_fs_ops/operation_journal/filesystem_recovery.py:266-285 | An action found attempting is handled again, without a second attempting row |
| RecoveryActions.LatestRowsAreLatest | src/safe_fs_ops/operation_journal/recovery_runner.py:52-66 | The rows handed to the run are the newest of each action, each action once, none missing |
| RecoveryActions.Attempt.Newest | src/safe_fs_ops/operation_journal/recovery_runner.py:52-66 | The collecting pass computes them |
| RecoveryActions.Attempt.HandleAction | src/safe_fs_ops/operation_journal/filesystem_recovery.py:278-420 | One handler run on mutable state; which status each ending is recorded as is RowsTellWhatHappened |
| RecoveryActions.Attempt.RunAll | src/safe_fs_ops/operation_journal/filesystem_recovery.py:230-241 | The actions in order, stopping at the first that raises |
| RecoveryActions.Attempt.PlanAll | src/safe_fs_ops/operation_journal/filesystem_recovery.py:460-531 | Planned rows for the plans this attempt does not know yet |
| RecoveryActions.Attempt.Recover | src/safe_fs_ops/operation_journal/filesystem_recovery.py:200-241 | Planning, then running, on mutable state |
| DirectoryCapture.AlwaysAtOnePlace | src/safe_fs_ops/operation_journal/filesystem_mutations.py:1149-1353 | Through every crash, exception and recovery the directory is at exactly one of the two paths, itself, with every token ever recorded for it; a recovery recorded as succeeded has left it at the original path. When it moves is UndisturbedCaptureIff |
| DirectoryCapture.RecoveryMovesOnlyRecorded | src/safe_fs_ops/operation_journal/captured_directory_recovery_actions.py:76-112 | From any state of the two paths, a recovery moves nothing but a directory with the recorded device, inode and token, only from quarantine into an empty original path |
| DirectoryCapture.RecycledIdentityIsRefused | src/safe_fs_ops/filesystem_ops/capture_directories.py:99-144 | The recorded device and inode without the recorded token: nothing moves and no success is recorded |
| DirectoryCapture.HumanNeededIsLeftAlone | src/safe_fs_ops/operation_journal/captured_directory_recovery_planning.py:28-30 | Once a failure record asks for a human and no proof is on record, no recovery moves anything, whatever the paths hold by then |
| DirectoryCapture.ReplayUndoesIff | src/safe_fs_ops/operation_journal/captured_directory_recovery_planning.py:17-159 | A capture that died half-way is undone by one undisturbed replay exactly when the directory had moved and a token was on record for it; otherwise nothing is touched |
| DirectoryCaptureOutcomes.UndisturbedCaptureIff | src/safe_fs_ops/operation_journal/filesystem_mutations.py:1149-1353 | An undisturbed capture succeeds exactly when the source is a plain directory and the quarantine path free; the directory is then there, tagged and recorded as what it is, and gone from its old path. Otherwise nothing has moved |
| DirectoryCaptureOutcomes.UntaggedCaptureGoesOn | src/safe_fs_ops/operation_journal/filesystem_mutations.py:1149-1353 | A failure to tag the source for the before-checkpoint is swallowed; the capture goes on and tags again |
| DirectoryCaptureOutcomes.SuccessIsACapture | src/safe_fs_ops/operation_journal/filesystem_mutations.py:1323-1332 | In every history without interference a succeeded batch has its directory in quarantine and the proof of it on record |
| DirectoryCaptureOutcomes.ExceptionIsNoted | src/safe_fs_ops/operation_journal/filesystem_mutations.py:1883-1924 | What an exception is noted as: nothing to undo, the proof of a directory recognizably moved, or a human's call |
| DirectoryCaptureOutcomes.RecoveryCompletesIff | src/safe_fs_ops/operation_journal/captured_directory_recovery_actions.py:76-112 | From any state of the two paths, when an undisturbed recovery puts the directory back, and that it moves nothing otherwise |
| DirectoryCaptureOutcomes.EndedCaptureUndoneIff | src/safe_fs_ops/operation_journal/captured_directory_recovery_planning.py:17-159 | A capture that ended in whatever way is undone by one undisturbed recovery exactly when the directory had moved and the records name it |
| DirectoryCaptureOutcomes.TokenOnRecordBringsBack | src/safe_fs_ops/operation_journal/captured_directory_recovery_planning.py:87-140 | Once the before-checkpoint names the directory by its token, no crash, exception or lost lease keeps one undisturbed recovery from leaving it at its original path |
| DirectoryCapture.Paths.TagOriginal | src/safe_fs_ops/filesystem_ops/directory_capture_token.py:91-127 | A tag is created once and never replaced |
| DirectoryCapture.Paths.CaptureToQuarantine | src/safe_fs_ops/filesystem_ops/capture_directories.py:43-96 | Either the tagged directory is at the quarantine path and its old path vacant, or nothing has moved; the tag stays |
| DirectoryCapture.Paths.RestoreCaptured | src/safe_fs_ops/filesystem_ops/capture_directories.py:99-144 | When exactly the directory moves back, and which refusals mean an occupied or a missing path |
| DirectoryCapture.Paths.RestoreOrSkip | src/safe_fs_ops/operation_journal/captured_directory_recovery_actions.py:406-446 | The action moves, skips because the work is already done, or refuses, as the recovery theorems assume |
| ReplayClaims.ReplayKeepsUnrecoveredClaims | src/safe_fs_ops/workspace_rollback.py:297-413 | After every turn of the replay loop, and after the sweep, each selected batch not yet recovered still has its claim |
| ReplayClaims.GroupFreedIff | src/safe_fs_ops/workspace_rollback.py:678-740 | When every batch of an owner and scope completes, a claim of the group outlives the replay exactly if the group has no scope and no batch of it was about that resource |
| ReplayClaims.UnscopedClaimSurvives | src/safe_fs_ops/workspace_rollback.py:726-727 | Such a claim: freed for a scoped group, left behind without a scope |
| ReplayClaims.LoopOnlyFrees | src/safe_fs_ops/workspace_rollback.py:297-413 | The loop takes no claim and forgets no recovered batch |
| ReplayClaims.LoopSparesStrangers | src/safe_fs_ops/workspace_rollback.py:700-740 | A claim whose owner and scope have no selected batch is never touched by the loop |
| ReplayClaims.LoopRecoversExactly | src/safe_fs_ops/workspace_rollback.py:333-397 | The replay counts as recovered exactly the chosen batches whose turn got that far |
| ReplayClaims.SweepFreesOrphans | src/safe_fs_ops/workspace_rollback.py:521-547 | The sweep frees exactly this owner's claims of transaction instances without a batch whose lease has been superseded |
| ReplayClaims.Workspace.ReleaseRecovered | src/safe_fs_ops/workspace_rollback.py:700-740 | The claims one recovered batch frees |
| ReplayClaims.Workspace.ReplayAll | src/safe_fs_ops/workspace_rollback.py:333-397 | The loop on mutable claims; failures are reported and do not stop it |
| ArtifactCleanup.LogIsDisciplined | src/safe_fs_ops/operation_journal/journal_artifact_cleanup.py:59-94 | In every history the log opens planned, keeps its resource, changes its trigger only when retrying from a failure, was planned only in the phase of its trigger, and never grows past a closing row; an attempt directly follows planning, success directly follows an attempt |
| ArtifactCleanup.DeletesOnlyWhileAttempting | src/safe_fs_ops/operation_journal/file_backup_artifacts.py:134-233 | Every physical deletion happened while the latest row was attempting, and removed exactly the recorded bytes |
| ArtifactCleanup.DriverClosesIff | src/safe_fs_ops/workspace_rollback.py:1355-1451 | From any reachable state an undisturbed driver is never rejected by the log's rules, and closes the log exactly when nothing speaks against the artifact, or it was closed, or is retained |
| ArtifactCleanup.UndisturbedDriverDeletes | src/safe_fs_ops/workspace_rollback.py:1185-1246 | What an undisturbed driver does with the artifact: a trusted one not retained is deleted once while attempting and closed as succeeded; in every other case nothing is deleted and the log says why |
| ArtifactCleanup.UnplannedCleanupWaits | src/safe_fs_ops/workspace_rollback.py:1487-1520 | A cleanup nobody planned is not begun while the batch runs nor outside the phase of its trigger |
| ArtifactCleanup.DeletedAtMostOnce | src/safe_fs_ops/workspace_rollback.py:1186-1246 | However often the driver dies and comes back, the artifact is deleted at most once |
| ArtifactCleanup.CleanupRun.Record | src/safe_fs_ops/operation_journal/journal_artifact_cleanup.py:274-455 | One append on mutable state, with every reason to reject it |
| ArtifactCleanup.CleanupRun.ExecuteAndRecord | src/safe_fs_ops/operation_journal/file_backup_artifacts.py:134-233 | Look, mark, delete, record, in that order |
| ArtifactCleanup.CleanupRun.DriveCandidate | src/safe_fs_ops/workspace_rollback.py:1355-1451 | The driver on mutable state is the one the theorems are about |
| ContentStore.VisibleObjectsHashToTheirNames | src/safe_fs_ops/filesystem_ops/content_addressed.py:264-330 | Under every interleaving of puts, whatever is visible under a name hashes to it |
| ContentStore.ReturnedRefsCopyBack | src/safe_fs_ops/filesystem_ops/content_addressed.py:54-143 | A ref a put has returned verifies ever after and copies back exactly the bytes put |
| ContentStore.AtMostOneCreates | src/safe_fs_ops/filesystem_ops/content_addressed.py:389-431 | Of all puts of the same bytes at most one reports having created the object |
| ContentStore.ObjectsHaveCreators | src/safe_fs_ops/filesystem_ops/content_addressed.py:289-330 | Every object has a put that installed it and, unless it died, reports having created it: of puts that all came to their end exactly one does |
| ContentStore.UndisturbedPutFinishes | src/safe_fs_ops/filesystem_ops/content_addressed.py:264-330 | A put that nothing disturbs returns with the bytes stored, and reports creation exactly when they were not there |
| ContentStore.NoObjectTrackedTwice | src/safe_fs_ops/operation_journal/filesystem_mutations.py:2100-2127 | No object is among the partial artifacts of two tree backups, nor twice in those of one |
| ContentStore.OnlyChangedSourcesRaise | src/safe_fs_ops/filesystem_ops/content_addressed.py:64-131 | Finding the object already there is never a reason to fail |
| ContentStore.Store.PutBytes | src/safe_fs_ops/filesystem_ops/content_addressed.py:264-330 | Stores what was put and reports creation exactly when the object was new |
| ContentStore.Store.CopyStream | src/safe_fs_ops/filesystem_ops/content_addressed.py:433-455 | The chunk loop copies everything, in order |
| ContentStore.PartialArtifactTracker.RecordCreatedRef | src/safe_fs_ops/operation_journal/filesystem_mutations.py:2064-2087 | The journal rows together hold every created ref once and in order; a row that could not be written is made up for by the next |
| LegacyAdoption.OneTokenApprovedAndProven | src/safe_fs_ops/workspace_legacy_captures.py:54-122 | However often an adoption dies and is retried, one token at most is ever approved, and a proof is written only for it and only while the directory bears it |
| LegacyAdoption.OtherTagIsRefused | src/safe_fs_ops/filesystem_ops/directory_capture_token.py:91-127 | A directory bearing another tag is never tagged over, approved or proven |
| LegacyAdoption.UndisturbedAdoptionIff | src/safe_fs_ops/workspace_legacy_captures.py:77-122 | An undisturbed adoption completes exactly when the directory is the one inspected, unchanged or bearing the approved tag, and bears no other; it then bears the token, approved and proven |
| LegacyAdoption.RetryCompletes | src/safe_fs_ops/workspace_legacy_captures.py:77-122 | Interrupted after any stage, the same confirmation given again completes with the token first approved, although the tag itself changed the confirmed times |
| LegacyAdoption.Adoption.AdoptCandidate | src/safe_fs_ops/workspace_legacy_captures.py:54-122 | Approval, tag and proof on mutable state |
| TreeRestore.RestoreCompletesIff | src/safe_fs_ops/filesystem_ops/tree_backups.py:75-147 | A restore completes exactly when its preflight passes, and changes nothing when it does not; afterwards every entry is there, every other path is as it was, and whatever else is new is a plain directory on the way |
| TreeRestore.PreflightPassesIff | src/safe_fs_ops/filesystem_ops/tree_backups.py:267-308 | When a preflight passes, told on the tree, the kept bytes and the policy |
| TreeRestore.OnlyDifferingFilesReplaced | src/safe_fs_ops/filesystem_ops/tree_backups.py:355-408 | A path that exists is changed only under the replacing policy, and only from a file that differs from its entry to that entry |
| TreeRestore.SecondRestoreIsNoop | src/safe_fs_ops/filesystem_ops/tree_backups.py:355-380 | Restoring again changes nothing, under either policy |
| TreeRestore.StillClear | src/safe_fs_ops/filesystem_ops/tree_backups.py:267-291 | What the preflight saw for one entry is still so when its turn comes, because no entry lies on the way of another |
| TreeRestore.CheckPrefixFree | src/safe_fs_ops/filesystem_ops/models.py:184-211 | The nested loops accept exactly the prefix-free entry sets |
| TreeRestore.CheckWay | src/safe_fs_ops/filesystem_ops/tree_backups.py:635-661 | Stopping at the first missing directory decides whether the whole way is safe |
| TreeRestore.Destination.PreflightAll | src/safe_fs_ops/filesystem_ops/tree_backups.py:126-147 | The preflight loop decides that predicate |
| TreeRestore.Destination.Restore | src/safe_fs_ops/filesystem_ops/tree_backups.py:75-113 | Preflight and restore on mutable state |
| RecursiveMkdir.PlanIsExact | src/safe_fs_ops/recursive_mkdir.py:30-88 | The plan is exactly the missing directories on the way, outermost first, each under an existing one or under the step before it |
| RecursiveMkdir.PlanAcceptedIff | src/safe_fs_ops/recursive_mkdir.py:30-88 | When a plan is accepted: inside a plain boundary, over a plain directory only where that is fine, else below the deepest directory there, if it is plain and deep enough |
| RecursiveMkdir.AcceptedPlanIsSafe | src/safe_fs_ops/recursive_mkdir.py:30-88 | Carrying out an accepted plan ends with the target a plain directory, starts from a plain one, stays inside the boundary, and makes one step at most where parents are not wanted |
| RecursiveMkdir.CollectMissingChain | src/safe_fs_ops/recursive_mkdir.py:91-115 | The upward walk ends and collects them |
| RecursiveMkdir.PlanDirectoryCreation | src/safe_fs_ops/recursive_mkdir.py:30-88 | Every refusal of the planner, in its order |
| RecursiveMkdir.RemovalRestores | src/safe_fs_ops/workspace_recursive_mkdir.py:210-247 | After any number of steps, removing the recorded ones deepest first succeeds and gives back the directories there were |
| RecursiveMkdir.Execution.Execute | src/safe_fs_ops/workspace_recursive_mkdir.py:54-108 | After k successful steps exactly the first k directories are new and recorded |
| SnapshotBundle.IterChildPaths | src/safe_fs_ops/filesystem_ops/snapshot_bundles.py:159-183 | The explicit-stack walk ends and equals the recursive listing |
| SnapshotBundle.PushSubdirectories | src/safe_fs_ops/filesystem_ops/snapshot_bundles.py:172-180 | Pushing in reverse makes the stack owe the subdirectories in order |
| SnapshotBundle.ChildrenAreExactlyReachable | src/safe_fs_ops/filesystem_ops/snapshot_bundles.py:159-183 | That listing holds each path reachable through plain directories once, and nothing else: links and mounts are not entered, reparse points not listed |
| SnapshotBundle.BundleHasEachPathOnce | src/safe_fs_ops/filesystem_ops/snapshot_bundles.py:47-122 | One entry per path although requested roots overlap, and none missing |
| SnapshotBundle.BundleHoldsReachable | src/safe_fs_ops/filesystem_ops/snapshot_bundles.py:47-122 | The bundle holds exactly the requested paths and, with children, what is reachable through plain directories below them |
| SnapshotBundle.Bundle.AppendEntry | src/safe_fs_ops/filesystem_ops/snapshot_bundles.py:102-122 | A path already there keeps its entry |
| SnapshotBundle.Bundle.Collect | src/safe_fs_ops/filesystem_ops/snapshot_bundles.py:59-85 | The loop collects those entries in order of first appearance and marks exactly the requested ones |
| TransactionClaims.ViewsAlwaysAgree | src/safe_fs_ops/workspace_transaction_state.py:12-36 | In every run the remembered claims, the release order without repeats and the durable claims of the scope agree, whatever other transactions do |
| TransactionClaims.EnterSucceedsIff | src/safe_fs_ops/workspace_transaction.py:174-203 | An uninterrupted enter succeeds exactly when nobody else claims a declared resource, and then holds exactly those |
| TransactionClaims.LateClaimTakenIff | src/safe_fs_ops/workspace_transaction.py:784-803 | A late claim is taken exactly when nobody else holds the resource |
| TransactionClaims.FinalizeIsAllOrNothing | src/safe_fs_ops/workspace_transaction_operation.py:36-85 | A failed finalize changes none of the three; a successful one empties all three |
| TransactionClaims.CleanupLeavesEarliest | src/safe_fs_ops/workspace_transaction_bookkeeping.py:107-132 | A release stopped midway leaves exactly the earlier-acquired claims in all three; one that is not empties them |
| TransactionClaims.FailedEnterHoldsNothing | src/safe_fs_ops/workspace_transaction.py:174-203 | An enter that fails gives back every claim it had taken, unless its cleanup is stopped |
| TransactionClaims.SafeTransaction.ClaimDirectory | src/safe_fs_ops/workspace_transaction.py:784-803 | A late claim, taken once |
| TransactionClaims.SafeTransaction.ReleaseAll | src/safe_fs_ops/workspace_transaction.py:847-882 | The release loop, newest first |
| TransactionClaims.SafeTransaction.EnterWith | src/safe_fs_ops/workspace_transaction.py:174-204 | The claim loop with its cleanup |
| TransactionClaims.SafeTransaction.FinalizeSuccess | src/safe_fs_ops/workspace_transaction_operation.py:36-85 | Memory follows the store only after the database transaction commits |
| Newlines.NormalizedJoinsLines | src/safe_fs_ops/operation_journal/filesystem_support.py:89-92 | Three chained replacements are one pass: the lines of the text joined by the newline |
| Newlines.NormalizedIsFixed | src/safe_fs_ops/filesystem_ops/mutation_support.py:503-504 | For LF, CR and CRLF the lines stay the same, no other break is left, and normalizing again changes nothing |
| Newlines.JournaledDescribesWritten | src/safe_fs_ops/operation_journal/filesystem_mutations.py:692-706 | Under every encoding the journaled size and hash are those of the bytes written |

## Left out

- Races inside one primitive, between its check and its write, and a writer that stalls after losing its lease and then goes on: the code cannot decide them.
- FileMutationSafety.BeforeStateOrResult: parent directories that a write may create are not part of the state; rollback does not remove them.
- FileMutationSafety.MutationRunsAtMostOnce: speaks of one batch; that one key has one batch and one start over all leases is JournalSafety.
- TransactionRollback.RollbackUndoesTransaction: is about batches that succeeded; batches that failed or died are in FileMutationSafety, one at a time.
- JournalSafety.StaleLeaseIsRefused: heartbeat threads and clocks are a clock reading per call, chosen freely.
- RecoveryActions.LogsArePaths: the manual action that planning records by itself for a file it cannot roll back is not among the plans; such a batch is in FileRecoveryOutcomes.
- FileRecoveryOutcomes.RecoveryCompletesIff: a transaction rolls back under the lease its batches were started with, so it cannot interrupt an attempting one; that a later lease could is InterruptedRunRecoversIff.
- RecoveryActions.SuccessMeansAllFine: handlers are given by how they end; the handlers for renames and for directories made step by step are not modelled.
- DirectoryCapture.AlwaysAtOnePlace: assumes no other process at the two paths; what holds with interference is RecoveryMovesOnlyRecorded.
- DirectoryCapture.ReplayUndoesIff: the gate of automatic transaction rollback, which refuses some batches earlier, is not modelled; deleting a captured directory is not either.
- ReplayClaims.GroupFreedIff: the recovery of each batch is a turn that fails early, fails late, stops while releasing, or completes.
- ArtifactCleanup.LogIsDisciplined: one artifact at a time; deriving artifact paths from checkpoints is not modelled.
- TreeRestore.RestoreCompletesIff: the store of kept bytes is assumed to lie outside the destination; the restore of a tree as a recovery action adds nothing to it.
- LegacyAdoption.OneTokenApprovedAndProven: one capture at a time, with the claims of its two paths not in conflict.
- SQLite, SQL text, schema migration, payload JSON and its defensive type checks, Windows and extended-attribute plumbing, error texts, capability detection, status bookkeeping of operations and phases: they decide nothing proved here or would add only easy members.
