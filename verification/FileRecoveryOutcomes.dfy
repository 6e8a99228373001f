/**
  How recovery of a journaled write or delete ends when nothing disturbs it: for every driver, from
  every state a history can reach, and, for a run that has just ended, told from the records it left
  (workspace_rollback.py, operation_journal/filesystem_recovery.py, file_recovery_planning.py).
*/
module FileRecoveryOutcomes {
  import opened Wrappers
  import opened Snapshots
  import opened Backups
  import opened FileRecoveryPlanning
  import opened FileMutation
  import opened Steps
  import opened FileMutationSafety
  import opened FileMutationProgress
  import opened FileMutationOutcomes

  // A failure record that shows what the path holds.
  predicate Shows(req: Request, w: World, f: FailurePayload) {
    && (f.snapshot.Some? ==> f.snapshot.value == TakeSnapshot(req.path, w.node))
    && (f.after.Some? ==> f.after.value == TakeSnapshot(req.path, w.node) && w.result.Some?)
  }

  ghost predicate CheckpointsShow(req: Request, w: World) {
    forall c :: c in w.checkpoints && c.kind == Failure ==> c.payload == Observed(TakeSnapshot(req.path, w.node))
  }

  // All that was noted about a failure shows the path as it is.
  ghost predicate Witnessed(req: Request, w: World) {
    && CheckpointsShow(req, w)
    && (forall f :: f in w.failures ==> Shows(req, w, f))
    && (w.phase in {Planned, Attempting, Succeeded, Failed} ==> w.failures == [])
  }

  // No failure noted yet.
  ghost predicate Quiet(w: World) {
    w.failures == [] && forall c :: c in w.checkpoints ==> c.kind != Failure
  }

  lemma StepKeepsQuiet(req: Request, w: World, stage: Stage, plan: Plan)
    requires Quiet(w)
    ensures Quiet(Perform(req, w, stage, plan).world)
  {
    hide PlannedBackup, CapturedBytes, Mutated, TakeSnapshot;
  }

  lemma {:induction false} StepsKeepQuiet(req: Request, w: World, stages: seq<Stage>, plan: Plan)
    requires Quiet(w)
    ensures Quiet(PerformAll(req, w, stages, plan).world)
    decreases |stages|
  {
    if stages != [] {
      StepKeepsQuiet(req, w, stages[0], plan);
      hide Quiet, Perform;
      var first := Perform(req, w, stages[0], plan);
      if first.Going? { StepsKeepQuiet(req, first.world, stages[1..], plan); }
    }
  }

  lemma QuietIsWitnessed(req: Request, w: World)
    requires Quiet(w)
    ensures Witnessed(req, w)
  {
  }

  // The worlds a failure record may leave: as it was, marked failed, and wanting recovery.
  lemma NotedIsWitnessed(req: Request, w: World, failure: FailurePayload)
    requires w.failures == [] && CheckpointsShow(req, w) && Shows(req, w, failure)
    ensures Witnessed(req, w) && Witnessed(req, w.(phase := Failed))
    ensures Witnessed(req, Desire(w, failure)) && Witnessed(req, Desire(w.(phase := Failed), failure))
  {
    hide TakeSnapshot;
  }

  lemma FailingIsWitnessed(req: Request, w: World, failure: FailurePayload, plan: Plan)
    requires w.failures == [] && CheckpointsShow(req, w) && Shows(req, w, failure)
    ensures Witnessed(req, FailAndDesire(req, w, failure, plan).world)
    ensures Witnessed(req, MarkLeaseLost(w, failure, plan).world)
  {
    hide Witnessed, CheckpointsShow, Shows;
    NotedIsWitnessed(req, w, failure);
    MarkingFails(req, w, plan);
    hide Effect, Desire;
  }

  lemma MarkingFails(req: Request, w: World, plan: Plan)
    ensures var o := Perform(req, w, MarkFailed, plan);
            (o.world == w || o.world == w.(phase := Failed)) && (o.Going? ==> o.world == w.(phase := Failed))
  {
  }

  lemma NotedShows(req: Request, w: World, plan: Plan)
    requires Quiet(w)
    ensures var s := TakeSnapshot(req.path, w.node);
            var noted := Attempt(w, Append(req, w, Failure, Observed(s)), plan.At(FailureCheckpoint)).world;
            noted.failures == [] && noted.node == w.node && CheckpointsShow(req, noted)
  {
    hide TakeSnapshot;
  }

  lemma MutationFailureIsWitnessed(req: Request, w: World, stage: Option<string>, plan: Plan)
    requires Quiet(w)
    ensures Witnessed(req, RecordMutationFailure(req, w, stage, plan).world)
  {
    NotedShows(req, w, plan);
    QuietIsWitnessed(req, w);
    var s := TakeSnapshot(req.path, w.node);
    hide TakeSnapshot, FailAndDesire, MarkLeaseLost, CheckpointsShow, Append;
    var noted := Attempt(w, Append(req, w, Failure, Observed(s)), plan.At(FailureCheckpoint));
    FailingIsWitnessed(req, noted.world, FailurePayload(stage, Some(s), None), plan);
    assert CheckpointsShow(req, w);
    FailingIsWitnessed(req, w, FailurePayload(stage, None, None), plan);
  }

  lemma LateFailureIsWitnessed(req: Request, w: World, after: Option<Snapshot>, stage: string, plan: Plan)
    requires Quiet(w) && w.result.Some? && (after.Some? ==> after.value == TakeSnapshot(req.path, w.node))
    ensures Witnessed(req, RecordPostMutationFailure(req, w, after, stage, plan).world)
  {
    QuietIsWitnessed(req, w);
    var s := Some(TakeSnapshot(req.path, w.node));
    hide TakeSnapshot, FailAndDesire;
    FailingIsWitnessed(req, w, FailurePayload(Some(stage), None, after), plan);
    FailingIsWitnessed(req, w, FailurePayload(Some(stage), None, s), plan);
    FailingIsWitnessed(req, w, FailurePayload(Some(stage), None, None), plan);
  }

  lemma RecordingMovesNothing(req: Request, w: World, stage: Stage, plan: Plan)
    requires stage in {RecordAfter, MarkSucceeded, TakeAfter}
    ensures var o := Perform(req, w, stage, plan);
            && o.world.node == w.node && o.world.result == w.result
            && (stage != TakeAfter ==> o.world.observed == w.observed)
            && (stage == TakeAfter && o.Going? ==> o.world.observed == Some(TakeSnapshot(req.path, w.node)))
  {
  }

  lemma ResultIsWitnessed(req: Request, w: World, plan: Plan)
    requires Quiet(w) && w.result.Some? && w.observed == Some(TakeSnapshot(req.path, w.node))
    ensures Witnessed(req, RecordResult(req, w, plan).world)
  {
    hide Perform, TakeSnapshot, RecordPostMutationFailure, Quiet, Witnessed;
    var recorded := Perform(req, w, RecordAfter, plan);
    StepKeepsQuiet(req, w, RecordAfter, plan);
    RecordingMovesNothing(req, w, RecordAfter, plan);
    QuietIsWitnessed(req, recorded.world);
    LateFailureIsWitnessed(req, recorded.world, w.observed, "after_checkpoint", plan);
    var marked := Perform(req, recorded.world, MarkSucceeded, plan);
    StepKeepsQuiet(req, recorded.world, MarkSucceeded, plan);
    RecordingMovesNothing(req, recorded.world, MarkSucceeded, plan);
    QuietIsWitnessed(req, marked.world);
    LateFailureIsWitnessed(req, marked.world, w.observed, "mark_succeeded", plan);
  }

  lemma FinishIsWitnessed(req: Request, w: World, plan: Plan)
    requires Quiet(w) && w.result.Some?
    ensures Witnessed(req, FinishMutation(req, w, plan).world)
  {
    hide Perform, TakeSnapshot, RecordPostMutationFailure, RecordResult, Quiet, Witnessed;
    var after := Perform(req, w, TakeAfter, plan);
    StepKeepsQuiet(req, w, TakeAfter, plan);
    RecordingMovesNothing(req, w, TakeAfter, plan);
    QuietIsWitnessed(req, after.world);
    LateFailureIsWitnessed(req, after.world, None, "after_snapshot", plan);
    if after.Going? { ResultIsWitnessed(req, after.world, plan); }
  }

  lemma MutatingLeavesResult(req: Request, w: World, plan: Plan)
    ensures var o := Perform(req, w, Mutate, plan); o.Going? ==> o.world.result.Some?
  {
  }

  lemma CalledIsQuiet(w: World)
    requires Quiet(w)
    ensures Quiet(w.(calls := w.calls + 1))
  {
  }

  lemma CallIsWitnessed(req: Request, w: World, plan: Plan)
    requires Quiet(w)
    ensures Witnessed(req, CallMutation(req, w, plan).world)
  {
    hide Perform, FinishMutation, RecordMutationFailure, Quiet, Witnessed;
    var called := w.(calls := w.calls + 1);
    CalledIsQuiet(w);
    var mutated := Perform(req, called, Mutate, plan);
    StepKeepsQuiet(req, called, Mutate, plan);
    MutatingLeavesResult(req, called, plan);
    QuietIsWitnessed(req, mutated.world);
    MutationFailureIsWitnessed(req, mutated.world, None, plan);
    if mutated.Going? { FinishIsWitnessed(req, mutated.world, plan); }
  }

  lemma PrepareIsWitnessed(req: Request, w: World, plan: Plan)
    requires Quiet(w)
    ensures Witnessed(req, PrepareMutation(req, w, plan).world)
  {
    hide Perform, PerformAll, CallMutation, RecordMutationFailure, Quiet, Witnessed;
    var prepared := PerformAll(req, w, PrepareStages(req), plan);
    StepsKeepQuiet(req, w, PrepareStages(req), plan);
    QuietIsWitnessed(req, prepared.world);
    MutationFailureIsWitnessed(req, prepared.world, Some(PREPARE_CHECKPOINTS), plan);
    var allowed := Perform(req, prepared.world, CheckAuthority, plan);
    StepKeepsQuiet(req, prepared.world, CheckAuthority, plan);
    QuietIsWitnessed(req, allowed.world);
    MutationFailureIsWitnessed(req, allowed.world, None, plan);
    CallIsWitnessed(req, allowed.world, plan);
  }

  lemma RunIsWitnessed(req: Request, w: World, plan: Plan)
    requires Quiet(w)
    ensures Witnessed(req, RunMutation(req, w, plan).world)
  {
    hide Perform, PrepareMutation, FailAndDesire, Quiet, Witnessed, CheckpointsShow;
    var started := Perform(req, w, Start, plan);
    StepKeepsQuiet(req, w, Start, plan);
    QuietIsWitnessed(req, started.world);
    var before := Perform(req, started.world, TakeBefore, plan);
    StepKeepsQuiet(req, started.world, TakeBefore, plan);
    QuietIsWitnessed(req, before.world);
    QuietShows(req, before.world);
    FailingIsWitnessed(req, before.world, FailurePayload(Some("before_snapshot"), None, None), plan);
    PrepareIsWitnessed(req, before.world, plan);
  }

  lemma QuietShows(req: Request, w: World)
    requires Quiet(w)
    ensures w.failures == [] && CheckpointsShow(req, w)
  {
  }

  // ---- Histories ----

  // Once the path holds the before-state again, old records may show something else.
  ghost predicate Shown(req: Request, original: Node, w: World) {
    SameData(w.node, original) || (CheckpointsShow(req, w) && forall f :: f in w.failures ==> Shows(req, w, f))
  }

  predicate NothingLost(events: seq<Event>) {
    forall i :: 0 <= i < |events| ==> !events[i].LoseArtifact?
  }

  lemma PreparingAdds(req: Request, w: World, driver: Driver, plan: Plan)
    ensures var o := Prepare(req, w, driver, plan).world;
            && o.node == w.node && o.checkpoints == w.checkpoints && o.result == w.result
            && o.artifact == w.artifact && o.lost == w.lost && o.calls == w.calls && o.starts == w.starts
            && (o.failures == w.failures
                || exists f :: o.failures == w.failures + [f] && Shows(req, w, f))
  {
    hide TakeSnapshot;
    var s := TakeSnapshot(req.path, w.node);
    var seen := FailurePayload(Some("workspace_recovery_replay"), Some(s), None);
    var unseen := FailurePayload(Some("workspace_recovery_replay"), None, None);
    assert Shows(req, w, seen) && Shows(req, w, unseen);
  }

  lemma ActionKeepsRecords(req: Request, w: World, backup: FileBackup, expected: Snapshot, plan: Plan)
    requires backup.Valid()
    ensures var o := RunAction(req, w, backup, expected, plan).world;
            && o.checkpoints == w.checkpoints && o.failures == w.failures && o.result == w.result
            && o.artifact == w.artifact && o.lost == w.lost
  {
    hide RestoreBackup, Conclude, NewStamp;
    ConcludingKeepsRecords(w, plan);
    var r := RestoreBackup(backup, w.node, w.artifact, Some(expected), false, NewStamp(w, plan));
    if r.Restored? { ConcludingKeepsRecords(w.(node := r.node, tick := w.tick + 1), plan); }
  }

  lemma ConcludingKeepsRecords(w: World, plan: Plan)
    ensures forall phase :: var o := Conclude(w, phase, plan).world;
              && o.checkpoints == w.checkpoints && o.failures == w.failures && o.result == w.result
              && o.artifact == w.artifact && o.lost == w.lost
  {
  }

  lemma RecoveringAdds(req: Request, w: World, driver: Driver, plan: Plan)
    ensures var o := Recover(req, w, driver, plan).world;
            && o.checkpoints == w.checkpoints && o.result == w.result && o.artifact == w.artifact && o.lost == w.lost
            && (o.failures == w.failures
                || exists f :: o.failures == w.failures + [f] && Shows(req, w, f))
  {
    PreparingAdds(req, w, driver, plan);
    var ready := Prepare(req, w, driver, plan);
    hide Prepare, RunAction, VerdictOf, Shows;
    var started := ready.world.(phase := Recovering);
    var v := VerdictOf(req, started);
    VerdictBackupIsValid(req, started);
    if v.Restore? { ActionKeepsRecords(req, started, v.backup, v.expectedCurrent, plan); }
  }

  lemma RecoveringKeepsShown(req: Request, original: Node, w: World, driver: Driver, plan: Plan)
    requires Inv(req, original, w) && Shown(req, original, w)
    ensures Shown(req, original, Recover(req, w, driver, plan).world)
  {
    hide Recover, Inv, SameData, TakeSnapshot;
    RecoveryRestoresOrLeaves(req, original, w, driver, plan);
    RecoveringAdds(req, w, driver, plan);
    var o := Recover(req, w, driver, plan).world;
    if !SameData(o.node, original) { assert o.node == w.node; }
  }

  lemma PlannedIsQuiet(req: Request, original: Node, w: World)
    requires Inv(req, original, w) && w.phase == Planned
    ensures Quiet(w)
  {
  }

  lemma {:induction false} HistoryIsShown(req: Request, original: Node, tick: nat, events: seq<Event>, states: seq<World>, k: nat)
    requires IsHistory(req, original, tick, events, states) && NothingLost(events) && k < |states|
    ensures Inv(req, original, states[k]) && Shown(req, original, states[k]) && !states[k].lost
    ensures states[k].phase in {Planned, Attempting, Failed, Succeeded} ==> states[k].failures == []
  {
    hide Inv, Shown, IsHistory, Step, NothingLost;
    HistoryKeepsInv(req, original, tick, events, states, k);
    if k == 0 {
      HistoryStart(req, original, tick, events, states);
    } else {
      HistoryIsShown(req, original, tick, events, states, k - 1);
      HistoryStep(req, original, tick, events, states, k);
      HistoryKeepsInv(req, original, tick, events, states, k - 1);
      StepIsShown(req, original, states[k - 1], events[k - 1]);
    }
  }

  lemma HistoryStart(req: Request, original: Node, tick: nat, events: seq<Event>, states: seq<World>)
    requires IsHistory(req, original, tick, events, states)
    ensures Shown(req, original, states[0]) && !states[0].lost && states[0].failures == []
  {
    hide Step;
  }

  lemma HistoryStep(req: Request, original: Node, tick: nat, events: seq<Event>, states: seq<World>, k: nat)
    requires IsHistory(req, original, tick, events, states) && NothingLost(events) && 0 < k < |states|
    ensures k - 1 < |events| && states[k] == Step(req, states[k - 1], events[k - 1]) && !events[k - 1].LoseArtifact?
  {
    hide Step;
  }

  lemma StepIsShown(req: Request, original: Node, w: World, event: Event)
    requires Inv(req, original, w) && Shown(req, original, w) && !w.lost && !event.LoseArtifact?
    requires w.phase in {Planned, Attempting, Failed, Succeeded} ==> w.failures == []
    ensures var o := Step(req, w, event);
            && Shown(req, original, o) && !o.lost
            && (o.phase in {Planned, Attempting, Failed, Succeeded} ==> o.failures == [])
  {
    match event
    case Run(plan, _) =>
      if w.phase == Planned {
        PlannedIsQuiet(req, original, w);
        RunKeepsInv(req, original, w, plan);
        RunIsWitnessed(req, w, plan);
        hide Inv, RunMutation, SameData, TakeSnapshot;
      }
    case Recovery(driver, plan) =>
      hide Inv, Recover;
      RecoveringKeepsShown(req, original, w, driver, plan);
      RecoveringAdds(req, w, driver, plan);
      RecoveringLeavesPhase(req, w, driver, plan);
  }

  lemma RecoveringLeavesPhase(req: Request, w: World, driver: Driver, plan: Plan)
    ensures var o := Recover(req, w, driver, plan).world;
            o == w || o.phase in {RecoveryDesired, Recovering, RecoverySucceeded, RecoveryFailed}
  {
    hide VerdictOf, RestoreBackup, TakeSnapshot;
    var started := Prepare(req, w, driver, plan).world.(phase := Recovering);
    VerdictBackupIsValid(req, started);
  }

  // ---- One undisturbed recovery ----

  lemma UntouchedRestores(req: Request, original: Node, w: World, backup: FileBackup, expected: Snapshot, stamp: Stamp)
    requires Inv(req, original, w) && !w.lost && SameData(w.node, original)
    requires backup.Valid() && Checkpoint(Backup, req.key, BackedUp(backup)) in w.checkpoints
    ensures RestoreBackup(backup, w.node, w.artifact, Some(expected), false, stamp).Restored?
  {
    assert PlannedBackup(TakeSnapshot(req.path, original), original) == Some(backup);
    assert Recorded(w.checkpoints, Backup);
  }

  lemma SeenRestores(req: Request, original: Node, w: World, backup: FileBackup, stamp: Stamp)
    requires Inv(req, original, w) && !w.lost
    requires backup.Valid() && Checkpoint(Backup, req.key, BackedUp(backup)) in w.checkpoints
    ensures RestoreBackup(backup, w.node, w.artifact, Some(TakeSnapshot(req.path, w.node)), false, stamp).Restored?
  {
    assert PlannedBackup(TakeSnapshot(req.path, original), original) == Some(backup);
    assert Recorded(w.checkpoints, Backup);
  }

  // What a restore verdict expects is what the path holds, unless the before-state is back already.
  lemma ExpectedIsThere(req: Request, original: Node, w: World, failure: Option<FailurePayload>, backup: FileBackup, expected: Snapshot)
    requires Inv(req, original, w) && Shown(req, original, w) && !SameData(w.node, original)
    requires failure.Some? ==> Shows(req, w, failure.value)
    requires RecoveryProof(OperationOf(req.mutation), req.path, Some(req.key), w.checkpoints, failure) == Restore(backup, expected)
    ensures expected == TakeSnapshot(req.path, w.node)
  {
    RestoreRestsOnRecords(OperationOf(req.mutation), req.path, req.key, w.checkpoints, failure, backup, expected);
    hide RecoveryProof, PlannedBackup, MatchesDesired, BytesKept, IsResult;
    if Checkpoint(After, req.key, Observed(expected)) in w.checkpoints {
      assert TruthfulCheckpoint(req, original, w.result, Checkpoint(After, req.key, Observed(expected)));
    }
  }

  // The evidence a recovery decides on: what was noted, or, of a run that died, what a replay sees.
  function Evidence(req: Request, w: World): Option<FailurePayload> {
    if w.phase in {Attempting, Recovering} then
      Some(FailurePayload(Some("workspace_recovery_replay"), Some(TakeSnapshot(req.path, w.node)), None))
    else if w.failures == [] then None
    else Some(w.failures[|w.failures| - 1])
  }

  function Decision(req: Request, w: World): Verdict {
    RecoveryProof(OperationOf(req.mutation), req.path, Some(req.key), w.checkpoints, Evidence(req, w))
  }

  // Which batches a driver takes up.
  predicate TakesUp(driver: Driver, phase: Phase) {
    || phase in {Failed, RecoveryDesired, RecoveryFailed}
    || (phase == Succeeded && driver != PendingRollback)
    || (phase in {Attempting, Recovering} && driver == WorkspaceReplay)
  }

  // What the recovery has when it starts deciding.
  ghost predicate Taken(req: Request, w: World, started: World) {
    && started.node == w.node && started.checkpoints == w.checkpoints && started.artifact == w.artifact
    && started.result == w.result && started.lost == w.lost && started.phase == Recovering
    && VerdictOf(req, started) == Decision(req, w)
  }

  lemma RecoveryStarts(req: Request, w: World, driver: Driver, plan: Plan) returns (started: World)
    requires plan.faults == map[] && TakesUp(driver, w.phase)
    ensures Taken(req, w, started)
    ensures Recover(req, w, driver, plan)
            == if driver != WorkspaceReplay && !Supported(Decision(req, w)) then Raised(started.(phase := RecoveryDesired), false)
               else match VerdictOf(req, started)
                    case Noop => Conclude(started, RecoverySucceeded, plan)
                    case Restore(backup, expected) => RunAction(req, started, backup, expected, plan)
                    case _ => Conclude(started, RecoveryFailed, plan)
  {
    hide RecoveryProof, RunAction, Conclude, TakeSnapshot, Supported;
    var ready := Prepare(req, w, driver, plan).world;
    started := ready.(phase := Recovering);
    assert LatestFailure(started) == Evidence(req, w);
    assert ready == started.(phase := RecoveryDesired);
  }

  lemma RestoreCompletes(req: Request, original: Node, w: World, started: World, plan: Plan)
    requires Inv(req, original, w) && Shown(req, original, w) && !w.lost && plan.faults == map[]
    requires Taken(req, w, started) && Decision(req, w).Restore?
    ensures var v := Decision(req, w);
            v.backup.Valid()
            && var o := RunAction(req, started, v.backup, v.expectedCurrent, plan);
               o.Going? && o.world.phase == RecoverySucceeded
  {
    var v, failure := Decision(req, w), Evidence(req, w);
    RestoreRestsOnRecords(OperationOf(req.mutation), req.path, req.key, w.checkpoints, failure, v.backup, v.expectedCurrent);
    var stamp := NewStamp(started, plan);
    if SameData(w.node, original) {
      UntouchedRestores(req, original, w, v.backup, v.expectedCurrent, stamp);
    } else {
      EvidenceShows(req, original, w);
      ExpectedIsThere(req, original, w, failure, v.backup, v.expectedCurrent);
      SeenRestores(req, original, w, v.backup, stamp);
    }
    hide RestoreBackup, Inv, Shown, RecoveryProof, Decision, SameData;
  }

  lemma EvidenceShows(req: Request, original: Node, w: World)
    requires Shown(req, original, w) && !SameData(w.node, original)
    ensures Evidence(req, w).Some? ==> Shows(req, w, Evidence(req, w).value)
  {
    hide SameData, TakeSnapshot;
  }

  // One undisturbed recovery of a batch, by any driver, in any state a history without lost backups can
  // reach. It refuses to begin exactly when the driver does not take such batches up. Begun, it ends in
  // success on the before-state exactly when the evidence shows what to do; otherwise it leaves the file
  // alone, the rollback drivers without starting where there is no backup.
  lemma RecoveryCompletesIff(req: Request, original: Node, tick: nat, events: seq<Event>, states: seq<World>, k: nat,
                             driver: Driver, mtime: nat, device: nat)
    requires IsHistory(req, original, tick, events, states) && NothingLost(events) && k < |states|
    ensures var w := states[k];
            var o := Recover(req, w, driver, Undisturbed(mtime, device));
            var v := Decision(req, w);
            if !TakesUp(driver, w.phase) then o == Raised(w, false)
            else if !v.Manual? then o.Going? && o.world.phase == RecoverySucceeded && SameData(o.world.node, original)
            else
              && o.world.node == w.node
              && (if driver == WorkspaceReplay || v == Manual(MissingExpectedCurrentProof)
                  then o.Going? && o.world.phase == RecoveryFailed
                  else o.Raised? && o.world.phase == RecoveryDesired)
  {
    HistoryIsShown(req, original, tick, events, states, k);
    hide IsHistory;
    UndisturbedRecovery(req, original, states[k], driver, Undisturbed(mtime, device));
  }

  lemma UndisturbedRecovery(req: Request, original: Node, w: World, driver: Driver, plan: Plan)
    requires Inv(req, original, w) && Shown(req, original, w) && !w.lost && plan.faults == map[]
    ensures var o := Recover(req, w, driver, plan);
            var v := Decision(req, w);
            if !TakesUp(driver, w.phase) then o == Raised(w, false)
            else if !v.Manual? then o.Going? && o.world.phase == RecoverySucceeded && SameData(o.world.node, original)
            else
              && o.world.node == w.node
              && (if driver == WorkspaceReplay || v == Manual(MissingExpectedCurrentProof)
                  then o.Going? && o.world.phase == RecoveryFailed
                  else o.Raised? && o.world.phase == RecoveryDesired)
  {
    if TakesUp(driver, w.phase) {
      RecoveryRestoresOrLeaves(req, original, w, driver, plan);
      IsFileOperation(req, w);
      hide Recover, RunAction, Inv, Shown, SameData, Decision, VerdictOf;
      var started := RecoveryStarts(req, w, driver, plan);
      if Decision(req, w).Restore? { RestoreCompletes(req, original, w, started, plan); }
    } else {
      hide VerdictOf, RunAction;
    }
  }

  lemma IsFileOperation(req: Request, w: World)
    ensures !Decision(req, w).NotAFileOperation?
  {
  }

  // ---- A run that has just ended ----

  // Every record of a kind is about this path, so the newest one of the kind is the newest there is.
  lemma RecordedIsLatest(req: Request, original: Node, w: World, kind: Kind)
    requires Inv(req, original, w)
    ensures var latest := Latest(w.checkpoints, kind, req.key, req.path);
            && (latest.Some? <==> Recorded(w.checkpoints, kind))
            && (latest.Some? ==> TruthfulCheckpoint(req, original, w.result, Checkpoint(kind, req.key, latest.value)))
  {
    if Recorded(w.checkpoints, kind) {
      var c :| c in w.checkpoints && c.kind == kind;
      TruthIsHere(req, original, w.result, c);
      assert Concerns(c, kind, req.key, req.path);
    }
    hide PlannedBackup, IsResult, BytesKept, SameData, TakeSnapshot;
  }

  lemma TruthIsHere(req: Request, original: Node, result: Option<Node>, c: Checkpoint)
    requires TruthfulCheckpoint(req, original, result, c)
    ensures c.resourceKey == req.key && PathOf(c.payload) == req.path
  {
  }

  // What the records of an ended run must hold for it to be undone. Where a backup was kept: the
  // after-checkpoint, or a failure record that saw the path of a run that got as far as its intent or
  // died preparing, or a failure checkpoint that shows just the intended result. Without a backup: a run
  // that failed preparing, whose failure record saw the path it had seen before.
  ghost predicate Provable(req: Request, w: World) {
    var failure := if w.failures == [] then None else Some(w.failures[|w.failures| - 1]);
    var saw := failure.Some? && (failure.value.snapshot.Some? || failure.value.after.Some?);
    var preparing := failure.Some? && failure.value.stage == Some(PREPARE_CHECKPOINTS);
    if Recorded(w.checkpoints, Backup) then
      || Recorded(w.checkpoints, After)
      || (saw && (preparing || Recorded(w.checkpoints, ExpectedAfter)))
      || (Recorded(w.checkpoints, ExpectedAfter) && Recorded(w.checkpoints, Failure)
          && MatchesDesired(TakeSnapshot(req.path, w.node), DesiredOf(req)))
    else
      preparing && saw && Recorded(w.checkpoints, Before)
  }

  ghost predicate Ended(req: Request, original: Node, w: World) {
    InRun(req, original, w) && Witnessed(req, w) && w.phase in {Failed, RecoveryDesired}
  }

  // The pieces of evidence there can be, and what each of them says.
  lemma EndedEvidence(req: Request, original: Node, w: World)
    requires Ended(req, original, w)
    ensures var f := Evidence(req, w);
            && (f.Some? ==> Shows(req, w, f.value))
            && (StageIsPrepare(f) ==> w.result.None? && f.value.after.None?)
            && (w.result.Some? ==> w.result == Some(w.node) && MatchesDesired(TakeSnapshot(req.path, w.node), DesiredOf(req)))
            && (w.result.None? ==> w.node == original)
  {
    if w.result.Some? { ResultIsDesired(req, original, w); }
    var f := Evidence(req, w);
    if f.Some? { assert f.value in w.failures; }
    hide TakeSnapshot, PlannedBackup, IsResult, MatchesDesired, BytesKept;
  }

  lemma DecidedWithoutBackup(req: Request, original: Node, w: World)
    requires Ended(req, original, w) && !Recorded(w.checkpoints, Backup)
    ensures Decision(req, w) == if Provable(req, w) then Noop else Manual(MissingBackupProof)
  {
    EndedEvidence(req, original, w);
    RecordedIsLatest(req, original, w, Backup);
    RecordedIsLatest(req, original, w, Before);
    hide Inv, InRun, Recorded, MatchesDesired, Latest;
    var snapshot := TakeSnapshot(req.path, w.node);
    assert SameSnapshot(snapshot, snapshot, req.path);
  }

  lemma LatestBackup(req: Request, original: Node, w: World)
    requires Inv(req, original, w) && Recorded(w.checkpoints, Backup)
    ensures var backup := Latest(w.checkpoints, Backup, req.key, req.path);
            && backup.Some? && IsBackup(backup.value)
            && backup.value.backup.snapshot == TakeSnapshot(req.path, original)
  {
    RecordedIsLatest(req, original, w, Backup);
    hide Latest, Inv, Recorded;
  }

  // Whether some state of the path is on record for a restore to expect.
  lemma ExpectationOnRecord(req: Request, original: Node, w: World)
    requires Ended(req, original, w)
    ensures var f := Evidence(req, w);
            var desired := MatchesDesired(TakeSnapshot(req.path, w.node), DesiredOf(req));
            ExpectedCurrent(w.checkpoints, req.key, req.path, f).Some?
            <==> || Recorded(w.checkpoints, After)
                 || (Recorded(w.checkpoints, ExpectedAfter) && desired && (ObservedAfter(f).Some? || Recorded(w.checkpoints, Failure)))
                 || (StageIsPrepare(f) && f.value.snapshot.Some?)
  {
    EndedEvidence(req, original, w);
    RecordedIsLatest(req, original, w, After);
    RecordedIsLatest(req, original, w, ExpectedAfter);
    RecordedIsLatest(req, original, w, Failure);
    LatestFailureShows(req, original, w);
    hide Ended, Recorded, MatchesDesired, Latest, Evidence;
  }

  lemma LatestFailureShows(req: Request, original: Node, w: World)
    requires Ended(req, original, w)
    ensures var failed := Latest(w.checkpoints, Failure, req.key, req.path);
            failed.Some? ==> failed.value == Observed(TakeSnapshot(req.path, w.node))
  {
    hide Inv, InRun, TakeSnapshot;
  }

  lemma DecisionUnfolds(req: Request, w: World, backup: FileBackup)
    requires Latest(w.checkpoints, Backup, req.key, req.path) == Some(BackedUp(backup)) && backup.Valid()
    ensures var expected := ExpectedCurrent(w.checkpoints, req.key, req.path, Evidence(req, w));
            Decision(req, w)
            == if expected.Some? then Restore(backup, expected.value)
               else if NoSideEffectProof(w.checkpoints, req.key, req.path, backup, Evidence(req, w)) then Noop
               else Manual(MissingExpectedCurrentProof)
  {
    hide Latest, ExpectedCurrent, NoSideEffectProof, Evidence;
  }

  // With no state to expect, nothing happened exactly when the path was seen and the intent recorded.
  lemma NothingHappened(req: Request, original: Node, w: World, backup: FileBackup)
    requires Ended(req, original, w) && ExpectedCurrent(w.checkpoints, req.key, req.path, Evidence(req, w)).None?
    requires backup.snapshot == TakeSnapshot(req.path, original)
    ensures NoSideEffectProof(w.checkpoints, req.key, req.path, backup, Evidence(req, w))
            <==> FailureSnapshot(Evidence(req, w)).Some? && Recorded(w.checkpoints, ExpectedAfter)
  {
    EndedEvidence(req, original, w);
    ExpectationOnRecord(req, original, w);
    RecordedIsLatest(req, original, w, ExpectedAfter);
    hide Ended, Recorded, MatchesDesired, Latest, ExpectedCurrent, Evidence;
    var snapshot := TakeSnapshot(req.path, w.node);
    assert SameSnapshot(snapshot, snapshot, req.path);
    hide SameSnapshot, TakeSnapshot;
  }

  lemma DecidedWithBackup(req: Request, original: Node, w: World)
    requires Ended(req, original, w) && Recorded(w.checkpoints, Backup)
    ensures if Provable(req, w) then !Decision(req, w).Manual? else Decision(req, w) == Manual(MissingExpectedCurrentProof)
  {
    EndedEvidence(req, original, w);
    LatestBackup(req, original, w);
    ExpectationOnRecord(req, original, w);
    var backup := Latest(w.checkpoints, Backup, req.key, req.path).value.backup;
    DecisionUnfolds(req, w, backup);
    if ExpectedCurrent(w.checkpoints, req.key, req.path, Evidence(req, w)).None? { NothingHappened(req, original, w, backup); }
    hide Ended, Recorded, MatchesDesired, Latest, ExpectedCurrent, NoSideEffectProof, Decision, TakeSnapshot;
  }

  // A run that has ended failed or wanting recovery is undone by one undisturbed recovery, whichever
  // driver it is, exactly when its records prove enough. Otherwise the recovery refuses and touches
  // nothing: without a backup the rollback drivers do not even start.
  lemma EndedRunRecoversIff(req: Request, original: Node, tick: nat, plan: Plan, driver: Driver, mtime: nat, device: nat)
    requires InodeBelow(original, tick)
    requires RunMutation(req, Init(original, tick), plan).world.phase in {Failed, RecoveryDesired}
    ensures var w := RunMutation(req, Init(original, tick), plan).world;
            var o := Recover(req, w, driver, Undisturbed(mtime, device));
            if Provable(req, w) then o.Going? && o.world.phase == RecoverySucceeded && SameData(o.world.node, original)
            else
              && o.world.node == w.node
              && (if driver == WorkspaceReplay || Recorded(w.checkpoints, Backup)
                  then o.Going? && o.world.phase == RecoveryFailed
                  else o.Raised? && o.world.phase == RecoveryDesired)
  {
    var init := Init(original, tick);
    InitHolds(req, original, tick);
    PlannedIsQuiet(req, original, init);
    RunKeepsInv(req, original, init, plan);
    RunIsWitnessed(req, init, plan);
    var w := RunMutation(req, init, plan).world;
    hide RunMutation;
    EndedRecovers(req, original, w, driver, Undisturbed(mtime, device));
  }

  // The same for a run that died and whose batch a newer lease has interrupted.
  lemma InterruptedRunRecoversIff(req: Request, original: Node, tick: nat, plan: Plan, again: Plan, driver: Driver,
                                  mtime: nat, device: nat)
    requires InodeBelow(original, tick)
    requires RunMutation(req, Init(original, tick), plan).world.phase == Attempting
    ensures var died := RunMutation(req, Init(original, tick), plan).world;
            var w := Step(req, died, Run(again, true));
            var o := Recover(req, w, driver, Undisturbed(mtime, device));
            && w == died.(phase := RecoveryDesired)
            && if Provable(req, w) then o.Going? && o.world.phase == RecoverySucceeded && SameData(o.world.node, original)
               else
                 && o.world.node == w.node
                 && (if driver == WorkspaceReplay || Recorded(w.checkpoints, Backup)
                     then o.Going? && o.world.phase == RecoveryFailed
                     else o.Raised? && o.world.phase == RecoveryDesired)
  {
    var init := Init(original, tick);
    InitHolds(req, original, tick);
    PlannedIsQuiet(req, original, init);
    RunKeepsInv(req, original, init, plan);
    RunIsWitnessed(req, init, plan);
    var died := RunMutation(req, init, plan).world;
    hide RunMutation;
    var w := died.(phase := RecoveryDesired);
    FailedKeeps(req, original, died, RecoveryDesired, died.failures);
    hide InRun, Inv;
    assert w.failures == died.failures;
    EndedRecovers(req, original, w, driver, Undisturbed(mtime, device));
  }

  lemma EndedRecovers(req: Request, original: Node, w: World, driver: Driver, plan: Plan)
    requires Ended(req, original, w) && plan.faults == map[]
    ensures var o := Recover(req, w, driver, plan);
            if Provable(req, w) then o.Going? && o.world.phase == RecoverySucceeded && SameData(o.world.node, original)
            else
              && o.world.node == w.node
              && (if driver == WorkspaceReplay || Recorded(w.checkpoints, Backup)
                  then o.Going? && o.world.phase == RecoveryFailed
                  else o.Raised? && o.world.phase == RecoveryDesired)
  {
    if Recorded(w.checkpoints, Backup) { DecidedWithBackup(req, original, w); } else { DecidedWithoutBackup(req, original, w); }
    hide Inv, Recorded, Recover, Decision, SameData, Provable, CheckpointsShow, Shows;
    UndisturbedRecovery(req, original, w, driver, plan);
  }

  lemma CalledIsProvable(req: Request, original: Node, w: World)
    requires Inv(req, original, w) && req.captureProof && w.calls > 0
    requires |w.failures| == 1 && SawThePath(w.failures[0])
    ensures Provable(req, w)
  {
    hide Recorded, SameData, IsResult, BytesKept;
  }

  // A protected mutation that was called and failed with exceptions only is always undone by the next
  // undisturbed recovery, of whichever driver.
  lemma ExceptionsAreUndone(req: Request, original: Node, tick: nat, plan: Plan, driver: Driver, mtime: nat, device: nat)
    requires InodeBelow(original, tick) && req.captureProof
    requires OnlyExceptions(plan) && plan.At(Start) == Proceeds && plan.At(TakeBefore) == Proceeds
    requires plan.At(MarkSucceeded) != RaisesAfter
    requires var o := RunMutation(req, Init(original, tick), plan); o.Raised? && o.world.calls > 0
    ensures var o := Recover(req, RunMutation(req, Init(original, tick), plan).world, driver, Undisturbed(mtime, device));
            o.Going? && o.world.phase == RecoverySucceeded && SameData(o.world.node, original)
  {
    hide RunMutation, Inv, InRun, Recover, SameData, OnlyExceptions, Provable;
    ExceptionsAreTold(req, original, tick, plan);
    InitHolds(req, original, tick);
    RunKeepsInv(req, original, Init(original, tick), plan);
    CalledIsProvable(req, original, RunMutation(req, Init(original, tick), plan).world);
    EndedRunRecoversIff(req, original, tick, plan, driver, mtime, device);
  }
}
