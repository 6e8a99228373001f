/**
  The calls of the library on one journaled file, step by step on mutable state. Every method is
  proved equal to the transition of FileMutation it carries out, so everything proved about those
  transitions holds of these calls.
*/
module JournaledFiles {
  import opened Wrappers
  import opened Snapshots
  import opened Backups
  import opened FileRecoveryPlanning
  import opened FileMutation
  import opened Steps

  class JournaledFile {
    const req: Request
    // the filesystem
    var node: Node
    var artifact: Option<Bytes>
    var tick: nat
    // the journal
    var phase: Phase
    var checkpoints: seq<Checkpoint>
    var failures: seq<FailurePayload>
    // locals of the running call
    var seen: Option<Snapshot>
    var planned: Option<FileBackup>
    var observed: Option<Snapshot>
    // history
    var starts: nat
    var calls: nat
    var result: Option<Node>
    var lost: bool

    ghost function State(): World
      reads this
    {
      World(node, artifact, tick, phase, checkpoints, failures, seen, planned, observed, starts, calls, result, lost)
    }

    constructor (req: Request, original: Node, tick: nat)
      ensures State() == Init(original, tick) && this.req == req
    {
      this.req := req;
      node, artifact, this.tick := original, None, tick;
      phase, checkpoints, failures := Planned, [], [];
      seen, planned, observed := None, None, None;
      starts, calls, result, lost := 0, 0, None, false;
    }

    method RecordCheckpoint(kind: Kind, payload: Payload) returns (ok: bool)
      modifies this`checkpoints
      ensures var r := Append(req, old(State()), kind, payload);
              ok == r.Some? && State() == r.GetOr(old(State()))
    {
      ok := phase == Attempting;
      if ok { checkpoints := checkpoints + [Checkpoint(kind, req.key, payload)]; }
    }

    method CaptureBackupBytes() returns (ok: bool)
      requires seen.Some? && planned.Some?
      modifies this`artifact
      ensures var r := Effect(req, old(State()), CaptureBackup, Plan(map[], 0, 0));
              ok == r.Some? && State() == r.GetOr(old(State()))
    {
      ok := PlannedBackup(seen.value, node) == planned;
      if ok && planned.value.existed {
        var bytes := CapturedBytes(seen.value, node);
        ok := bytes.Some?;
        if ok { artifact := bytes; }
      }
    }

    method CallMutate(plan: Plan) returns (ok: bool)
      modifies this`node, this`tick, this`result
      ensures var r := Effect(req, old(State()), Mutate, plan);
              ok == r.Some? && State() == r.GetOr(old(State()))
    {
      var changed := Mutated(req.mutation, node, Stamp(plan.mtime, plan.device, tick));
      ok := changed.Some?;
      if ok {
        node, result := changed.value, changed;
        tick := tick + 1;
      }
    }

    // Carries a step out, or raises without having changed anything.
    method Apply(stage: Stage, plan: Plan) returns (ok: bool)
      modifies this
      ensures var r := Effect(req, old(State()), stage, plan);
              ok == r.Some? && State() == r.GetOr(old(State()))
    {
      ok := true;
      match stage
      case Start =>
        ok := phase == Planned && checkpoints == [];
        if ok { phase, starts, lost := Attempting, starts + 1, false; }
      case TakeBefore => seen := Some(TakeSnapshot(req.path, node));
      case RecordBefore => if seen.Some? { ok := RecordCheckpoint(Before, Observed(seen.value)); } else { ok := false; }
      case RecordIntent =>
        var backup := if seen.Some? then PlannedBackup(seen.value, node) else None;
        if backup.Some? {
          ok := RecordCheckpoint(BackupIntent, BackedUp(backup.value));
          if ok { planned := backup; }
        } else { ok := false; }
      case CaptureBackup =>
        if seen.Some? && planned.Some? { ok := CaptureBackupBytes(); } else { ok := false; }
      case RecordBackup => if planned.Some? { ok := RecordCheckpoint(Backup, BackedUp(planned.value)); } else { ok := false; }
      case RecordExpectedAfter => ok := RecordCheckpoint(ExpectedAfter, Wanted(DesiredOf(req)));
      case Mutate => ok := CallMutate(plan);
      case TakeAfter => observed := Some(TakeSnapshot(req.path, node));
      case RecordAfter => if observed.Some? { ok := RecordCheckpoint(After, Observed(observed.value)); } else { ok := false; }
      case MarkSucceeded => ok := phase == Attempting; if ok { phase := Succeeded; }
      case MarkFailed => ok := phase == Attempting; if ok { phase := Failed; }
      case _ =>
    }

    method Do(stage: Stage, plan: Plan) returns (signal: Signal)
      modifies this
      ensures OutcomeOf(State(), signal) == Perform(req, old(State()), stage, plan)
    {
      var fault := plan.At(stage);
      var ok := true;
      if TakesEffect(fault) { ok := Apply(stage, plan); }
      signal := SignalOf(fault, ok);
    }

    method DoAll(stages: seq<Stage>, plan: Plan) returns (signal: Signal)
      modifies this
      ensures OutcomeOf(State(), signal) == PerformAll(req, old(State()), stages, plan)
    {
      var i := 0;
      signal := Returned;
      assert stages[0..] == stages;
      while i < |stages|
        invariant 0 <= i <= |stages| && signal == Returned
        invariant PerformAll(req, old(State()), stages, plan) == PerformAll(req, State(), stages[i..], plan)
      {
        signal := Do(stages[i], plan);
        if signal != Returned { return; }
        assert stages[i..][1..] == stages[i + 1..];
        i := i + 1;
      }
    }

    // Either the phase and the failure record are written together, or nothing is.
    method Note(failure: FailurePayload, allowed: bool, fault: Fault) returns (signal: Signal)
      modifies this`phase, this`failures
      ensures OutcomeOf(State(), signal)
              == Attempt(old(State()), if allowed then Some(Desire(old(State()), failure)) else None, fault)
    {
      if allowed && TakesEffect(fault) {
        phase, failures := RecoveryDesired, failures + [failure];
      }
      signal := SignalOf(fault, allowed);
    }

    method LeaveMarker(failure: FailurePayload, plan: Plan) returns (signal: Signal)
      modifies this`phase, this`failures
      ensures OutcomeOf(State(), signal) == MarkLeaseLost(old(State()), failure, plan)
    {
      signal := Note(failure, phase in {Attempting, Failed, RecoveryFailed}, plan.At(LeaseLostMarker));
    }

    method FailAndAskForRecovery(failure: FailurePayload, plan: Plan) returns (signal: Signal)
      modifies this
      ensures OutcomeOf(State(), signal) == FailAndDesire(req, old(State()), failure, plan)
    {
      signal := Do(MarkFailed, plan);
      if signal == Threw(true) { signal := LeaveMarker(failure, plan); return; }
      if signal != Returned { return; }
      signal := Note(failure, true, plan.At(RecordDesired));
      if signal == Threw(true) { signal := LeaveMarker(failure, plan); }
    }

    method RecordFailure(stage: Option<string>, plan: Plan) returns (signal: Signal)
      modifies this
      ensures OutcomeOf(State(), signal) == RecordMutationFailure(req, old(State()), stage, plan)
    {
      var look := LookAt(req, World(node, artifact, tick, phase, checkpoints, failures, seen, planned, observed,
                                    starts, calls, result, lost), plan.At(FailureSnapshotStage));
      if look.Died? { return Stopped; }
      var failure := FailurePayload(stage, look.snapshot, None);
      if look.snapshot.Some? {
        signal := Checkpointed(look.snapshot.value, plan.At(FailureCheckpoint));
        if signal == Threw(true) { signal := LeaveMarker(failure, plan); return; }
        if signal != Returned { return; }
      }
      signal := FailAndAskForRecovery(failure, plan);
    }

    method Checkpointed(snapshot: Snapshot, fault: Fault) returns (signal: Signal)
      modifies this`checkpoints
      ensures OutcomeOf(State(), signal)
              == Attempt(old(State()), Append(req, old(State()), Failure, Observed(snapshot)), fault)
    {
      var ok := true;
      if TakesEffect(fault) { ok := RecordCheckpoint(Failure, Observed(snapshot)); }
      signal := SignalOf(fault, ok);
    }

    method RecordLateFailure(after: Option<Snapshot>, stage: string, plan: Plan) returns (signal: Signal)
      modifies this
      ensures OutcomeOf(State(), signal) == RecordPostMutationFailure(req, old(State()), after, stage, plan)
    {
      var shown := after;
      if after.None? {
        var look := LookAt(req, World(node, artifact, tick, phase, checkpoints, failures, seen, planned, observed,
                                      starts, calls, result, lost), plan.At(FailureSnapshotStage));
        if look.Died? { return Stopped; }
        shown := look.snapshot;
      }
      signal := FailAndAskForRecovery(FailurePayload(Some(stage), None, shown), plan);
    }

    // The journaled call: every step that raises is recorded before the exception goes on.
    method Run(plan: Plan) returns (signal: Signal)
      modifies this
      ensures OutcomeOf(State(), signal) == RunMutation(req, old(State()), plan)
    {
      signal := Do(Start, plan);
      if signal != Returned { return; }
      signal := Do(TakeBefore, plan);
      if signal.Threw? {
        signal := FailAndAskForRecovery(FailurePayload(Some("before_snapshot"), None, None), plan);
        if signal == Returned { signal := Threw(false); }
        return;
      }
      if signal == Returned { signal := PrepareAndMutate(plan); }
    }

    method PrepareAndMutate(plan: Plan) returns (signal: Signal)
      modifies this
      ensures OutcomeOf(State(), signal) == PrepareMutation(req, old(State()), plan)
    {
      signal := DoAll(PrepareStages(req), plan);
      if signal.Threw? {
        signal := RecordFailure(Some(PREPARE_CHECKPOINTS), plan);
        if signal == Returned { signal := Threw(false); }
        return;
      }
      if signal.Stopped? { return; }
      signal := Do(CheckAuthority, plan);
      if signal.Threw? {
        signal := RecordFailure(None, plan);
        if signal == Returned { signal := Threw(false); }
        return;
      }
      if signal.Stopped? { return; }
      signal := MutateAndFinish(plan);
    }

    method MutateAndFinish(plan: Plan) returns (signal: Signal)
      modifies this
      ensures OutcomeOf(State(), signal) == CallMutation(req, old(State()), plan)
    {
      hide Effect, RecordMutationFailure, FinishMutation;
      calls := calls + 1;
      signal := Do(Mutate, plan);
      if signal.Threw? {
        signal := RecordFailure(None, plan);
        if signal == Returned { signal := Threw(false); }
        return;
      }
      if signal == Returned { signal := ObserveAndFinish(plan); }
    }

    method ObserveAndFinish(plan: Plan) returns (signal: Signal)
      modifies this
      ensures OutcomeOf(State(), signal) == FinishMutation(req, old(State()), plan)
    {
      signal := Do(TakeAfter, plan);
      if signal.Threw? {
        signal := RecordLateFailure(None, "after_snapshot", plan);
        if signal == Returned { signal := Threw(false); }
        return;
      }
      if signal.Stopped? { return; }
      signal := Finish(plan);
    }

    method Finish(plan: Plan) returns (signal: Signal)
      modifies this
      ensures OutcomeOf(State(), signal) == RecordResult(req, old(State()), plan)
    {
      var after := observed;
      signal := Do(RecordAfter, plan);
      if signal.Threw? {
        signal := RecordLateFailure(after, "after_checkpoint", plan);
        if signal == Returned { signal := Threw(false); }
        return;
      }
      if signal.Stopped? { return; }
      signal := Do(MarkSucceeded, plan);
      if signal.Threw? {
        signal := RecordLateFailure(after, "mark_succeeded", plan);
        if signal == Returned { signal := Threw(false); }
      }
    }

    // Moving the batch to another phase is one journal transaction.
    method Move(next: Phase, fault: Fault) returns (signal: Signal)
      modifies this`phase
      ensures OutcomeOf(State(), signal) == Attempt(old(State()), Some(old(State()).(phase := next)), fault)
    {
      if TakesEffect(fault) { phase := next; }
      signal := SignalOf(fault, true);
    }

    // Brings the batch to the phase from which recovery may start.
    method MakeRecoverable(driver: Driver, plan: Plan) returns (signal: Signal)
      modifies this`phase, this`failures
      ensures OutcomeOf(State(), signal) == Prepare(req, old(State()), driver, plan)
    {
      if phase == RecoveryDesired { return Returned; }
      if phase in {Failed, RecoveryFailed} || (phase == Succeeded && driver != PendingRollback) {
        signal := Move(RecoveryDesired, plan.At(MarkDesired));
      } else if driver == WorkspaceReplay && phase in {Attempting, Recovering} {
        var look := LookAt(req, World(node, artifact, tick, phase, checkpoints, failures, seen, planned, observed,
                                      starts, calls, result, lost), plan.At(ReplaySnapshot));
        if look.Died? { return Stopped; }
        signal := Note(FailurePayload(Some("workspace_recovery_replay"), look.snapshot, None), true, plan.At(MarkDesired));
      } else {
        signal := Threw(false);
      }
    }

    // The path changes only if the guarded restore lets it.
    method RestoreFile(backup: FileBackup, expected: Snapshot, plan: Plan) returns (signal: Signal, refused: bool)
      requires backup.Valid()
      modifies this`node, this`tick
      ensures var r := RestoreBackup(backup, old(node), artifact, Some(expected), false, NewStamp(old(State()), plan));
              && refused == r.Refused?
              && (refused ==> State() == old(State()))
              && (!refused ==>
                    OutcomeOf(State(), signal)
                    == Attempt(old(State()), Some(old(State()).(node := r.node, tick := old(tick) + 1)), plan.At(RunRestore)))
    {
      var r := RestoreBackup(backup, node, artifact, Some(expected), false, Stamp(plan.mtime, plan.device, tick));
      refused := r.Refused?;
      var fault := plan.At(RunRestore);
      if !refused && TakesEffect(fault) { node, tick := r.node, tick + 1; }
      signal := SignalOf(fault, true);
    }

    method RunRestoreAction(backup: FileBackup, expected: Snapshot, plan: Plan) returns (signal: Signal)
      requires backup.Valid()
      modifies this
      ensures OutcomeOf(State(), signal) == RunAction(req, old(State()), backup, expected, plan)
    {
      var fault := plan.At(PlanAction);
      if fault in {CrashesBefore, CrashesAfter} { return Stopped; }
      if fault != Proceeds { signal := Move(RecoveryFailed, plan.At(RecordOutcome)); return; }
      var refused: bool;
      signal, refused := RestoreFile(backup, expected, plan);
      if refused || signal.Threw? { signal := Move(RecoveryFailed, plan.At(RecordOutcome)); return; }
      if signal == Returned { signal := Move(RecoverySucceeded, plan.At(RecordOutcome)); }
    }

    method RecoverBatch(driver: Driver, plan: Plan) returns (signal: Signal)
      modifies this
      ensures OutcomeOf(State(), signal) == Recover(req, old(State()), driver, plan)
    {
      hide RecoveryProof, RunAction, Prepare;
      signal := MakeRecoverable(driver, plan);
      if signal != Returned { return; }
      var latest := if failures == [] then None else Some(failures[|failures| - 1]);
      var verdict := RecoveryProof(OperationOf(req.mutation), req.path, Some(req.key), checkpoints, latest);
      if driver != WorkspaceReplay && !Supported(verdict) { return Threw(false); }
      signal := Move(Recovering, plan.At(StartRecovery));
      if signal != Returned { return; }
      VerdictBackupIsValid(req, State());
      if verdict.Noop? {
        signal := Move(RecoverySucceeded, plan.At(RecordOutcome));
      } else if verdict.Restore? {
        signal := RunRestoreAction(verdict.backup, verdict.expectedCurrent, plan);
      } else {
        signal := Move(RecoveryFailed, plan.At(RecordOutcome));
      }
    }
  }
}
