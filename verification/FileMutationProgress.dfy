/**
  When recovery is certain to finish: a single undisturbed replay of a run that died, and an
  undisturbed rollback of a run that succeeded.
*/
module FileMutationProgress {
  import opened Wrappers
  import opened Snapshots
  import opened Backups
  import opened FileRecoveryPlanning
  import opened FileMutation
  import opened Steps
  import opened FileMutationSafety

  // A process that meets no fault at all.
  function Undisturbed(mtime: nat, device: nat): Plan {
    Plan(map[], mtime, device)
  }

  // A restore that expects exactly what is there goes through.
  lemma RestoreOfSeenGoesThrough(req: Request, original: Node, w: World, backup: FileBackup, stamp: Stamp)
    requires InRun(req, original, w)
    requires backup.Valid() && Checkpoint(Backup, req.key, BackedUp(backup)) in w.checkpoints
    ensures RestoreBackup(backup, w.node, w.artifact, Some(TakeSnapshot(req.path, w.node)), false, stamp).Restored?
  {
    assert PlannedBackup(TakeSnapshot(req.path, original), original) == Some(backup);
    assert Recorded(w.checkpoints, Backup);
  }

  lemma ResultIsDesired(req: Request, original: Node, w: World)
    requires InRun(req, original, w) && w.result.Some?
    ensures MatchesDesired(TakeSnapshot(req.path, w.node), DesiredOf(req))
  {
  }

  lemma IntentOnRecord(req: Request, original: Node, w: World) returns (backup: FileBackup)
    requires InRun(req, original, w) && Recorded(w.checkpoints, ExpectedAfter)
    ensures Latest(w.checkpoints, ExpectedAfter, req.key, req.path) == Some(Wanted(DesiredOf(req)))
    ensures Latest(w.checkpoints, Backup, req.key, req.path) == Some(BackedUp(backup)) && backup.Valid()
    ensures backup.snapshot == TakeSnapshot(req.path, original)
    ensures var after := Latest(w.checkpoints, After, req.key, req.path);
            after.None? || (w.result.Some? && after == Some(Observed(TakeSnapshot(req.path, w.node))))
    ensures var failed := Latest(w.checkpoints, Failure, req.key, req.path);
            failed.None? || failed.value == Observed(TakeSnapshot(req.path, original))
            || failed.value == Observed(TakeSnapshot(req.path, w.node))
  {
    var key, path, c := req.key, req.path, w.checkpoints;
    hide BytesKept, SameData, IsResult;
    var c0 :| c0 in c && c0.kind == ExpectedAfter;
    assert Concerns(c0, ExpectedAfter, key, path);
    var c1 :| c1 in c && c1.kind == Backup;
    assert Concerns(c1, Backup, key, path);
    backup := Latest(c, Backup, key, path).value.backup;
  }

  // With the intent on record, what the path holds decides between restoring and leaving alone.
  lemma VerdictWithIntent(req: Request, original: Node, w: World, failure: FailurePayload)
    requires InRun(req, original, w) && Recorded(w.checkpoints, ExpectedAfter)
    requires failure.snapshot == Some(TakeSnapshot(req.path, w.node)) && failure.after.None?
    requires failure.stage != Some(PREPARE_CHECKPOINTS)
    ensures var v := RecoveryProof(OperationOf(req.mutation), req.path, Some(req.key), w.checkpoints, Some(failure));
            v == Noop || (v.Restore? && v.expectedCurrent == TakeSnapshot(req.path, w.node))
  {
    var seen := TakeSnapshot(req.path, w.node);
    var backup := IntentOnRecord(req, original, w);
    if w.result.Some? { ResultIsDesired(req, original, w); } else { assert w.node == original; }
    hide Latest, InRun, PlannedBackup, MatchesDesired;
    var expected := ExpectedCurrent(w.checkpoints, req.key, req.path, Some(failure));
    assert expected.Some? ==> expected.value == seen;
    assert w.result.None? ==> SameSnapshot(backup.snapshot, seen, req.path);
  }

  lemma VerdictWithoutIntent(req: Request, original: Node, w: World, failure: FailurePayload)
    requires InRun(req, original, w) && !Recorded(w.checkpoints, ExpectedAfter)
    requires failure.stage != Some(PREPARE_CHECKPOINTS)
    ensures RecoveryProof(OperationOf(req.mutation), req.path, Some(req.key), w.checkpoints, Some(failure)).Manual?
  {
    var key, path, c := req.key, req.path, w.checkpoints;
    var after := Latest(c, After, key, path);
    var backup := Latest(c, Backup, key, path);
    assert Latest(c, ExpectedAfter, key, path).None?;
  }

  lemma ActionGoesThrough(req: Request, original: Node, w: World, started: World, backup: FileBackup, plan: Plan)
    requires InRun(req, original, w) && plan.faults == map[]
    requires started.node == w.node && started.artifact == w.artifact
    requires backup.Valid() && Checkpoint(Backup, req.key, BackedUp(backup)) in w.checkpoints
    ensures var o := RunAction(req, started, backup, TakeSnapshot(req.path, w.node), plan);
            o.Going? && o.world.phase == RecoverySucceeded
  {
    RestoreOfSeenGoesThrough(req, original, w, backup, NewStamp(started, plan));
    hide RestoreBackup, InRun;
  }

  lemma ReplayStarts(req: Request, w: World, plan: Plan) returns (started: World)
    requires w.phase == Attempting && plan.faults == map[]
    ensures var failure := FailurePayload(Some("workspace_recovery_replay"), Some(TakeSnapshot(req.path, w.node)), None);
            started == Desire(w, failure).(phase := Recovering) && LatestFailure(started) == Some(failure)
    ensures Recover(req, w, WorkspaceReplay, plan)
            == match VerdictOf(req, started)
               case Noop => Conclude(started, RecoverySucceeded, plan)
               case Restore(backup, expected) => RunAction(req, started, backup, expected, plan)
               case _ => Conclude(started, RecoveryFailed, plan)
  {
    hide VerdictOf, RunAction, Conclude, TakeSnapshot;
    var failure := FailurePayload(Some("workspace_recovery_replay"), Some(TakeSnapshot(req.path, w.node)), None);
    started := Desire(w, failure).(phase := Recovering);
  }

  // A run that stopped mid-way, wherever it stopped, is finished off by one undisturbed replay
  // exactly when its intended result had been recorded; otherwise the replay refuses and touches
  // nothing.
  lemma ReplayCompletesIff(req: Request, original: Node, tick: nat, plan: Plan, mtime: nat, device: nat)
    requires InodeBelow(original, tick)
    requires RunMutation(req, Init(original, tick), plan).world.phase == Attempting
    ensures var w := RunMutation(req, Init(original, tick), plan).world;
            var o := Recover(req, w, WorkspaceReplay, Undisturbed(mtime, device));
            && o.Going?
            && (o.world.phase == RecoverySucceeded <==> Recorded(w.checkpoints, ExpectedAfter))
            && (o.world.phase == RecoverySucceeded ==> SameData(o.world.node, original))
            && (o.world.phase != RecoverySucceeded ==> o.world.phase == RecoveryFailed && o.world.node == w.node)
  {
    InitHolds(req, original, tick);
    RunKeepsInv(req, original, Init(original, tick), plan);
    var w := RunMutation(req, Init(original, tick), plan).world;
    hide RunMutation, InRun, Inv;
    ReplayFromRun(req, original, w, Undisturbed(mtime, device));
  }

  lemma ReplayFromRun(req: Request, original: Node, w: World, plan: Plan)
    requires InRun(req, original, w) && w.phase == Attempting && plan.faults == map[]
    ensures var o := Recover(req, w, WorkspaceReplay, plan);
            && o.Going?
            && (o.world.phase == RecoverySucceeded <==> Recorded(w.checkpoints, ExpectedAfter))
            && (o.world.phase == RecoverySucceeded ==> SameData(o.world.node, original))
            && (o.world.phase != RecoverySucceeded ==> o.world.phase == RecoveryFailed && o.world.node == w.node)
  {
    RecoveryRestoresOrLeaves(req, original, w, WorkspaceReplay, plan);
    hide Recover, InRun, RecoveryProof, Inv, RunAction, TakeSnapshot, SameData, Recorded;
    var started := ReplayStarts(req, w, plan);
    var failure := LatestFailure(started).value;
    if Recorded(w.checkpoints, ExpectedAfter) {
      VerdictWithIntent(req, original, w, failure);
      var v := VerdictOf(req, started);
      if v.Restore? {
        RestoreRestsOnRecords(OperationOf(req.mutation), req.path, req.key, w.checkpoints, Some(failure), v.backup, v.expectedCurrent);
        ActionGoesThrough(req, original, w, started, v.backup, plan);
      }
    } else {
      VerdictWithoutIntent(req, original, w, failure);
    }
  }

  lemma VerdictOfSuccess(req: Request, original: Node, w: World)
    requires InRun(req, original, w) && w.phase == Succeeded
    ensures var v := RecoveryProof(OperationOf(req.mutation), req.path, Some(req.key), w.checkpoints, None);
            if req.captureProof then v.Restore? && v.expectedCurrent == TakeSnapshot(req.path, w.node)
            else v == Manual(MissingBackupProof)
  {
    var key, path, c := req.key, req.path, w.checkpoints;
    var c0 :| c0 in c && c0.kind == After;
    assert Concerns(c0, After, key, path);
    assert Latest(c, After, key, path) == Some(Observed(TakeSnapshot(path, w.node)));
    var backup := Latest(c, Backup, key, path);
    if req.captureProof {
      var c1 :| c1 in c && c1.kind == Backup;
      assert Concerns(c1, Backup, key, path);
      assert backup.Some? && IsBackup(backup.value);
    } else {
      assert backup.None?;
    }
  }

  // A batch recorded as succeeded is undone by one undisturbed rollback exactly when its caller had
  // asked for a backup; without one the rollback refuses and the mutation stands.
  lemma SuccessRollsBackIff(req: Request, original: Node, tick: nat, plan: Plan, mtime: nat, device: nat)
    requires InodeBelow(original, tick)
    requires RunMutation(req, Init(original, tick), plan).world.phase == Succeeded
    ensures var w := RunMutation(req, Init(original, tick), plan).world;
            var o := Recover(req, w, AutomaticRollback, Undisturbed(mtime, device));
            && (o.world.phase == RecoverySucceeded <==> req.captureProof)
            && (req.captureProof ==> SameData(o.world.node, original))
            && (!req.captureProof ==> o.Raised? && o.world.node == w.node)
  {
    InitHolds(req, original, tick);
    RunKeepsInv(req, original, Init(original, tick), plan);
    var w := RunMutation(req, Init(original, tick), plan).world;
    hide RunMutation, InRun, Inv;
    RollbackFromRun(req, original, w, Undisturbed(mtime, device));
  }

  lemma RollbackFromRun(req: Request, original: Node, w: World, plan: Plan)
    requires InRun(req, original, w) && w.phase == Succeeded && plan.faults == map[]
    ensures var o := Recover(req, w, AutomaticRollback, plan);
            && (o.world.phase == RecoverySucceeded <==> req.captureProof)
            && (req.captureProof ==> SameData(o.world.node, original))
            && (!req.captureProof ==> o.Raised? && o.world.node == w.node)
  {
    RecoveryRestoresOrLeaves(req, original, w, AutomaticRollback, plan);
    VerdictOfSuccess(req, original, w);
    assert w.failures == [];
    hide InRun, RecoveryProof, Inv, RunAction, TakeSnapshot, SameData;
    var ready := w.(phase := RecoveryDesired);
    assert Prepare(req, w, AutomaticRollback, plan) == Going(ready);
    var started := ready.(phase := Recovering);
    var v := VerdictOf(req, started);
    assert v == VerdictOf(req, ready);
    if req.captureProof {
      RestoreRestsOnRecords(OperationOf(req.mutation), req.path, req.key, w.checkpoints, None, v.backup, v.expectedCurrent);
      ActionGoesThrough(req, original, w, started, v.backup, plan);
    }
  }
}
