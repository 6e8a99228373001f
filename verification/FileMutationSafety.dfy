/**
  What no run of a journaled write or delete can break, whatever crashes, exceptions and lost
  leases it meets and however often it is recovered afterwards.
*/
module FileMutationSafety {
  import opened Wrappers
  import opened Snapshots
  import opened Backups
  import opened FileRecoveryPlanning
  import opened FileMutation
  import opened Steps

  predicate IsResult(req: Request, original: Node, result: Node, tick: nat) {
    && Mutated(req.mutation, original, if result.Absent? then Stamp(0, 0, 0) else result.stamp) == Some(result)
    && InodeBelow(result, tick)
    && (result.Absent? || !InodeBelow(result, 1 + InodeOf(original)) || original.Absent?)
  }

  function InodeOf(node: Node): nat {
    if node.Absent? then 0 else node.stamp.inode
  }

  // A failure record whose snapshot is indistinguishable from the one taken before the run.
  predicate ShowsBefore(req: Request, original: Node, failure: FailurePayload) {
    failure.snapshot.Some? && SameSnapshot(TakeSnapshot(req.path, original), failure.snapshot.value, req.path)
  }

  predicate TruthfulCheckpoint(req: Request, original: Node, result: Option<Node>, c: Checkpoint) {
    && c.resourceKey == req.key
    && match c.kind
       case Before => c.payload == Observed(TakeSnapshot(req.path, original))
       case BackupIntent | Backup =>
         && req.captureProof
         && c.payload.BackedUp?
         && PlannedBackup(TakeSnapshot(req.path, original), original) == Some(c.payload.backup)
       case ExpectedAfter => c.payload == Wanted(DesiredOf(req))
       case After => result.Some? && c.payload == Observed(TakeSnapshot(req.path, result.value))
       case Failure =>
         || c.payload == Observed(TakeSnapshot(req.path, original))
         || (result.Some? && c.payload == Observed(TakeSnapshot(req.path, result.value)))
  }

  predicate Recorded(checkpoints: seq<Checkpoint>, kind: Kind) {
    exists c :: c in checkpoints && c.kind == kind
  }

  // What holds between any two steps of any call.
  ghost predicate Inv(req: Request, original: Node, w: World) {
    && InodeBelow(original, w.tick) && InodeBelow(w.node, w.tick)
    && (forall c :: c in w.checkpoints ==> TruthfulCheckpoint(req, original, w.result, c))
    && (w.seen.Some? ==> w.seen.value == TakeSnapshot(req.path, original))
    && (w.planned.Some? ==> PlannedBackup(TakeSnapshot(req.path, original), original) == w.planned)
    && (w.observed.Some? ==> w.result.Some? && w.observed.value == TakeSnapshot(req.path, w.result.value))
    && (w.result.Some? ==> IsResult(req, original, w.result.value, w.tick))
    && (w.result.None? ==> w.node == original)
    && (SameData(w.node, original) || w.result == Some(w.node))
    && (w.result.Some? && original.File? && w.node.File? ==> w.node.stamp.inode > original.stamp.inode)
    && (w.phase == RecoverySucceeded ==> SameData(w.node, original))
    && (forall f :: f in w.failures && ShowsBefore(req, original, f) ==>
          SameData(w.node, original) && (original.File? ==> w.result.None?))
    && (forall f :: f in w.failures && f.stage == Some(PREPARE_CHECKPOINTS) ==> w.calls == 0)
    && (w.phase in {Planned, Attempting} ==> w.failures == [])
    && (w.phase == Planned ==> w.starts == 0 && w.checkpoints == [])
    && (w.calls == 0 ==> w.result.None?)
    && w.calls <= w.starts <= 1
    && (req.captureProof && w.calls > 0 ==> Recorded(w.checkpoints, ExpectedAfter))
    && (Recorded(w.checkpoints, ExpectedAfter) ==> Recorded(w.checkpoints, Backup))
    && (Recorded(w.checkpoints, Backup) ==> BytesKept(original, w))
  }

  predicate BytesKept(original: Node, w: World) {
    original.File? && !w.lost ==> w.artifact == Some(original.content)
  }

  // Inside the call: nothing has been restored yet.
  ghost predicate InRun(req: Request, original: Node, w: World) {
    && Inv(req, original, w)
    && w.starts == 1 && !w.lost
    && (w.phase == Succeeded ==> Recorded(w.checkpoints, After) && w.failures == [])
    && (w.result.Some? ==> w.result == Some(w.node))
  }

  predicate Fits(req: Request, original: Node, w: World, failure: FailurePayload) {
    && (ShowsBefore(req, original, failure) ==> SameData(w.node, original) && (original.File? ==> w.result.None?))
    && (failure.stage == Some(PREPARE_CHECKPOINTS) ==> w.calls == 0)
  }

  lemma InitHolds(req: Request, original: Node, tick: nat)
    requires InodeBelow(original, tick)
    ensures Inv(req, original, Init(original, tick))
  {
  }

  // A snapshot that cannot be told from the before-snapshot proves the before-state, because a
  // replacement never reuses the inode.
  lemma SnapshotFits(req: Request, original: Node, w: World, stage: Option<string>, after: Option<Snapshot>)
    requires Inv(req, original, w) && (stage == Some(PREPARE_CHECKPOINTS) ==> w.calls == 0)
    ensures Fits(req, original, w, FailurePayload(stage, Some(TakeSnapshot(req.path, w.node)), after))
  {
  }

  lemma AppendKeepsInv(req: Request, original: Node, w: World, kind: Kind, payload: Payload)
    requires Inv(req, original, w)
    requires TruthfulCheckpoint(req, original, w.result, Checkpoint(kind, req.key, payload))
    requires kind == Backup ==> BytesKept(original, w)
    requires kind == ExpectedAfter ==> Recorded(w.checkpoints, Backup)
    ensures var r := Append(req, w, kind, payload);
            r.Some? ==> Inv(req, original, r.value) && Recorded(r.value.checkpoints, kind)
  {
    hide IsResult, PlannedBackup, SameData, ShowsBefore;
    var r := Append(req, w, kind, payload);
    if r.Some? {
      var c := Checkpoint(kind, req.key, payload);
      assert c in r.value.checkpoints;
      forall k: Kind | Recorded(w.checkpoints, k) ensures Recorded(r.value.checkpoints, k) {
        var d :| d in w.checkpoints && d.kind == k;
        assert d in r.value.checkpoints;
      }
    }
  }

  // What the first k preparing steps have put on record.
  predicate Prepared(req: Request, original: Node, w: World, k: nat) {
    && (k > 3 ==> BytesKept(original, w))
    && (k > 4 ==> Recorded(w.checkpoints, Backup))
    && (k > 5 ==> Recorded(w.checkpoints, ExpectedAfter))
  }

  ghost predicate Preparing(req: Request, original: Node, w: World) {
    InRun(req, original, w) && w.calls == 0 && w.phase == Attempting
  }

  lemma RecordingKeeps(req: Request, original: Node, w: World, k: nat, plan: Plan)
    requires Preparing(req, original, w) && k < |PrepareStages(req)| && Prepared(req, original, w, k)
    requires PrepareStages(req)[k] !in {PlanCleanup, CaptureBackup}
    ensures var r := Effect(req, w, PrepareStages(req)[k], plan);
            r.Some? ==> Preparing(req, original, r.value) && Prepared(req, original, r.value, k + 1)
  {
    match PrepareStages(req)[k]
    case RecordBefore => if w.seen.Some? { AppendKeepsInv(req, original, w, Before, Observed(w.seen.value)); }
    case RecordIntent =>
      if w.seen.Some? {
        var planned := PlannedBackup(w.seen.value, w.node);
        if planned.Some? {
          AppendKeepsInv(req, original, w.(planned := planned), BackupIntent, BackedUp(planned.value));
        }
      }
    case RecordBackup => if w.planned.Some? { AppendKeepsInv(req, original, w, Backup, BackedUp(w.planned.value)); }
    case RecordExpectedAfter => AppendKeepsInv(req, original, w, ExpectedAfter, Wanted(DesiredOf(req)));
  }

  lemma CaptureKeeps(req: Request, original: Node, w: World, plan: Plan)
    requires Preparing(req, original, w)
    ensures var r := Effect(req, w, CaptureBackup, plan);
            r.Some? ==> Preparing(req, original, r.value) && BytesKept(original, r.value)
  {
  }

  lemma PreStep(req: Request, original: Node, w: World, k: nat, plan: Plan)
    requires Preparing(req, original, w) && k < |PrepareStages(req)| && Prepared(req, original, w, k)
    ensures var r := Effect(req, w, PrepareStages(req)[k], plan);
            r.Some? ==> Preparing(req, original, r.value) && Prepared(req, original, r.value, k + 1)
  {
    hide Preparing, PlannedBackup, CapturedBytes, Recorded;
    if PrepareStages(req)[k] == CaptureBackup {
      CaptureKeeps(req, original, w, plan);
    } else if PrepareStages(req)[k] != PlanCleanup {
      RecordingKeeps(req, original, w, k, plan);
    }
  }

  lemma {:induction false} PreSteps(req: Request, original: Node, w: World, k: nat, plan: Plan)
    requires Preparing(req, original, w) && k <= |PrepareStages(req)| && Prepared(req, original, w, k)
    ensures var o := PerformAll(req, w, PrepareStages(req)[k..], plan);
            && Preparing(req, original, o.world)
            && (o.Going? ==> Prepared(req, original, o.world, |PrepareStages(req)|))
    decreases |PrepareStages(req)| - k
  {
    hide Preparing, Prepared, Effect;
    var stages := PrepareStages(req)[k..];
    if stages != [] {
      PreStep(req, original, w, k, plan);
      var first := Perform(req, w, stages[0], plan);
      if first.Going? {
        PreSteps(req, original, first.world, k + 1, plan);
        assert stages[1..] == PrepareStages(req)[k + 1..];
      }
    }
  }

  lemma MutateEffect(req: Request, original: Node, w: World, plan: Plan)
    requires InRun(req, original, w) && w.phase == Attempting && w.calls == 1 && w.result.None?
    ensures var r := Effect(req, w, Mutate, plan);
            r.Some? ==> InRun(req, original, r.value) && r.value.phase == Attempting && r.value.result == Some(r.value.node)
  {
    var r := Effect(req, w, Mutate, plan);
    if r.Some? {
      assert w.node == original && IsResult(req, original, r.value.node, r.value.tick);
      hide IsResult, Recorded, PlannedBackup, Mutated;
      assert forall c :: c in w.checkpoints ==> TruthfulCheckpoint(req, original, w.result, c);
    }
  }

  lemma MutateStep(req: Request, original: Node, w: World, plan: Plan)
    requires Preparing(req, original, w) && (req.captureProof ==> Recorded(w.checkpoints, ExpectedAfter))
    ensures var o := Perform(req, w.(calls := 1), Mutate, plan);
            && InRun(req, original, o.world) && o.world.phase == Attempting
            && (o.Going? ==> o.world.result == Some(o.world.node))
  {
    var called := w.(calls := 1);
    assert InRun(req, original, called) && called.result.None?;
    hide InRun, Effect;
    MutateEffect(req, original, called, plan);
  }

  lemma FailedKeeps(req: Request, original: Node, w: World, phase: Phase, failures: seq<FailurePayload>)
    requires InRun(req, original, w) && phase in {Failed, RecoveryDesired}
    requires failures == w.failures || exists f :: failures == w.failures + [f] && Fits(req, original, w, f) && phase == RecoveryDesired
    ensures InRun(req, original, w.(phase := phase, failures := failures))
  {
  }

  lemma MarkerKeeps(req: Request, original: Node, w: World, failure: FailurePayload, plan: Plan)
    requires InRun(req, original, w) && Fits(req, original, w, failure)
    ensures InRun(req, original, MarkLeaseLost(w, failure, plan).world)
  {
    FailedKeeps(req, original, w, RecoveryDesired, w.failures + [failure]);
  }

  lemma FailAndDesireKeeps(req: Request, original: Node, w: World, failure: FailurePayload, plan: Plan)
    requires InRun(req, original, w) && Fits(req, original, w, failure)
    ensures InRun(req, original, FailAndDesire(req, w, failure, plan).world)
  {
    FailedKeeps(req, original, w, Failed, w.failures);
    hide InRun, ShowsBefore;
    var failed := Perform(req, w, MarkFailed, plan);
    MarkerKeeps(req, original, failed.world, failure, plan);
    if failed.Going? {
      FailedKeeps(req, original, failed.world, RecoveryDesired, failed.world.failures + [failure]);
    }
  }

  lemma NoteFailureKeeps(req: Request, original: Node, w: World, stage: Option<string>, plan: Plan)
    requires InRun(req, original, w) && (stage == Some(PREPARE_CHECKPOINTS) ==> w.calls == 0)
    ensures var s := TakeSnapshot(req.path, w.node);
            var noted := Attempt(w, Append(req, w, Failure, Observed(s)), plan.At(FailureCheckpoint)).world;
            InRun(req, original, noted) && Fits(req, original, noted, FailurePayload(stage, Some(s), None))
  {
    SnapshotFits(req, original, w, stage, None);
    AppendKeepsInv(req, original, w, Failure, Observed(TakeSnapshot(req.path, w.node)));
  }

  lemma MutationFailureKeeps(req: Request, original: Node, w: World, stage: Option<string>, plan: Plan)
    requires InRun(req, original, w) && (stage == Some(PREPARE_CHECKPOINTS) ==> w.calls == 0)
    ensures InRun(req, original, RecordMutationFailure(req, w, stage, plan).world)
  {
    hide Inv, InRun, TakeSnapshot;
    var look := LookAt(req, w, plan.At(FailureSnapshotStage));
    if look.Looked? && look.snapshot.Some? {
      var s := look.snapshot.value;
      var failure := FailurePayload(stage, Some(s), None);
      NoteFailureKeeps(req, original, w, stage, plan);
      var noted := Attempt(w, Append(req, w, Failure, Observed(s)), plan.At(FailureCheckpoint));
      FailAndDesireKeeps(req, original, noted.world, failure, plan);
      MarkerKeeps(req, original, noted.world, failure, plan);
    } else {
      FailAndDesireKeeps(req, original, w, FailurePayload(stage, None, None), plan);
    }
  }

  lemma PostFailureKeeps(req: Request, original: Node, w: World, after: Option<Snapshot>, stage: string, plan: Plan)
    requires InRun(req, original, w) && stage != PREPARE_CHECKPOINTS
    ensures InRun(req, original, RecordPostMutationFailure(req, w, after, stage, plan).world)
  {
    var look := LookAt(req, w, plan.At(FailureSnapshotStage));
    FailAndDesireKeeps(req, original, w, FailurePayload(Some(stage), None, after), plan);
    if look.Looked? {
      FailAndDesireKeeps(req, original, w, FailurePayload(Some(stage), None, look.snapshot), plan);
    }
  }

  lemma ResultStep(req: Request, original: Node, w: World, stage: Stage, plan: Plan)
    requires InRun(req, original, w) && w.phase == Attempting && stage in {RecordAfter, MarkSucceeded}
    requires stage == MarkSucceeded ==> Recorded(w.checkpoints, After)
    ensures var o := Perform(req, w, stage, plan);
            && InRun(req, original, o.world)
            && (o.Going? && stage == RecordAfter ==> o.world.phase == Attempting && Recorded(o.world.checkpoints, After))
  {
    if stage == RecordAfter && w.observed.Some? {
      AppendKeepsInv(req, original, w, After, Observed(w.observed.value));
    }
  }

  lemma RecordResultKeeps(req: Request, original: Node, w: World, plan: Plan)
    requires InRun(req, original, w) && w.phase == Attempting
    ensures InRun(req, original, RecordResult(req, w, plan).world)
  {
    var recorded := Perform(req, w, RecordAfter, plan);
    ResultStep(req, original, w, RecordAfter, plan);
    PostFailureKeeps(req, original, recorded.world, w.observed, "after_checkpoint", plan);
    if recorded.Going? {
      var marked := Perform(req, recorded.world, MarkSucceeded, plan);
      ResultStep(req, original, recorded.world, MarkSucceeded, plan);
      PostFailureKeeps(req, original, marked.world, w.observed, "mark_succeeded", plan);
    }
  }

  lemma FinishKeeps(req: Request, original: Node, w: World, plan: Plan)
    requires InRun(req, original, w) && w.phase == Attempting && w.result == Some(w.node)
    ensures InRun(req, original, FinishMutation(req, w, plan).world)
  {
    var after := Perform(req, w, TakeAfter, plan);
    assert InRun(req, original, after.world);
    PostFailureKeeps(req, original, after.world, None, "after_snapshot", plan);
    if after.Going? { RecordResultKeeps(req, original, after.world, plan); }
  }

  lemma CallKeeps(req: Request, original: Node, w: World, plan: Plan)
    requires Preparing(req, original, w) && (req.captureProof ==> Recorded(w.checkpoints, ExpectedAfter))
    ensures InRun(req, original, CallMutation(req, w, plan).world)
  {
    MutateStep(req, original, w, plan);
    var mutated := Perform(req, w.(calls := 1), Mutate, plan);
    MutationFailureKeeps(req, original, mutated.world, None, plan);
    if mutated.Going? { FinishKeeps(req, original, mutated.world, plan); }
  }

  lemma PrepareKeeps(req: Request, original: Node, w: World, plan: Plan)
    requires Preparing(req, original, w)
    ensures InRun(req, original, PrepareMutation(req, w, plan).world)
  {
    hide Inv, InRun, PerformAll;
    var stages := PrepareStages(req);
    PreSteps(req, original, w, 0, plan);
    assert stages[0..] == stages;
    var prepared := PerformAll(req, w, stages, plan);
    MutationFailureKeeps(req, original, prepared.world, Some(PREPARE_CHECKPOINTS), plan);
    if prepared.Going? {
      var allowed := Perform(req, prepared.world, CheckAuthority, plan);
      MutationFailureKeeps(req, original, allowed.world, None, plan);
      if allowed.Going? { CallKeeps(req, original, allowed.world, plan); }
    }
  }

  lemma StartKeeps(req: Request, original: Node, w: World, plan: Plan)
    requires Inv(req, original, w) && w.phase == Planned
    ensures var o := Perform(req, w, Start, plan);
            && Inv(req, original, o.world) && (o.world == w || Preparing(req, original, o.world))
            && (o.Going? ==> o.world != w)
  {
  }

  lemma TakeBeforeKeeps(req: Request, original: Node, w: World, plan: Plan)
    requires Preparing(req, original, w)
    ensures Preparing(req, original, Perform(req, w, TakeBefore, plan).world)
  {
  }

  lemma RunKeepsInv(req: Request, original: Node, w: World, plan: Plan)
    requires Inv(req, original, w) && w.phase == Planned
    ensures var o := RunMutation(req, w, plan).world;
            Inv(req, original, o) && (o == w || InRun(req, original, o))
  {
    hide Inv, Effect, PrepareMutation, FailAndDesire;
    StartKeeps(req, original, w, plan);
    var started := Perform(req, w, Start, plan);
    if started.Going? {
      TakeBeforeKeeps(req, original, started.world, plan);
      var before := Perform(req, started.world, TakeBefore, plan);
      FailAndDesireKeeps(req, original, before.world, FailurePayload(Some("before_snapshot"), None, None), plan);
      if before.Going? { PrepareKeeps(req, original, before.world, plan); }
    }
  }

  lemma PhaseKeepsInv(req: Request, original: Node, w: World, phase: Phase)
    requires Inv(req, original, w) && phase !in {Planned, Attempting}
    requires phase == RecoverySucceeded ==> SameData(w.node, original)
    ensures Inv(req, original, w.(phase := phase))
  {
  }

  lemma DesireKeepsInv(req: Request, original: Node, w: World, failure: FailurePayload)
    requires Inv(req, original, w) && Fits(req, original, w, failure)
    ensures Inv(req, original, Desire(w, failure))
  {
  }

  lemma PrepareKeepsInv(req: Request, original: Node, w: World, driver: Driver, plan: Plan)
    requires Inv(req, original, w)
    ensures var o := Prepare(req, w, driver, plan);
            && Inv(req, original, o.world) && o.world.node == w.node && o.world.result == w.result
            && (o.world.phase == w.phase || o.world.phase == RecoveryDesired)
            && (o.Going? ==> o.world.phase == RecoveryDesired)
  {
    hide Inv, TakeSnapshot;
    var stage := Some("workspace_recovery_replay");
    SnapshotFits(req, original, w, stage, None);
    PhaseKeepsInv(req, original, w, RecoveryDesired);
    DesireKeepsInv(req, original, w, FailurePayload(stage, Some(TakeSnapshot(req.path, w.node)), None));
    DesireKeepsInv(req, original, w, FailurePayload(stage, None, None));
  }

  // The snapshot a noop verdict is compared with is the one taken before the run.
  lemma WitnessIsBefore(req: Request, original: Node, w: World, s: Snapshot)
    requires Inv(req, original, w)
    requires || Checkpoint(Before, req.key, Observed(s)) in w.checkpoints
             || exists b :: Checkpoint(Backup, req.key, BackedUp(b)) in w.checkpoints && b.snapshot == s
    ensures s == TakeSnapshot(req.path, original)
  {
    hide Recorded, IsResult, ShowsBefore, SameData, TakeSnapshot;
    if Checkpoint(Before, req.key, Observed(s)) !in w.checkpoints {
      var b :| Checkpoint(Backup, req.key, BackedUp(b)) in w.checkpoints && b.snapshot == s;
      assert PlannedBackup(TakeSnapshot(req.path, original), original) == Some(b);
    }
  }

  lemma LatestShowsBefore(req: Request, original: Node, w: World)
    requires Inv(req, original, w) && LatestFailure(w).Some? && ShowsBefore(req, original, LatestFailure(w).value)
    ensures SameData(w.node, original)
    ensures original.File? ==> w.result.None?
  {
    hide Recorded, IsResult, ShowsBefore, SameData, TakeSnapshot, PlannedBackup;
    assert LatestFailure(w).value in w.failures;
  }

  lemma NoopMeansBeforeState(req: Request, original: Node, w: World)
    requires Inv(req, original, w) && VerdictOf(req, w) == Noop
    ensures SameData(w.node, original)
    ensures original.File? ==> w.result.None?
  {
    hide RecoveryProof, Inv, SameData, TakeSnapshot, SameSnapshot;
    var key := req.key;
    NoopRestsOnRecords(OperationOf(req.mutation), req.path, key, w.checkpoints, LatestFailure(w));
    var s :| && (|| Checkpoint(Before, key, Observed(s)) in w.checkpoints
                 || exists b :: Checkpoint(Backup, key, BackedUp(b)) in w.checkpoints && b.snapshot == s)
             && SameSnapshot(s, FailureSnapshot(LatestFailure(w)).value, req.path);
    WitnessIsBefore(req, original, w, s);
    LatestShowsBefore(req, original, w);
  }

  lemma ConcludeKeepsInv(req: Request, original: Node, w: World, phase: Phase, plan: Plan)
    requires Inv(req, original, w) && phase !in {Planned, Attempting}
    requires phase == RecoverySucceeded ==> SameData(w.node, original)
    ensures var o := Conclude(w, phase, plan).world;
            Inv(req, original, o) && o.node == w.node && o.result == w.result && o.phase in {w.phase, phase}
  {
    PhaseKeepsInv(req, original, w, phase);
  }

  // What a restore leaves: the very node it found, nothing, or a file with a stamp of its own.
  lemma WrittenKeepsInv(req: Request, original: Node, w: World, node: Node, plan: Plan)
    requires Inv(req, original, w) && w.phase == Recovering && SameData(node, original)
    requires node == w.node || node.Absent? || (node.File? && node.stamp == NewStamp(w, plan) && w.node != original)
    ensures Inv(req, original, w.(node := node, tick := w.tick + 1))
  {
    hide Recorded, PlannedBackup;
  }

  lemma RestoreLeaves(backup: FileBackup, current: Node, artifact: Option<Bytes>, expected: Snapshot, stamp: Stamp,
                      original: Node, path: string)
    requires backup.Valid() && PlannedBackup(TakeSnapshot(path, original), original) == Some(backup)
    ensures var r := RestoreBackup(backup, current, artifact, Some(expected), false, stamp);
            r.Restored? ==>
              && SameData(r.node, original)
              && (r.node == current || r.node.Absent? || (r.node.File? && r.node.stamp == stamp && current != original))
  {
  }

  lemma RestoredKeepsInv(req: Request, original: Node, w: World, backup: FileBackup, expected: Snapshot, plan: Plan)
    requires Inv(req, original, w) && w.phase == Recovering && VerdictOf(req, w) == Restore(backup, expected)
    ensures backup.Valid()
    ensures var r := RestoreBackup(backup, w.node, w.artifact, Some(expected), false, NewStamp(w, plan));
            r.Restored? ==>
              && SameData(r.node, original)
              && Inv(req, original, w.(node := r.node, tick := w.tick + 1))
  {
    RestoreRestsOnRecords(OperationOf(req.mutation), req.path, req.key, w.checkpoints, LatestFailure(w), backup, expected);
    assert TruthfulCheckpoint(req, original, w.result, Checkpoint(Backup, req.key, BackedUp(backup)));
    var stamp := NewStamp(w, plan);
    RestoreLeaves(backup, w.node, w.artifact, expected, stamp, original, req.path);
    var r := RestoreBackup(backup, w.node, w.artifact, Some(expected), false, stamp);
    hide RestoreBackup, Inv, VerdictOf, PlannedBackup, SameData;
    if r.Restored? { WrittenKeepsInv(req, original, w, r.node, plan); }
  }

  // A restore writes nothing but the before-state.
  lemma ActionRestores(req: Request, original: Node, w: World, backup: FileBackup, expected: Snapshot, plan: Plan)
    requires Inv(req, original, w) && w.phase == Recovering && VerdictOf(req, w) == Restore(backup, expected)
    ensures backup.Valid()
    ensures var o := RunAction(req, w, backup, expected, plan);
            && Inv(req, original, o.world)
            && o.world.result == w.result
            && (o.world.node == w.node || SameData(o.world.node, original))
            && (o.world.phase == RecoverySucceeded ==> SameData(o.world.node, original))
            && (o.world.phase == RecoveryFailed && plan.At(RunRestore) != RaisesAfter ==> o.world.node == w.node)
  {
    hide Inv, RestoreBackup, VerdictOf, SameData, Conclude, NewStamp;
    RestoredKeepsInv(req, original, w, backup, expected, plan);
    ConcludeKeepsInv(req, original, w, RecoveryFailed, plan);
    var r := RestoreBackup(backup, w.node, w.artifact, Some(expected), false, NewStamp(w, plan));
    if r.Restored? {
      var restored := w.(node := r.node, tick := w.tick + 1);
      ConcludeKeepsInv(req, original, restored, RecoveryFailed, plan);
      ConcludeKeepsInv(req, original, restored, RecoverySucceeded, plan);
    }
  }

  lemma SucceededMeansBefore(req: Request, original: Node, w: World)
    requires Inv(req, original, w) && w.phase == RecoverySucceeded
    ensures SameData(w.node, original)
  {
  }

  // Every recovery of every driver either leaves the file as it found it or puts the before-state
  // back; it reports success only on the before-state, and a refusal touches nothing.
  lemma RecoveryRestoresOrLeaves(req: Request, original: Node, w: World, driver: Driver, plan: Plan)
    requires Inv(req, original, w)
    ensures var o := Recover(req, w, driver, plan);
            && Inv(req, original, o.world)
            && o.world.result == w.result
            && (o.world.node == w.node || SameData(o.world.node, original))
            && (o.world.phase == RecoverySucceeded ==> SameData(o.world.node, original))
            && (o.world.phase == RecoveryFailed && plan.At(RunRestore) != RaisesAfter ==> o.world.node == w.node)
  {
    hide Inv, VerdictOf, RunAction, Conclude, Prepare, SameData;
    PrepareKeepsInv(req, original, w, driver, plan);
    var ready := Prepare(req, w, driver, plan);
    if ready.world.phase == RecoverySucceeded { SucceededMeansBefore(req, original, ready.world); }
    if ready.Going? {
      var started := ready.world.(phase := Recovering);
      PhaseKeepsInv(req, original, ready.world, Recovering);
      var verdict := VerdictOf(req, started);
      if verdict.Noop? {
        NoopMeansBeforeState(req, original, started);
        ConcludeKeepsInv(req, original, started, RecoverySucceeded, plan);
      } else if verdict.Restore? {
        ActionRestores(req, original, started, verdict.backup, verdict.expectedCurrent, plan);
      } else {
        ConcludeKeepsInv(req, original, started, RecoveryFailed, plan);
      }
    }
  }

  lemma StepKeepsInv(req: Request, original: Node, w: World, event: Event)
    requires Inv(req, original, w)
    ensures Inv(req, original, Step(req, w, event))
  {
    match event
    case Run(plan, _) =>
      if w.phase == Planned { RunKeepsInv(req, original, w, plan); }
      PhaseKeepsInv(req, original, w, RecoveryDesired);
    case Recovery(driver, plan) => RecoveryRestoresOrLeaves(req, original, w, driver, plan);
    case LoseArtifact =>
  }

  lemma {:induction false} HistoryKeepsInv(req: Request, original: Node, tick: nat, events: seq<Event>, states: seq<World>,
                                           k: nat)
    requires IsHistory(req, original, tick, events, states) && k < |states|
    ensures Inv(req, original, states[k])
  {
    if k == 0 {
      InitHolds(req, original, tick);
    } else {
      HistoryKeepsInv(req, original, tick, events, states, k - 1);
      StepKeepsInv(req, original, states[k - 1], events[k - 1]);
    }
  }

  // At every moment of every history the path holds the before-state or exactly what the mutation
  // left, never a third thing; a batch recorded as recovered holds the before-state.
  lemma BeforeStateOrResult(req: Request, original: Node, tick: nat, events: seq<Event>, states: seq<World>, k: nat)
    requires IsHistory(req, original, tick, events, states) && k < |states|
    ensures var w := states[k];
            && (SameData(w.node, original)
                || (w.result == Some(w.node) && IsResult(req, original, w.node, w.tick)))
            && (w.phase == RecoverySucceeded ==> SameData(w.node, original))
  {
    HistoryKeepsInv(req, original, tick, events, states, k);
  }

  // One start and one call of the mutation, however often the request is retried.
  lemma MutationRunsAtMostOnce(req: Request, original: Node, tick: nat, events: seq<Event>, states: seq<World>, k: nat)
    requires IsHistory(req, original, tick, events, states) && k < |states|
    ensures var w := states[k]; w.calls <= w.starts <= 1 && (w.node != original ==> w.calls == 1)
  {
    HistoryKeepsInv(req, original, tick, events, states, k);
  }

  // Write-ahead: by the time the path can differ, the backup of the true before-state and the
  // intended result are already in the journal.
  lemma WriteAhead(req: Request, original: Node, tick: nat, events: seq<Event>, states: seq<World>, k: nat)
    requires IsHistory(req, original, tick, events, states) && k < |states|
    requires req.captureProof && states[k].node != original
    ensures exists b :: Checkpoint(Backup, req.key, BackedUp(b)) in states[k].checkpoints
              && PlannedBackup(TakeSnapshot(req.path, original), original) == Some(b)
    ensures Checkpoint(ExpectedAfter, req.key, Wanted(DesiredOf(req))) in states[k].checkpoints
  {
    HistoryKeepsInv(req, original, tick, events, states, k);
    var w := states[k];
    var c :| c in w.checkpoints && c.kind == Backup;
    assert c == Checkpoint(Backup, req.key, BackedUp(c.payload.backup));
    var d :| d in w.checkpoints && d.kind == ExpectedAfter;
    assert d == Checkpoint(ExpectedAfter, req.key, Wanted(DesiredOf(req)));
  }

  // Whenever some driver concludes that nothing needs undoing, the path holds the before-state; for
  // a file that existed before, the mutation then never took effect at all.
  lemma NoopIsSafe(req: Request, original: Node, tick: nat, events: seq<Event>, states: seq<World>, k: nat)
    requires IsHistory(req, original, tick, events, states) && k < |states| && VerdictOf(req, states[k]) == Noop
    ensures SameData(states[k].node, original)
    ensures original.File? ==> states[k].result.None?
  {
    HistoryKeepsInv(req, original, tick, events, states, k);
    NoopMeansBeforeState(req, original, states[k]);
  }

  predicate TookEffect(original: Node, w: World) {
    w.result.Some? && w.result.value != original
  }

  ghost predicate NoopAlwaysMeansUntouched(req: Request, original: Node, tick: nat) {
    forall events, states, k: nat {:trigger IsHistory(req, original, tick, events, states), states[k]} ::
      IsHistory(req, original, tick, events, states) && k < |states| && VerdictOf(req, states[k]) == Noop
      ==> !TookEffect(original, states[k])
  }

  lemma NoopUntouched(req: Request, original: Node, w: World)
    requires Inv(req, original, w) && VerdictOf(req, w) == Noop
    requires !(original.Absent? && req.mutation.WriteFile? && req.captureProof)
    ensures !TookEffect(original, w)
  {
    NoopMeansBeforeState(req, original, w);
    if original.Absent? && req.mutation.WriteFile? {
      var backup := Latest(w.checkpoints, Backup, req.key, req.path);
      assert backup.None?;
      assert LatestFailure(w).value in w.failures;
    }
  }

  // The journal of a write that created the file and died before its after-checkpoint.
  function CreatedThenCrashed(req: Request, tick: nat): World
    requires req.mutation.WriteFile?
  {
    var before := TakeSnapshot(req.path, Absent);
    var backup := FileBackup(req.path, false, MissingPath, None, None, None, before);
    var file := File(req.mutation.content, req.mutation.permissions.GetOr(DEFAULT_PERMISSIONS), Stamp(0, 0, tick));
    World(file, None, tick + 1, Attempting,
          [Checkpoint(Before, req.key, Observed(before)), Checkpoint(BackupIntent, req.key, BackedUp(backup)),
           Checkpoint(Backup, req.key, BackedUp(backup)), Checkpoint(ExpectedAfter, req.key, Wanted(DesiredOf(req)))],
          [], Some(before), Some(backup), Some(TakeSnapshot(req.path, file)), 1, 1, Some(file), false)
  }

  lemma Performed(req: Request, w: World, stage: Stage, plan: Plan, next: World)
    requires plan.At(stage) == Proceeds
    requires var r := Effect(req, w, stage, plan); r.Some? && r.value == next
    ensures Perform(req, w, stage, plan) == Going(next)
  {
  }

  lemma CreationPrepares(req: Request, tick: nat, plan: Plan)
    requires req.mutation.WriteFile? && req.captureProof && plan == Plan(map[RecordAfter := CrashesBefore], 0, 0)
    ensures var end := CreatedThenCrashed(req, tick);
            var w := Init(Absent, tick).(phase := Attempting, starts := 1, seen := end.seen);
            PerformAll(req, w, PrepareStages(req), plan)
            == Going(w.(checkpoints := end.checkpoints, planned := end.planned))
  {
    var end := CreatedThenCrashed(req, tick);
    var w0 := Init(Absent, tick).(phase := Attempting, starts := 1, seen := end.seen);
    var w1 := w0.(checkpoints := end.checkpoints[..1]);
    var w2 := w1.(checkpoints := end.checkpoints[..2], planned := end.planned);
    var w3 := w2.(checkpoints := end.checkpoints[..3]);
    var w4 := w3.(checkpoints := end.checkpoints);
    var stages := PrepareStages(req);
    Performed(req, w0, RecordBefore, plan, w1);
    Performed(req, w1, RecordIntent, plan, w2);
    Performed(req, w2, PlanCleanup, plan, w2);
    Performed(req, w2, CaptureBackup, plan, w2);
    Performed(req, w2, RecordBackup, plan, w3);
    Performed(req, w3, RecordExpectedAfter, plan, w4);
    hide Perform;
    assert PerformAll(req, w4, stages[6..], plan) == Going(w4);
    assert PerformAll(req, w3, stages[5..], plan) == Going(w4);
    assert PerformAll(req, w2, stages[4..], plan) == Going(w4);
    assert PerformAll(req, w2, stages[3..], plan) == Going(w4);
    assert PerformAll(req, w2, stages[2..], plan) == Going(w4);
    assert PerformAll(req, w1, stages[1..], plan) == Going(w4);
  }

  lemma CreationMutates(req: Request, tick: nat, plan: Plan)
    requires req.mutation.WriteFile? && plan == Plan(map[RecordAfter := CrashesBefore], 0, 0)
    ensures var end := CreatedThenCrashed(req, tick);
            var w := end.(node := Absent, tick := tick, observed := None, calls := 0, result := None);
            CallMutation(req, w, plan) == Crashed(end)
  {
    hide PlannedBackup, CapturedBytes, TakeSnapshot, DesiredOf;
    var end := CreatedThenCrashed(req, tick);
    var called := end.(node := Absent, tick := tick, observed := None, result := None);
    var changed := end.(observed := None);
    Performed(req, called, Mutate, plan, changed);
    Performed(req, changed, TakeAfter, plan, end);
    assert RecordResult(req, end, plan) == Crashed(end);
    hide Perform, RecordResult;
    assert FinishMutation(req, changed, plan) == Crashed(end);
  }

  lemma CreationCrashes(req: Request, tick: nat)
    requires req.mutation.WriteFile? && req.captureProof
    ensures RunMutation(req, Init(Absent, tick), Plan(map[RecordAfter := CrashesBefore], 0, 0))
            == Crashed(CreatedThenCrashed(req, tick))
  {
    hide PlannedBackup, CapturedBytes, TakeSnapshot, DesiredOf, CallMutation, PerformAll;
    var plan := Plan(map[RecordAfter := CrashesBefore], 0, 0);
    var end := CreatedThenCrashed(req, tick);
    var init := Init(Absent, tick);
    var started := init.(phase := Attempting, starts := 1);
    var w0 := started.(seen := end.seen);
    var w4 := w0.(checkpoints := end.checkpoints, planned := end.planned);
    CreationPrepares(req, tick, plan);
    CreationMutates(req, tick, plan);
    assert w4 == end.(node := Absent, tick := tick, observed := None, calls := 0, result := None);
    Performed(req, init, Start, plan, started);
    Performed(req, started, TakeBefore, plan, w0);
    Performed(req, w4, CheckAuthority, plan, w4);
    hide Perform, CreatedThenCrashed;
    assert PrepareMutation(req, w0, plan) == Crashed(end);
  }

  function ReplayFailure(req: Request, node: Node): FailurePayload {
    FailurePayload(Some("workspace_recovery_replay"), Some(TakeSnapshot(req.path, node)), None)
  }

  lemma CreationLatest(req: Request, tick: nat)
    requires req.mutation.WriteFile? && req.captureProof
    ensures var c := CreatedThenCrashed(req, tick).checkpoints;
            && Latest(c, Before, req.key, req.path) == Some(Observed(TakeSnapshot(req.path, Absent)))
            && Latest(c, Backup, req.key, req.path) == Some(BackedUp(CreatedThenCrashed(req, tick).planned.value))
            && Latest(c, ExpectedAfter, req.key, req.path) == Some(Wanted(DesiredOf(req)))
            && Latest(c, After, req.key, req.path) == None
            && Latest(c, Failure, req.key, req.path) == None
  {
    hide Latest;
    var c := CreatedThenCrashed(req, tick).checkpoints;
    LatestIs(c, 0, Before, req.key, req.path);
    LatestIs(c, 2, Backup, req.key, req.path);
    LatestIs(c, 3, ExpectedAfter, req.key, req.path);
  }

  lemma CreationVerdicts(req: Request, tick: nat, w: World)
    requires req.mutation.WriteFile? && req.captureProof
    requires w.checkpoints == CreatedThenCrashed(req, tick).checkpoints && w.failures != []
    ensures var end := CreatedThenCrashed(req, tick);
            var failure := w.failures[|w.failures| - 1];
            && (failure == ReplayFailure(req, end.node) ==>
                  VerdictOf(req, w) == Restore(end.planned.value, TakeSnapshot(req.path, end.node)))
            && (failure == ReplayFailure(req, Absent) ==> VerdictOf(req, w) == Noop)
  {
    hide Latest;
    CreationLatest(req, tick);
    var end := CreatedThenCrashed(req, tick);
    var failure := LatestFailure(w);
    if failure == Some(ReplayFailure(req, end.node)) {
      assert MatchesDesired(failure.value.snapshot.value, DesiredOf(req));
    }
  }

  // A replay removes the created file and dies before saying so.
  lemma CreationUndone(req: Request, tick: nat)
    requires req.mutation.WriteFile? && req.captureProof
    ensures var w := CreatedThenCrashed(req, tick);
            Recover(req, w, WorkspaceReplay, Plan(map[RecordOutcome := CrashesBefore], 0, 0))
            == Crashed(w.(node := Absent, tick := w.tick + 1, phase := Recovering, failures := [ReplayFailure(req, w.node)]))
  {
    var w := CreatedThenCrashed(req, tick);
    var plan := Plan(map[RecordOutcome := CrashesBefore], 0, 0);
    var ready := Desire(w, ReplayFailure(req, w.node));
    assert ready.failures == [ReplayFailure(req, w.node)];
    assert Prepare(req, w, WorkspaceReplay, plan) == Going(ready);
    var started := ready.(phase := Recovering);
    CreationVerdicts(req, tick, started);
    hide VerdictOf;
    var backup := w.planned.value;
    var expected := TakeSnapshot(req.path, w.node);
    assert RestoreBackup(backup, w.node, w.artifact, Some(expected), false, NewStamp(started, plan))
           == Restored(Absent, true);
    assert RunAction(req, started, backup, expected, plan)
           == Crashed(started.(node := Absent, tick := w.tick + 1));
  }

  function UndoneThenCrashed(req: Request, tick: nat): World
    requires req.mutation.WriteFile?
  {
    var w := CreatedThenCrashed(req, tick);
    w.(node := Absent, tick := w.tick + 1, phase := Recovering, failures := [ReplayFailure(req, w.node)])
  }

  lemma ReplayAgain(req: Request, tick: nat)
    requires req.mutation.WriteFile? && req.captureProof
    ensures var w := UndoneThenCrashed(req, tick);
            Recover(req, w, WorkspaceReplay, Plan(map[StartRecovery := CrashesBefore], 0, 0))
            == Crashed(Desire(w, ReplayFailure(req, Absent)))
  {
    var w := UndoneThenCrashed(req, tick);
    hide VerdictOf;
    assert Prepare(req, w, WorkspaceReplay, Plan(map[StartRecovery := CrashesBefore], 0, 0))
           == Going(Desire(w, ReplayFailure(req, Absent)));
  }

  lemma CreationHistory(req: Request, tick: nat) returns (events: seq<Event>, states: seq<World>)
    requires req.mutation.WriteFile? && req.captureProof
    ensures IsHistory(req, Absent, tick, events, states) && |states| == 4
    ensures states[3] == Desire(UndoneThenCrashed(req, tick), ReplayFailure(req, Absent))
  {
    CreationCrashes(req, tick);
    CreationUndone(req, tick);
    ReplayAgain(req, tick);
    hide RunMutation, VerdictOf, Recover, CreatedThenCrashed;
    var s1, s2 := CreatedThenCrashed(req, tick), UndoneThenCrashed(req, tick);
    events := [
      Run(Plan(map[RecordAfter := CrashesBefore], 0, 0), false),
      Recovery(WorkspaceReplay, Plan(map[RecordOutcome := CrashesBefore], 0, 0)),
      Recovery(WorkspaceReplay, Plan(map[StartRecovery := CrashesBefore], 0, 0))];
    states := [Init(Absent, tick), s1, s2, Desire(s2, ReplayFailure(req, Absent))];
  }

  // The next replay sees the path missing again and calls it untouched.
  lemma CreationCalledUntouched(req: Request, tick: nat)
    requires req.mutation.WriteFile? && req.captureProof
    ensures !NoopAlwaysMeansUntouched(req, Absent, tick)
  {
    var events, states := CreationHistory(req, tick);
    CreationVerdicts(req, tick, states[3]);
    assert TookEffect(Absent, states[3]);
    hide VerdictOf, IsHistory, TookEffect;
    assert VerdictOf(req, states[3]) == Noop;
  }

  // "Noop" means the mutation never took effect in every history exactly when the request is not a
  // protected write to a missing path. (It is always safe: see NoopIsSafe.)
  lemma NoopMeansUntouchedIff(req: Request, original: Node, tick: nat)
    requires InodeBelow(original, tick)
    ensures NoopAlwaysMeansUntouched(req, original, tick)
            <==> !(original.Absent? && req.mutation.WriteFile? && req.captureProof)
  {
    if original.Absent? && req.mutation.WriteFile? && req.captureProof {
      CreationCalledUntouched(req, tick);
    } else {
      forall events, states, k: nat {:trigger IsHistory(req, original, tick, events, states), states[k]}
        | IsHistory(req, original, tick, events, states) && k < |states| && VerdictOf(req, states[k]) == Noop
        ensures !TookEffect(original, states[k])
      {
        HistoryKeepsInv(req, original, tick, events, states, k);
        NoopUntouched(req, original, states[k]);
      }
    }
  }
}
