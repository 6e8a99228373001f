/**
  How a journaled write or delete ends when nothing disturbs it, and what a run that only meets
  exceptions leaves behind (operation_journal/filesystem_mutations.py, filesystem_failure_records.py).
*/
module FileMutationOutcomes {
  import opened Wrappers
  import opened Snapshots
  import opened Backups
  import opened FileRecoveryPlanning
  import opened FileMutation
  import opened Steps
  import opened FileMutationSafety
  import opened FileMutationProgress

  // A write needs a file or nothing at the path; a removal needs a file, or may find nothing if that is fine.
  predicate Possible(mutation: Mutation, node: Node) {
    match mutation
    case WriteFile(_, _, _) => node.Absent? || node.File?
    case RemoveFile(missingOk) => node.File? || (node.Absent? && missingOk)
  }

  // The file a write leaves has the permissions asked for, else those it had, else the owner's only.
  function Finally(mutation: Mutation, node: Node, stamp: Stamp): Node {
    match mutation
    case RemoveFile(_) => Absent
    case WriteFile(content, permissions, _) =>
      File(content,
           if permissions.Some? then permissions.value else if node.File? then node.permissions else 0x180,
           stamp)
  }

  // The backup that describes a path nothing or a file is at.
  function BackupOf(path: string, node: Node): FileBackup {
    if node.File? then
      FileBackup(path, true, RegularFile, Some(Sha256(node.content)), Some(|node.content|), Some(node.permissions),
                 TakeSnapshot(path, node))
    else
      FileBackup(path, false, MissingPath, None, None, None, TakeSnapshot(path, node))
  }

  // What is in the journal by the time the mutation is called.
  function Beforehand(req: Request, node: Node): seq<Checkpoint> {
    var before := Checkpoint(Before, req.key, Observed(TakeSnapshot(req.path, node)));
    if req.captureProof then
      [before,
       Checkpoint(BackupIntent, req.key, BackedUp(BackupOf(req.path, node))),
       Checkpoint(Backup, req.key, BackedUp(BackupOf(req.path, node))),
       Checkpoint(ExpectedAfter, req.key,
                  Wanted(match req.mutation
                         case WriteFile(content, _, _) => DesiredFile(req.path, |content|, Sha256(content))
                         case RemoveFile(_) => DesiredMissing(req.path)))]
    else [before]
  }

  lemma PlannedBackupIs(path: string, node: Node)
    ensures PlannedBackup(TakeSnapshot(path, node), node)
            == if node.File? || node.Absent? then Some(BackupOf(path, node)) else None
  {
  }

  // The world when the preparing stages are through.
  function Ready(req: Request, w: World): World {
    if req.captureProof then
      w.(checkpoints := Beforehand(req, w.node), planned := Some(BackupOf(req.path, w.node)),
         artifact := if w.node.File? then Some(w.node.content) else w.artifact)
    else w.(checkpoints := Beforehand(req, w.node))
  }

  predicate Begun(req: Request, w: World) {
    w.phase == Attempting && w.checkpoints == [] && w.failures == [] && w.seen == Some(TakeSnapshot(req.path, w.node))
  }

  lemma StagesGoOn(req: Request, w: World, stages: seq<Stage>, plan: Plan, next: World)
    requires stages != [] && Perform(req, w, stages[0], plan) == Going(next)
    ensures PerformAll(req, w, stages, plan) == PerformAll(req, next, stages[1..], plan)
  {
  }

  lemma NoStagesLeft(req: Request, w: World, plan: Plan)
    ensures PerformAll(req, w, [], plan) == Going(w)
  {
  }

  lemma BytesAreRead(path: string, node: Node)
    requires node.File?
    ensures CapturedBytes(TakeSnapshot(path, node), node) == Some(node.content)
  {
  }

  lemma PreparesUnprotected(req: Request, w: World, plan: Plan)
    requires plan.faults == map[] && Begun(req, w) && !req.captureProof
    ensures PerformAll(req, w, PrepareStages(req), plan) == Going(Ready(req, w))
  {
    hide TakeSnapshot;
    var stages := PrepareStages(req);
    Performed(req, w, RecordBefore, plan, Ready(req, w));
    hide Perform, PerformAll;
    StagesGoOn(req, w, stages, plan, Ready(req, w));
    assert stages[1..] == [];
    NoStagesLeft(req, Ready(req, w), plan);
  }

  // The protected stages, one world after another.
  function Protecting(req: Request, w: World, k: nat): World {
    var c, backup := Beforehand(req, w.node), Some(BackupOf(req.path, w.node));
    var kept := w.(planned := backup, artifact := if w.node.File? then Some(w.node.content) else w.artifact);
    if |c| != 4 || k == 0 then w
    else if k == 1 then w.(checkpoints := c[..1])
    else if k == 2 || k == 3 then w.(checkpoints := c[..2], planned := backup)
    else if k == 4 then kept.(checkpoints := c[..2])
    else if k == 5 then kept.(checkpoints := c[..3])
    else kept.(checkpoints := c)
  }

  lemma ProtectingStep(req: Request, w: World, k: nat, plan: Plan)
    requires plan.faults == map[] && Begun(req, w) && req.captureProof && (w.node.File? || w.node.Absent?) && k < 6
    ensures Perform(req, Protecting(req, w, k), PrepareStages(req)[k], plan) == Going(Protecting(req, w, k + 1))
  {
    PlannedBackupIs(req.path, w.node);
    if w.node.File? { BytesAreRead(req.path, w.node); }
    hide TakeSnapshot, PlannedBackup, CapturedBytes, BackupOf;
    Performed(req, Protecting(req, w, k), PrepareStages(req)[k], plan, Protecting(req, w, k + 1));
  }

  lemma {:induction false} ProtectingFrom(req: Request, w: World, k: nat, plan: Plan)
    requires plan.faults == map[] && Begun(req, w) && req.captureProof && (w.node.File? || w.node.Absent?) && k <= 6
    ensures PerformAll(req, Protecting(req, w, k), PrepareStages(req)[k..], plan) == Going(Protecting(req, w, 6))
    decreases 6 - k
  {
    hide Perform, PerformAll, Protecting;
    var stages := PrepareStages(req)[k..];
    if k == 6 {
      assert stages == [];
      NoStagesLeft(req, Protecting(req, w, 6), plan);
    } else {
      ProtectingStep(req, w, k, plan);
      StagesGoOn(req, Protecting(req, w, k), stages, plan, Protecting(req, w, k + 1));
      assert stages[1..] == PrepareStages(req)[k + 1..];
      ProtectingFrom(req, w, k + 1, plan);
    }
  }

  lemma PreparesProtected(req: Request, w: World, plan: Plan)
    requires plan.faults == map[] && Begun(req, w) && req.captureProof && (w.node.File? || w.node.Absent?)
    ensures PerformAll(req, w, PrepareStages(req), plan) == Going(Ready(req, w))
  {
    ProtectingFrom(req, w, 0, plan);
    assert PrepareStages(req)[0..] == PrepareStages(req);
    assert Protecting(req, w, 6) == Ready(req, w);
  }

  // A backup is planned only of a file or of nothing.
  lemma PreparingRefusesOthers(req: Request, w: World, plan: Plan)
    requires plan.faults == map[] && Begun(req, w) && req.captureProof && !(w.node.File? || w.node.Absent?)
    ensures PerformAll(req, w, PrepareStages(req), plan) == Raised(w.(checkpoints := Beforehand(req, w.node)[..1]), false)
  {
    var w1 := w.(checkpoints := Beforehand(req, w.node)[..1]);
    PlannedBackupIs(req.path, w.node);
    hide TakeSnapshot, PlannedBackup;
    Performed(req, w, RecordBefore, plan, w1);
    var stages := PrepareStages(req);
    assert Perform(req, w1, stages[1], plan) == Raised(w1, false);
    hide Perform;
    assert PerformAll(req, w1, stages[1..], plan) == Raised(w1, false);
    StagesGoOn(req, w, stages, plan, w1);
  }

  // An undisturbed failure record: what the path holds, and the wish to be recovered.
  lemma FailureIsRecorded(req: Request, w: World, stage: Option<string>, plan: Plan)
    requires plan.faults == map[] && w.phase == Attempting
    ensures var s := TakeSnapshot(req.path, w.node);
            RecordMutationFailure(req, w, stage, plan)
            == Going(w.(phase := RecoveryDesired,
                        checkpoints := w.checkpoints + [Checkpoint(Failure, req.key, Observed(s))],
                        failures := w.failures + [FailurePayload(stage, Some(s), None)]))
  {
    hide TakeSnapshot;
  }

  lemma MutationGoesOn(req: Request, w: World, plan: Plan)
    requires plan.faults == map[] && Possible(req.mutation, w.node)
    ensures var node := Finally(req.mutation, w.node, Stamp(plan.mtime, plan.device, w.tick));
            Perform(req, w, Mutate, plan) == Going(w.(node := node, tick := w.tick + 1, result := Some(node)))
  {
  }

  lemma FinishSucceeds(req: Request, w: World, plan: Plan)
    requires plan.faults == map[] && w.phase == Attempting
    ensures var after := TakeSnapshot(req.path, w.node);
            FinishMutation(req, w, plan)
            == Going(w.(observed := Some(after), phase := Succeeded,
                        checkpoints := w.checkpoints + [Checkpoint(After, req.key, Observed(after))]))
  {
    hide TakeSnapshot;
    var after := TakeSnapshot(req.path, w.node);
    var seen := w.(observed := Some(after));
    var recorded := seen.(checkpoints := w.checkpoints + [Checkpoint(After, req.key, Observed(after))]);
    Performed(req, w, TakeAfter, plan, seen);
    Performed(req, seen, RecordAfter, plan, recorded);
    Performed(req, recorded, MarkSucceeded, plan, recorded.(phase := Succeeded));
    hide Perform;
  }

  // From the call of the mutation on.
  lemma CallSucceeds(req: Request, w: World, plan: Plan)
    requires plan.faults == map[] && w.phase == Attempting && Possible(req.mutation, w.node)
    ensures var node := Finally(req.mutation, w.node, Stamp(plan.mtime, plan.device, w.tick));
            var after := TakeSnapshot(req.path, node);
            CallMutation(req, w, plan)
            == Going(w.(calls := w.calls + 1, node := node, tick := w.tick + 1, result := Some(node), observed := Some(after),
                        checkpoints := w.checkpoints + [Checkpoint(After, req.key, Observed(after))], phase := Succeeded))
  {
    hide TakeSnapshot, Finally, Perform, FinishMutation;
    var called := w.(calls := w.calls + 1);
    MutationGoesOn(req, called, plan);
    FinishSucceeds(req, Perform(req, called, Mutate, plan).world, plan);
  }

  lemma CallFails(req: Request, w: World, plan: Plan)
    requires plan.faults == map[] && w.phase == Attempting && !Possible(req.mutation, w.node)
    ensures var called := w.(calls := w.calls + 1);
            CallMutation(req, w, plan) == Reraised(RecordMutationFailure(req, called, None, plan))
  {
    hide RecordMutationFailure;
  }

  // An undisturbed call succeeds exactly when the path allows the mutation. It then leaves just what was
  // asked for, the whole evidence in the journal, and the batch succeeded; otherwise it leaves the path
  // alone and one failure record that shows it.
  lemma UndisturbedRunSucceedsIff(req: Request, original: Node, tick: nat, mtime: nat, device: nat)
    ensures var o := RunMutation(req, Init(original, tick), Undisturbed(mtime, device));
            var w := o.world;
            && (o.Going? <==> Possible(req.mutation, original))
            && w.starts == 1
            && (o.Going? ==>
                  && w.phase == Succeeded && w.failures == [] && w.calls == 1
                  && w.node == Finally(req.mutation, original, Stamp(mtime, device, tick)) && w.result == Some(w.node)
                  && w.checkpoints == Beforehand(req, original)
                                      + [Checkpoint(After, req.key, Observed(TakeSnapshot(req.path, w.node)))]
                  && (req.captureProof && original.File? ==> w.artifact == Some(original.content)))
            && (!o.Going? ==>
                  && o.Raised? && w.phase == RecoveryDesired && w.node == original && w.result.None?
                  && |w.failures| == 1 && w.failures[0].snapshot == Some(TakeSnapshot(req.path, original))
                  && w.failures[0].after.None?
                  && w.failures[0].stage == if req.captureProof && !(original.File? || original.Absent?)
                                            then Some("prepare_checkpoints") else None)
  {
    var plan, init := Undisturbed(mtime, device), Init(original, tick);
    var started := init.(phase := Attempting, starts := 1);
    var begun := started.(seen := Some(TakeSnapshot(req.path, original)));
    hide TakeSnapshot;
    Performed(req, init, Start, plan, started);
    Performed(req, started, TakeBefore, plan, begun);
    assert RunMutation(req, init, plan) == PrepareMutation(req, begun, plan) by { hide Perform, PrepareMutation; }
    hide RunMutation;
    if req.captureProof && !(original.File? || original.Absent?) {
      PreparingRefusesOthers(req, begun, plan);
      FailureIsRecorded(req, begun.(checkpoints := Beforehand(req, original)[..1]), Some(PREPARE_CHECKPOINTS), plan);
      hide PerformAll, RecordMutationFailure, Perform, Beforehand;
    } else if Possible(req.mutation, original) {
      hide PrepareMutation, CallMutation, Beforehand;
      PreparedGoesOn(req, begun, plan);
      CallSucceeds(req, Ready(req, begun), plan);
    } else {
      hide PrepareMutation, Beforehand;
      PreparedFails(req, begun, plan);
    }
  }

  lemma PreparedGoesOn(req: Request, w: World, plan: Plan)
    requires plan.faults == map[] && Begun(req, w) && (req.captureProof ==> w.node.File? || w.node.Absent?)
    ensures PrepareMutation(req, w, plan) == CallMutation(req, Ready(req, w), plan)
  {
    if req.captureProof { PreparesProtected(req, w, plan); } else { PreparesUnprotected(req, w, plan); }
    var ready := Ready(req, w);
    hide TakeSnapshot, PerformAll, Beforehand, BackupOf, Ready, CallMutation;
    Performed(req, ready, CheckAuthority, plan, ready);
    hide Perform;
  }

  lemma PreparedFails(req: Request, w: World, plan: Plan)
    requires plan.faults == map[] && Begun(req, w) && (req.captureProof ==> w.node.File? || w.node.Absent?)
    requires !Possible(req.mutation, w.node)
    ensures var s := TakeSnapshot(req.path, w.node);
            PrepareMutation(req, w, plan)
            == Raised(Ready(req, w).(calls := w.calls + 1, phase := RecoveryDesired,
                        checkpoints := Beforehand(req, w.node) + [Checkpoint(Failure, req.key, Observed(s))],
                        failures := [FailurePayload(None, Some(s), None)]), false)
  {
    hide TakeSnapshot, Beforehand, BackupOf, PrepareMutation, CallMutation, RecordMutationFailure;
    PreparedGoesOn(req, w, plan);
    var ready := Ready(req, w);
    CallFails(req, ready, plan);
    FailureIsRecorded(req, ready.(calls := w.calls + 1), None, plan);
    var failure := FailurePayload(None, Some(TakeSnapshot(req.path, w.node)), None);
    assert w.failures + [failure] == [failure];
  }

  // ---- Runs that meet exceptions but do not die ----

  // No step dies, and a failure can be noted: the lease may be lost, the marker gets through.
  ghost predicate OnlyExceptions(plan: Plan) {
    && (forall stage: Stage :: plan.At(stage) !in {CrashesBefore, CrashesAfter})
    && plan.At(FailureSnapshotStage) == Proceeds && plan.At(LeaseLostMarker) == Proceeds
    && (forall stage: Stage :: stage in {FailureCheckpoint, MarkFailed, RecordDesired} ==> plan.At(stage) in {Proceeds, LosesLease})
  }

  predicate Underway(w: World) {
    w.phase == Attempting && w.failures == []
  }

  predicate SawThePath(failure: FailurePayload) {
    failure.snapshot.Some? || failure.after.Some?
  }

  // What such a run ends with: success, or the wish to be recovered with one record that saw the path.
  // An exception raised after the batch was marked succeeded leaves it succeeded.
  predicate EndsTold(plan: Plan, o: Outcome<World>) {
    if o.Going? then o.world.phase == Succeeded && o.world.failures == []
    else
      && o.Raised?
      && (|| (o.world.phase == RecoveryDesired && |o.world.failures| == 1 && SawThePath(o.world.failures[0]))
          || (plan.At(MarkSucceeded) == RaisesAfter && o.world.phase == Succeeded && o.world.failures == []))
  }

  lemma FailingIsTold(req: Request, w: World, failure: FailurePayload, plan: Plan)
    requires OnlyExceptions(plan) && Underway(w)
    ensures var o := FailAndDesire(req, w, failure, plan);
            o.Going? && o.world.phase == RecoveryDesired && o.world.failures == [failure]
    ensures var o := MarkLeaseLost(w, failure, plan);
            o.Going? && o.world.phase == RecoveryDesired && o.world.failures == [failure]
  {
    assert w.failures + [failure] == [failure];
  }

  lemma MutationFailureIsTold(req: Request, w: World, stage: Option<string>, plan: Plan)
    requires OnlyExceptions(plan) && Underway(w)
    ensures EndsTold(plan, Reraised(RecordMutationFailure(req, w, stage, plan)))
  {
    var s := TakeSnapshot(req.path, w.node);
    hide TakeSnapshot, FailAndDesire, MarkLeaseLost, OnlyExceptions;
    var failure := FailurePayload(stage, Some(s), None);
    assert plan.At(FailureSnapshotStage) == Proceeds && plan.At(FailureCheckpoint) in {Proceeds, LosesLease} by { FaultsOf(plan); }
    var noted := Attempt(w, Append(req, w, Failure, Observed(s)), plan.At(FailureCheckpoint));
    FailingIsTold(req, noted.world, failure, plan);
  }

  lemma FaultsOf(plan: Plan)
    requires OnlyExceptions(plan)
    ensures plan.At(FailureSnapshotStage) == Proceeds && plan.At(FailureCheckpoint) in {Proceeds, LosesLease}
  {
  }

  lemma LateFailureIsTold(req: Request, w: World, after: Option<Snapshot>, stage: string, plan: Plan)
    requires OnlyExceptions(plan) && Underway(w)
    ensures EndsTold(plan, Reraised(RecordPostMutationFailure(req, w, after, stage, plan)))
  {
    var s := Some(TakeSnapshot(req.path, w.node));
    FaultsOf(plan);
    hide TakeSnapshot, FailAndDesire, OnlyExceptions;
    FailingIsTold(req, w, FailurePayload(Some(stage), None, after), plan);
    FailingIsTold(req, w, FailurePayload(Some(stage), None, s), plan);
  }

  lemma StepStaysUnderway(req: Request, w: World, stage: Stage, plan: Plan)
    requires OnlyExceptions(plan) && Underway(w) && stage !in {Start, MarkSucceeded, MarkFailed}
    ensures var o := Perform(req, w, stage, plan); !o.Crashed? && Underway(o.world)
  {
    hide TakeSnapshot, PlannedBackup, CapturedBytes, Mutated;
  }

  lemma {:induction false} StepsStayUnderway(req: Request, w: World, stages: seq<Stage>, plan: Plan)
    requires OnlyExceptions(plan) && Underway(w) && forall s :: s in stages ==> s !in {Start, MarkSucceeded, MarkFailed}
    ensures var o := PerformAll(req, w, stages, plan); !o.Crashed? && Underway(o.world)
    decreases |stages|
  {
    hide Perform, OnlyExceptions, Underway;
    if stages != [] {
      assert stages[0] in stages && forall s :: s in stages[1..] ==> s in stages;
      StepStaysUnderway(req, w, stages[0], plan);
      var first := Perform(req, w, stages[0], plan);
      if first.Going? { StepsStayUnderway(req, first.world, stages[1..], plan); }
    }
  }

  lemma MarkingSucceeds(req: Request, w: World, plan: Plan)
    requires OnlyExceptions(plan) && Underway(w)
    ensures var o := Perform(req, w, MarkSucceeded, plan);
            && !o.Crashed?
            && (o.Going? ==> EndsTold(plan, o))
            && (!o.Going? ==> (Underway(o.world) && o.world.phase != Succeeded)
                              || (plan.At(MarkSucceeded) == RaisesAfter && o.world.phase == Succeeded && o.world.failures == []))
  {
  }

  lemma SucceededStays(req: Request, w: World, after: Option<Snapshot>, stage: string, plan: Plan)
    requires OnlyExceptions(plan) && w.phase == Succeeded && w.failures == [] && plan.At(MarkSucceeded) == RaisesAfter
    ensures EndsTold(plan, Reraised(RecordPostMutationFailure(req, w, after, stage, plan)))
  {
    hide TakeSnapshot;
  }

  lemma FinishIsTold(req: Request, w: World, plan: Plan)
    requires OnlyExceptions(plan) && Underway(w)
    ensures EndsTold(plan, FinishMutation(req, w, plan))
  {
    hide Perform, RecordPostMutationFailure, OnlyExceptions, Underway, EndsTold;
    var after := Perform(req, w, TakeAfter, plan);
    StepStaysUnderway(req, w, TakeAfter, plan);
    LateFailureIsTold(req, after.world, None, "after_snapshot", plan);
    var recorded := Perform(req, after.world, RecordAfter, plan);
    StepStaysUnderway(req, after.world, RecordAfter, plan);
    LateFailureIsTold(req, recorded.world, after.world.observed, "after_checkpoint", plan);
    var marked := Perform(req, recorded.world, MarkSucceeded, plan);
    MarkingSucceeds(req, recorded.world, plan);
    if !marked.Going? {
      if marked.world.phase == Succeeded { SucceededStays(req, marked.world, after.world.observed, "mark_succeeded", plan); }
      else { LateFailureIsTold(req, marked.world, after.world.observed, "mark_succeeded", plan); }
    }
  }

  // What was seen after the mutation is noted with an exception that comes later, and no second look is
  // needed: the record is the same however looking would end.
  lemma LateExceptionKeepsWhatWasSeen(req: Request, w: World, plan: Plan)
    requires Underway(w) && plan.At(TakeAfter) == Proceeds && plan.At(MarkFailed) == Proceeds && plan.At(RecordDesired) == Proceeds
    requires || plan.At(RecordAfter) in {RaisesBefore, RaisesAfter}
             || (plan.At(RecordAfter) == Proceeds && plan.At(MarkSucceeded) == RaisesBefore)
    ensures var o := FinishMutation(req, w, plan);
            var stage := if plan.At(RecordAfter) == Proceeds then "mark_succeeded" else "after_checkpoint";
            && o.Raised? && o.world.phase == RecoveryDesired && o.world.node == w.node
            && o.world.failures == [FailurePayload(Some(stage), None, Some(TakeSnapshot(req.path, w.node)))]
  {
    hide TakeSnapshot, RecordPostMutationFailure;
    var after := TakeSnapshot(req.path, w.node);
    forall x: World | Underway(x) { SeenIsNoted(req, x, after, "after_checkpoint", plan); }
    forall x: World | Underway(x) { SeenIsNoted(req, x, after, "mark_succeeded", plan); }
  }

  lemma SeenIsNoted(req: Request, w: World, after: Snapshot, stage: string, plan: Plan)
    requires Underway(w) && plan.At(MarkFailed) == Proceeds && plan.At(RecordDesired) == Proceeds
    ensures RecordPostMutationFailure(req, w, Some(after), stage, plan)
            == Going(w.(phase := RecoveryDesired, failures := [FailurePayload(Some(stage), None, Some(after))]))
  {
    var failure := FailurePayload(Some(stage), None, Some(after));
    assert w.failures + [failure] == [failure];
  }

  // A failure can be noted as if nothing had happened.
  predicate Notes(plan: Plan) {
    && plan.At(FailureSnapshotStage) == Proceeds && plan.At(FailureCheckpoint) == Proceeds
    && plan.At(MarkFailed) == Proceeds && plan.At(RecordDesired) == Proceeds
  }

  lemma NotedFailureIs(req: Request, w: World, stage: Option<string>, plan: Plan)
    requires Notes(plan) && Underway(w)
    ensures var s := TakeSnapshot(req.path, w.node);
            RecordMutationFailure(req, w, stage, plan)
            == Going(w.(phase := RecoveryDesired,
                        checkpoints := w.checkpoints + [Checkpoint(Failure, req.key, Observed(s))],
                        failures := [FailurePayload(stage, Some(s), None)]))
  {
    hide TakeSnapshot;
    assert forall f: FailurePayload :: [] + [f] == [f];
  }

  // Where even looking at the path fails, the failure is noted without a snapshot.
  lemma FailedLookIsNoted(req: Request, w: World, stage: Option<string>, plan: Plan)
    requires Underway(w) && plan.At(FailureSnapshotStage) in {RaisesBefore, RaisesAfter, LosesLease}
    requires plan.At(MarkFailed) == Proceeds && plan.At(RecordDesired) == Proceeds
    ensures RecordMutationFailure(req, w, stage, plan)
            == Going(w.(phase := RecoveryDesired, failures := [FailurePayload(stage, None, None)]))
  {
    assert forall f: FailurePayload :: [] + [f] == [f];
  }

  // An exception of a preparing step is noted as such, with what the path holds.
  lemma PreparingExceptionIsNoted(req: Request, w: World, plan: Plan)
    requires Underway(w) && Notes(plan) && (forall stage: Stage :: plan.At(stage) !in {CrashesBefore, CrashesAfter})
    requires PerformAll(req, w, PrepareStages(req), plan).Raised?
    ensures var o := PrepareMutation(req, w, plan);
            && o.Raised? && o.world.phase == RecoveryDesired && o.world.calls == PerformAll(req, w, PrepareStages(req), plan).world.calls
            && o.world.failures == [FailurePayload(Some("prepare_checkpoints"), Some(TakeSnapshot(req.path, o.world.node)), None)]
  {
    hide TakeSnapshot, PerformAll, RecordMutationFailure;
    StepsGoOnUnderway(req, w, PrepareStages(req), plan);
    NotedFailureIs(req, PerformAll(req, w, PrepareStages(req), plan).world, Some(PREPARE_CHECKPOINTS), plan);
  }

  // One of the authority check or of the mutation, before it changed anything, is noted as no preparing.
  lemma CallingExceptionIsNoted(req: Request, w: World, plan: Plan)
    requires Underway(w) && Notes(plan) && (forall stage: Stage :: plan.At(stage) !in {CrashesBefore, CrashesAfter})
    requires PerformAll(req, w, PrepareStages(req), plan).Going?
    requires plan.At(CheckAuthority) != Proceeds || plan.At(Mutate) in {RaisesBefore, LosesLease}
    ensures var prepared := PerformAll(req, w, PrepareStages(req), plan).world;
            var o := PrepareMutation(req, w, plan);
            && o.Raised? && o.world.phase == RecoveryDesired && o.world.node == prepared.node
            && o.world.failures == [FailurePayload(None, Some(TakeSnapshot(req.path, prepared.node)), None)]
            && o.world.calls == prepared.calls + if plan.At(CheckAuthority) == Proceeds then 1 else 0
  {
    hide TakeSnapshot, PerformAll, RecordMutationFailure, CallMutation;
    StepsGoOnUnderway(req, w, PrepareStages(req), plan);
    var prepared := PerformAll(req, w, PrepareStages(req), plan).world;
    if plan.At(CheckAuthority) == Proceeds { CallRaises(req, prepared, plan); } else { NotedFailureIs(req, prepared, None, plan); }
  }

  lemma CallRaises(req: Request, w: World, plan: Plan)
    requires Underway(w) && Notes(plan) && plan.At(Mutate) in {RaisesBefore, LosesLease}
    ensures var o := CallMutation(req, w, plan);
            && o.Raised? && o.world.phase == RecoveryDesired && o.world.node == w.node && o.world.calls == w.calls + 1
            && o.world.failures == [FailurePayload(None, Some(TakeSnapshot(req.path, w.node)), None)]
  {
    hide TakeSnapshot, RecordMutationFailure, FinishMutation, Mutated;
    NotedFailureIs(req, w.(calls := w.calls + 1), None, plan);
  }

  lemma {:induction false} StepsGoOnUnderway(req: Request, w: World, stages: seq<Stage>, plan: Plan)
    requires Underway(w) && (forall stage: Stage :: plan.At(stage) !in {CrashesBefore, CrashesAfter})
    requires forall s :: s in stages ==> s !in {Start, MarkSucceeded, MarkFailed}
    ensures var o := PerformAll(req, w, stages, plan); !o.Crashed? && Underway(o.world)
    decreases |stages|
  {
    if stages != [] {
      assert stages[0] in stages && forall s :: s in stages[1..] ==> s in stages;
      var first := Perform(req, w, stages[0], plan);
      assert !first.Crashed? && Underway(first.world) by { hide PlannedBackup, CapturedBytes, Mutated, TakeSnapshot; }
      hide Perform;
      if first.Going? { StepsGoOnUnderway(req, first.world, stages[1..], plan); }
    }
  }

  lemma PreparedIsTold(req: Request, w: World, plan: Plan)
    requires OnlyExceptions(plan) && Underway(w)
    ensures EndsTold(plan, PrepareMutation(req, w, plan))
  {
    StepsStayUnderway(req, w, PrepareStages(req), plan);
    var prepared := PerformAll(req, w, PrepareStages(req), plan);
    hide Perform, PerformAll, RecordMutationFailure, FinishMutation, OnlyExceptions, EndsTold;
    MutationFailureIsTold(req, prepared.world, Some(PREPARE_CHECKPOINTS), plan);
    var allowed := Perform(req, prepared.world, CheckAuthority, plan);
    StepStaysUnderway(req, prepared.world, CheckAuthority, plan);
    MutationFailureIsTold(req, allowed.world, None, plan);
    var called := allowed.world.(calls := allowed.world.calls + 1);
    var mutated := Perform(req, called, Mutate, plan);
    StepStaysUnderway(req, called, Mutate, plan);
    MutationFailureIsTold(req, mutated.world, None, plan);
    FinishIsTold(req, mutated.world, plan);
  }

  // A run that is not killed, however many exceptions and lost leases it meets, is never left in doubt:
  // it ends as succeeded, or wanting recovery with one failure record that saw the path.
  lemma ExceptionsAreTold(req: Request, original: Node, tick: nat, plan: Plan)
    requires OnlyExceptions(plan) && plan.At(Start) == Proceeds && plan.At(TakeBefore) == Proceeds
    ensures EndsTold(plan, RunMutation(req, Init(original, tick), plan))
  {
    var init := Init(original, tick);
    var started := init.(phase := Attempting, starts := 1);
    var begun := started.(seen := Some(TakeSnapshot(req.path, original)));
    hide TakeSnapshot;
    Performed(req, init, Start, plan, started);
    Performed(req, started, TakeBefore, plan, begun);
    hide Perform, PrepareMutation, OnlyExceptions;
    PreparedIsTold(req, begun, plan);
  }
}
