/**
  How capturing a directory and putting it back end when nothing disturbs them, and what a capture that
  was cut short can rely on (operation_journal/filesystem_mutations.py,
  captured_directory_recovery_planning.py, captured_directory_recovery_actions.py).
*/
module DirectoryCaptureOutcomes {
  import opened Steps
  import opened Wrappers
  import opened DirectoryCapture

  lemma StagesGoOn(w: World, stages: seq<Stage>, plan: Plan, next: World)
    requires stages != [] && Perform(w, stages[0], plan) == Going(next)
    ensures PerformAll(w, stages, plan) == PerformAll(next, stages[1..], plan)
  {
  }

  lemma StagesStop(w: World, stages: seq<Stage>, plan: Plan)
    requires stages != [] && !Perform(w, stages[0], plan).Going?
    ensures PerformAll(w, stages, plan) == Perform(w, stages[0], plan)
  {
  }

  lemma NoStagesLeft(w: World, plan: Plan)
    ensures PerformAll(w, [], plan) == Going(w)
  {
  }

  lemma UndisturbedStep(w: World, stage: Stage, plan: Plan)
    requires plan.faults == map[]
    ensures var effect := Effect(w, stage, plan);
            Perform(w, stage, plan) == if effect.Some? then Going(effect.value) else Raised(w, false)
  {
    hide Effect;
  }

  lemma ThreeStages(w: World, a: Stage, b: Stage, c: Stage, plan: Plan)
    requires plan.faults == map[]
    ensures var first := Effect(w, a, plan);
            var second := if first.Some? then Effect(first.value, b, plan) else None;
            var third := if second.Some? then Effect(second.value, c, plan) else None;
            PerformAll(w, [a, b, c], plan)
            == if first.None? then Raised(w, false)
               else if second.None? then Raised(first.value, false)
               else if third.None? then Raised(second.value, false)
               else Going(third.value)
  {
    var stages := [a, b, c];
    assert stages[1..] == [b, c] && [b, c][1..] == [c] && [c][1..] == [];
    UndisturbedStep(w, a, plan);
    var first := Effect(w, a, plan);
    hide Perform, Effect, PerformAll;
    if first.None? { StagesStop(w, stages, plan); } else {
      StagesGoOn(w, stages, plan, first.value);
      TwoStages(first.value, b, c, plan);
    }
  }

  lemma TwoStages(w: World, a: Stage, b: Stage, plan: Plan)
    requires plan.faults == map[]
    ensures var first := Effect(w, a, plan);
            var second := if first.Some? then Effect(first.value, b, plan) else None;
            PerformAll(w, [a, b], plan)
            == if first.None? then Raised(w, false)
               else if second.None? then Raised(first.value, false)
               else Going(second.value)
  {
    var stages := [a, b];
    assert stages[1..] == [b] && [b][1..] == [];
    UndisturbedStep(w, a, plan);
    var first := Effect(w, a, plan);
    hide Perform, Effect, PerformAll;
    if first.None? { StagesStop(w, stages, plan); } else {
      StagesGoOn(w, stages, plan, first.value);
      UndisturbedStep(first.value, b, plan);
      var second := Effect(first.value, b, plan);
      if second.None? { StagesStop(first.value, [b], plan); } else {
        StagesGoOn(first.value, [b], plan, second.value);
        NoStagesLeft(second.value, plan);
      }
    }
  }

  // A batch just planned, whatever the two paths hold.
  function PlannedAt(original: Slot, quarantine: Slot): World {
    World(original, quarantine, Planned, None, None, [], false, None, None)
  }

  lemma UndisturbedFailure(w: World, plan: Plan)
    requires plan.faults == map[] && w.phase == Attempting
    ensures var o := RecordFailure(w, plan);
            o.Raised? && o.world.phase == RecoveryDesired && o.world.original == w.original && o.world.quarantine == w.quarantine
  {
  }

  // What an exception of a capture is noted as, when the noting goes through, if need be by the marker of
  // a lost lease: nothing to undo while the
  // directory has not moved, its proof where it is recognizably the one checkpointed, else a human's call.
  lemma ExceptionIsNoted(w: World, plan: Plan)
    requires plan.At(LookAtSource) == Proceeds && plan.At(LookAtQuarantine) == Proceeds
    requires plan.At(MarkFailed) in {Proceeds, LosesLease} && plan.At(RecordDesired) in {Proceeds, LosesLease}
    requires plan.At(LeaseLostMarker) == Proceeds && w.phase == Attempting
    ensures var o := RecordFailure(w, plan);
            var noted := w.(phase := RecoveryDesired);
            o == Raised(
              if w.original != Empty || w.quarantine == Empty then noted
              else if w.seen.Some? && w.token.Some? && w.quarantine == Plain(Dir(w.seen.value.device, w.seen.value.inode, w.token))
              then noted.(restores := w.restores + [Proof(w.seen.value.device, w.seen.value.inode, w.token)])
              else noted.(needsHuman := true),
              false)
  {
  }

  lemma UndisturbedRecording(w: World, plan: Plan)
    requires plan.faults == map[] && w.phase == Attempting && w.quarantine.Plain?
    ensures RecordCapture(w, plan) == Going(w.(phase := Succeeded, captured := Some(ProofOf(w.quarantine.dir))))
  {
    var stages := [RecordCaptured, PlanCleanup, RecordAfter, MarkSucceeded];
    var recorded := w.(captured := Some(ProofOf(w.quarantine.dir)));
    UndisturbedStep(w, RecordCaptured, plan);
    assert stages[1..] == [PlanCleanup, RecordAfter, MarkSucceeded];
    StagesGoOn(w, stages, plan, recorded);
    ThreeStages(recorded, PlanCleanup, RecordAfter, MarkSucceeded, plan);
    hide PerformAll, Perform, FailAndDesire;
  }

  // The rename, and what is recorded of it, once the before-checkpoint is written.
  lemma UndisturbedMove(w: World, plan: Plan)
    requires plan.faults == map[] && w.phase == Attempting
    ensures var o := Capture(w, plan);
            if w.original.Plain? && w.quarantine == Empty then
              var dir := Dir(w.original.dir.device, w.original.dir.inode,
                             if w.original.dir.token.Some? then w.original.dir.token else Some(plan.uuid));
              o == Going(w.(original := Empty, quarantine := Plain(dir), phase := Succeeded,
                            captured := Some(Proof(dir.device, dir.inode, dir.token))))
            else
              && o.Raised? && o.world.phase == RecoveryDesired && o.world.quarantine == w.quarantine
              && o.world.original == TagSlot(w.original, plan.uuid)
  {
    ThreeStages(w, CheckAuthority, TagAgain, Rename, plan);
    var moved := PerformAll(w, [CheckAuthority, TagAgain, Rename], plan);
    hide PerformAll, RecordFailure, RecordCapture;
    if moved.Going? { UndisturbedRecording(moved.world, plan); } else { UndisturbedFailure(moved.world, plan); }
  }

  // An undisturbed capture succeeds exactly when the source is a plain directory and the quarantine path
  // is free. The directory is then there, tagged and recorded as what it is, and gone from its old path;
  // otherwise nothing has moved.
  lemma UndisturbedCaptureIff(original: Slot, quarantine: Slot, uuid: string)
    ensures var o := RunCapture(PlannedAt(original, quarantine), Plan(map[], uuid));
            var w := o.world;
            && (o.Going? <==> original.Plain? && quarantine == Empty)
            && (o.Going? ==>
                  var token := if original.dir.token.Some? then original.dir.token.value else uuid;
                  && w.phase == Succeeded && w.original == Empty
                  && w.quarantine == Plain(Dir(original.dir.device, original.dir.inode, Some(token)))
                  && w.captured == Some(Proof(original.dir.device, original.dir.inode, Some(token)))
                  && w.before == Some(BeforeProof(Some(original.dir), Some(token)))
                  && w.restores == [] && !w.needsHuman)
            && (!o.Going? ==>
                  && o.Raised? && w.phase == RecoveryDesired && w.quarantine == quarantine
                  && w.original == if original.Plain? && original.dir.token.None?
                                   then Plain(Dir(original.dir.device, original.dir.inode, Some(uuid))) else original)
  {
    var w0, plan := PlannedAt(original, quarantine), Plan(map[], uuid);
    TwoStages(w0, Start, TakeBefore, plan);
    var started := PerformAll(w0, [Start, TakeBefore], plan).world;
    hide PerformAll;
    var tagged := TagForBefore(started, plan).world;
    UndisturbedStep(tagged, RecordBefore, plan);
    hide Perform, Capture;
    UndisturbedMove(tagged.(before := Some(BeforeProof(tagged.seen, tagged.token))), plan);
  }

  // A source that cannot be tagged for the before-checkpoint is captured all the same if it can be tagged
  // when it is to be moved; the before-checkpoint then has no token to name it by.
  lemma UntaggedCaptureGoesOn(original: Slot, uuid: string, fault: Fault)
    requires original.Plain? && fault in {RaisesBefore, RaisesAfter, LosesLease}
    ensures var o := RunCapture(PlannedAt(original, Empty), Plan(map[TagSource := fault], uuid));
            var dir := Dir(original.dir.device, original.dir.inode,
                           if original.dir.token.Some? then original.dir.token else Some(uuid));
            && o.Going? && o.world.phase == Succeeded && o.world.original == Empty && o.world.quarantine == Plain(dir)
            && o.world.captured == Some(Proof(dir.device, dir.inode, dir.token))
            && o.world.before == Some(BeforeProof(Some(original.dir), None))
  {
    var plan, quiet := Plan(map[TagSource := fault], uuid), Plan(map[], uuid);
    var w0 := PlannedAt(original, Empty);
    var stages := [Start, TakeBefore];
    assert stages[1..] == [TakeBefore] && [TakeBefore][1..] == [];
    var started := w0.(phase := Attempting, seen := Some(original.dir));
    StagesGoOn(w0, stages, plan, w0.(phase := Attempting));
    StagesGoOn(w0.(phase := Attempting), [TakeBefore], plan, started);
    NoStagesLeft(started, plan);
    assert PerformAll(w0, stages, plan) == Going(started);
    hide PerformAll;
    var tagged := TagForBefore(started, plan).world;
    var recorded := tagged.(before := Some(BeforeProof(Some(original.dir), None)));
    assert Perform(tagged, RecordBefore, plan) == Going(recorded);
    hide Perform;
    SameCapture(recorded, plan, quiet);
    UndisturbedMove(recorded, quiet);
    hide Capture;
  }

  // Once the before-checkpoint is written, faults of the earlier steps no longer matter.
  lemma SameCapture(w: World, plan: Plan, quiet: Plan)
    requires plan.uuid == quiet.uuid && forall stage: Stage :: stage != TagSource ==> plan.At(stage) == quiet.At(stage)
    ensures Capture(w, plan) == Capture(w, quiet)
  {
    SameStages(w, [CheckAuthority, TagAgain, Rename], plan, quiet);
    var moved := PerformAll(w, [CheckAuthority, TagAgain, Rename], plan).world;
    SameStages(moved, [RecordCaptured, PlanCleanup, RecordAfter, MarkSucceeded], plan, quiet);
    hide PerformAll, FailAndDesire;
    forall x: World, evidence: Evidence { SameFailing(x, evidence, plan, quiet); }
  }

  lemma {:induction false} SameStages(w: World, stages: seq<Stage>, plan: Plan, quiet: Plan)
    requires plan.uuid == quiet.uuid && forall stage: Stage :: stage != TagSource ==> plan.At(stage) == quiet.At(stage)
    requires TagSource !in stages
    ensures PerformAll(w, stages, plan) == PerformAll(w, stages, quiet)
    decreases |stages|
  {
    if stages != [] {
      assert stages[0] in stages && forall s :: s in stages[1..] ==> s in stages;
      assert Effect(w, stages[0], plan) == Effect(w, stages[0], quiet);
      var first := Perform(w, stages[0], plan);
      if first.Going? { SameStages(first.world, stages[1..], plan, quiet); }
    }
  }

  lemma SameFailing(w: World, evidence: Evidence, plan: Plan, quiet: Plan)
    requires forall stage: Stage :: stage != TagSource ==> plan.At(stage) == quiet.At(stage)
    ensures FailAndDesire(w, evidence, plan) == FailAndDesire(w, evidence, quiet)
  {
  }

  // ---- Success is a capture ----

  predicate CapturedIfSucceeded(w: World) {
    w.phase == Succeeded ==> w.quarantine.Plain? && w.captured.Some?
  }

  lemma {:induction false} NotYetSucceeded(w: World, stages: seq<Stage>, plan: Plan)
    requires w.phase != Succeeded && MarkSucceeded !in stages
    ensures PerformAll(w, stages, plan).world.phase != Succeeded
    decreases |stages|
  {
    if stages != [] {
      assert stages[0] in stages && forall s :: s in stages[1..] ==> s in stages;
      var first := Perform(w, stages[0], plan);
      if first.Going? { NotYetSucceeded(first.world, stages[1..], plan); }
    }
  }

  lemma FailingNeverSucceeds(w: World, evidence: Evidence, plan: Plan)
    ensures var o := FailAndDesire(w, evidence, plan).world;
            && (o.phase == Succeeded ==> w.phase == Succeeded)
            && o.quarantine == w.quarantine && o.captured == w.captured
  {
  }

  lemma RecordedIsCaptured(w: World, plan: Plan)
    requires w.phase != Succeeded
    ensures CapturedIfSucceeded(RecordCapture(w, plan).world)
  {
    if w.quarantine.Plain? {
      var stages := [RecordCaptured, PlanCleanup, RecordAfter, MarkSucceeded];
      var first := Perform(w, RecordCaptured, plan);
      assert first.world.phase != Succeeded && (first.Going? ==> first.world.quarantine.Plain? && first.world.captured.Some?);
      if first.Going? {
        StagesGoOn(w, stages, plan, first.world);
        CaptureStays(first.world, stages[1..], plan);
      } else {
        StagesStop(w, stages, plan);
      }
      hide PerformAll, FailAndDesire, Perform;
      FailingNeverSucceeds(PerformAll(w, stages, plan).world, RestoreProof(ProofOf(w.quarantine.dir)), plan);
    } else {
      hide FailAndDesire;
      FailingNeverSucceeds(w, Judge(w, plan), plan);
    }
  }

  lemma {:induction false} CaptureStays(w: World, stages: seq<Stage>, plan: Plan)
    requires w.quarantine.Plain? && w.captured.Some?
    requires forall s :: s in stages ==> s in {PlanCleanup, RecordAfter, MarkSucceeded}
    ensures var o := PerformAll(w, stages, plan).world; o.quarantine.Plain? && o.captured.Some?
    decreases |stages|
  {
    if stages != [] {
      assert stages[0] in stages && forall s :: s in stages[1..] ==> s in stages;
      var first := Perform(w, stages[0], plan);
      if first.Going? { CaptureStays(first.world, stages[1..], plan); }
    }
  }

  lemma CaptureIsCaptured(w: World, plan: Plan)
    requires w.phase != Succeeded
    ensures CapturedIfSucceeded(Capture(w, plan).world)
  {
    NotYetSucceeded(w, [CheckAuthority, TagAgain, Rename], plan);
    var moved := PerformAll(w, [CheckAuthority, TagAgain, Rename], plan).world;
    hide PerformAll, RecordCapture, FailAndDesire;
    FailingNeverSucceeds(moved, Judge(moved, plan), plan);
    RecordedIsCaptured(moved, plan);
  }

  lemma RunIsCaptured(w: World, plan: Plan)
    requires w.phase == Planned
    ensures CapturedIfSucceeded(RunCapture(w, plan).world)
  {
    NotYetSucceeded(w, [Start, TakeBefore], plan);
    var started := PerformAll(w, [Start, TakeBefore], plan).world;
    hide PerformAll, Capture;
    var tagged := TagForBefore(started, plan).world;
    var before := Perform(tagged, RecordBefore, plan).world;
    CaptureIsCaptured(before, plan);
  }

  lemma RecoveryIsNoSuccess(w: World, plan: Plan)
    ensures var o := Recover(w, plan).world; o.phase == Succeeded ==> o == w
  {
    hide RunAttempt;
    AttemptIsNoSuccess(w.(phase := Recovering), plan);
  }

  lemma AttemptIsNoSuccess(w: World, plan: Plan)
    requires w.phase == Recovering
    ensures RunAttempt(w, plan).world.phase != Succeeded
  {
    hide PlannedProof, RunRestore;
    if PlannedProof(w).Some? { RestoreIsNoSuccess(w, PlannedProof(w).value, plan); }
  }

  lemma RestoreIsNoSuccess(w: World, proof: Proof, plan: Plan)
    requires w.phase == Recovering
    ensures RunRestore(w, proof, plan).world.phase != Succeeded
  {
    hide Judged;
  }

  // In every history without interference a batch recorded as succeeded has its directory at the
  // quarantine path and the proof of it on record.
  lemma {:induction false} SuccessIsACapture(dir: Dir, events: seq<Event>, states: seq<World>, k: nat)
    requires IsHistory(dir, events, states) && Undisturbed(events) && k < |states|
    ensures states[k].phase == Succeeded ==>
              states[k].quarantine.Plain? && states[k].original == Empty
              && states[k].captured == Some(ProofOf(states[k].quarantine.dir))
  {
    SuccessIsCaptured(dir, events, states, k);
    HistoryKeepsInv(dir, events, states, k);
  }

  lemma {:induction false} SuccessIsCaptured(dir: Dir, events: seq<Event>, states: seq<World>, k: nat)
    requires IsHistory(dir, events, states) && Undisturbed(events) && k < |states|
    ensures CapturedIfSucceeded(states[k])
  {
    if k > 0 {
      hide RunCapture, Recover;
      SuccessIsCaptured(dir, events, states, k - 1);
      var w := states[k - 1];
      match events[k - 1]
      case Run(plan) => if w.phase == Planned { RunIsCaptured(w, plan); }
      case Recovery(plan) => RecoveryIsNoSuccess(w, plan);
    }
  }

  // ---- One undisturbed recovery ----

  // What a recovery takes up.
  predicate TakesUp(phase: Phase) {
    phase in {Attempting, Succeeded, Failed, RecoveryDesired, Recovering, RecoveryFailed}
  }

  predicate IsExactly(slot: Slot, proof: Proof) {
    proof.token.Some? && slot == Plain(Dir(proof.device, proof.inode, proof.token))
  }

  // From any state of the two paths: it succeeds exactly when there is a proof and the directory it
  // names is at one path with the other one free, and it then is at its original path; otherwise the
  // recovery fails and nothing moves.
  lemma RecoveryCompletesIff(w: World, uuid: string)
    ensures var o := Recover(w, Plan(map[], uuid));
            var proof := PlannedProof(w);
            if !TakesUp(w.phase) then o == Raised(w, false)
            else if proof.Some? && ((w.original == Empty && IsExactly(w.quarantine, proof.value))
                                    || (w.quarantine == Empty && IsExactly(w.original, proof.value))) then
              o.Going? && o.world.phase == RecoverySucceeded
              && IsExactly(o.world.original, proof.value) && o.world.quarantine == Empty
            else
              o.Going? && o.world.phase == RecoveryFailed
              && o.world.original == w.original && o.world.quarantine == w.quarantine
  {
    ProofIgnoresPhase(w, Recovering);
    hide PlannedProof;
  }

  // Whether the records left by a run name the directory.
  predicate OnRecord(w: World) {
    || w.captured.Some? || w.restores != []
    || (!w.needsHuman && w.before.Some? && w.before.value.dir.Some? && w.before.value.token.Some?)
  }

  lemma MovedIsProven(dir: Dir, w: World)
    requires Inv(dir, w) && w.quarantine.Plain?
    ensures PlannedProof(w).Some? <==> OnRecord(w)
    ensures PlannedProof(w).Some? ==> IsExactly(w.quarantine, PlannedProof(w).value) && w.original == Empty
  {
    if w.restores != [] { assert w.restores[|w.restores| - 1] in w.restores; }
  }

  // Within a run only a directory that has moved gets a proof.
  predicate OnlyMoved(w: World) {
    w.captured.Some? || w.restores != [] ==> w.quarantine.Plain?
  }

  lemma {:induction false} StagesRecordOnlyMoved(w: World, stages: seq<Stage>, plan: Plan)
    requires OnlyMoved(w)
    ensures var o := PerformAll(w, stages, plan).world; OnlyMoved(o) && (w.quarantine.Plain? ==> o.quarantine.Plain?)
    decreases |stages|
  {
    if stages != [] {
      var first := Perform(w, stages[0], plan);
      assert OnlyMoved(first.world) && (w.quarantine.Plain? ==> first.world.quarantine.Plain?);
      hide Perform;
      if first.Going? { StagesRecordOnlyMoved(first.world, stages[1..], plan); }
    }
  }

  lemma FailingRecordsOnlyMoved(w: World, evidence: Evidence, plan: Plan)
    requires OnlyMoved(w) && (evidence.RestoreProof? ==> w.quarantine.Plain?)
    ensures OnlyMoved(FailAndDesire(w, evidence, plan).world)
  {
  }

  lemma CaptureRecordsOnlyMoved(w: World, plan: Plan)
    requires OnlyMoved(w)
    ensures OnlyMoved(Capture(w, plan).world)
  {
    StagesRecordOnlyMoved(w, [CheckAuthority, TagAgain, Rename], plan);
    var moved := PerformAll(w, [CheckAuthority, TagAgain, Rename], plan).world;
    StagesRecordOnlyMoved(moved, [RecordCaptured, PlanCleanup, RecordAfter, MarkSucceeded], plan);
    var recorded := PerformAll(moved, [RecordCaptured, PlanCleanup, RecordAfter, MarkSucceeded], plan).world;
    hide PerformAll, FailAndDesire, OnlyMoved;
    FailingRecordsOnlyMoved(moved, Judge(moved, plan), plan);
    if moved.quarantine.Plain? { FailingRecordsOnlyMoved(recorded, RestoreProof(ProofOf(moved.quarantine.dir)), plan); }
  }

  lemma RunRecordsOnlyMoved(w: World, plan: Plan)
    requires OnlyMoved(w)
    ensures OnlyMoved(RunCapture(w, plan).world)
  {
    StagesRecordOnlyMoved(w, [Start, TakeBefore], plan);
    var started := PerformAll(w, [Start, TakeBefore], plan).world;
    hide PerformAll, Capture;
    var tagged := TagForBefore(started, plan).world;
    assert OnlyMoved(tagged) && OnlyMoved(Perform(tagged, RecordBefore, plan).world);
    hide TagForBefore, Perform, OnlyMoved;
    CaptureRecordsOnlyMoved(Perform(tagged, RecordBefore, plan).world, plan);
  }

  // A capture that began and ended in whatever way is undone by one undisturbed recovery exactly when
  // the directory had moved and the records name it; otherwise the recovery fails and moves nothing.
  lemma EndedCaptureUndoneIff(dir: Dir, plan: Plan, uuid: string)
    requires RunCapture(Init(dir), plan).world.phase != Planned
    ensures var w := RunCapture(Init(dir), plan).world;
            var o := Recover(w, Plan(map[], uuid));
            && o.Going?
            && if w.quarantine.Plain? && OnRecord(w) then
                 o.world.phase == RecoverySucceeded && o.world.original == w.quarantine && o.world.quarantine == Empty
               else
                 o.world.phase == RecoveryFailed && o.world.original == w.original && o.world.quarantine == w.quarantine
  {
    assert Inv(dir, Init(dir));
    RunKeeps(dir, Init(dir), plan);
    RunRecordsOnlyMoved(Init(dir), plan);
    RunEnds(Init(dir), plan);
    var w := RunCapture(Init(dir), plan).world;
    hide RunCapture, Recover;
    RecoveryCompletesIff(w, uuid);
    if w.quarantine.Plain? { MovedIsProven(dir, w); } else { UnmovedIsUnproven(w); }
    hide Inv, PlannedProof;
  }

  lemma UnmovedIsUnproven(w: World)
    requires OnlyMoved(w) && !w.quarantine.Plain?
    ensures PlannedProof(w).None?
  {
  }

  lemma {:induction false} StagesEnd(w: World, stages: seq<Stage>, plan: Plan)
    requires w.phase in {Planned, Attempting, Failed, Succeeded}
    ensures PerformAll(w, stages, plan).world.phase in {Planned, Attempting, Failed, Succeeded}
    decreases |stages|
  {
    if stages != [] {
      var first := Perform(w, stages[0], plan);
      assert first.world.phase in {Planned, Attempting, Failed, Succeeded};
      hide Perform;
      if first.Going? { StagesEnd(first.world, stages[1..], plan); }
    }
  }

  lemma FailingEnds(w: World, evidence: Evidence, plan: Plan)
    ensures FailAndDesire(w, evidence, plan).world.phase in {w.phase, Failed, RecoveryDesired}
  {
  }

  lemma CaptureEnds(w: World, plan: Plan)
    requires w.phase in {Planned, Attempting, Failed, Succeeded}
    ensures Capture(w, plan).world.phase in {Planned, Attempting, Failed, Succeeded, RecoveryDesired}
  {
    StagesEnd(w, [CheckAuthority, TagAgain, Rename], plan);
    var moved := PerformAll(w, [CheckAuthority, TagAgain, Rename], plan).world;
    StagesEnd(moved, [RecordCaptured, PlanCleanup, RecordAfter, MarkSucceeded], plan);
    var recorded := PerformAll(moved, [RecordCaptured, PlanCleanup, RecordAfter, MarkSucceeded], plan).world;
    hide PerformAll, FailAndDesire;
    FailingEnds(moved, Judge(moved, plan), plan);
    if moved.quarantine.Plain? { FailingEnds(recorded, RestoreProof(ProofOf(moved.quarantine.dir)), plan); }
  }

  lemma RunEnds(w: World, plan: Plan)
    requires w.phase == Planned
    ensures RunCapture(w, plan).world.phase in {Planned, Attempting, Failed, Succeeded, RecoveryDesired}
  {
    StagesEnd(w, [Start, TakeBefore], plan);
    var started := PerformAll(w, [Start, TakeBefore], plan).world;
    hide PerformAll, Capture;
    var tagged := TagForBefore(started, plan).world;
    var before := Perform(tagged, RecordBefore, plan).world;
    assert tagged.phase == started.phase && before.phase == tagged.phase;
    hide TagForBefore, Perform;
    CaptureEnds(before, plan);
  }

  // ---- With the token on record ----

  // The before-checkpoint names the directory by its token.
  predicate Tokened(w: World) {
    w.token.Some? && w.seen.Some? && w.before == Some(BeforeProof(w.seen, w.token)) && !w.needsHuman
    && w.phase != Planned
  }

  lemma {:induction false} StagesStayTokened(w: World, stages: seq<Stage>, plan: Plan)
    requires Tokened(w) && TakeBefore !in stages
    ensures Tokened(PerformAll(w, stages, plan).world)
    decreases |stages|
  {
    if stages != [] {
      assert stages[0] in stages && forall s :: s in stages[1..] ==> s in stages;
      var first := Perform(w, stages[0], plan);
      assert Tokened(first.world);
      hide Perform;
      if first.Going? { StagesStayTokened(first.world, stages[1..], plan); }
    }
  }

  lemma JudgedByToken(dir: Dir, w: World, plan: Plan)
    requires Inv(dir, w) && Tokened(w)
    ensures !Judge(w, plan).HumanNeeded?
  {
  }

  lemma FailingStaysTokened(w: World, evidence: Evidence, plan: Plan)
    requires Tokened(w) && !evidence.HumanNeeded?
    ensures Tokened(FailAndDesire(w, evidence, plan).world)
  {
  }

  lemma CaptureStaysTokened(dir: Dir, w: World, plan: Plan)
    requires Inv(dir, w) && Tokened(w) && w.phase in {Planned, Attempting, Succeeded, Failed}
    ensures Tokened(Capture(w, plan).world)
  {
    StagesStayTokened(w, [CheckAuthority, TagAgain, Rename], plan);
    PerformAllKeeps(dir, w, [CheckAuthority, TagAgain, Rename], plan);
    var moved := PerformAll(w, [CheckAuthority, TagAgain, Rename], plan).world;
    StagesStayTokened(moved, [RecordCaptured, PlanCleanup, RecordAfter, MarkSucceeded], plan);
    var recorded := PerformAll(moved, [RecordCaptured, PlanCleanup, RecordAfter, MarkSucceeded], plan).world;
    hide PerformAll, FailAndDesire, Inv, Tokened;
    JudgedByToken(dir, moved, plan);
    FailingStaysTokened(moved, Judge(moved, plan), plan);
    if moved.quarantine.Plain? { FailingStaysTokened(recorded, RestoreProof(ProofOf(moved.quarantine.dir)), plan); }
  }

  lemma {:induction false} StagesRecordNoBefore(w: World, stages: seq<Stage>, plan: Plan)
    requires w.before.None? && RecordBefore !in stages
    ensures PerformAll(w, stages, plan).world.before.None?
    ensures PerformAll(w, stages, plan).world.needsHuman == w.needsHuman
    decreases |stages|
  {
    if stages != [] {
      assert stages[0] in stages && forall s :: s in stages[1..] ==> s in stages;
      var first := Perform(w, stages[0], plan);
      if first.Going? { StagesRecordNoBefore(first.world, stages[1..], plan); }
    }
  }

  // The start of a run: what was seen of a plain source.
  lemma StartSees(dir: Dir, plan: Plan)
    ensures var o := PerformAll(Init(dir), [Start, TakeBefore], plan); o.Going? ==> o.world.seen == Some(dir)
  {
    var stages := [Start, TakeBefore];
    var first := Perform(Init(dir), Start, plan);
    assert stages[1..] == [TakeBefore];
    if first.Going? {
      StagesGoOn(Init(dir), stages, plan, first.world);
      var second := Perform(first.world, TakeBefore, plan);
      if second.Going? {
        StagesGoOn(first.world, [TakeBefore], plan, second.world);
        NoStagesLeft(second.world, plan);
      } else {
        StagesStop(first.world, [TakeBefore], plan);
      }
    } else {
      StagesStop(Init(dir), stages, plan);
    }
  }

  lemma RunStaysTokened(dir: Dir, plan: Plan)
    ensures var w := RunCapture(Init(dir), plan).world;
            w.before.Some? && w.before.value.token.Some? ==> Tokened(w)
  {
    var init := Init(dir);
    assert Inv(dir, init);
    StartSees(dir, plan);
    StagesRecordNoBefore(init, [Start, TakeBefore], plan);
    PerformAllKeeps(dir, init, [Start, TakeBefore], plan);
    var started := PerformAll(init, [Start, TakeBefore], plan);
    hide PerformAll, Capture, Inv;
    if started.Going? {
      TagForBeforeKeeps(dir, started.world, plan);
      var tagged := TagForBefore(started.world, plan);
      assert tagged.world.before.None? && !tagged.world.needsHuman && tagged.world.seen == Some(dir);
      hide TagForBefore;
      if tagged.Going? {
        EffectKeeps(dir, tagged.world, RecordBefore, plan);
        RecordingTokens(tagged.world, plan);
        var before := Perform(tagged.world, RecordBefore, plan);
        hide Perform, Tokened;
        if before.Going? {
          CaptureKeepsBefore(before.world, plan);
          if before.world.token.Some? { CaptureStaysTokened(dir, before.world, plan); }
        }
      }
    }
  }

  lemma RecordingTokens(w: World, plan: Plan)
    requires w.before.None? && !w.needsHuman && w.seen.Some?
    ensures var o := Perform(w, RecordBefore, plan);
            && o.world.token == w.token
            && (o.world.before.Some? && w.token.Some? ==> Tokened(o.world))
            && (o.world.before.Some? ==> o.world.before.value.token == w.token)
            && (o.Going? ==> o.world.before.Some?)
  {
  }

  lemma {:induction false} StagesKeepBefore(w: World, stages: seq<Stage>, plan: Plan)
    requires RecordBefore !in stages
    ensures PerformAll(w, stages, plan).world.before == w.before
    decreases |stages|
  {
    if stages != [] {
      assert stages[0] in stages && forall s :: s in stages[1..] ==> s in stages;
      var first := Perform(w, stages[0], plan);
      if first.Going? { StagesKeepBefore(first.world, stages[1..], plan); }
    }
  }

  lemma CaptureKeepsBefore(w: World, plan: Plan)
    ensures Capture(w, plan).world.before == w.before
  {
    StagesKeepBefore(w, [CheckAuthority, TagAgain, Rename], plan);
    var moved := PerformAll(w, [CheckAuthority, TagAgain, Rename], plan).world;
    StagesKeepBefore(moved, [RecordCaptured, PlanCleanup, RecordAfter, MarkSucceeded], plan);
    var recorded := PerformAll(moved, [RecordCaptured, PlanCleanup, RecordAfter, MarkSucceeded], plan).world;
    hide PerformAll, FailAndDesire;
    FailingKeepsBefore(moved, Judge(moved, plan), plan);
    if moved.quarantine.Plain? { FailingKeepsBefore(recorded, RestoreProof(ProofOf(moved.quarantine.dir)), plan); }
  }

  lemma FailingKeepsBefore(w: World, evidence: Evidence, plan: Plan)
    ensures FailAndDesire(w, evidence, plan).world.before == w.before
  {
  }

  // Once the before-checkpoint names the directory by its token, no crash, exception or lost lease of the
  // capture can keep one undisturbed recovery from leaving the directory at its original path.
  lemma TokenOnRecordBringsBack(dir: Dir, plan: Plan, uuid: string)
    requires var w := RunCapture(Init(dir), plan).world; w.before.Some? && w.before.value.token.Some?
    ensures var o := Recover(RunCapture(Init(dir), plan).world, Plan(map[], uuid));
            o.Going? && o.world.original.Plain? && IsThe(o.world.original.dir, dir) && o.world.quarantine == Empty
  {
    RunStaysTokened(dir, plan);
    assert Inv(dir, Init(dir));
    RunKeeps(dir, Init(dir), plan);
    var w := RunCapture(Init(dir), plan).world;
    assert w.phase != Planned;
    hide RunCapture, Recover;
    EndedCaptureUndoneIff(dir, plan, uuid);
  }
}
