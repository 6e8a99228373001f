/**
  Capturing a directory into a quarantine path and putting it back, where a directory is known by
  its device, inode and the token tagged on it (operation_journal/filesystem_mutations.py,
  captured_directory_recovery_planning.py, captured_directory_recovery_actions.py,
  filesystem_ops/capture_directories.py, filesystem_ops/directory_capture_token.py).
*/
module DirectoryCapture {
  import opened Steps
  import opened Wrappers

  datatype Dir = Dir(device: nat, inode: nat, token: Option<string>)

  // What a path holds: nothing, a plain directory, or something no directory operation accepts
  // (a link, a mount point, a file).
  datatype Slot = Empty | Plain(dir: Dir) | Odd

  // The proof a restore is planned from.
  datatype Proof = Proof(device: nat, inode: nat, token: Option<string>)

  // The before-checkpoint: the snapshot of the source, and the token read while tagging it.
  datatype BeforeProof = BeforeProof(dir: Option<Dir>, token: Option<string>)

  datatype Stage =
    | Start | TakeBefore | TagSource | RecordBefore
    | CheckAuthority | TagAgain | Rename | RecordCaptured | PlanCleanup | RecordAfter | MarkSucceeded
    | LookAtSource | LookAtQuarantine | MarkFailed | RecordDesired | LeaseLostMarker
    | MarkDesired | StartRecovery | PlanAction | RestoreRename | RecordAction | RecordOutcome

  // uuid is the token a new tag would get.
  datatype Plan = Plan(faults: map<Stage, Fault>, uuid: string)
  {
    function At(stage: Stage): Fault { if stage in faults then faults[stage] else Proceeds }
  }

  datatype World = World(
    original: Slot,
    quarantine: Slot,
    phase: Phase,
    before: Option<BeforeProof>,
    captured: Option<Proof>,
    // captured_directory_restore payloads of recovery records, newest last
    restores: seq<Proof>,
    needsHuman: bool,
    // locals of the running call
    seen: Option<Dir>,
    token: Option<string>)

  function Tagged(dir: Dir, uuid: string): Dir {
    if dir.token.Some? then dir else dir.(token := Some(uuid))
  }

  // A tag is created once; one that is already there stays. None: nothing to tag, or not taggable.
  function TagSlot(slot: Slot, uuid: string): Slot {
    if slot.Plain? then Plain(Tagged(slot.dir, uuid)) else slot
  }

  function TokenOf(slot: Slot): Option<string> {
    if slot.Plain? then slot.dir.token else None
  }

  function ProofOf(dir: Dir): Proof {
    Proof(dir.device, dir.inode, dir.token)
  }

  // Same device, same inode, and the same token really tagged on it.
  predicate Matches(slot: Slot, proof: Proof) {
    slot.Plain? && proof.token.Some? && ProofOf(slot.dir) == proof
  }

  function Effect(w: World, stage: Stage, plan: Plan): Option<World> {
    match stage
    case Start => if w.phase == Planned then Some(w.(phase := Attempting)) else None
    case TakeBefore => Some(w.(seen := if w.original.Plain? then Some(w.original.dir) else None))
    case RecordBefore =>
      if w.phase == Attempting then Some(w.(before := Some(BeforeProof(w.seen, w.token)))) else None
    case TagAgain =>
      if w.original.Plain? then Some(w.(original := TagSlot(w.original, plan.uuid))) else None
    case Rename =>
      if w.original.Plain? && w.original.dir.token.Some? && w.quarantine.Empty?
      then Some(w.(original := Empty, quarantine := w.original)) else None
    case RecordCaptured =>
      if w.phase == Attempting && w.quarantine.Plain?
      then Some(w.(captured := Some(ProofOf(w.quarantine.dir)))) else None
    case MarkSucceeded => if w.phase == Attempting then Some(w.(phase := Succeeded)) else None
    case MarkFailed => if w.phase == Attempting then Some(w.(phase := Failed)) else None
    case _ => Some(w)
  }

  function Perform(w: World, stage: Stage, plan: Plan): Outcome<World> {
    Attempt(w, Effect(w, stage, plan), plan.At(stage))
  }

  function PerformAll(w: World, stages: seq<Stage>, plan: Plan): Outcome<World>
    decreases |stages|
  {
    if stages == [] then Going(w)
    else
      var first := Perform(w, stages[0], plan);
      if first.Going? then PerformAll(first.world, stages[1..], plan) else first
  }

  // Tagging the source for the before-checkpoint: a failure to tag is swallowed and recorded as no token.
  function TagForBefore(w: World, plan: Plan): Outcome<World> {
    var tagged := w.(original := TagSlot(w.original, plan.uuid));
    match plan.At(TagSource)
    case Proceeds => Going(tagged.(token := TokenOf(tagged.original)))
    case RaisesBefore | LosesLease => Going(w.(token := None))
    case RaisesAfter => Going(tagged.(token := None))
    case CrashesBefore => Crashed(w)
    case CrashesAfter => Crashed(tagged)
  }

  // What a failed call leaves for recovery to find.
  datatype Evidence = NoEvidence | RestoreProof(proof: Proof) | HumanNeeded

  function Note(w: World, evidence: Evidence): World {
    var desired := w.(phase := RecoveryDesired);
    match evidence
    case NoEvidence => desired
    case RestoreProof(proof) => desired.(restores := w.restores + [proof])
    case HumanNeeded => desired.(needsHuman := true)
  }

  function MarkLeaseLost(w: World, evidence: Evidence, plan: Plan): Outcome<World> {
    Attempt(w, if w.phase in {Attempting, Failed, RecoveryFailed} then Some(Note(w, evidence)) else None,
            plan.At(LeaseLostMarker))
  }

  function FailAndDesire(w: World, evidence: Evidence, plan: Plan): Outcome<World> {
    var failed := Perform(w, MarkFailed, plan);
    if failed.Raised? && failed.leaseLost then MarkLeaseLost(failed.world, evidence, plan)
    else if !failed.Going? then failed
    else
      var desired := Attempt(failed.world, Some(Note(failed.world, evidence)), plan.At(RecordDesired));
      if desired.Raised? && desired.leaseLost then MarkLeaseLost(desired.world, evidence, plan) else desired
  }

  predicate Dies(fault: Fault) { fault in {CrashesBefore, CrashesAfter} }

  // After an exception: has the directory physically moved, and is it still the one checkpointed?
  function Judge(w: World, plan: Plan): Evidence {
    if plan.At(LookAtSource) != Proceeds || plan.At(LookAtQuarantine) != Proceeds then NoEvidence
    else if !w.original.Empty? || w.quarantine.Empty? then NoEvidence
    else if w.seen.Some? && w.token.Some? && w.quarantine.Plain?
            && w.quarantine.dir.device == w.seen.value.device && w.quarantine.dir.inode == w.seen.value.inode
            && w.quarantine.dir.token == w.token
    then RestoreProof(Proof(w.seen.value.device, w.seen.value.inode, w.token))
    else HumanNeeded
  }

  function RecordFailure(w: World, plan: Plan): Outcome<World> {
    if Dies(plan.At(LookAtSource)) || Dies(plan.At(LookAtQuarantine)) then Crashed(w)
    else Reraised(FailAndDesire(w, Judge(w, plan), plan))
  }

  function RunCapture(w: World, plan: Plan): Outcome<World> {
    var started := PerformAll(w, [Start, TakeBefore], plan);
    if !started.Going? then started else
    var tagged := TagForBefore(started.world, plan);
    if !tagged.Going? then tagged else
    var before := Perform(tagged.world, RecordBefore, plan);
    if !before.Going? then before
    else Capture(before.world, plan)
  }

  function Capture(w: World, plan: Plan): Outcome<World> {
    var moved := PerformAll(w, [CheckAuthority, TagAgain, Rename], plan);
    if moved.Raised? then RecordFailure(moved.world, plan)
    else if moved.Crashed? then moved
    else RecordCapture(moved.world, plan)
  }

  function RecordCapture(w: World, plan: Plan): Outcome<World> {
    if !w.quarantine.Plain? then RecordFailure(w, plan)
    else
      var recorded := PerformAll(w, [RecordCaptured, PlanCleanup, RecordAfter, MarkSucceeded], plan);
      if recorded.Raised? then
        Reraised(FailAndDesire(recorded.world, RestoreProof(ProofOf(w.quarantine.dir)), plan))
      else recorded
  }

  // Where a recovery takes its proof from: the captured-checkpoint, a failure record, or, failing
  // both, what the two paths and the before-checkpoint show together.
  function PlannedProof(w: World): Option<Proof> {
    if w.captured.Some? then w.captured
    else if w.restores != [] then Some(w.restores[|w.restores| - 1])
    else if w.needsHuman then None
    else Observed(w)
  }

  function Observed(w: World): Option<Proof> {
    if w.before.Some? && w.before.value.dir.Some? && w.before.value.token.Some? && w.original.Empty?
       && Matches(w.quarantine, Proof(w.before.value.dir.value.device, w.before.value.dir.value.inode, w.before.value.token))
    then Some(ProofOf(w.quarantine.dir)) else None
  }

  datatype Verdict = Moves | Skips | Refuses

  // The restore action: it moves the directory back only into an empty place and only if device,
  // inode and token are the recorded ones; finding them already back counts as done.
  function Judged(original: Slot, quarantine: Slot, proof: Proof): Verdict {
    if original.Empty? && Matches(quarantine, proof) then Moves
    else if quarantine.Empty? && Matches(original, proof) then Skips
    else Refuses
  }

  function Prepare(w: World, plan: Plan): Outcome<World> {
    if w.phase == RecoveryDesired then Going(w)
    else if w.phase in {Attempting, Failed, Succeeded, Recovering, RecoveryFailed} then
      Attempt(w, Some(w.(phase := RecoveryDesired)), plan.At(MarkDesired))
    else Raised(w, false)
  }

  function Conclude(w: World, phase: Phase, plan: Plan): Outcome<World> {
    Attempt(w, Some(w.(phase := phase)), plan.At(RecordOutcome))
  }

  function RunRestore(w: World, proof: Proof, plan: Plan): Outcome<World> {
    match Judged(w.original, w.quarantine, proof)
    case Refuses => Conclude(w, RecoveryFailed, plan)
    case Skips => Noted(w, plan)
    case Moves =>
      var moved := Attempt(w, Some(w.(original := w.quarantine, quarantine := Empty)), plan.At(RestoreRename));
      if moved.Crashed? then moved
      else if moved.Raised? then Conclude(moved.world, RecoveryFailed, plan)
      else Noted(moved.world, plan)
  }

  // The action's own end is recorded before the attempt's.
  function Noted(w: World, plan: Plan): Outcome<World> {
    var noted := Attempt(w, Some(w), plan.At(RecordAction));
    if noted.Crashed? then noted
    else if noted.Raised? then Conclude(noted.world, RecoveryFailed, plan)
    else Conclude(noted.world, RecoverySucceeded, plan)
  }

  function RunAttempt(w: World, plan: Plan): Outcome<World> {
    var planned := Attempt(w, Some(w), plan.At(PlanAction));
    if planned.Crashed? then planned
    else if planned.Raised? || PlannedProof(w).None? then Conclude(w, RecoveryFailed, plan)
    else RunRestore(w, PlannedProof(w).value, plan)
  }

  function Recover(w: World, plan: Plan): Outcome<World> {
    var ready := Prepare(w, plan);
    if !ready.Going? then ready
    else
      var started := Attempt(ready.world, Some(ready.world.(phase := Recovering)), plan.At(StartRecovery));
      if started.Going? then RunAttempt(started.world, plan) else started
  }

  // Interference replaces what the paths hold, as other processes might; the histories of the
  // first kind have none.
  datatype Event = Run(plan: Plan) | Recovery(plan: Plan) | Interfere(original: Slot, quarantine: Slot)

  function Step(w: World, event: Event): World {
    match event
    case Run(plan) => if w.phase == Planned then RunCapture(w, plan).world else w
    case Recovery(plan) => Recover(w, plan).world
    case Interfere(original, quarantine) => w.(original := original, quarantine := quarantine)
  }

  function Init(dir: Dir): World {
    World(Plain(dir), Empty, Planned, None, None, [], false, None, None)
  }

  ghost predicate IsHistory(dir: Dir, events: seq<Event>, states: seq<World>) {
    && |states| == |events| + 1
    && states[0] == Init(dir)
    && forall i {:trigger events[i]} :: 0 <= i < |events| ==> states[i + 1] == Step(states[i], events[i])
  }

  predicate Undisturbed(events: seq<Event>) {
    forall i :: 0 <= i < |events| ==> !events[i].Interfere?
  }

  // The directory itself, wherever it is: its identity never changes, and a tag once set stays.
  predicate IsThe(d: Dir, dir: Dir) {
    d.device == dir.device && d.inode == dir.inode && (dir.token.Some? ==> d.token == dir.token)
  }

  predicate AtOnePlace(w: World, dir: Dir) {
    || (w.original.Plain? && IsThe(w.original.dir, dir) && w.quarantine == Empty)
    || (w.quarantine.Plain? && IsThe(w.quarantine.dir, dir) && w.original == Empty)
  }

  function Where(w: World): Dir
    requires w.original.Plain? || w.quarantine.Plain?
  {
    if w.original.Plain? then w.original.dir else w.quarantine.dir
  }

  // Every record names the directory d as it is, token included.
  predicate Named(d: Dir, before: Option<BeforeProof>, captured: Option<Proof>, restores: seq<Proof>) {
    && (before.Some? && before.value.token.Some? ==> d.token == before.value.token)
    && (before.Some? && before.value.dir.Some? ==>
          before.value.dir.value.device == d.device && before.value.dir.value.inode == d.inode)
    && (captured.Some? ==> captured.value == ProofOf(d) && d.token.Some?)
    && (forall proof :: proof in restores ==> proof == ProofOf(d) && d.token.Some?)
  }

  predicate Locals(d: Dir, seen: Option<Dir>, token: Option<string>) {
    && (token.Some? ==> d.token == token)
    && (seen.Some? ==> seen.value.device == d.device && seen.value.inode == d.inode)
  }

  predicate Inv(dir: Dir, w: World) {
    && AtOnePlace(w, dir)
    && (w.quarantine.Plain? ==> w.quarantine.dir.token.Some?)
    && Locals(Where(w), w.seen, w.token)
    && Named(Where(w), w.before, w.captured, w.restores)
    && (w.phase == RecoverySucceeded ==> w.original.Plain?)
    && (w.phase in {Planned, Attempting} ==> w.restores == [] && !w.needsHuman && (w.captured.Some? ==> w.quarantine.Plain?))
  }

  lemma EffectKeeps(dir: Dir, w: World, stage: Stage, plan: Plan)
    requires Inv(dir, w) && w.phase in {Planned, Attempting, Succeeded, Failed}
    ensures var r := Effect(w, stage, plan);
            r.Some? ==> Inv(dir, r.value) && r.value.phase in {w.phase, Attempting, Succeeded, Failed}
  {
    if stage == TagAgain {
      TagKeeps(dir, w, plan.uuid);
    } else if stage != Rename && stage != RecordBefore && stage != RecordCaptured && stage != TakeBefore {
      hide AtOnePlace, Named, Locals;
    }
  }

  lemma TagKeeps(dir: Dir, w: World, uuid: string)
    requires Inv(dir, w)
    ensures Inv(dir, w.(original := TagSlot(w.original, uuid)))
  {
  }

  lemma {:induction false} PerformAllKeeps(dir: Dir, w: World, stages: seq<Stage>, plan: Plan)
    requires Inv(dir, w) && w.phase in {Planned, Attempting, Succeeded, Failed}
    ensures var o := PerformAll(w, stages, plan).world;
            Inv(dir, o) && o.phase in {w.phase, Attempting, Succeeded, Failed}
    decreases |stages|
  {
    if stages != [] {
      EffectKeeps(dir, w, stages[0], plan);
      var first := Perform(w, stages[0], plan);
      hide Inv, Effect;
      if first.Going? { PerformAllKeeps(dir, first.world, stages[1..], plan); }
    }
  }

  predicate Genuine(w: World, evidence: Evidence) {
    evidence.RestoreProof? ==> (w.original.Plain? || w.quarantine.Plain?) && evidence.proof == ProofOf(Where(w)) && evidence.proof.token.Some?
  }

  lemma NoteKeeps(dir: Dir, w: World, evidence: Evidence)
    requires Inv(dir, w) && Genuine(w, evidence)
    ensures Inv(dir, Note(w, evidence))
  {
  }

  lemma FailAndDesireKeeps(dir: Dir, w: World, evidence: Evidence, plan: Plan)
    requires Inv(dir, w) && Genuine(w, evidence) && w.phase in {Planned, Attempting, Succeeded, Failed}
    ensures Inv(dir, FailAndDesire(w, evidence, plan).world)
  {
    EffectKeeps(dir, w, MarkFailed, plan);
    var failed := Perform(w, MarkFailed, plan);
    assert Genuine(failed.world, evidence);
    NoteKeeps(dir, failed.world, evidence);
    hide Inv, Genuine;
  }

  lemma JudgeIsGenuine(dir: Dir, w: World, plan: Plan)
    requires Inv(dir, w)
    ensures Genuine(w, Judge(w, plan))
  {
  }

  lemma RecordFailureKeeps(dir: Dir, w: World, plan: Plan)
    requires Inv(dir, w) && w.phase in {Planned, Attempting, Succeeded, Failed}
    ensures Inv(dir, RecordFailure(w, plan).world)
  {
    JudgeIsGenuine(dir, w, plan);
    FailAndDesireKeeps(dir, w, Judge(w, plan), plan);
    hide Inv, Judge, FailAndDesire;
  }

  lemma CaptureKeeps(dir: Dir, w: World, plan: Plan)
    requires Inv(dir, w) && w.phase in {Planned, Attempting, Succeeded, Failed}
    ensures Inv(dir, Capture(w, plan).world)
  {
    PerformAllKeeps(dir, w, [CheckAuthority, TagAgain, Rename], plan);
    var moved := PerformAll(w, [CheckAuthority, TagAgain, Rename], plan).world;
    RecordFailureKeeps(dir, moved, plan);
    PerformAllKeeps(dir, moved, [RecordCaptured, PlanCleanup, RecordAfter, MarkSucceeded], plan);
    var recorded := PerformAll(moved, [RecordCaptured, PlanCleanup, RecordAfter, MarkSucceeded], plan).world;
    if moved.quarantine.Plain? {
      PlacesStay(moved, [RecordCaptured, PlanCleanup, RecordAfter, MarkSucceeded], plan);
      FailAndDesireKeeps(dir, recorded, RestoreProof(ProofOf(moved.quarantine.dir)), plan);
    }
    hide Inv, PerformAll, RecordFailure, FailAndDesire;
  }

  lemma {:induction false} PlacesStay(w: World, stages: seq<Stage>, plan: Plan)
    requires forall s :: s in stages ==> s !in {TagAgain, Rename}
    ensures var o := PerformAll(w, stages, plan).world; o.original == w.original && o.quarantine == w.quarantine
    decreases |stages|
  {
    if stages != [] {
      assert stages[0] in stages && forall s :: s in stages[1..] ==> s in stages;
      var first := Perform(w, stages[0], plan);
      if first.Going? { PlacesStay(first.world, stages[1..], plan); }
    }
  }

  lemma TagForBeforeKeeps(dir: Dir, w: World, plan: Plan)
    requires Inv(dir, w)
    ensures Inv(dir, TagForBefore(w, plan).world) && TagForBefore(w, plan).world.phase == w.phase
  {
    TagKeeps(dir, w, plan.uuid);
    var tagged := w.(original := TagSlot(w.original, plan.uuid));
    LocalTokenKeeps(dir, w, None);
    LocalTokenKeeps(dir, tagged, None);
    LocalTokenKeeps(dir, tagged, TokenOf(tagged.original));
    hide Inv, TagSlot, TokenOf;
  }

  lemma LocalTokenKeeps(dir: Dir, w: World, token: Option<string>)
    requires Inv(dir, w) && (token == None || token == TokenOf(w.original))
    ensures Inv(dir, w.(token := token))
  {
  }

  lemma RunKeeps(dir: Dir, w: World, plan: Plan)
    requires Inv(dir, w) && w.phase == Planned
    ensures Inv(dir, RunCapture(w, plan).world)
  {
    hide Inv, PerformAll, Capture, TagForBefore, Effect;
    PerformAllKeeps(dir, w, [Start, TakeBefore], plan);
    var started := PerformAll(w, [Start, TakeBefore], plan);
    TagForBeforeKeeps(dir, started.world, plan);
    var tagged := TagForBefore(started.world, plan);
    if tagged.Going? {
      EffectKeeps(dir, tagged.world, RecordBefore, plan);
      var before := Perform(tagged.world, RecordBefore, plan);
      if before.Going? { CaptureKeeps(dir, before.world, plan); }
    }
  }

  lemma NotingMovesNothing(w: World, phase: Phase, plan: Plan)
    ensures var o := Conclude(w, phase, plan).world; o.original == w.original && o.quarantine == w.quarantine
    ensures var o := Noted(w, plan).world; o.original == w.original && o.quarantine == w.quarantine
  {
  }

  lemma RestoreMovesOnlyRecorded(w: World, proof: Proof, plan: Plan)
    ensures var o := RunRestore(w, proof, plan).world;
            || (o.original == w.original && o.quarantine == w.quarantine)
            || (Matches(w.quarantine, proof) && w.original == Empty && o.original == w.quarantine && o.quarantine == Empty)
  {
    hide Matches, Conclude, Noted;
    var moved := w.(original := w.quarantine, quarantine := Empty);
    NotingMovesNothing(w, RecoveryFailed, plan);
    NotingMovesNothing(moved, RecoveryFailed, plan);
  }

  lemma ProofIgnoresPhase(w: World, phase: Phase)
    ensures PlannedProof(w.(phase := phase)) == PlannedProof(w)
  {
  }

  lemma AttemptMovesOnlyRecorded(w: World, plan: Plan)
    ensures var o := RunAttempt(w, plan).world;
            || (o.original == w.original && o.quarantine == w.quarantine)
            || (&& PlannedProof(w).Some? && Matches(w.quarantine, PlannedProof(w).value)
                && w.original == Empty && o.original == w.quarantine && o.quarantine == Empty)
  {
    hide PlannedProof, Matches, RunRestore, Conclude;
    NotingMovesNothing(w, RecoveryFailed, plan);
    if PlannedProof(w).Some? { RestoreMovesOnlyRecorded(w, PlannedProof(w).value, plan); }
  }

  // A recovery moves nothing but the directory with the recorded device, inode and token, and only
  // from the quarantine into an empty original path. This needs no assumption about other processes:
  // it holds of any state of the two paths.
  lemma RecoveryMovesOnlyRecorded(w: World, plan: Plan)
    ensures var o := Recover(w, plan).world;
            || (o.original == w.original && o.quarantine == w.quarantine)
            || (&& PlannedProof(w).Some? && Matches(w.quarantine, PlannedProof(w).value)
                && w.original == Empty && o.original == w.quarantine && o.quarantine == Empty)
  {
    hide PlannedProof, Matches, RunAttempt;
    ProofIgnoresPhase(w, Recovering);
    AttemptMovesOnlyRecorded(w.(phase := Recovering), plan);
  }

  lemma RefusalMovesNothing(w: World, proof: Proof, plan: Plan)
    requires w.phase == Recovering && w.quarantine.Plain? && !Matches(w.quarantine, proof)
    ensures var o := RunRestore(w, proof, plan).world;
            o.original == w.original && o.quarantine == w.quarantine && o.phase in {Recovering, RecoveryFailed}
  {
    assert Judged(w.original, w.quarantine, proof) == Refuses;
  }

  lemma MismatchMovesNothing(w: World, plan: Plan)
    requires w.phase == Recovering && w.quarantine.Plain? && PlannedProof(w).Some?
    requires !Matches(w.quarantine, PlannedProof(w).value)
    ensures var o := RunAttempt(w, plan).world;
            o.original == w.original && o.quarantine == w.quarantine && o.phase in {Recovering, RecoveryFailed}
  {
    hide PlannedProof, Matches, RunRestore;
    RefusalMovesNothing(w, PlannedProof(w).value, plan);
  }

  // A directory that has the recorded device and inode again but not the recorded token, a recycled
  // identity, stays where it is and the recovery does not report success.
  lemma RecycledIdentityIsRefused(w: World, plan: Plan)
    requires PlannedProof(w).Some? && w.quarantine.Plain? && w.phase != RecoverySucceeded
    requires w.quarantine.dir.device == PlannedProof(w).value.device && w.quarantine.dir.inode == PlannedProof(w).value.inode
    requires w.quarantine.dir.token != PlannedProof(w).value.token
    ensures var o := Recover(w, plan).world;
            o.original == w.original && o.quarantine == w.quarantine && o.phase != RecoverySucceeded
  {
    hide PlannedProof, RunAttempt;
    ProofIgnoresPhase(w, Recovering);
    assert !Matches(w.quarantine, PlannedProof(w).value);
    MismatchMovesNothing(w.(phase := Recovering), plan);
  }

  // Once a failure record asks for a human, and no proof was recorded, a recovery never moves anything,
  // not even if the two paths have come to look right since.
  lemma HumanNeededIsLeftAlone(w: World, plan: Plan)
    requires w.needsHuman && w.captured.None? && w.restores == [] && w.phase != RecoverySucceeded
    ensures var o := Recover(w, plan).world;
            o.original == w.original && o.quarantine == w.quarantine && o.phase != RecoverySucceeded
  {
  }

  lemma AttemptKeeps(dir: Dir, w: World, plan: Plan)
    requires Inv(dir, w) && w.phase == Recovering
    ensures Inv(dir, RunAttempt(w, plan).world)
  {
    hide Inv, PlannedProof, RunRestore, Conclude;
    ConcludeKeeps(dir, w, RecoveryFailed, plan);
    if PlannedProof(w).Some? { RestoreKeeps(dir, w, PlannedProof(w).value, plan); }
  }

  lemma PhaseKeeps(dir: Dir, w: World, phase: Phase)
    requires Inv(dir, w) && phase in {RecoveryDesired, Recovering}
    ensures Inv(dir, w.(phase := phase))
  {
  }

  lemma RecoverKeeps(dir: Dir, w: World, plan: Plan)
    requires Inv(dir, w)
    ensures Inv(dir, Recover(w, plan).world)
  {
    hide Inv, RunAttempt;
    PhaseKeeps(dir, w, RecoveryDesired);
    PhaseKeeps(dir, w, Recovering);
    AttemptKeeps(dir, w.(phase := Recovering), plan);
  }

  lemma ConcludeKeeps(dir: Dir, w: World, phase: Phase, plan: Plan)
    requires Inv(dir, w) && w.phase == Recovering && phase in {RecoverySucceeded, RecoveryFailed}
    requires phase == RecoverySucceeded ==> w.original.Plain?
    ensures Inv(dir, Conclude(w, phase, plan).world)
  {
  }

  lemma NotedKeeps(dir: Dir, w: World, plan: Plan)
    requires Inv(dir, w) && w.phase == Recovering && w.original.Plain?
    ensures Inv(dir, Noted(w, plan).world)
  {
    ConcludeKeeps(dir, w, RecoveryFailed, plan);
    ConcludeKeeps(dir, w, RecoverySucceeded, plan);
    hide Inv, Conclude;
  }

  lemma MovedBackKeeps(dir: Dir, w: World)
    requires Inv(dir, w) && w.phase == Recovering && w.original.Empty?
    ensures var moved := w.(original := w.quarantine, quarantine := Empty); Inv(dir, moved) && moved.original.Plain?
  {
  }

  lemma RestoreKeeps(dir: Dir, w: World, proof: Proof, plan: Plan)
    requires Inv(dir, w) && w.phase == Recovering
    ensures Inv(dir, RunRestore(w, proof, plan).world)
  {
    hide Inv, Conclude, Noted;
    ConcludeKeeps(dir, w, RecoveryFailed, plan);
    var verdict := Judged(w.original, w.quarantine, proof);
    if verdict.Skips? {
      NotedKeeps(dir, w, plan);
    } else if verdict.Moves? {
      MovedBackKeeps(dir, w);
      var moved := w.(original := w.quarantine, quarantine := Empty);
      ConcludeKeeps(dir, moved, RecoveryFailed, plan);
      NotedKeeps(dir, moved, plan);
    }
  }

  lemma StepKeepsInv(dir: Dir, w: World, event: Event)
    requires Inv(dir, w) && !event.Interfere?
    ensures Inv(dir, Step(w, event))
  {
    hide Inv, RunCapture, Recover;
    match event
    case Run(plan) => if w.phase == Planned { RunKeeps(dir, w, plan); }
    case Recovery(plan) => RecoverKeeps(dir, w, plan);
  }

  lemma {:induction false} HistoryKeepsInv(dir: Dir, events: seq<Event>, states: seq<World>, k: nat)
    requires IsHistory(dir, events, states) && Undisturbed(events) && k < |states|
    ensures Inv(dir, states[k])
  {
    if k == 0 {
      assert Inv(dir, Init(dir));
    } else {
      hide Inv, Step;
      HistoryKeepsInv(dir, events, states, k - 1);
      StepKeepsInv(dir, states[k - 1], events[k - 1]);
    }
  }

  // Through every crash, exception and retry the directory is at exactly one of the two paths, still
  // itself and still bearing whatever token was ever recorded for it; a recovery recorded as
  // succeeded has left it at the original path.
  lemma AlwaysAtOnePlace(dir: Dir, events: seq<Event>, states: seq<World>, k: nat)
    requires IsHistory(dir, events, states) && Undisturbed(events) && k < |states|
    ensures var w := states[k];
            && AtOnePlace(w, dir)
            && (w.before.Some? && w.before.value.token.Some? ==> Where(w).token == w.before.value.token)
            && (w.captured.Some? ==> ProofOf(Where(w)) == w.captured.value)
            && (w.phase == RecoverySucceeded ==> w.original.Plain?)
  {
    HistoryKeepsInv(dir, events, states, k);
  }

  // A capture that died half-way is undone by one undisturbed replay exactly when the directory had
  // really moved and a token had been recorded for it; if not, the replay touches nothing.
  lemma ReplayUndoesIff(dir: Dir, plan: Plan, uuid: string)
    requires RunCapture(Init(dir), plan).world.phase == Attempting
    ensures var w := RunCapture(Init(dir), plan).world;
            var o := Recover(w, Plan(map[], uuid));
            && (o.world.phase == RecoverySucceeded <==>
                  w.quarantine.Plain? && (w.captured.Some? || (w.before.Some? && w.before.value.dir.Some? && w.before.value.token.Some?)))
            && (o.world.phase == RecoverySucceeded ==> o.world.original.Plain?)
            && (o.world.phase != RecoverySucceeded ==>
                  o.world.original == w.original && o.world.quarantine == w.quarantine)
  {
    assert Inv(dir, Init(dir));
    RunKeeps(dir, Init(dir), plan);
    var w := RunCapture(Init(dir), plan).world;
    hide RunCapture;
    RecoverKeeps(dir, w, Plan(map[], uuid));
    var started := w.(phase := Recovering);
    assert PlannedProof(started) == PlannedProof(w);
  }

  datatype PathError = PathMissing | PathTaken | Unsafe

  // The two paths as the filesystem primitives see and change them, check by check.
  class Paths {
    var original: Slot
    var quarantine: Slot

    // Creates the tag if there is none, and reads whatever tag there is.
    method TagOriginal(uuid: string) returns (token: Option<string>)
      requires original.Plain?
      modifies this`original
      ensures original == TagSlot(old(original), uuid) && token == TokenOf(original) && token.Some?
    {
      var dir := original.dir;
      if dir.token.None? {
        dir := dir.(token := Some(uuid));
        original := Plain(dir);
      }
      token := dir.token;
    }

    // Either the tagged directory is at the quarantine path and its old path is vacant, or nothing
    // has moved; the tag stays in both cases.
    method CaptureToQuarantine(uuid: string) returns (r: Result<Proof, PathError>)
      modifies this
      ensures r.Ok? <==> old(original).Plain? && old(quarantine).Empty?
      ensures r.Ok? ==> original == Empty && quarantine == TagSlot(old(original), uuid) && r.value == ProofOf(quarantine.dir)
      ensures r.Err? ==> original == TagSlot(old(original), uuid) && quarantine == old(quarantine)
    {
      if original.Empty? { return Err(PathMissing); }
      if original.Odd? { return Err(Unsafe); }
      var token := TagOriginal(uuid);
      if quarantine.Odd? { return Err(Unsafe); }
      if quarantine.Plain? { return Err(PathTaken); }
      var identity := (original.dir.device, original.dir.inode);
      quarantine, original := original, Empty;
      return Ok(Proof(identity.0, identity.1, token));
    }

    method RestoreCaptured(proof: Proof) returns (r: Result<(), PathError>)
      modifies this
      ensures r.Ok? <==> old(original).Empty? && Matches(old(quarantine), proof)
      ensures r.Ok? ==> original == old(quarantine) && quarantine == Empty
      ensures r.Err? ==> original == old(original) && quarantine == old(quarantine)
      ensures r == Err(PathTaken) <==> old(original).Plain?
      ensures r == Err(PathMissing) <==> old(original).Empty? && old(quarantine).Empty?
    {
      if original.Odd? { return Err(Unsafe); }
      if original.Plain? { return Err(PathTaken); }
      if quarantine.Empty? { return Err(PathMissing); }
      if quarantine.Odd? { return Err(Unsafe); }
      if (quarantine.dir.device, quarantine.dir.inode) != (proof.device, proof.inode) { return Err(Unsafe); }
      if proof.token.None? || quarantine.dir.token != proof.token { return Err(Unsafe); }
      original, quarantine := quarantine, Empty;
      return Ok(());
    }

    // The recovery action: an occupied or vacant path may only mean that the work is already done.
    method RestoreOrSkip(proof: Proof) returns (verdict: Verdict)
      modifies this
      ensures verdict == Judged(old(original), old(quarantine), proof)
      ensures verdict.Moves? ==> original == old(quarantine) && quarantine == Empty
      ensures !verdict.Moves? ==> original == old(original) && quarantine == old(quarantine)
    {
      var r := RestoreCaptured(proof);
      if r.Ok? { return Moves; }
      if r.error.Unsafe? { return Refuses; }
      if !quarantine.Empty? || !original.Plain? { return Refuses; }
      if (original.dir.device, original.dir.inode) != (proof.device, proof.inode) { return Refuses; }
      return if proof.token.Some? && original.dir.token == proof.token then Skips else Refuses;
    }
  }
}
