/**
  One journaled write or delete, crash by crash: the checkpoints written around the mutation,
  the failure records, the drivers that recover the batch later, and the restore they run
  (operation_journal/filesystem_mutations.py, filesystem_mutation_checkpoints.py,
  filesystem_failure_records.py, filesystem_recovery.py, workspace_rollback.py).
*/
module FileMutation {
  import opened Wrappers
  import opened Snapshots
  import opened Backups
  import opened FileRecoveryPlanning
  import opened Steps

  datatype Mutation = WriteFile(content: Bytes, permissions: Option<nat>, text: bool) | RemoveFile(missingOk: bool)

  // captureProof is the caller's choice to keep a backup for automatic rollback.
  datatype Request = Request(path: string, key: string, mutation: Mutation, captureProof: bool)

  // Every point at which the process may be stopped.
  datatype Stage =
    | Start | TakeBefore
    | RecordBefore | RecordIntent | PlanCleanup | CaptureBackup | RecordBackup | RecordExpectedAfter
    | CheckAuthority | Mutate | TakeAfter | RecordAfter | MarkSucceeded
    | FailureSnapshotStage | FailureCheckpoint | MarkFailed | RecordDesired | LeaseLostMarker
    | ReplaySnapshot | MarkDesired | StartRecovery | PlanAction | RunRestore | RecordOutcome

  // What the environment does to one call; mtime and device are those a written file gets.
  datatype Plan = Plan(faults: map<Stage, Fault>, mtime: nat, device: nat)
  {
    function At(stage: Stage): Fault { if stage in faults then faults[stage] else Proceeds }
  }

  datatype World = World(
    node: Node,
    artifact: Option<Bytes>,
    tick: nat,
    phase: Phase,
    checkpoints: seq<Checkpoint>,
    failures: seq<FailurePayload>,
    // locals of the running call
    seen: Option<Snapshot>,
    planned: Option<FileBackup>,
    observed: Option<Snapshot>,
    // history: batch starts, mutation calls, what the mutation left, and whether the bytes kept were lost
    starts: nat,
    calls: nat,
    result: Option<Node>,
    lost: bool)

  const DEFAULT_PERMISSIONS: nat := 0x180 // rw for the owner only

  function OperationOf(mutation: Mutation): Operation {
    match mutation
    case WriteFile(_, _, text) => if text then WriteText else WriteBytes
    case RemoveFile(_) => DeleteFile
  }

  function DesiredOf(req: Request): Desired {
    match req.mutation
    case WriteFile(content, _, _) => DesiredFile(req.path, |content|, Sha256(content))
    case RemoveFile(_) => DesiredMissing(req.path)
  }

  // The atomic replacement or removal; None when the primitive raises.
  function Mutated(mutation: Mutation, node: Node, stamp: Stamp): Option<Node> {
    match mutation
    case WriteFile(content, permissions, _) =>
      if node.File? then Some(File(content, permissions.GetOr(node.permissions), stamp))
      else if node.Absent? then Some(File(content, permissions.GetOr(DEFAULT_PERMISSIONS), stamp))
      else None
    case RemoveFile(missingOk) =>
      if node.File? || (node.Absent? && missingOk) then Some(Absent) else None
  }

  // A new file gets an inode number never seen at this path before.
  function NewStamp(w: World, plan: Plan): Stamp {
    Stamp(plan.mtime, plan.device, w.tick)
  }

  // A checkpoint may be appended only while the batch is being attempted.
  function Append(req: Request, w: World, kind: Kind, payload: Payload): Option<World> {
    if w.phase == Attempting
    then Some(w.(checkpoints := w.checkpoints + [Checkpoint(kind, req.key, payload)]))
    else None
  }

  // What one step of the mutation makes durable; None when the step itself raises.
  function Effect(req: Request, w: World, stage: Stage, plan: Plan): Option<World> {
    match stage
    case Start =>
      if w.phase == Planned && w.checkpoints == [] then Some(w.(phase := Attempting, starts := w.starts + 1, lost := false))
      else None
    case TakeBefore => Some(w.(seen := Some(TakeSnapshot(req.path, w.node))))
    case RecordBefore => if w.seen.Some? then Append(req, w, Before, Observed(w.seen.value)) else None
    case RecordIntent =>
      var planned := if w.seen.Some? then PlannedBackup(w.seen.value, w.node) else None;
      if planned.Some? then Append(req, w.(planned := planned), BackupIntent, BackedUp(planned.value)) else None
    case CaptureBackup =>
      if w.seen.None? || w.planned.None? || PlannedBackup(w.seen.value, w.node) != w.planned then None
      else if !w.planned.value.existed then Some(w)
      else
        var bytes := CapturedBytes(w.seen.value, w.node);
        if bytes.Some? then Some(w.(artifact := bytes)) else None
    case RecordBackup => if w.planned.Some? then Append(req, w, Backup, BackedUp(w.planned.value)) else None
    case RecordExpectedAfter => Append(req, w, ExpectedAfter, Wanted(DesiredOf(req)))
    case Mutate =>
      var node := Mutated(req.mutation, w.node, NewStamp(w, plan));
      if node.Some? then Some(w.(node := node.value, tick := w.tick + 1, result := node)) else None
    case TakeAfter => Some(w.(observed := Some(TakeSnapshot(req.path, w.node))))
    case RecordAfter => if w.observed.Some? then Append(req, w, After, Observed(w.observed.value)) else None
    case MarkSucceeded => if w.phase == Attempting then Some(w.(phase := Succeeded)) else None
    case MarkFailed => if w.phase == Attempting then Some(w.(phase := Failed)) else None
    case _ => Some(w)
  }

  function Perform(req: Request, w: World, stage: Stage, plan: Plan): Outcome<World> {
    Attempt(w, Effect(req, w, stage, plan), plan.At(stage))
  }

  function PerformAll(req: Request, w: World, stages: seq<Stage>, plan: Plan): Outcome<World>
    decreases |stages|
  {
    if stages == [] then Going(w)
    else
      var first := Perform(req, w, stages[0], plan);
      if first.Going? then PerformAll(req, first.world, stages[1..], plan) else first
  }

  function PrepareStages(req: Request): seq<Stage> {
    if req.captureProof
    then [RecordBefore, RecordIntent, PlanCleanup, CaptureBackup, RecordBackup, RecordExpectedAfter]
    else [RecordBefore]
  }

  function Desire(w: World, failure: FailurePayload): World {
    w.(phase := RecoveryDesired, failures := w.failures + [failure])
  }

  // The marker a writer may still leave after losing its lease.
  function MarkLeaseLost(w: World, failure: FailurePayload, plan: Plan): Outcome<World> {
    Attempt(w, if w.phase in {Attempting, Failed, RecoveryFailed} then Some(Desire(w, failure)) else None,
            plan.At(LeaseLostMarker))
  }

  function FailAndDesire(req: Request, w: World, failure: FailurePayload, plan: Plan): Outcome<World> {
    var failed := Perform(req, w, MarkFailed, plan);
    if failed.Raised? && failed.leaseLost then MarkLeaseLost(failed.world, failure, plan)
    else if !failed.Going? then failed
    else
      var desired := Attempt(failed.world, Some(Desire(failed.world, failure)), plan.At(RecordDesired));
      if desired.Raised? && desired.leaseLost then MarkLeaseLost(desired.world, failure, plan) else desired
  }

  // An observation made for a failure record; a failing snapshot is recorded as missing.
  datatype Look = Looked(snapshot: Option<Snapshot>) | Died

  function LookAt(req: Request, w: World, fault: Fault): Look {
    match fault
    case Proceeds => Looked(Some(TakeSnapshot(req.path, w.node)))
    case RaisesBefore | RaisesAfter | LosesLease => Looked(None)
    case CrashesBefore | CrashesAfter => Died
  }

  function RecordMutationFailure(req: Request, w: World, stage: Option<string>, plan: Plan): Outcome<World> {
    match LookAt(req, w, plan.At(FailureSnapshotStage))
    case Died => Crashed(w)
    case Looked(None) => FailAndDesire(req, w, FailurePayload(stage, None, None), plan)
    case Looked(Some(s)) =>
      var failure := FailurePayload(stage, Some(s), None);
      var noted := Attempt(w, Append(req, w, Failure, Observed(s)), plan.At(FailureCheckpoint));
      if noted.Going? then FailAndDesire(req, noted.world, failure, plan)
      else if noted.Raised? && noted.leaseLost then MarkLeaseLost(noted.world, failure, plan)
      else noted
  }

  function RecordPostMutationFailure(req: Request, w: World, after: Option<Snapshot>, stage: string, plan: Plan): Outcome<World> {
    if after.Some? then FailAndDesire(req, w, FailurePayload(Some(stage), None, after), plan)
    else
      match LookAt(req, w, plan.At(FailureSnapshotStage))
      case Died => Crashed(w)
      case Looked(s) => FailAndDesire(req, w, FailurePayload(Some(stage), None, s), plan)
  }

  // The whole call on a planned batch.
  function RunMutation(req: Request, w: World, plan: Plan): Outcome<World> {
    var started := Perform(req, w, Start, plan);
    if !started.Going? then started else
    var before := Perform(req, started.world, TakeBefore, plan);
    if before.Raised? then
      Reraised(FailAndDesire(req, before.world, FailurePayload(Some("before_snapshot"), None, None), plan))
    else if before.Crashed? then before
    else PrepareMutation(req, before.world, plan)
  }

  function PrepareMutation(req: Request, w: World, plan: Plan): Outcome<World> {
    var prepared := PerformAll(req, w, PrepareStages(req), plan);
    if prepared.Raised? then Reraised(RecordMutationFailure(req, prepared.world, Some(PREPARE_CHECKPOINTS), plan))
    else if prepared.Crashed? then prepared else
    var allowed := Perform(req, prepared.world, CheckAuthority, plan);
    if allowed.Raised? then Reraised(RecordMutationFailure(req, allowed.world, None, plan))
    else if allowed.Crashed? then allowed
    else CallMutation(req, allowed.world, plan)
  }

  function CallMutation(req: Request, w: World, plan: Plan): Outcome<World> {
    var mutated := Perform(req, w.(calls := w.calls + 1), Mutate, plan);
    if mutated.Raised? then Reraised(RecordMutationFailure(req, mutated.world, None, plan))
    else if mutated.Crashed? then mutated
    else FinishMutation(req, mutated.world, plan)
  }

  function FinishMutation(req: Request, w: World, plan: Plan): Outcome<World> {
    var after := Perform(req, w, TakeAfter, plan);
    if after.Raised? then Reraised(RecordPostMutationFailure(req, after.world, None, "after_snapshot", plan))
    else if after.Crashed? then after
    else RecordResult(req, after.world, plan)
  }

  function RecordResult(req: Request, w: World, plan: Plan): Outcome<World> {
    var recorded := Perform(req, w, RecordAfter, plan);
    if recorded.Raised? then
      Reraised(RecordPostMutationFailure(req, recorded.world, w.observed, "after_checkpoint", plan))
    else if recorded.Crashed? then recorded else
    var marked := Perform(req, recorded.world, MarkSucceeded, plan);
    if marked.Raised? then
      Reraised(RecordPostMutationFailure(req, marked.world, w.observed, "mark_succeeded", plan))
    else marked
  }

  // Who recovers: a transaction rolling itself back, a transaction reentered later, or the
  // replay that a new holder of the workspace lease runs.
  datatype Driver = AutomaticRollback | PendingRollback | WorkspaceReplay

  function LatestFailure(w: World): Option<FailurePayload> {
    if w.failures == [] then None else Some(w.failures[|w.failures| - 1])
  }

  function VerdictOf(req: Request, w: World): Verdict {
    RecoveryProof(OperationOf(req.mutation), req.path, Some(req.key), w.checkpoints, LatestFailure(w))
  }

  // Transaction rollback refuses a batch whose proof is neither a noop nor carries a backup.
  predicate Supported(verdict: Verdict) {
    verdict.Noop? || verdict.Restore? || verdict == Manual(MissingExpectedCurrentProof)
  }

  function Prepare(req: Request, w: World, driver: Driver, plan: Plan): Outcome<World> {
    if w.phase == RecoveryDesired then Going(w)
    else if w.phase in {Failed, RecoveryFailed} || (w.phase == Succeeded && driver != PendingRollback) then
      Attempt(w, Some(w.(phase := RecoveryDesired)), plan.At(MarkDesired))
    else if driver == WorkspaceReplay && w.phase in {Attempting, Recovering} then
      match LookAt(req, w, plan.At(ReplaySnapshot))
      case Died => Crashed(w)
      case Looked(s) =>
        Attempt(w, Some(Desire(w, FailurePayload(Some("workspace_recovery_replay"), s, None))), plan.At(MarkDesired))
    else Raised(w, false)
  }

  function Conclude(w: World, phase: Phase, plan: Plan): Outcome<World> {
    Attempt(w, Some(w.(phase := phase)), plan.At(RecordOutcome))
  }

  function RunAction(req: Request, w: World, backup: FileBackup, expected: Snapshot, plan: Plan): Outcome<World>
    requires backup.Valid()
  {
    var planned := Attempt(w, Some(w), plan.At(PlanAction));
    if planned.Crashed? then planned
    else if planned.Raised? then Conclude(planned.world, RecoveryFailed, plan)
    else
      var r := RestoreBackup(backup, w.node, w.artifact, Some(expected), false, NewStamp(w, plan));
      if r.Refused? then Conclude(w, RecoveryFailed, plan)
      else
        var done := Attempt(w, Some(w.(node := r.node, tick := w.tick + 1)), plan.At(RunRestore));
        if done.Crashed? then done
        else if done.Raised? then Conclude(done.world, RecoveryFailed, plan)
        else Conclude(done.world, RecoverySucceeded, plan)
  }

  lemma VerdictBackupIsValid(req: Request, w: World)
    ensures VerdictOf(req, w).Restore? ==> VerdictOf(req, w).backup.Valid()
  {
  }

  function Recover(req: Request, w: World, driver: Driver, plan: Plan): Outcome<World> {
    var ready := Prepare(req, w, driver, plan);
    if !ready.Going? then ready
    else if driver != WorkspaceReplay && !Supported(VerdictOf(req, ready.world)) then Raised(ready.world, false)
    else
      var started := Attempt(ready.world, Some(ready.world.(phase := Recovering)), plan.At(StartRecovery));
      if !started.Going? then started
      else
        VerdictBackupIsValid(req, started.world);
        match VerdictOf(req, started.world)
        case Noop => Conclude(started.world, RecoverySucceeded, plan)
        case Restore(backup, expected) => RunAction(req, started.world, backup, expected, plan)
        case _ => Conclude(started.world, RecoveryFailed, plan)
  }

  // One thing that happens to the batch: its caller runs (or retries) it, some driver recovers
  // it, or the stored backup bytes disappear. Nothing else touches the path.
  datatype Event =
    | Run(plan: Plan, takesOver: bool)
    | Recovery(driver: Driver, plan: Plan)
    | LoseArtifact

  function Step(req: Request, w: World, event: Event): World {
    match event
    case Run(plan, takesOver) =>
      if w.phase == Planned then RunMutation(req, w, plan).world
      else if w.phase == Attempting && takesOver then w.(phase := RecoveryDesired)
      else w
    case Recovery(driver, plan) => Recover(req, w, driver, plan).world
    case LoseArtifact => w.(artifact := None, lost := true)
  }

  function Init(original: Node, tick: nat): World {
    World(original, None, tick, Planned, [], [], None, None, None, 0, 0, None, false)
  }

  predicate InodeBelow(node: Node, bound: nat) {
    node.Absent? || node.stamp.inode < bound
  }

  // states[k] is what k events have led to, starting from an untouched path and a planned batch.
  ghost predicate IsHistory(req: Request, original: Node, tick: nat, events: seq<Event>, states: seq<World>) {
    && InodeBelow(original, tick)
    && |states| == |events| + 1
    && states[0] == Init(original, tick)
    && forall i {:trigger events[i]} :: 0 <= i < |events| ==> states[i + 1] == Step(req, states[i], events[i])
  }
}
