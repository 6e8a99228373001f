/**
  Cleaning up one kept artifact: its append-only status log, the rules for appending, and the driver
  that deletes the artifact between two rows of it (operation_journal/journal_artifact_cleanup.py,
  operation_journal/file_backup_artifacts.py, workspace_rollback.py).
*/
module ArtifactCleanup {
  import opened Snapshots
  import opened Steps
  import opened Wrappers

  datatype Status = CleanupPlanned | CleanupAttempting | CleanupSucceeded | CleanupSkipped | CleanupFailed | CleanupManual

  datatype Trigger = DeferredCleanup | CommitCleanup | RecoveryCleanup

  // `phase` is the phase the batch was in when the row was written.
  datatype Row = Row(trigger: Trigger, status: Status, resource: string, phase: Phase)

  // What the checkpoint says the artifact must be; `debt` when it cannot be trusted at all,
  // `retained` when its owner asked to keep it.
  datatype Candidate = Candidate(resource: string, contentHash: Digest, size: nat, debt: bool, retained: bool)

  datatype Stage = Replan | Retain | MarkAttempting | Delete | RecordResult

  datatype Plan = Plan(faults: map<Stage, Fault>)
  {
    function At(stage: Stage): Fault { if stage in faults then faults[stage] else Proceeds }
  }

  // deletes: what each physical deletion found as latest status, and the bytes it removed.
  datatype Deletion = Deletion(latest: Option<Status>, content: Bytes)

  datatype World = World(log: seq<Row>, artifact: Option<Bytes>, phase: Phase, deletes: seq<Deletion>)

  function PhaseFor(trigger: Trigger): Phase {
    match trigger
    case DeferredCleanup => Attempting
    case CommitCleanup => Succeeded
    case RecoveryCleanup => RecoverySucceeded
  }

  predicate Allowed(from: Status, to: Status) {
    match from
    case CleanupPlanned => to != CleanupPlanned
    case CleanupAttempting => to !in {CleanupPlanned, CleanupAttempting}
    case _ => false
  }

  predicate Retryable(status: Status) { status in {CleanupFailed, CleanupManual} }

  predicate Closed(status: Status) { status in {CleanupSucceeded, CleanupSkipped} }

  function Latest(w: World): Option<Row> {
    if w.log == [] then None else Some(w.log[|w.log| - 1])
  }

  function LatestStatus(w: World): Option<Status> {
    if w.log == [] then None else Some(w.log[|w.log| - 1].status)
  }

  // One append; a planned row opens the log or a retry, and only in the phase its trigger names.
  function Put(w: World, status: Status, trigger: Option<Trigger>, resource: Option<string>): Option<World> {
    var latest := Latest(w);
    if status == CleanupPlanned then
      if trigger.None? || w.phase != PhaseFor(trigger.value) then None
      else if latest.None? then
        if resource.None? then None
        else Some(w.(log := [Row(trigger.value, CleanupPlanned, resource.value, w.phase)]))
      else if resource.Some? && resource.value != latest.value.resource then None
      else if !Retryable(latest.value.status) then None
      else Some(w.(log := w.log + [Row(trigger.value, CleanupPlanned, latest.value.resource, w.phase)]))
    else if latest.None? then None
    else if trigger.Some? && trigger.value != latest.value.trigger then None
    else if resource.Some? && resource.value != latest.value.resource then None
    else if !Allowed(latest.value.status, status) then None
    else Some(w.(log := w.log + [Row(latest.value.trigger, status, latest.value.resource, w.phase)]))
  }

  // What the driver may do next about this artifact.
  datatype Prepared = Execute(world: World, mark: bool) | NothingToDo(world: World) | Ended(outcome: Outcome<World>)

  function PutStep(w: World, status: Status, trigger: Option<Trigger>, resource: Option<string>, fault: Fault): Outcome<World> {
    Attempt(w, Put(w, status, trigger, resource), fault)
  }

  function Replanned(w: World, c: Candidate, trigger: Trigger, plan: Plan): Prepared {
    var planned := PutStep(w, CleanupPlanned, Some(trigger), Some(c.resource), plan.At(Replan));
    if planned.Going? then Execute(planned.world, true) else Ended(planned)
  }

  // The log is empty: keep what is to be kept, else plan now if the batch is in a phase to be cleaned.
  function PrepareFirst(w: World, c: Candidate, trigger: Trigger, plan: Plan): Prepared {
    if c.retained then
      var planned := PutStep(w, CleanupPlanned, Some(trigger), Some(c.resource), plan.At(Replan));
      if !planned.Going? then Ended(planned)
      else
        var kept := PutStep(planned.world, CleanupSkipped, None, None, plan.At(Retain));
        if kept.Going? then NothingToDo(kept.world) else Ended(kept)
    else if trigger.DeferredCleanup? || w.phase != PhaseFor(trigger) then Ended(Raised(w, false))
    else Replanned(w, c, trigger, plan)
  }

  function Prepare(w: World, c: Candidate, trigger: Trigger, plan: Plan): Prepared {
    if w.log == [] then PrepareFirst(w, c, trigger, plan)
    else
      var latest := w.log[|w.log| - 1];
      match latest.status
      case CleanupPlanned => Execute(w, true)
      case CleanupFailed => Replanned(w, c, trigger, plan)
      case CleanupManual => Replanned(w, c, trigger, plan)
      case CleanupSucceeded => if latest.resource != c.resource then Ended(Raised(w, false)) else NothingToDo(w)
      case CleanupSkipped => if latest.resource != c.resource then Ended(Raised(w, false)) else NothingToDo(w)
      case CleanupAttempting => if latest.resource != c.resource then Ended(Raised(w, false)) else Execute(w, false)
  }

  // What looking at the artifact says: nothing against deleting it, or how the cleanup ends without.
  function Verify(w: World, c: Candidate): Option<Status> {
    if w.artifact.None? then Some(CleanupSkipped)
    else if Sha256(w.artifact.value) != c.contentHash || |w.artifact.value| != c.size then Some(CleanupManual)
    else None
  }

  function Deleted(w: World): World {
    if w.artifact.None? then w
    else w.(artifact := None, deletes := w.deletes + [Deletion(LatestStatus(w), w.artifact.value)])
  }

  function Finish(w: World, status: Status, plan: Plan): Outcome<World> {
    PutStep(w, status, None, None, plan.At(RecordResult))
  }

  function RemoveAndFinish(w: World, c: Candidate, plan: Plan): Outcome<World> {
    var removed := Attempt(w, Some(Deleted(w)), plan.At(Delete));
    if removed.Crashed? then removed
    else Finish(removed.world, if removed.Going? then CleanupSucceeded else CleanupFailed, plan)
  }

  function ExecuteCandidate(w: World, c: Candidate, mark: bool, plan: Plan): Outcome<World> {
    if c.debt then Finish(w, CleanupManual, plan)
    else if Verify(w, c).Some? then Finish(w, Verify(w, c).value, plan)
    else if !mark then RemoveAndFinish(w, c, plan)
    else
      var marked := PutStep(w, CleanupAttempting, None, None, plan.At(MarkAttempting));
      if marked.Going? then RemoveAndFinish(marked.world, c, plan) else marked
  }

  function Drive(w: World, c: Candidate, trigger: Trigger, plan: Plan): Outcome<World> {
    match Prepare(w, c, trigger, plan)
    case Ended(o) => o
    case NothingToDo(next) => Going(next)
    case Execute(next, mark) => ExecuteCandidate(next, c, mark, plan)
  }

  // The mutation plans the cleanup while it is attempting; the batch moves on; drivers come and go;
  // between their calls the artifact may be changed or removed by others.
  datatype Event =
    | PlanDeferred
    | Advance(phase: Phase)
    | Clean(trigger: Trigger, plan: Plan)
    | Interfere(artifact: Option<Bytes>)

  function Step(w: World, c: Candidate, event: Event): World {
    match event
    case PlanDeferred => Put(w, CleanupPlanned, Some(DeferredCleanup), Some(c.resource)).GetOr(w)
    case Advance(phase) => w.(phase := phase)
    case Clean(trigger, plan) => Drive(w, c, trigger, plan).world
    case Interfere(artifact) => w.(artifact := artifact)
  }

  function Init(artifact: Option<Bytes>, phase: Phase): World {
    World([], artifact, phase, [])
  }

  ghost predicate IsHistory(c: Candidate, artifact: Option<Bytes>, phase: Phase, events: seq<Event>, states: seq<World>) {
    && |states| == |events| + 1
    && states[0] == Init(artifact, phase)
    && forall i {:trigger events[i]} :: 0 <= i < |events| ==> states[i + 1] == Step(states[i], c, events[i])
  }

  // One row after another: a move of the table under the same trigger, or a new planned row after a
  // failure; the resource never changes and nothing follows a closing row.
  predicate Follows(row: Row, next: Row) {
    && next.resource == row.resource
    && (if next.status == CleanupPlanned then Retryable(row.status)
        else Allowed(row.status, next.status) && next.trigger == row.trigger)
  }

  predicate Disciplined(log: seq<Row>) {
    && (log != [] ==> log[0].status == CleanupPlanned)
    && (forall i :: 0 <= i < |log| - 1 ==> Follows(log[i], log[i + 1]))
    && (forall i :: 0 <= i < |log| && log[i].status == CleanupPlanned ==> log[i].phase == PhaseFor(log[i].trigger))
  }

  predicate RightDeletion(c: Candidate, d: Deletion) {
    d.latest == Some(CleanupAttempting) && Sha256(d.content) == c.contentHash && |d.content| == c.size
  }

  // Success is recorded only over an attempt.
  predicate Earned(log: seq<Row>) {
    forall i :: 0 <= i < |log| && log[i].status == CleanupSucceeded ==> i > 0 && log[i - 1].status == CleanupAttempting
  }

  predicate Inv(c: Candidate, w: World) {
    && Disciplined(w.log) && Earned(w.log)
    && (forall row :: row in w.log ==> row.resource == c.resource)
    && (forall d :: d in w.deletes ==> RightDeletion(c, d))
    && !(c.debt && w.deletes != [])
  }

  lemma ExtendedKeeps(log: seq<Row>, row: Row)
    requires Disciplined(log) && Earned(log)
    requires if log == [] then row.status == CleanupPlanned else Follows(log[|log| - 1], row)
    requires row.status == CleanupPlanned ==> row.phase == PhaseFor(row.trigger)
    requires row.status == CleanupSucceeded ==> log != [] && log[|log| - 1].status == CleanupAttempting
    ensures Disciplined(log + [row]) && Earned(log + [row])
  {
    hide Follows;
    var longer := log + [row];
    forall i | 0 <= i < |longer| - 1 ensures Follows(longer[i], longer[i + 1]) {
      if i < |log| - 1 { assert Follows(log[i], log[i + 1]); }
    }
  }

  lemma PutKeeps(c: Candidate, w: World, status: Status, trigger: Option<Trigger>, resource: Option<string>)
    requires Inv(c, w) && (resource.Some? ==> resource.value == c.resource)
    requires status == CleanupSucceeded ==> LatestStatus(w) == Some(CleanupAttempting)
    ensures var r := Put(w, status, trigger, resource);
            r.Some? ==> Inv(c, r.value) && LatestStatus(r.value) == Some(status) && r.value.artifact == w.artifact
  {
    hide Disciplined, Earned, RightDeletion;
    var r := Put(w, status, trigger, resource);
    if r.Some? {
      var row := r.value.log[|w.log|];
      assert r.value.log == w.log + [row];
      if w.log != [] { assert w.log[|w.log| - 1] in w.log; }
      ExtendedKeeps(w.log, row);
    }
  }

  lemma DeletedKeeps(c: Candidate, w: World)
    requires Inv(c, w) && !c.debt && Verify(w, c).None? && LatestStatus(w) == Some(CleanupAttempting)
    ensures Inv(c, Deleted(w)) && LatestStatus(Deleted(w)) == LatestStatus(w)
  {
    hide Disciplined, Earned;
  }

  lemma RemoveKeeps(c: Candidate, w: World, plan: Plan)
    requires Inv(c, w) && !c.debt && Verify(w, c).None? && LatestStatus(w) == Some(CleanupAttempting)
    ensures Inv(c, RemoveAndFinish(w, c, plan).world)
  {
    hide Inv, Put, Deleted, LatestStatus;
    DeletedKeeps(c, w);
    PutKeeps(c, w, CleanupFailed, None, None);
    PutKeeps(c, Deleted(w), CleanupSucceeded, None, None);
    PutKeeps(c, Deleted(w), CleanupFailed, None, None);
  }

  lemma ExecuteKeeps(c: Candidate, w: World, mark: bool, plan: Plan)
    requires Inv(c, w) && (!mark ==> LatestStatus(w) == Some(CleanupAttempting))
    ensures Inv(c, ExecuteCandidate(w, c, mark, plan).world)
  {
    hide Inv, Put, RemoveAndFinish;
    PutKeeps(c, w, CleanupManual, None, None);
    PutKeeps(c, w, CleanupSkipped, None, None);
    PutKeeps(c, w, CleanupAttempting, None, None);
    if !c.debt && Verify(w, c).None? {
      if mark {
        var marked := Put(w, CleanupAttempting, None, None);
        if marked.Some? { RemoveKeeps(c, marked.value, plan); }
      } else {
        RemoveKeeps(c, w, plan);
      }
    }
  }

  lemma DriveKeeps(c: Candidate, w: World, trigger: Trigger, plan: Plan)
    requires Inv(c, w)
    ensures Inv(c, Drive(w, c, trigger, plan).world)
  {
    hide Inv, Put, ExecuteCandidate;
    PutKeeps(c, w, CleanupPlanned, Some(trigger), Some(c.resource));
    var planned := Put(w, CleanupPlanned, Some(trigger), Some(c.resource));
    if planned.Some? { PutKeeps(c, planned.value, CleanupSkipped, None, None); }
    var prepared := Prepare(w, c, trigger, plan);
    if prepared.Execute? { ExecuteKeeps(c, prepared.world, prepared.mark, plan); }
  }

  lemma {:induction false} HistoryKeepsInv(c: Candidate, artifact: Option<Bytes>, phase: Phase, events: seq<Event>,
                                           states: seq<World>, k: nat)
    requires IsHistory(c, artifact, phase, events, states) && k < |states|
    ensures Inv(c, states[k])
  {
    if k > 0 {
      HistoryKeepsInv(c, artifact, phase, events, states, k - 1);
      var w := states[k - 1];
      match events[k - 1]
      case PlanDeferred => PutKeeps(c, w, CleanupPlanned, Some(DeferredCleanup), Some(c.resource));
      case Advance(_) =>
      case Clean(trigger, plan) => DriveKeeps(c, w, trigger, plan);
      case Interfere(_) =>
    }
  }

  // In every history the log opens with a planned row, keeps its resource, changes its trigger only
  // when retrying from a failure, and never grows past a closing row; an attempt comes right after
  // being planned, and success right after an attempt.
  lemma LogIsDisciplined(c: Candidate, artifact: Option<Bytes>, phase: Phase, events: seq<Event>, states: seq<World>, k: nat)
    requires IsHistory(c, artifact, phase, events, states) && k < |states|
    ensures var log := states[k].log;
            && Disciplined(log)
            && (forall i :: 0 <= i < |log| - 1 && log[i + 1].trigger != log[i].trigger ==>
                  log[i + 1].status == CleanupPlanned && Retryable(log[i].status))
            && (forall i :: 0 <= i < |log| && Closed(log[i].status) ==> i == |log| - 1)
            && (forall i :: 0 <= i < |log| && log[i].status == CleanupAttempting ==> i > 0 && log[i - 1].status == CleanupPlanned)
            && (forall i :: 0 <= i < |log| && log[i].status == CleanupSucceeded ==> i > 0 && log[i - 1].status == CleanupAttempting)
  {
    HistoryKeepsInv(c, artifact, phase, events, states, k);
    var log := states[k].log;
    forall i | 0 <= i < |log| - 1 ensures !Closed(log[i].status) {
      assert Follows(log[i], log[i + 1]);
    }
  }

  // Every physical deletion happened while the latest row said it was being attempted, and removed
  // exactly the bytes the checkpoint had recorded.
  lemma DeletesOnlyWhileAttempting(c: Candidate, artifact: Option<Bytes>, phase: Phase, events: seq<Event>,
                                   states: seq<World>, k: nat, d: Deletion)
    requires IsHistory(c, artifact, phase, events, states) && k < |states| && d in states[k].deletes
    ensures RightDeletion(c, d)
  {
    HistoryKeepsInv(c, artifact, phase, events, states, k);
  }

  predicate Trusted(c: Candidate, w: World) {
    !c.debt && (w.artifact.Some? ==> Sha256(w.artifact.value) == c.contentHash && |w.artifact.value| == c.size)
  }

  // From any state a history can reach, an undisturbed driver called in the phase of its trigger is
  // never rejected by the rules of the log. It closes the log exactly when it was closed already, or
  // the artifact is retained unplanned, or nothing speaks against the artifact; and it has deleted
  // the artifact whenever it says so.
  lemma DriverClosesIff(c: Candidate, artifact: Option<Bytes>, phase: Phase, events: seq<Event>, states: seq<World>, k: nat,
                        trigger: Trigger)
    requires IsHistory(c, artifact, phase, events, states) && k < |states|
    requires states[k].phase == PhaseFor(trigger) && !trigger.DeferredCleanup?
    ensures var w, o := states[k], Drive(states[k], c, trigger, Plan(map[]));
            && o.Going? && LatestStatus(o.world).Some? && LatestStatus(o.world).value !in {CleanupPlanned, CleanupAttempting}
            && (Closed(LatestStatus(o.world).value) <==>
                  || (LatestStatus(w).Some? && Closed(LatestStatus(w).value))
                  || (LatestStatus(w).None? && c.retained)
                  || Trusted(c, w))
            && (LatestStatus(o.world) == Some(CleanupSucceeded) && LatestStatus(w) != Some(CleanupSucceeded) ==> o.world.artifact.None?)
  {
    HistoryKeepsInv(c, artifact, phase, events, states, k);
    var w := states[k];
    assert w.log != [] ==> w.log[|w.log| - 1] in w.log;
    DriveUndisturbed(c, w, trigger);
  }

  lemma DriveUndisturbed(c: Candidate, w: World, trigger: Trigger)
    requires w.phase == PhaseFor(trigger) && !trigger.DeferredCleanup?
    requires w.log != [] ==> w.log[|w.log| - 1].resource == c.resource
    ensures var o := Drive(w, c, trigger, Plan(map[]));
            && o.Going? && LatestStatus(o.world).Some? && LatestStatus(o.world).value !in {CleanupPlanned, CleanupAttempting}
            && (Closed(LatestStatus(o.world).value) <==>
                  || (LatestStatus(w).Some? && Closed(LatestStatus(w).value))
                  || (LatestStatus(w).None? && c.retained)
                  || Trusted(c, w))
            && (LatestStatus(o.world) == Some(CleanupSucceeded) && LatestStatus(w) != Some(CleanupSucceeded) ==> o.world.artifact.None?)
  {
    var prepared := Prepare(w, c, trigger, Plan(map[]));
    if prepared.Execute? { ExecuteUndisturbed(c, prepared.world, prepared.mark); }
    hide ExecuteCandidate;
  }

  lemma ExecuteUndisturbed(c: Candidate, w: World, mark: bool)
    requires w.log != [] && LatestStatus(w) == Some(if mark then CleanupPlanned else CleanupAttempting)
    ensures var o := ExecuteCandidate(w, c, mark, Plan(map[]));
            && o.Going? && LatestStatus(o.world).Some? && LatestStatus(o.world).value !in {CleanupPlanned, CleanupAttempting}
            && (Closed(LatestStatus(o.world).value) <==> Trusted(c, w))
            && (LatestStatus(o.world) == Some(CleanupSucceeded) ==> o.world.artifact.None?)
  {
  }

  // What an undisturbed driver does with the artifact, from any state a history can reach: a trusted one
  // that is not retained is deleted, once, while being attempted, and the log closed as succeeded, or as
  // skipped if it was gone already. In every other case nothing is deleted: a closed log stays as it is,
  // what is to be retained is skipped, and what cannot be trusted is left to a human.
  lemma UndisturbedDriverDeletes(c: Candidate, artifact: Option<Bytes>, phase: Phase, events: seq<Event>, states: seq<World>,
                                 k: nat, trigger: Trigger)
    requires IsHistory(c, artifact, phase, events, states) && k < |states|
    requires states[k].phase == PhaseFor(trigger) && !trigger.DeferredCleanup?
    ensures var w, o := states[k], Drive(states[k], c, trigger, Plan(map[]));
            && o.Going?
            && if LatestStatus(w).Some? && Closed(LatestStatus(w).value) then o.world == w
               else if w.log != [] || !c.retained then
                 if Trusted(c, w) && w.artifact.Some? then
                   && LatestStatus(o.world) == Some(CleanupSucceeded) && o.world.artifact == None
                   && o.world.deletes == w.deletes + [Deletion(Some(CleanupAttempting), w.artifact.value)]
                 else
                   && LatestStatus(o.world) == Some(if Trusted(c, w) then CleanupSkipped else CleanupManual)
                   && o.world.artifact == w.artifact && o.world.deletes == w.deletes
               else
                 LatestStatus(o.world) == Some(CleanupSkipped) && o.world.artifact == w.artifact && o.world.deletes == w.deletes
  {
    HistoryKeepsInv(c, artifact, phase, events, states, k);
    var w := states[k];
    assert w.log != [] ==> w.log[|w.log| - 1] in w.log;
    hide IsHistory, Inv;
    var prepared := Prepare(w, c, trigger, Plan(map[]));
    PreparingDeletesNothing(c, w, trigger, Plan(map[]));
    assert prepared.Execute? ==> LatestStatus(prepared.world) == Some(if prepared.mark then CleanupPlanned else CleanupAttempting);
    if prepared.Execute? { ExecuteDeletes(c, prepared.world, prepared.mark); }
    hide ExecuteCandidate;
  }

  lemma ExecuteDeletes(c: Candidate, w: World, mark: bool)
    requires w.log != [] && LatestStatus(w) == Some(if mark then CleanupPlanned else CleanupAttempting)
    ensures var o := ExecuteCandidate(w, c, mark, Plan(map[]));
            && o.Going?
            && if Trusted(c, w) && w.artifact.Some? then
                 && LatestStatus(o.world) == Some(CleanupSucceeded) && o.world.artifact == None
                 && o.world.deletes == w.deletes + [Deletion(Some(CleanupAttempting), w.artifact.value)]
               else
                 && LatestStatus(o.world) == Some(if Trusted(c, w) then CleanupSkipped else CleanupManual)
                 && o.world.artifact == w.artifact && o.world.deletes == w.deletes
  {
  }

  // A cleanup nobody planned is not begun while the batch is still running, nor outside the phase its
  // trigger names.
  lemma UnplannedCleanupWaits(w: World, c: Candidate, trigger: Trigger, plan: Plan)
    requires w.log == [] && !c.retained && (trigger == DeferredCleanup || w.phase != PhaseFor(trigger))
    ensures Drive(w, c, trigger, plan) == Raised(w, false)
  {
  }

  // Nobody else putting bytes back, the artifact is deleted at most once, however often the driver
  // died and came back.
  lemma {:induction false} DeletedAtMostOnce(c: Candidate, artifact: Option<Bytes>, phase: Phase, events: seq<Event>,
                                             states: seq<World>, k: nat)
    requires IsHistory(c, artifact, phase, events, states) && k < |states|
    requires forall i :: 0 <= i < |events| && events[i].Interfere? ==> events[i].artifact.None?
    ensures |states[k].deletes| <= 1 && (states[k].deletes != [] ==> states[k].artifact.None?)
  {
    if k > 0 {
      DeletedAtMostOnce(c, artifact, phase, events, states, k - 1);
      var w := states[k - 1];
      match events[k - 1]
      case Clean(trigger, plan) => DriveDeletesOnce(c, w, trigger, plan);
      case PlanDeferred =>
      case Advance(_) =>
      case Interfere(_) =>
    }
  }

  predicate Sparing(w: World, after: World) {
    || (after.artifact == w.artifact && after.deletes == w.deletes)
    || (w.artifact.Some? && after.artifact.None? && |after.deletes| == |w.deletes| + 1)
  }

  lemma ExecuteSparing(c: Candidate, w: World, mark: bool, plan: Plan)
    ensures Sparing(w, ExecuteCandidate(w, c, mark, plan).world)
  {
    var base := if mark then Put(w, CleanupAttempting, None, None).GetOr(w) else w;
    RemoveSparing(c, base, plan);
    hide RemoveAndFinish;
  }

  lemma RemoveSparing(c: Candidate, w: World, plan: Plan)
    ensures Sparing(w, RemoveAndFinish(w, c, plan).world)
  {
  }

  // Preparing only appends rows.
  lemma PreparingDeletesNothing(c: Candidate, w: World, trigger: Trigger, plan: Plan)
    ensures var p := Prepare(w, c, trigger, plan);
            var after := if p.Ended? then p.outcome.world else p.world;
            after.artifact == w.artifact && after.deletes == w.deletes
  {
    hide Put;
    PuttingDeletesNothing(w, CleanupPlanned, Some(trigger), Some(c.resource));
    var planned := Put(w, CleanupPlanned, Some(trigger), Some(c.resource));
    if planned.Some? { PuttingDeletesNothing(planned.value, CleanupSkipped, None, None); }
  }

  lemma PuttingDeletesNothing(w: World, status: Status, trigger: Option<Trigger>, resource: Option<string>)
    ensures var r := Put(w, status, trigger, resource);
            r.Some? ==> r.value.artifact == w.artifact && r.value.deletes == w.deletes
  {
  }

  lemma DriveDeletesOnce(c: Candidate, w: World, trigger: Trigger, plan: Plan)
    ensures Sparing(w, Drive(w, c, trigger, plan).world)
  {
    hide ExecuteCandidate, Prepare;
    PreparingDeletesNothing(c, w, trigger, plan);
    var prepared := Prepare(w, c, trigger, plan);
    if prepared.Execute? { ExecuteSparing(c, prepared.world, prepared.mark, plan); }
  }

  // The driver as it appends rows and deletes.
  class CleanupRun {
    var log: seq<Row>
    var artifact: Option<Bytes>
    var phase: Phase
    var deletes: seq<Deletion>

    ghost function Now(): World
      reads this
    {
      World(log, artifact, phase, deletes)
    }

    method Record(status: Status, trigger: Option<Trigger>, resource: Option<string>, fault: Fault) returns (signal: Signal)
      modifies this`log
      ensures OutcomeOf(Now(), signal) == PutStep(old(Now()), status, trigger, resource, fault)
    {
      var row := None;
      if log == [] {
        if status == CleanupPlanned && trigger.Some? && resource.Some? && phase == PhaseFor(trigger.value) {
          row := Some(Row(trigger.value, CleanupPlanned, resource.value, phase));
        }
      } else {
        var latest := log[|log| - 1];
        var sameResource := resource.None? || resource.value == latest.resource;
        if status == CleanupPlanned {
          if trigger.Some? && phase == PhaseFor(trigger.value) && sameResource && Retryable(latest.status) {
            row := Some(Row(trigger.value, CleanupPlanned, latest.resource, phase));
          }
        } else if sameResource && (trigger.None? || trigger.value == latest.trigger) && Allowed(latest.status, status) {
          row := Some(Row(latest.trigger, status, latest.resource, phase));
        }
      }
      assert row.Some? && log == [] ==> log + [row.value] == [row.value];
      if row.Some? && TakesEffect(fault) { log := log + [row.value]; }
      signal := SignalOf(fault, row.Some?);
    }

    method DeleteArtifact(fault: Fault) returns (signal: Signal)
      modifies this`artifact, this`deletes
      ensures OutcomeOf(Now(), signal) == Attempt(old(Now()), Some(Deleted(old(Now()))), fault)
    {
      if TakesEffect(fault) && artifact.Some? {
        var latest := if log == [] then None else Some(log[|log| - 1].status);
        deletes := deletes + [Deletion(latest, artifact.value)];
        artifact := None;
      }
      signal := SignalOf(fault, true);
    }

    method RemoveAndRecord(c: Candidate, plan: Plan) returns (signal: Signal)
      modifies this
      ensures OutcomeOf(Now(), signal) == RemoveAndFinish(old(Now()), c, plan)
    {
      hide Put, Deleted;
      signal := DeleteArtifact(plan.At(Delete));
      if signal.Stopped? { return; }
      signal := Record(if signal == Returned then CleanupSucceeded else CleanupFailed, None, None, plan.At(RecordResult));
    }

    // Looks first, marks the attempt only when something is to be deleted, and deletes last.
    method ExecuteAndRecord(c: Candidate, mark: bool, plan: Plan) returns (signal: Signal)
      modifies this
      ensures OutcomeOf(Now(), signal) == ExecuteCandidate(old(Now()), c, mark, plan)
    {
      hide Put, RemoveAndFinish;
      if c.debt { signal := Record(CleanupManual, None, None, plan.At(RecordResult)); return; }
      var verdict := if artifact.None? then Some(CleanupSkipped)
                     else if Sha256(artifact.value) != c.contentHash || |artifact.value| != c.size then Some(CleanupManual)
                     else None;
      if verdict.Some? { signal := Record(verdict.value, None, None, plan.At(RecordResult)); return; }
      if mark {
        signal := Record(CleanupAttempting, None, None, plan.At(MarkAttempting));
        if signal != Returned { return; }
      }
      signal := RemoveAndRecord(c, plan);
    }

    // Plans a first attempt or a retry, or finds out that there is nothing left to do.
    method DriveCandidate(c: Candidate, trigger: Trigger, plan: Plan) returns (signal: Signal)
      modifies this
      ensures OutcomeOf(Now(), signal) == Drive(old(Now()), c, trigger, plan)
    {
      hide Put, ExecuteCandidate;
      if log == [] && c.retained {
        signal := Record(CleanupPlanned, Some(trigger), Some(c.resource), plan.At(Replan));
        if signal != Returned { return; }
        signal := Record(CleanupSkipped, None, None, plan.At(Retain));
        return;
      }
      if log == [] && (trigger.DeferredCleanup? || phase != PhaseFor(trigger)) { return Threw(false); }
      var mark := true;
      if log == [] || Retryable(log[|log| - 1].status) {
        signal := Record(CleanupPlanned, Some(trigger), Some(c.resource), plan.At(Replan));
        if signal != Returned { return; }
      } else {
        var latest := log[|log| - 1];
        mark := latest.status == CleanupPlanned;
        if !mark && latest.resource != c.resource { return Threw(false); }
        if Closed(latest.status) { return Returned; }
      }
      signal := ExecuteAndRecord(c, mark, plan);
    }
  }
}
