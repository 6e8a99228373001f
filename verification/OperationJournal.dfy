/**
  Leases, batches and the guards that decide who may write a batch: every write is one
  all-or-nothing transaction (operation_journal/journal_guards.py, journal_batch.py,
  journal_recovery.py, journal_recovery_actions.py, journal_artifact_cleanup.py,
  workspace_state/leases.py, workspace_rollback.py).
*/
module OperationJournal {
  import opened Steps
  import opened Wrappers

  // Authority as a process holds it; the store keeps the current row per lease name.
  datatype Lease = Lease(name: string, owner: string, token: string, fencing: nat)

  datatype LeaseRow = LeaseRow(owner: string, token: string, fencing: nat, expires: int)

  datatype Status = ActionPlanned | ActionAttempting | ActionSucceeded | ActionFailed | ActionSkipped | ActionManual

  // What one committed transaction added to a batch, and the fencing token it was made with.
  datatype What =
    | Created
    | Started(operationId: string)
    | Operation(operationId: string)
    | Checkpoint(attempt: Option<string>)
    | Marked(phase: Phase)
    | Recovery(recoveryId: string, phase: Phase)
    | Action(attemptId: string, actionId: string, status: Status)
    | Cleanup(artifactId: string)

  datatype Entry = Entry(writer: nat, what: What)

  // Everything a request is compared on when its idempotency key is seen again.
  datatype Request = Request(owner: string, runId: string, operationRunId: Option<string>, operationPhaseId: Option<string>,
                             resourceKey: Option<string>, claimOwner: Option<string>, claimScope: Option<string>,
                             payload: string)

  // The token digest is taken as injective, so the batch is modelled as keeping the token itself.
  datatype Batch = Batch(key: string, leaseName: string, leaseOwner: string, leaseToken: string, fencing: nat,
                         request: Request, phase: Phase, log: seq<Entry>)

  // keys is the unique index on idempotency keys.
  datatype Journal = Journal(leases: map<string, LeaseRow>, keys: map<string, string>, batches: map<string, Batch>)

  datatype Error =
    | LeaseLost | BatchNotFound | LeaseMismatch | InvalidTransition | StartConflict
    | RequestMismatch | AttemptMismatch | DuplicateId

  datatype BatchCommand =
    | Start(operationId: string)
    | AppendOperation(operationId: string)
    | RecordCheckpoint(attempt: Option<string>, handoffId: string)
    | Mark(phase: Phase)
    | RecordRecovery(phase: Phase, attempt: Option<string>, recoveryId: string, handoffId: string)
    | StartRecovery(recoveryId: string, handoffId: string)
    | Interrupt(recoveryId: string)
    | MarkLeaseLost(recoveryId: string)
    | RecordAction(attemptId: string, actionId: string, status: Status, handoffId: string)
    | RecordCleanup(artifactId: string)
    | RecoverAbandoned(recoveryId: string)

  // Callers pass the lease they hold, or believe they hold, and their own clock reading.
  datatype Command =
    | Acquire(name: string, owner: string, token: string, ttl: nat, now: int)
    | Heartbeat(lease: Lease, ttl: nat, now: int)
    | Release(lease: Lease, newToken: string, now: int)
    | CreateBatch(key: string, batchId: string, lease: Lease, request: Request, now: int)
    | OnBatch(batchId: string, lease: Lease, resourceKey: Option<string>, now: int, command: BatchCommand)

  predicate Holds(row: LeaseRow, lease: Lease) {
    row.owner == lease.owner && row.token == lease.token && row.fencing == lease.fencing
  }

  predicate Current(leases: map<string, LeaseRow>, lease: Lease, now: int) {
    lease.name in leases && Holds(leases[lease.name], lease) && leases[lease.name].expires > now
  }

  predicate ValidTransition(from: Phase, to: Phase) {
    match from
    case Planned => to == Attempting
    case Attempting => to in {Succeeded, Failed}
    case Failed | RecoveryFailed => to == RecoveryDesired
    case RecoveryDesired => to == Recovering
    case Recovering => to in {RecoverySucceeded, RecoveryFailed}
    case Succeeded | RecoverySucceeded => false
  }

  predicate IsRecord(what: What) {
    !what.Created? && !what.Marked?
  }

  predicate HasRecords(b: Batch) {
    exists e :: e in b.log && IsRecord(e.what)
  }

  predicate RightResource(b: Batch, resourceKey: Option<string>) {
    b.request.resourceKey.None? || resourceKey == b.request.resourceKey
  }

  predicate UsesRecoveryId(log: seq<Entry>, id: string) {
    exists e :: e in log && e.what.Recovery? && e.what.recoveryId == id
  }

  predicate FreshRecoveryId(j: Journal, id: string) {
    forall k :: k in j.batches ==> !UsesRecoveryId(j.batches[k].log, id)
  }

  // The newest recovery row of a batch.
  function LatestRecovery(log: seq<Entry>): (latest: Option<Entry>)
    ensures latest.Some? ==> latest.value in log && latest.value.what.Recovery?
    ensures latest.None? <==> forall e :: e in log ==> !e.what.Recovery?
  {
    if log == [] then None
    else
      assert log == log[..|log| - 1] + [log[|log| - 1]];
      if log[|log| - 1].what.Recovery? then Some(log[|log| - 1]) else LatestRecovery(log[..|log| - 1])
  }

  predicate ActiveAttempt(b: Batch, attempt: string) {
    var latest := LatestRecovery(b.log);
    latest.Some? && latest.value.what == Recovery(attempt, Recovering)
  }

  function Append(b: Batch, lease: Lease, what: What): Batch {
    b.(log := b.log + [Entry(lease.fencing, what)])
  }

  function Rebind(b: Batch, lease: Lease): Batch {
    b.(leaseOwner := lease.owner, leaseToken := lease.token, fencing := lease.fencing)
  }

  // A newer holder takes a recovery over by a row that supersedes whatever attempt was running.
  function Handoff(b: Batch, lease: Lease, handoffId: string): Batch {
    Append(Rebind(b, lease), lease, Recovery(handoffId, RecoveryDesired))
  }

  function ForWrite(b: Batch, lease: Lease): Result<Batch, Error> {
    if b.leaseName != lease.name || b.fencing != lease.fencing then Err(LeaseMismatch) else Ok(b)
  }

  function ForRecoveryWrite(b: Batch, lease: Lease, to: Phase, handoffId: string): Result<(Batch, bool), Error> {
    if b.leaseName != lease.name then Err(LeaseMismatch)
    else if b.fencing == lease.fencing then Ok((b, false))
    else if b.fencing < lease.fencing
            && (|| (to in {Recovering, RecoverySucceeded, RecoveryFailed} && b.phase == RecoveryDesired)
                || (to == RecoveryDesired && b.phase in {Failed, Recovering, RecoveryFailed}))
    then Ok((Handoff(b, lease, handoffId), true))
    else Err(LeaseMismatch)
  }

  function ForActionWrite(b: Batch, lease: Lease, handoffId: string): Result<Batch, Error> {
    if b.leaseName != lease.name then Err(LeaseMismatch)
    else if b.phase != Recovering then Err(InvalidTransition)
    else if b.fencing == lease.fencing then Ok(b)
    else if b.fencing < lease.fencing then Ok(Handoff(b, lease, handoffId))
    else Err(LeaseMismatch)
  }

  // The check an authority makes before and after it lets a recovery touch the filesystem.
  predicate AttemptIsCurrent(j: Journal, id: string, lease: Lease, attempt: string, now: int) {
    && Current(j.leases, lease, now)
    && id in j.batches
    && var b := j.batches[id];
       && b.leaseName == lease.name && b.fencing == lease.fencing
       && b.phase == Recovering && ActiveAttempt(b, attempt)
  }

  function BatchStart(b: Batch, lease: Lease, resourceKey: Option<string>, operationId: string): Result<Batch, Error> {
    if b.phase != Planned then Err(StartConflict)
    else if b.leaseName != lease.name || b.fencing > lease.fencing then Err(LeaseMismatch)
    else if !RightResource(b, resourceKey) then Err(RequestMismatch)
    else if HasRecords(b) then Err(StartConflict)
    else
      var bound := if b.fencing != lease.fencing then Rebind(b, lease) else b;
      Ok(Append(bound, lease, Started(operationId)).(phase := Attempting))
  }

  function BatchCheckpoint(b: Batch, lease: Lease, resourceKey: Option<string>, attempt: Option<string>, handoffId: string)
    : Result<Batch, Error>
  {
    if attempt.None? then
      if ForWrite(b, lease).Err? then Err(LeaseMismatch)
      else if b.phase !in {Planned, Attempting} then Err(InvalidTransition)
      else if !RightResource(b, resourceKey) then Err(RequestMismatch)
      else Ok(Append(b, lease, Checkpoint(None)))
    else
      var row := ForActionWrite(b, lease, handoffId);
      if row.Err? then row
      else if !ActiveAttempt(row.value, attempt.value) then Err(AttemptMismatch)
      else if !RightResource(b, resourceKey) then Err(RequestMismatch)
      else Ok(Append(row.value, lease, Checkpoint(attempt)))
  }

  function BatchRecovery(b: Batch, lease: Lease, to: Phase, attempt: Option<string>, recoveryId: string, handoffId: string)
    : Result<Batch, Error>
  {
    var row := ForRecoveryWrite(b, lease, to, handoffId);
    if row.Err? then Err(row.error)
    else
      var (bound, takenOver) := row.value;
      if !(|| (takenOver && bound.phase == Recovering && to == RecoveryDesired)
           || (bound.phase == Succeeded && to == RecoveryDesired)
           || ValidTransition(bound.phase, to))
      then Err(InvalidTransition)
      else if to in {RecoverySucceeded, RecoveryFailed} && (attempt.None? || !ActiveAttempt(bound, attempt.value)) then
        Err(AttemptMismatch)
      else Ok(Append(bound, lease, Recovery(recoveryId, to)).(phase := to))
  }

  function BatchStartRecovery(b: Batch, lease: Lease, recoveryId: string, handoffId: string): Result<Batch, Error> {
    var row := ForRecoveryWrite(b, lease, Recovering, handoffId);
    if row.Err? then Err(row.error)
    else if !ValidTransition(row.value.0.phase, Recovering) then Err(InvalidTransition)
    else Ok(Append(row.value.0, lease, Recovery(recoveryId, Recovering)).(phase := Recovering))
  }

  function BatchInterrupt(b: Batch, lease: Lease, resourceKey: Option<string>, recoveryId: string): Result<Batch, Error> {
    if b.phase !in {Planned, Attempting, Failed, RecoveryFailed} then Err(InvalidTransition)
    else if b.leaseName != lease.name || b.fencing >= lease.fencing then Err(LeaseMismatch)
    else if !RightResource(b, resourceKey) then Err(RequestMismatch)
    else if b.phase == Planned && !HasRecords(b) then Err(InvalidTransition)
    else Ok(Append(Rebind(b, lease), lease, Recovery(recoveryId, RecoveryDesired)).(phase := RecoveryDesired))
  }

  function BatchMarkLeaseLost(b: Batch, lease: Lease, resourceKey: Option<string>, recoveryId: string): Result<Batch, Error> {
    if b.leaseName != lease.name || b.fencing != lease.fencing then Err(LeaseMismatch)
    else if lease.token == "" || b.leaseOwner != lease.owner || b.leaseToken != lease.token then Err(LeaseMismatch)
    else if !RightResource(b, resourceKey) then Err(RequestMismatch)
    else if b.phase !in {Attempting, Failed, RecoveryFailed} then Err(InvalidTransition)
    else Ok(Append(b, lease, Recovery(recoveryId, RecoveryDesired)).(phase := RecoveryDesired))
  }

  function BatchAction(b: Batch, lease: Lease, resourceKey: Option<string>, command: BatchCommand): Result<Batch, Error>
    requires command.RecordAction?
  {
    var row := ForActionWrite(b, lease, command.handoffId);
    if row.Err? then row
    else if !ActiveAttempt(row.value, command.attemptId) then Err(AttemptMismatch)
    else if !RightResource(b, resourceKey) then Err(RequestMismatch)
    else Ok(Append(row.value, lease, Action(command.attemptId, command.actionId, command.status)))
  }

  function BatchCleanup(b: Batch, lease: Lease, resourceKey: Option<string>, artifactId: string): Result<Batch, Error> {
    if b.leaseName != lease.name then Err(LeaseMismatch)
    else if b.fencing != lease.fencing && !(b.fencing < lease.fencing && b.phase in {Succeeded, RecoverySucceeded}) then
      Err(LeaseMismatch)
    else if !RightResource(b, resourceKey) then Err(RequestMismatch)
    else Ok(Append(b, lease, Cleanup(artifactId)))
  }

  // Raises the token but leaves the recorded lease owner and digest as they were.
  function BatchRecoverAbandoned(b: Batch, lease: Lease, recoveryId: string): Result<Batch, Error> {
    if b.phase != Succeeded then Ok(b)
    else if b.leaseName != lease.name || b.fencing > lease.fencing then Err(LeaseMismatch)
    else
      Ok(Append(b.(fencing := lease.fencing), lease, Recovery(recoveryId, RecoveryDesired)).(phase := RecoveryDesired))
  }

  function BatchWrite(b: Batch, lease: Lease, resourceKey: Option<string>, command: BatchCommand): Result<Batch, Error> {
    match command
    case Start(operationId) => BatchStart(b, lease, resourceKey, operationId)
    case AppendOperation(operationId) =>
      if ForWrite(b, lease).Err? then Err(LeaseMismatch)
      else if !RightResource(b, resourceKey) then Err(RequestMismatch)
      else if b.phase !in {Planned, Attempting} then Err(InvalidTransition)
      else Ok(Append(b, lease, Operation(operationId)))
    case RecordCheckpoint(attempt, handoffId) => BatchCheckpoint(b, lease, resourceKey, attempt, handoffId)
    case Mark(phase) =>
      if ForWrite(b, lease).Err? then Err(LeaseMismatch)
      else if phase !in {Attempting, Succeeded, Failed} || !ValidTransition(b.phase, phase) then Err(InvalidTransition)
      else Ok(Append(b, lease, Marked(phase)).(phase := phase))
    case RecordRecovery(to, attempt, recoveryId, handoffId) =>
      if to !in {RecoveryDesired, RecoverySucceeded, RecoveryFailed} then Err(InvalidTransition)
      else BatchRecovery(b, lease, to, attempt, recoveryId, handoffId)
    case StartRecovery(recoveryId, handoffId) => BatchStartRecovery(b, lease, recoveryId, handoffId)
    case Interrupt(recoveryId) => BatchInterrupt(b, lease, resourceKey, recoveryId)
    case MarkLeaseLost(recoveryId) => BatchMarkLeaseLost(b, lease, resourceKey, recoveryId)
    case RecordAction(_, _, _, _) => BatchAction(b, lease, resourceKey, command)
    case RecordCleanup(artifactId) => BatchCleanup(b, lease, resourceKey, artifactId)
    case RecoverAbandoned(recoveryId) => BatchRecoverAbandoned(b, lease, recoveryId)
  }

  // Identifiers of new recovery rows come from uuid4: distinct from each other and from all others.
  predicate NewIds(j: Journal, command: BatchCommand) {
    match command
    case RecordRecovery(_, _, id, handoffId) => FreshRecoveryId(j, id) && FreshRecoveryId(j, handoffId) && id != handoffId
    case StartRecovery(id, handoffId) => FreshRecoveryId(j, id) && FreshRecoveryId(j, handoffId) && id != handoffId
    case Interrupt(id) => FreshRecoveryId(j, id)
    case MarkLeaseLost(id) => FreshRecoveryId(j, id)
    case RecoverAbandoned(id) => FreshRecoveryId(j, id)
    case _ => true
  }

  // A batch write is allowed to the current holder of the lease, except the marker, which is for
  // exactly those who have lost it.
  function WriteBatch(j: Journal, id: string, lease: Lease, resourceKey: Option<string>, now: int, command: BatchCommand)
    : Result<Journal, Error>
  {
    if Current(j.leases, lease, now) == command.MarkLeaseLost? then
      Err(if command.MarkLeaseLost? then LeaseMismatch else LeaseLost)
    else if id !in j.batches then Err(BatchNotFound)
    else if !NewIds(j, command) then Err(DuplicateId)
    else
      var r := BatchWrite(j.batches[id], lease, resourceKey, command);
      if r.Err? then Err(r.error) else Ok(j.(batches := j.batches[id := r.value]))
  }

  // The same request under the same key finds the batch it made; any other request is refused.
  function Create(j: Journal, key: string, id: string, lease: Lease, request: Request, now: int): Result<Journal, Error> {
    if !Current(j.leases, lease, now) then Err(LeaseLost)
    else if key in j.keys then
      if j.keys[key] in j.batches && j.batches[j.keys[key]].leaseName == lease.name
         && j.batches[j.keys[key]].request == request
      then Ok(j) else Err(RequestMismatch)
    else if id in j.batches then Err(DuplicateId)
    else
      var b := Batch(key, lease.name, lease.owner, lease.token, lease.fencing, request, Planned,
                     [Entry(lease.fencing, Created)]);
      Ok(j.(keys := j.keys[key := id], batches := j.batches[id := b]))
  }

  function Execute(j: Journal, command: Command): Result<Journal, Error> {
    match command
    case Acquire(name, owner, token, ttl, now) =>
      if name !in j.leases then Ok(j.(leases := j.leases[name := LeaseRow(owner, token, 1, now + ttl)]))
      else if j.leases[name].expires > now then Err(LeaseLost)
      else Ok(j.(leases := j.leases[name := LeaseRow(owner, token, j.leases[name].fencing + 1, now + ttl)]))
    case Heartbeat(lease, ttl, now) =>
      if !Current(j.leases, lease, now) then Err(LeaseLost)
      else Ok(j.(leases := j.leases[lease.name := j.leases[lease.name].(expires := now + ttl)]))
    case Release(lease, newToken, now) =>
      if !Current(j.leases, lease, now) then Err(LeaseLost)
      else Ok(j.(leases := j.leases[lease.name := j.leases[lease.name].(expires := now, token := newToken)]))
    case CreateBatch(key, id, lease, request, now) => Create(j, key, id, lease, request, now)
    case OnBatch(id, lease, resourceKey, now, write) => WriteBatch(j, id, lease, resourceKey, now, write)
  }

  // A failing transaction leaves nothing behind.
  function Next(j: Journal, command: Command): Journal {
    var r := Execute(j, command);
    if r.Ok? then r.value else j
  }

  // states[k] is the journal after the first k transactions, of any processes in any order.
  ghost predicate IsHistory(commands: seq<Command>, states: seq<Journal>) {
    && |states| == |commands| + 1
    && states[0] == Journal(map[], map[], map[])
    && forall i {:trigger commands[i]} :: 0 <= i < |commands| ==> states[i + 1] == Next(states[i], commands[i])
  }
}
