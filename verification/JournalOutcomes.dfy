/**
  When each transaction on the journal goes through and what exactly it leaves, told command by command
  on lease currency, tokens, phases and rows; and that a batch's phase is always the one its newest
  telling row names (operation_journal/journal_batch.py, journal_recovery.py, journal_guards.py).
*/
module JournalOutcomes {
  import opened Wrappers
  import opened OperationJournal
  import opened Steps
  import opened JournalSafety

  // The phase a row tells of, if it tells of one.
  function Told(what: What): Option<Phase> {
    match what
    case Created => Some(Planned)
    case Started(_) => Some(Attempting)
    case Marked(phase) => Some(phase)
    case Recovery(_, phase) => Some(phase)
    case _ => None
  }

  function NewestTold(log: seq<Entry>): Option<Phase> {
    if log == [] then None
    else if Told(log[|log| - 1].what).Some? then Told(log[|log| - 1].what)
    else NewestTold(log[..|log| - 1])
  }

  lemma ToldAfter(log: seq<Entry>, e: Entry)
    ensures NewestTold(log + [e]) == if Told(e.what).Some? then Told(e.what) else NewestTold(log)
  {
    assert (log + [e])[..|log|] == log;
  }

  ghost predicate SamePlace(b: Batch, lease: Lease, resourceKey: Option<string>) {
    b.leaseName == lease.name && (b.request.resourceKey.None? || resourceKey == b.request.resourceKey)
  }

  // The newest recovery row of the batch has begun this very attempt.
  ghost predicate Running(b: Batch, attempt: string) {
    exists i :: 0 <= i < |b.log| && b.log[i].what == Recovery(attempt, Recovering)
                && forall k :: i < k < |b.log| ==> !b.log[k].what.Recovery?
  }

  // When a write of a batch goes through, its lease being current (for the marker of a lost lease: not).
  ghost predicate Admits(b: Batch, lease: Lease, resourceKey: Option<string>, command: BatchCommand) {
    var same, newer := b.fencing == lease.fencing, b.fencing < lease.fencing;
    match command
    case Start(_) =>
      SamePlace(b, lease, resourceKey) && (same || newer) && b.phase == Planned && !HasRecords(b)
    case AppendOperation(_) => SamePlace(b, lease, resourceKey) && same && b.phase in {Planned, Attempting}
    case RecordCheckpoint(attempt, _) =>
      SamePlace(b, lease, resourceKey) && same
      && if attempt.None? then b.phase in {Planned, Attempting} else b.phase == Recovering && Running(b, attempt.value)
    case Mark(to) =>
      b.leaseName == lease.name && same
      && ((b.phase == Planned && to == Attempting) || (b.phase == Attempting && to in {Succeeded, Failed}))
    case RecordRecovery(to, attempt, _, _) =>
      b.leaseName == lease.name
      && (if to == RecoveryDesired then
            (same && b.phase in {Succeeded, Failed, RecoveryFailed}) || (newer && b.phase in {Failed, Recovering, RecoveryFailed})
          else
            to in {RecoverySucceeded, RecoveryFailed} && same && b.phase == Recovering
            && attempt.Some? && Running(b, attempt.value))
    case StartRecovery(_, _) => b.leaseName == lease.name && (same || newer) && b.phase == RecoveryDesired
    case Interrupt(_) =>
      SamePlace(b, lease, resourceKey) && newer
      && (b.phase in {Attempting, Failed, RecoveryFailed} || (b.phase == Planned && HasRecords(b)))
    case MarkLeaseLost(_) =>
      SamePlace(b, lease, resourceKey) && same && lease.token != ""
      && lease.owner == b.leaseOwner && lease.token == b.leaseToken && b.phase in {Attempting, Failed, RecoveryFailed}
    case RecordAction(attempt, _, _, _) =>
      SamePlace(b, lease, resourceKey) && same && b.phase == Recovering && Running(b, attempt)
    case RecordCleanup(_) =>
      SamePlace(b, lease, resourceKey) && (same || (newer && b.phase in {Succeeded, RecoverySucceeded}))
    case RecoverAbandoned(_) => b.phase != Succeeded || (b.leaseName == lease.name && (same || newer))
  }

  // The rows a write adds; a newer lease that takes a recovery over adds its handoff first.
  function Added(b: Batch, lease: Lease, command: BatchCommand): seq<What> {
    match command
    case Start(id) => [Started(id)]
    case AppendOperation(id) => [Operation(id)]
    case RecordCheckpoint(attempt, _) => [Checkpoint(attempt)]
    case Mark(to) => [Marked(to)]
    case RecordRecovery(to, _, id, handoffId) =>
      (if b.fencing < lease.fencing then [Recovery(handoffId, RecoveryDesired)] else []) + [Recovery(id, to)]
    case StartRecovery(id, handoffId) =>
      (if b.fencing < lease.fencing then [Recovery(handoffId, RecoveryDesired)] else []) + [Recovery(id, Recovering)]
    case Interrupt(id) => [Recovery(id, RecoveryDesired)]
    case MarkLeaseLost(id) => [Recovery(id, RecoveryDesired)]
    case RecordAction(attempt, id, status, _) => [Action(attempt, id, status)]
    case RecordCleanup(id) => [Cleanup(id)]
    case RecoverAbandoned(id) => if b.phase == Succeeded then [Recovery(id, RecoveryDesired)] else []
  }

  function PhaseAfter(b: Batch, command: BatchCommand): Phase {
    match command
    case Start(_) => Attempting
    case Mark(to) => to
    case RecordRecovery(to, _, _, _) => to
    case StartRecovery(_, _) => Recovering
    case Interrupt(_) => RecoveryDesired
    case MarkLeaseLost(_) => RecoveryDesired
    case RecoverAbandoned(_) => if b.phase == Succeeded then RecoveryDesired else b.phase
    case _ => b.phase
  }

  // A cleanup row leaves the token alone; the abandoned-success path raises it without the owner.
  predicate Binds(command: BatchCommand) {
    command.Start? || command.RecordRecovery? || command.StartRecovery? || command.Interrupt?
  }

  function TokenAfter(b: Batch, lease: Lease, command: BatchCommand): nat {
    if Binds(command) || (command.RecoverAbandoned? && b.phase == Succeeded) then lease.fencing else b.fencing
  }

  lemma RunningIsActive(b: Batch, attempt: string)
    ensures Running(b, attempt) <==> ActiveAttempt(b, attempt)
  {
    if ActiveAttempt(b, attempt) {
      var i := LatestIndex(b.log);
    }
    if Running(b, attempt) {
      var i :| 0 <= i < |b.log| && b.log[i].what == Recovery(attempt, Recovering)
               && forall k :: i < k < |b.log| ==> !b.log[k].what.Recovery?;
      LatestUnique(b.log, i);
    }
  }

  ghost predicate LeavesAs(b: Batch, after: Batch, lease: Lease, command: BatchCommand) {
    && after.phase == PhaseAfter(b, command)
    && after.fencing == TokenAfter(b, lease, command)
    && (if Binds(command) && b.fencing < lease.fencing
        then after.leaseOwner == lease.owner && after.leaseToken == lease.token
        else after.leaseOwner == b.leaseOwner && after.leaseToken == b.leaseToken)
    && after.key == b.key && after.leaseName == b.leaseName && after.request == b.request
    && |after.log| == |b.log| + |Added(b, lease, command)|
    && after.log[..|b.log|] == b.log
    && forall i :: 0 <= i < |Added(b, lease, command)| ==>
         after.log[|b.log| + i] == Entry(lease.fencing, Added(b, lease, command)[i])
  }

  lemma BearingGoesThroughIff(b: Batch, lease: Lease, resourceKey: Option<string>, command: BatchCommand)
    requires Bears(command)
    ensures var r := BatchWrite(b, lease, resourceKey, command);
            && (r.Ok? <==> Admits(b, lease, resourceKey, command))
            && (r.Ok? ==> LeavesAs(b, r.value, lease, command))
  {
    HandoffNeverActive(b, lease, command.handoffId);
    RunningIsActive(b, if command.RecordAction? then command.attemptId else command.attempt.value);
    hide Running, ActiveAttempt, Handoff;
  }

  lemma StartingGoesThroughIff(b: Batch, lease: Lease, resourceKey: Option<string>, command: BatchCommand)
    requires command.StartRecovery?
    ensures var r := BatchWrite(b, lease, resourceKey, command);
            && (r.Ok? <==> Admits(b, lease, resourceKey, command))
            && (r.Ok? ==> LeavesAs(b, r.value, lease, command))
  {
    hide Running, ActiveAttempt, HasRecords;
  }

  lemma RecoveryGoesThroughIff(b: Batch, lease: Lease, resourceKey: Option<string>, command: BatchCommand)
    requires command.RecordRecovery?
    ensures var r := BatchWrite(b, lease, resourceKey, command);
            && (r.Ok? <==> Admits(b, lease, resourceKey, command))
            && (r.Ok? ==> LeavesAs(b, r.value, lease, command))
  {
    hide Running, ActiveAttempt, HasRecords;
    if command.attempt.Some? { RunningIsActive(b, command.attempt.value); }
  }

  lemma OtherGoesThroughIff(b: Batch, lease: Lease, resourceKey: Option<string>, command: BatchCommand)
    requires !Bears(command) && !command.RecordRecovery? && !command.StartRecovery?
    ensures var r := BatchWrite(b, lease, resourceKey, command);
            && (r.Ok? <==> Admits(b, lease, resourceKey, command))
            && (r.Ok? ==> LeavesAs(b, r.value, lease, command))
  {
    hide Running, ActiveAttempt, HasRecords;
  }

  // When any write of a batch goes through, and everything it then leaves: the phase, the lease the
  // batch is bound to, the rows and who wrote them. Nothing else of the journal changes.
  lemma WriteGoesThroughIff(j: Journal, id: string, lease: Lease, resourceKey: Option<string>, now: int, command: BatchCommand)
    ensures var r := Execute(j, OnBatch(id, lease, resourceKey, now, command));
            && (r.Ok? <==>
                  && (Current(j.leases, lease, now) <==> !command.MarkLeaseLost?)
                  && id in j.batches && NewIds(j, command) && Admits(j.batches[id], lease, resourceKey, command))
            && (r.Ok? ==>
                  && r.value.leases == j.leases && r.value.keys == j.keys && r.value.batches.Keys == j.batches.Keys
                  && LeavesAs(j.batches[id], r.value.batches[id], lease, command)
                  && forall other :: other in j.batches && other != id ==> r.value.batches[other] == j.batches[other])
  {
    if id in j.batches {
      var b := j.batches[id];
      if Bears(command) { BearingGoesThroughIff(b, lease, resourceKey, command); }
      else if command.RecordRecovery? { RecoveryGoesThroughIff(b, lease, resourceKey, command); }
      else if command.StartRecovery? { StartingGoesThroughIff(b, lease, resourceKey, command); }
      else { OtherGoesThroughIff(b, lease, resourceKey, command); }
    }
    hide BatchWrite, Admits, LeavesAs, NewIds, Current;
  }

  lemma LeftPhaseIsTold(b: Batch, after: Batch, lease: Lease, command: BatchCommand)
    requires NewestTold(b.log) == Some(b.phase) && LeavesAs(b, after, lease, command)
    ensures NewestTold(after.log) == Some(after.phase)
  {
    hide NewestTold;
    var rows := Added(b, lease, command);
    if rows == [] {
      assert after.log == b.log;
    } else {
      var earlier, last := after.log[..|after.log| - 1], Entry(lease.fencing, rows[|rows| - 1]);
      assert after.log == earlier + [last];
      ToldAfter(earlier, last);
      if |rows| == 1 { assert earlier == b.log; }
    }
  }

  // The phase is told by the rows, where the batch is there.
  ghost predicate IsTold(j: Journal, id: string) {
    id in j.batches ==> NewestTold(j.batches[id].log) == Some(j.batches[id].phase)
  }

  lemma WriteKeepsTold(j: Journal, command: Command, id: string)
    requires IsTold(j, id) && command.OnBatch?
    ensures IsTold(Next(j, command), id)
  {
    hide BatchWrite, NewestTold, Admits, LeavesAs;
    WriteGoesThroughIff(j, command.batchId, command.lease, command.resourceKey, command.now, command.command);
    var r := Execute(j, command);
    hide Execute;
    if r.Ok? && command.batchId == id {
      LeftPhaseIsTold(j.batches[id], r.value.batches[id], command.lease, command.command);
    }
  }

  lemma OtherStepKeepsTold(j: Journal, command: Command, id: string)
    requires IsTold(j, id) && !command.OnBatch?
    ensures IsTold(Next(j, command), id)
  {
    if id !in j.batches && id in Next(j, command).batches {
      assert Next(j, command).batches[id].log == [] + [Entry(command.lease.fencing, Created)];
      ToldAfter([], Entry(command.lease.fencing, Created));
    }
    hide NewestTold;
  }

  // In every history the phase of a batch is the one its newest telling row names.
  lemma {:induction false} PhaseIsTold(commands: seq<Command>, states: seq<Journal>, k: nat, id: string)
    requires IsHistory(commands, states) && k < |states|
    ensures id in states[k].batches ==> NewestTold(states[k].batches[id].log) == Some(states[k].batches[id].phase)
  {
    if k > 0 {
      hide Next, NewestTold;
      PhaseIsTold(commands, states, k - 1, id);
      var j, command := states[k - 1], commands[k - 1];
      assert IsTold(j, id) && states[k] == Next(j, command);
      if command.OnBatch? { WriteKeepsTold(j, command, id); } else { OtherStepKeepsTold(j, command, id); }
    }
  }

  ghost predicate Held(leases: map<string, LeaseRow>, name: string, now: int) {
    exists owner, token, fencing :: Current(leases, Lease(name, owner, token, fencing), now)
  }

  // The lease is current for this authority alone, and until then only.
  ghost predicate HeldAlone(leases: map<string, LeaseRow>, holder: Lease, until: int) {
    forall l: Lease, t: int {:trigger Current(leases, l, t)} ::
      l.name == holder.name ==> (Current(leases, l, t) <==> l == holder && t < until)
  }

  ghost predicate OthersHeldAsBefore(leases: map<string, LeaseRow>, after: map<string, LeaseRow>, name: string) {
    forall l: Lease, t: int {:trigger Current(after, l, t)} ::
      l.name != name ==> (Current(after, l, t) <==> Current(leases, l, t))
  }

  // A lease can be taken exactly when nobody holds it; it is then held by the taker alone, for the time
  // it asked for, under a token above every earlier one.
  lemma AcquireGoesThroughIff(j: Journal, name: string, owner: string, token: string, ttl: nat, now: int)
    ensures var r := Execute(j, Acquire(name, owner, token, ttl, now));
            && (r.Ok? <==> !Held(j.leases, name, now))
            && (r.Ok? ==>
                  var fencing := if name in j.leases then j.leases[name].fencing + 1 else 1;
                  && HeldAlone(r.value.leases, Lease(name, owner, token, fencing), now + ttl)
                  && OthersHeldAsBefore(j.leases, r.value.leases, name)
                  && r.value.batches == j.batches && r.value.keys == j.keys)
  {
    if name in j.leases && j.leases[name].expires > now {
      var row := j.leases[name];
      assert Current(j.leases, Lease(name, row.owner, row.token, row.fencing), now);
    }
  }

  // Only the holder renews or releases. Renewed, the lease is held for the time asked for from now on;
  // released, it is held by nobody.
  lemma HolderKeepsOrReleases(j: Journal, lease: Lease, ttl: nat, newToken: string, now: int)
    ensures var r := Execute(j, Heartbeat(lease, ttl, now));
            && (r.Ok? <==> Current(j.leases, lease, now))
            && (r.Ok? ==>
                  && HeldAlone(r.value.leases, lease, now + ttl)
                  && OthersHeldAsBefore(j.leases, r.value.leases, lease.name)
                  && r.value.batches == j.batches && r.value.keys == j.keys)
    ensures var r := Execute(j, Release(lease, newToken, now));
            && (r.Ok? <==> Current(j.leases, lease, now))
            && (r.Ok? ==>
                  && (forall t :: t >= now ==> !Held(r.value.leases, lease.name, t))
                  && OthersHeldAsBefore(j.leases, r.value.leases, lease.name)
                  && r.value.batches == j.batches && r.value.keys == j.keys)
  {
  }

  // A batch is created once per key; the same request under the same lease name finds it again.
  lemma CreateGoesThroughIff(commands: seq<Command>, states: seq<Journal>, k: nat, key: string, id: string, lease: Lease,
                             request: Request, now: int)
    requires IsHistory(commands, states) && k < |states|
    ensures var j := states[k];
            var r := Execute(j, CreateBatch(key, id, lease, request, now));
            && (r.Ok? <==>
                  && Current(j.leases, lease, now)
                  && (if exists other :: other in j.batches && j.batches[other].key == key
                      then exists other :: other in j.batches && j.batches[other].key == key
                             && j.batches[other].leaseName == lease.name && j.batches[other].request == request
                      else id !in j.batches))
            && (r.Ok? && (exists other :: other in j.batches && j.batches[other].key == key) ==> r.value == j)
            && (r.Ok? && !(exists other :: other in j.batches && j.batches[other].key == key) ==>
                  && r.value.leases == j.leases && r.value.keys == j.keys[key := id]
                  && r.value.batches == j.batches[id :=
                       Batch(key, lease.name, lease.owner, lease.token, lease.fencing, request, Planned,
                             [Entry(lease.fencing, Created)])])
  {
    HistoryKeepsInv(commands, states, k);
    hide IsHistory, BatchInv, Current;
    var j := states[k];
    if key in j.keys { assert j.batches[j.keys[key]].key == key; }
  }
}
