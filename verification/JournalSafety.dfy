/**
  What the guards of the journal keep over every interleaving of processes, leases and clocks.
*/
module JournalSafety {
  import opened Wrappers
  import opened OperationJournal
  import opened Steps

  predicate Ordered(log: seq<Entry>) {
    forall i, j :: 0 <= i < j < |log| ==> log[i].writer <= log[j].writer
  }

  predicate FinishedPhase(phase: Phase) {
    phase in {Succeeded, RecoverySucceeded}
  }

  // Which recovery attempt, if any, an entry was written under.
  function Bearing(what: What): Option<string> {
    match what
    case Action(attempt, _, _) => Some(attempt)
    case Checkpoint(attempt) => attempt
    case _ => None
  }

  // Entry k was written under the attempt that the newest recovery row before it had started, by
  // the very lease that had started it.
  predicate UnderItsAttempt(log: seq<Entry>, k: nat)
    requires k < |log|
  {
    var attempt := Bearing(log[k].what);
    attempt.Some? ==>
      LatestRecovery(log[..k]) == Some(Entry(log[k].writer, Recovery(attempt.value, Recovering)))
  }

  predicate UniqueAttempts(log: seq<Entry>) {
    forall i, k :: 0 <= i < k < |log| && log[i].what.Recovery? && log[k].what.Recovery? ==>
      log[i].what.recoveryId != log[k].what.recoveryId
  }

  predicate StartedFirst(b: Batch) {
    && (forall k :: 0 <= k < |b.log| && b.log[k].what.Started? ==>
          b.phase != Planned && forall i :: 0 <= i < k ==> !IsRecord(b.log[i].what))
  }

  ghost predicate BatchInv(leases: map<string, LeaseRow>, b: Batch) {
    && b.leaseName in leases
    && b.log != []
    && b.fencing <= b.log[|b.log| - 1].writer <= leases[b.leaseName].fencing
    && Ordered(b.log)
    && (b.fencing == b.log[|b.log| - 1].writer || FinishedPhase(b.phase))
    && (b.phase == Recovering ==>
          var latest := LatestRecovery(b.log);
          latest.Some? && latest.value.writer == b.fencing && latest.value.what.phase == Recovering)
    && (forall k :: 0 <= k < |b.log| ==> UnderItsAttempt(b.log, k))
    && UniqueAttempts(b.log)
    && StartedFirst(b)
  }

  lemma {:induction false} LatestAfter(log: seq<Entry>, e: Entry)
    ensures LatestRecovery(log + [e]) == if e.what.Recovery? then Some(e) else LatestRecovery(log)
  {
    assert (log + [e])[..|log|] == log;
  }

  // What a successful write did to the log: one entry by the caller's lease, possibly preceded by a
  // handoff row of the same lease.
  predicate Extends(b: Batch, after: Batch, writer: nat) {
    && b.log <= after.log && |after.log| <= |b.log| + 2
    && (forall k :: |b.log| <= k < |after.log| ==> after.log[k].writer == writer)
    && b.fencing <= after.fencing
    && after.key == b.key && after.leaseName == b.leaseName && after.request == b.request
  }

  // The three log-wide properties, each by itself, when one entry is added.
  lemma AddedUnderItsAttempt(log: seq<Entry>, e: Entry)
    requires forall k :: 0 <= k < |log| ==> UnderItsAttempt(log, k)
    requires Bearing(e.what).Some? ==>
               LatestRecovery(log) == Some(Entry(e.writer, Recovery(Bearing(e.what).value, Recovering)))
    ensures forall k :: 0 <= k < |log + [e]| ==> UnderItsAttempt(log + [e], k)
  {
    forall k | 0 <= k < |log + [e]| ensures UnderItsAttempt(log + [e], k) {
      if k < |log| {
        assert UnderItsAttempt(log, k);
        assert (log + [e])[..k] == log[..k];
      } else {
        assert (log + [e])[..k] == log;
      }
    }
  }

  lemma AddedOrdered(log: seq<Entry>, e: Entry)
    requires Ordered(log) && (log != [] ==> log[|log| - 1].writer <= e.writer)
    ensures Ordered(log + [e])
  {
  }

  lemma AddedUnique(log: seq<Entry>, e: Entry)
    requires UniqueAttempts(log) && (e.what.Recovery? ==> !UsesRecoveryId(log, e.what.recoveryId))
    ensures UniqueAttempts(log + [e])
  {
    var longer := log + [e];
    forall i, k | 0 <= i < k < |longer| && longer[i].what.Recovery? && longer[k].what.Recovery?
      ensures longer[i].what.recoveryId != longer[k].what.recoveryId
    {
      assert longer[i] in log;
    }
  }

  lemma AddedStartedFirst(b: Batch, after: Batch, e: Entry)
    requires StartedFirst(b) && after.log == b.log + [e]
    requires e.what.Started? ==> after.phase != Planned && !HasRecords(b)
    requires after.phase == Planned ==> b.phase == Planned
    ensures StartedFirst(after)
  {
    forall k | 0 <= k < |after.log| && after.log[k].what.Started?
      ensures after.phase != Planned && forall i :: 0 <= i < k ==> !IsRecord(after.log[i].what)
    {
      forall i | 0 <= i < k ensures !IsRecord(after.log[i].what) { assert b.log[i] in b.log; }
    }
  }

  lemma AppendKeeps(leases: map<string, LeaseRow>, b: Batch, after: Batch, lease: Lease, what: What)
    requires BatchInv(leases, b)
    requires after.log == b.log + [Entry(lease.fencing, what)] && after.leaseName == b.leaseName
    requires b.log[|b.log| - 1].writer <= lease.fencing <= leases[b.leaseName].fencing
    requires after.fencing == lease.fencing || (after.fencing == b.fencing && FinishedPhase(after.phase))
    requires after.fencing <= lease.fencing
    requires after.phase == Recovering ==>
               if what.Recovery? then what.phase == Recovering && after.fencing == lease.fencing
               else b.phase == Recovering && after.fencing == b.fencing
    requires Bearing(what).Some? ==> b.phase == Recovering && b.fencing == lease.fencing && ActiveAttempt(b, Bearing(what).value)
    requires what.Recovery? ==> !UsesRecoveryId(b.log, what.recoveryId)
    requires what.Started? ==> after.phase != Planned && !HasRecords(b)
    requires after.phase == Planned ==> b.phase == Planned && !what.Started?
    ensures BatchInv(leases, after)
  {
    hide LatestRecovery, UnderItsAttempt, UniqueAttempts, StartedFirst, UsesRecoveryId, HasRecords;
    var e := Entry(lease.fencing, what);
    LatestAfter(b.log, e);
    AddedUnderItsAttempt(b.log, e);
    AddedUnique(b.log, e);
    AddedStartedFirst(b, after, e);
    AddedOrdered(b.log, e);
    hide Ordered;
  }

  // The caller holds the lease row, or wants to leave a marker under the batch's own token.
  predicate Authorized(leases: map<string, LeaseRow>, b: Batch, lease: Lease, command: BatchCommand) {
    command.MarkLeaseLost? || (lease.name in leases && lease.fencing == leases[lease.name].fencing)
  }

  predicate Fresh(log: seq<Entry>, command: BatchCommand) {
    match command
    case RecordRecovery(_, _, id, handoffId) => !UsesRecoveryId(log, id) && !UsesRecoveryId(log, handoffId) && id != handoffId
    case StartRecovery(id, handoffId) => !UsesRecoveryId(log, id) && !UsesRecoveryId(log, handoffId) && id != handoffId
    case Interrupt(id) => !UsesRecoveryId(log, id)
    case MarkLeaseLost(id) => !UsesRecoveryId(log, id)
    case RecoverAbandoned(id) => !UsesRecoveryId(log, id)
    case _ => true
  }

  lemma HandoffThenKeeps(leases: map<string, LeaseRow>, b: Batch, lease: Lease, to: Phase, handoffId: string, id: string)
    requires BatchInv(leases, b) && b.fencing < lease.fencing == leases[b.leaseName].fencing
    requires to in {RecoveryDesired, Recovering} && !FinishedPhase(b.phase)
    requires !UsesRecoveryId(b.log, handoffId) && !UsesRecoveryId(b.log, id) && id != handoffId
    ensures var after := Append(Handoff(b, lease, handoffId), lease, Recovery(id, to)).(phase := to);
            BatchInv(leases, after) && Extends(b, after, lease.fencing)
  {
    var handed := Handoff(b, lease, handoffId).(phase := RecoveryDesired);
    AppendKeeps(leases, b, handed, lease, Recovery(handoffId, RecoveryDesired));
    var after := Append(Handoff(b, lease, handoffId), lease, Recovery(id, to)).(phase := to);
    AppendKeeps(leases, handed, after, lease, Recovery(id, to));
  }

  lemma RecoveryWriteKeeps(leases: map<string, LeaseRow>, b: Batch, lease: Lease, to: Phase, attempt: Option<string>,
                           id: string, handoffId: string)
    requires BatchInv(leases, b) && lease.name in leases && lease.fencing == leases[lease.name].fencing
    requires !UsesRecoveryId(b.log, id) && !UsesRecoveryId(b.log, handoffId) && id != handoffId
    requires to in {RecoveryDesired, Recovering, RecoverySucceeded, RecoveryFailed}
    ensures var r := if to == Recovering then BatchStartRecovery(b, lease, id, handoffId)
                     else BatchRecovery(b, lease, to, attempt, id, handoffId);
            r.Ok? ==> BatchInv(leases, r.value) && Extends(b, r.value, lease.fencing)
  {
    var r := if to == Recovering then BatchStartRecovery(b, lease, id, handoffId)
             else BatchRecovery(b, lease, to, attempt, id, handoffId);
    if r.Ok? {
      if b.fencing < lease.fencing { HandoffThenKeeps(leases, b, lease, to, handoffId, id); }
      else { AppendKeeps(leases, b, r.value, lease, Recovery(id, to)); }
    }
  }

  // Writes that name the attempt they belong to.
  predicate Bears(command: BatchCommand) {
    command.RecordAction? || (command.RecordCheckpoint? && command.attempt.Some?)
  }

  predicate Simple(command: BatchCommand) {
    command.AppendOperation? || command.Mark? || command.RecordCleanup? || (command.RecordCheckpoint? && command.attempt.None?)
  }

  // Such a write goes through only under an active attempt of the batch's own lease.
  lemma BearingWriteIs(b: Batch, lease: Lease, resourceKey: Option<string>, command: BatchCommand, what: What)
    requires Bears(command)
    requires what == if command.RecordCheckpoint? then Checkpoint(command.attempt)
                     else Action(command.attemptId, command.actionId, command.status)
    ensures var r := BatchWrite(b, lease, resourceKey, command);
            r.Ok? ==> && r.value == Append(b, lease, what) && b.leaseName == lease.name
                      && b.phase == Recovering && b.fencing == lease.fencing
                      && Bearing(what).Some? && ActiveAttempt(b, Bearing(what).value)
  {
    HandoffNeverActive(b, lease, command.handoffId);
    hide ActiveAttempt, Handoff, Append;
  }

  lemma BearingWriteKeeps(leases: map<string, LeaseRow>, b: Batch, lease: Lease, resourceKey: Option<string>, command: BatchCommand)
    requires BatchInv(leases, b) && lease.name in leases && lease.fencing == leases[lease.name].fencing && Bears(command)
    ensures var r := BatchWrite(b, lease, resourceKey, command);
            r.Ok? ==> BatchInv(leases, r.value) && Extends(b, r.value, lease.fencing)
  {
    hide ActiveAttempt, LatestRecovery, UnderItsAttempt, UniqueAttempts, StartedFirst, Ordered, BatchWrite;
    var what := if command.RecordCheckpoint? then Checkpoint(command.attempt)
                else Action(command.attemptId, command.actionId, command.status);
    BearingWriteIs(b, lease, resourceKey, command, what);
    var r := BatchWrite(b, lease, resourceKey, command);
    if r.Ok? { AppendKeeps(leases, b, r.value, lease, what); }
  }

  lemma SimpleWriteKeeps(leases: map<string, LeaseRow>, b: Batch, lease: Lease, resourceKey: Option<string>, command: BatchCommand)
    requires BatchInv(leases, b) && lease.name in leases && lease.fencing == leases[lease.name].fencing && Simple(command)
    ensures var r := BatchWrite(b, lease, resourceKey, command);
            r.Ok? ==> BatchInv(leases, r.value) && Extends(b, r.value, lease.fencing)
  {
    hide LatestRecovery, UnderItsAttempt, UniqueAttempts, StartedFirst, Ordered;
    var r := BatchWrite(b, lease, resourceKey, command);
    if r.Ok? {
      var what :=
        if command.AppendOperation? then Operation(command.operationId)
        else if command.RecordCheckpoint? then Checkpoint(None)
        else if command.Mark? then Marked(command.phase)
        else Cleanup(command.artifactId);
      AppendKeeps(leases, b, r.value, lease, what);
    }
  }

  // After a handoff no attempt is active, so a write that needed one undoes the handoff with it.
  lemma HandoffNeverActive(b: Batch, lease: Lease, handoffId: string)
    ensures forall attempt :: !ActiveAttempt(Handoff(b, lease, handoffId), attempt)
  {
    LatestAfter(b.log, Entry(lease.fencing, Recovery(handoffId, RecoveryDesired)));
  }

  // The whole of fencing, one write at a time.
  lemma WriteKeeps(leases: map<string, LeaseRow>, b: Batch, lease: Lease, resourceKey: Option<string>, command: BatchCommand)
    requires BatchInv(leases, b) && Authorized(leases, b, lease, command) && Fresh(b.log, command)
    ensures var r := BatchWrite(b, lease, resourceKey, command);
            r.Ok? ==> BatchInv(leases, r.value) && Extends(b, r.value, lease.fencing)
  {
    var r := BatchWrite(b, lease, resourceKey, command);
    if Simple(command) {
      SimpleWriteKeeps(leases, b, lease, resourceKey, command);
    } else if Bears(command) {
      BearingWriteKeeps(leases, b, lease, resourceKey, command);
    } else if command.RecordRecovery? {
      if command.phase in {RecoveryDesired, RecoverySucceeded, RecoveryFailed} {
        RecoveryWriteKeeps(leases, b, lease, command.phase, command.attempt, command.recoveryId, command.handoffId);
      }
    } else if command.StartRecovery? {
      RecoveryWriteKeeps(leases, b, lease, Recovering, None, command.recoveryId, command.handoffId);
    } else if r.Ok? && r.value != b {
      var what := if command.Start? then Started(command.operationId) else Recovery(command.recoveryId, RecoveryDesired);
      AppendKeeps(leases, b, r.value, lease, what);
    }
  }

  ghost predicate Inv(j: Journal) {
    && (forall id :: id in j.batches ==> BatchInv(j.leases, j.batches[id]))
    && (forall id :: id in j.batches ==> j.batches[id].key in j.keys && j.keys[j.batches[id].key] == id)
    && (forall key :: key in j.keys ==> j.keys[key] in j.batches && j.batches[j.keys[key]].key == key)
  }

  // What no transaction takes back: rows, their order, and how far a token or a counter has got.
  predicate Later(b: Batch, after: Batch) {
    b.log <= after.log && b.fencing <= after.fencing && after.key == b.key && after.leaseName == b.leaseName
    && after.request == b.request
  }

  ghost predicate Evolves(j: Journal, after: Journal) {
    && (forall name :: name in j.leases ==> name in after.leases && j.leases[name].fencing <= after.leases[name].fencing)
    && (forall id :: id in j.batches ==> id in after.batches && Later(j.batches[id], after.batches[id]))
    && (forall key :: key in j.keys ==> key in after.keys && after.keys[key] == j.keys[key])
  }

  // Raising a lease counter, or touching nothing but a lease row, leaves every batch consistent.
  lemma LeaseRowsKeep(leases: map<string, LeaseRow>, after: map<string, LeaseRow>, b: Batch)
    requires BatchInv(leases, b)
    requires forall name :: name in leases ==> name in after && leases[name].fencing <= after[name].fencing
    ensures BatchInv(after, b)
  {
  }

  lemma LeaseStepKeeps(j: Journal, command: Command)
    requires Inv(j) && (command.Acquire? || command.Heartbeat? || command.Release?)
    ensures Inv(Next(j, command)) && Evolves(j, Next(j, command))
  {
    hide BatchInv;
    var after := Next(j, command);
    assert after.batches == j.batches && after.keys == j.keys;
    assert forall name :: name in j.leases ==> name in after.leases && j.leases[name].fencing <= after.leases[name].fencing;
    hide Next;
    forall id | id in j.batches ensures BatchInv(after.leases, j.batches[id]) {
      LeaseRowsKeep(j.leases, after.leases, j.batches[id]);
    }
  }

  lemma NewBatchInv(leases: map<string, LeaseRow>, b: Batch)
    requires b.leaseName in leases && b.fencing == leases[b.leaseName].fencing
    requires b.phase == Planned && b.log == [Entry(b.fencing, Created)]
    ensures BatchInv(leases, b)
  {
    assert LatestRecovery(b.log).None?;
  }

  lemma CreateKeeps(j: Journal, command: Command)
    requires Inv(j) && command.CreateBatch?
    ensures Inv(Next(j, command)) && Evolves(j, Next(j, command))
  {
    hide BatchInv, WriteBatch;
    var after := Next(j, command);
    if after != j {
      assert after.batches.Keys == j.batches.Keys + {command.batchId} && command.batchId !in j.batches;
      assert command.key !in j.keys && after.leases == j.leases;
      NewBatchInv(after.leases, after.batches[command.batchId]);
      assert forall id :: id in j.batches ==> after.batches[id] == j.batches[id];
    }
  }

  lemma FreshHere(j: Journal, id: string, command: BatchCommand)
    requires id in j.batches && NewIds(j, command)
    ensures Fresh(j.batches[id].log, command)
  {
  }

  lemma WriteBatchKeeps(j: Journal, command: Command)
    requires Inv(j) && command.OnBatch?
    ensures Inv(Next(j, command)) && Evolves(j, Next(j, command))
  {
    hide BatchInv, BatchWrite, NewIds, Fresh, UsesRecoveryId;
    var r := Execute(j, command);
    if r.Ok? {
      var b := j.batches[command.batchId];
      FreshHere(j, command.batchId, command.command);
      WriteKeeps(j.leases, b, command.lease, command.resourceKey, command.command);
    }
  }

  lemma NextKeeps(j: Journal, command: Command)
    requires Inv(j)
    ensures Inv(Next(j, command)) && Evolves(j, Next(j, command))
  {
    if command.OnBatch? { WriteBatchKeeps(j, command); }
    else if command.CreateBatch? { CreateKeeps(j, command); }
    else { LeaseStepKeeps(j, command); }
  }

  lemma {:induction false} HistoryKeepsInv(commands: seq<Command>, states: seq<Journal>, k: nat)
    requires IsHistory(commands, states) && k < |states|
    ensures Inv(states[k])
  {
    if k > 0 {
      HistoryKeepsInv(commands, states, k - 1);
      NextKeeps(states[k - 1], commands[k - 1]);
    }
  }

  // Nothing committed is ever lost or reordered, and no token or lease counter ever goes back.
  lemma {:induction false} HistoryOnlyGrows(commands: seq<Command>, states: seq<Journal>, k: nat, m: nat)
    requires IsHistory(commands, states) && k <= m < |states|
    ensures Evolves(states[k], states[m])
  {
    if k < m {
      HistoryOnlyGrows(commands, states, k, m - 1);
      HistoryKeepsInv(commands, states, m - 1);
      NextKeeps(states[m - 1], commands[m - 1]);
      var a, b, c := states[k], states[m - 1], states[m];
      forall id | id in a.batches ensures id in c.batches && Later(a.batches[id], c.batches[id]) {
        assert Later(a.batches[id], b.batches[id]) && Later(b.batches[id], c.batches[id]);
      }
    }
  }

  // Fencing: in every history the rows of a batch are ordered by the token of the lease that wrote
  // them, and no row bears a token above the current counter of its lease.
  lemma WritersAreOrdered(commands: seq<Command>, states: seq<Journal>, k: nat, id: string)
    requires IsHistory(commands, states) && k < |states| && id in states[k].batches
    ensures var b := states[k].batches[id];
            && Ordered(b.log)
            && b.leaseName in states[k].leases
            && forall e :: e in b.log ==> e.writer <= states[k].leases[b.leaseName].fencing
  {
    HistoryKeepsInv(commands, states, k);
    var b := states[k].batches[id];
    forall e | e in b.log ensures e.writer <= states[k].leases[b.leaseName].fencing {
      var i :| 0 <= i < |b.log| && b.log[i] == e;
      if i < |b.log| - 1 { assert b.log[i].writer <= b.log[|b.log| - 1].writer; }
    }
  }

  // Once a lease with a higher token has written a batch, no write of any kind by a lease with a
  // lower one goes through again, whatever clock it reads, the marker of a lost lease included.
  lemma StaleLeaseIsRefused(commands: seq<Command>, states: seq<Journal>, k: nat, m: nat, id: string, e: Entry,
                            lease: Lease, resourceKey: Option<string>, now: int, command: BatchCommand)
    requires IsHistory(commands, states) && k <= m < |states|
    requires id in states[k].batches && e in states[k].batches[id].log && lease.fencing < e.writer
    requires lease.name == states[k].batches[id].leaseName
    ensures Execute(states[m], OnBatch(id, lease, resourceKey, now, command)).Err?
  {
    HistoryKeepsInv(commands, states, m);
    HistoryOnlyGrows(commands, states, k, m);
    WritersAreOrdered(commands, states, m, id);
    var b := states[m].batches[id];
    assert Later(states[k].batches[id], b);
    var i :| 0 <= i < |b.log| && b.log[i] == e;
    assert e.writer <= b.log[|b.log| - 1].writer;
    assert BatchInv(states[m].leases, b);
    hide BatchInv, IsHistory, Evolves;
    if command.MarkLeaseLost? {
      assert BatchMarkLeaseLost(b, lease, resourceKey, command.recoveryId).Err?;
    }
  }

  // A batch that is planned, running or failed is interrupted only by a lease newer than every lease
  // that has written it so far.
  lemma OnlyNewerLeasesInterrupt(commands: seq<Command>, states: seq<Journal>, k: nat, id: string, lease: Lease,
                                 resourceKey: Option<string>, now: int, recoveryId: string)
    requires IsHistory(commands, states) && k < |states|
    requires Execute(states[k], OnBatch(id, lease, resourceKey, now, Interrupt(recoveryId))).Ok?
    ensures forall e :: e in states[k].batches[id].log ==> e.writer < lease.fencing
  {
    HistoryKeepsInv(commands, states, k);
    var b := states[k].batches[id];
    assert BatchInv(states[k].leases, b);
    forall e | e in b.log ensures e.writer < lease.fencing {
      var i :| 0 <= i < |b.log| && b.log[i] == e;
      assert b.log[i].writer <= b.log[|b.log| - 1].writer == b.fencing;
    }
  }

  // One request, one batch.
  lemma OneBatchPerKey(commands: seq<Command>, states: seq<Journal>, k: nat, id: string, other: string)
    requires IsHistory(commands, states) && k < |states| && id in states[k].batches && other in states[k].batches
    requires states[k].batches[id].key == states[k].batches[other].key
    ensures id == other
  {
    HistoryKeepsInv(commands, states, k);
  }

  // One batch, one successful start, and nothing but its creation before it.
  lemma StartsAtMostOnce(commands: seq<Command>, states: seq<Journal>, k: nat, id: string, i: nat, n: nat)
    requires IsHistory(commands, states) && k < |states| && id in states[k].batches
    requires i < |states[k].batches[id].log| && n < |states[k].batches[id].log|
    requires states[k].batches[id].log[i].what.Started? && states[k].batches[id].log[n].what.Started?
    ensures i == n
  {
    HistoryKeepsInv(commands, states, k);
    var b := states[k].batches[id];
    assert BatchInv(states[k].leases, b);
    assert StartedFirst(b);
    if i < n { assert IsRecord(b.log[i].what); }
    if n < i { assert IsRecord(b.log[n].what); }
  }

  lemma {:induction false} LatestIndex(log: seq<Entry>) returns (i: nat)
    requires LatestRecovery(log).Some?
    ensures i < |log| && LatestRecovery(log) == Some(log[i])
    ensures forall k :: i < k < |log| ==> !log[k].what.Recovery?
  {
    var n := |log| - 1;
    if log[n].what.Recovery? { i := n; }
    else { i := LatestIndex(log[..n]); }
  }

  lemma LatestUnique(log: seq<Entry>, i: nat)
    requires i < |log| && log[i].what.Recovery? && forall k :: i < k < |log| ==> !log[k].what.Recovery?
    ensures LatestRecovery(log) == Some(log[i])
  {
    assert log[i] in log;
    var n := LatestIndex(log);
  }

  // A recovery attempt that another row has superseded is never active again.
  lemma SupersededStaysSuperseded(commands: seq<Command>, states: seq<Journal>, k: nat, m: nat, id: string, attempt: string)
    requires IsHistory(commands, states) && k <= m < |states| && id in states[k].batches
    requires UsesRecoveryId(states[k].batches[id].log, attempt) && !ActiveAttempt(states[k].batches[id], attempt)
    ensures id in states[m].batches && !ActiveAttempt(states[m].batches[id], attempt)
  {
    HistoryKeepsInv(commands, states, m);
    HistoryOnlyGrows(commands, states, k, m);
    var b, after := states[k].batches[id], states[m].batches[id];
    assert Later(b, after) && UniqueAttempts(after.log);
    hide Inv, BatchInv, IsHistory, Evolves;
    if ActiveAttempt(after, attempt) { ActiveBefore(b.log, after.log, attempt); }
  }

  // If an attempt known to a log is the newest in a longer one, it was the newest already.
  lemma ActiveBefore(log: seq<Entry>, longer: seq<Entry>, attempt: string)
    requires log <= longer && UniqueAttempts(longer) && UsesRecoveryId(log, attempt)
    requires LatestRecovery(longer).Some? && LatestRecovery(longer).value.what == Recovery(attempt, Recovering)
    ensures LatestRecovery(log) == LatestRecovery(longer)
  {
    var e :| e in log && e.what.Recovery? && e.what.recoveryId == attempt;
    var i :| 0 <= i < |log| && log[i] == e;
    var n := LatestIndex(longer);
    assert longer[i] == log[i];
    assert n == i;
    assert forall x :: i < x < |log| ==> log[x] == longer[x];
    LatestUnique(log, i);
  }

  // Hence neither an authority check nor any write bearing its id succeeds, from any lease.
  lemma SupersededIsRefused(commands: seq<Command>, states: seq<Journal>, k: nat, m: nat, id: string, attempt: string,
                            lease: Lease, resourceKey: Option<string>, now: int, command: BatchCommand)
    requires IsHistory(commands, states) && k <= m < |states| && id in states[k].batches
    requires UsesRecoveryId(states[k].batches[id].log, attempt) && !ActiveAttempt(states[k].batches[id], attempt)
    requires match command
             case RecordAction(a, _, _, _) => a == attempt
             case RecordCheckpoint(a, _) => a == Some(attempt)
             case RecordRecovery(to, a, _, _) => a == Some(attempt) && to in {RecoverySucceeded, RecoveryFailed}
             case _ => false
    ensures !AttemptIsCurrent(states[m], id, lease, attempt, now)
    ensures Execute(states[m], OnBatch(id, lease, resourceKey, now, command)).Err?
  {
    SupersededStaysSuperseded(commands, states, k, m, id, attempt);
    hide IsHistory, ActiveAttempt;
    var b := states[m].batches[id];
    if id in states[m].batches && !command.RecordRecovery? { HandoffNeverActive(b, lease, command.handoffId); }
  }

  // Every row written under an attempt was written by the lease that started it, with no recovery
  // row in between: a newer holder can never write under the old id either.
  lemma AttemptHasOneWriter(commands: seq<Command>, states: seq<Journal>, k: nat, id: string, n: nat)
    requires IsHistory(commands, states) && k < |states| && id in states[k].batches
    requires n < |states[k].batches[id].log| && Bearing(states[k].batches[id].log[n].what).Some?
    ensures var log := states[k].batches[id].log;
            var attempt := Bearing(log[n].what).value;
            && (exists i :: 0 <= i < n && log[i] == Entry(log[n].writer, Recovery(attempt, Recovering))
                  && forall x :: i < x < n ==> !log[x].what.Recovery?)
            && (forall e :: e in log && e.what == Recovery(attempt, Recovering) ==> e.writer == log[n].writer)
  {
    HistoryKeepsInv(commands, states, k);
    var log := states[k].batches[id].log;
    assert BatchInv(states[k].leases, states[k].batches[id]);
    assert UnderItsAttempt(log, n) && UniqueAttempts(log);
    var i := LatestIndex(log[..n]);
    assert log[i] == log[..n][i];
    assert forall x :: i < x < n ==> log[x] == log[..n][x];
    forall e | e in log && e.what == log[i].what ensures e.writer == log[n].writer {
      var x :| 0 <= x < |log| && log[x] == e;
      assert x == i;
    }
  }
}
