/**
  The journal as a store whose tables are updated in place. A transaction that raises is undone by
  putting the tables back, and each method is proved equal to the transaction of OperationJournal.
*/
module JournalStores {
  import opened Wrappers
  import opened OperationJournal
  import opened Steps

  class JournalStore {
    var leases: map<string, LeaseRow>
    var keys: map<string, string>
    var batches: map<string, Batch>

    ghost function State(): Journal
      reads this
    {
      Journal(leases, keys, batches)
    }

    constructor ()
      ensures State() == Journal(map[], map[], map[])
    {
      leases, keys, batches := map[], map[], map[];
    }

    // A lease can be taken only when its row has expired, and each taking raises the counter.
    method Acquire(name: string, owner: string, token: string, ttl: nat, now: int) returns (acquired: bool)
      modifies this`leases
      ensures State() == Next(old(State()), Command.Acquire(name, owner, token, ttl, now))
      ensures acquired <==> Execute(old(State()), Command.Acquire(name, owner, token, ttl, now)).Ok?
    {
      var fencing := 1;
      if name in leases {
        if leases[name].expires > now { return false; }
        fencing := leases[name].fencing + 1;
      }
      leases := leases[name := LeaseRow(owner, token, fencing, now + ttl)];
      acquired := true;
    }

    // The batch already bound to the key is returned when the request is the same one.
    method CreateBatch(key: string, newId: string, lease: Lease, request: Request, now: int)
      returns (r: Result<string, Error>)
      modifies this`keys, this`batches
      ensures State() == Next(old(State()), Command.CreateBatch(key, newId, lease, request, now))
      ensures r.Ok? <==> Execute(old(State()), Command.CreateBatch(key, newId, lease, request, now)).Ok?
      ensures r.Ok? ==> key in keys && keys[key] == r.value
    {
      if !Current(leases, lease, now) { return Err(LeaseLost); }
      if key in keys {
        var id := keys[key];
        if id !in batches || batches[id].leaseName != lease.name || batches[id].request != request {
          return Err(RequestMismatch);
        }
        return Ok(id);
      }
      if newId in batches { return Err(DuplicateId); }
      keys := keys[key := newId];
      batches := batches[newId := Batch(key, lease.name, lease.owner, lease.token, lease.fencing, request, Planned,
                                        [Entry(lease.fencing, Created)])];
      return Ok(newId);
    }

    method InsertRow(id: string, lease: Lease, what: What)
      requires id in batches
      modifies this`batches
      ensures batches == old(batches)[id := Append(old(batches)[id], lease, what)]
    {
      var b := batches[id];
      batches := batches[id := b.(log := b.log + [Entry(lease.fencing, what)])];
    }

    method SetPhase(id: string, phase: Phase)
      requires id in batches
      modifies this`batches
      ensures batches == old(batches)[id := old(batches)[id].(phase := phase)]
    {
      batches := batches[id := batches[id].(phase := phase)];
    }

    // Raises the token and inserts the superseding row; the caller may still undo both.
    method TakeOver(id: string, lease: Lease, handoffId: string)
      requires id in batches
      modifies this`batches
      ensures batches == old(batches)[id := Handoff(old(batches)[id], lease, handoffId)]
    {
      var b := batches[id];
      batches := batches[id := b.(leaseOwner := lease.owner, leaseToken := lease.token, fencing := lease.fencing)];
      InsertRow(id, lease, Recovery(handoffId, RecoveryDesired));
    }

    method StartBatchOperation(id: string, lease: Lease, resourceKey: Option<string>, operationId: string, now: int)
      returns (ok: bool)
      modifies this`batches
      ensures var command := OnBatch(id, lease, resourceKey, now, Start(operationId));
              State() == Next(old(State()), command) && (ok <==> Execute(old(State()), command).Ok?)
    {
      if !Current(leases, lease, now) || id !in batches { return false; }
      var b := batches[id];
      if b.phase != Planned || b.leaseName != lease.name || b.fencing > lease.fencing
         || !RightResource(b, resourceKey) || HasRecords(b)
      { return false; }
      if b.fencing != lease.fencing {
        batches := batches[id := b.(leaseOwner := lease.owner, leaseToken := lease.token, fencing := lease.fencing)];
      }
      InsertRow(id, lease, Started(operationId));
      SetPhase(id, Attempting);
      ok := true;
    }

    method StartRecoveryAttempt(id: string, lease: Lease, recoveryId: string, handoffId: string, now: int)
      returns (ok: bool)
      modifies this`batches
      ensures var command := OnBatch(id, lease, None, now, StartRecovery(recoveryId, handoffId));
              State() == Next(old(State()), command) && (ok <==> Execute(old(State()), command).Ok?)
    {
      if !Current(leases, lease, now) || id !in batches { return false; }
      if !NewIds(Journal(leases, keys, batches), StartRecovery(recoveryId, handoffId)) { return false; }
      var b := batches[id];
      if b.leaseName != lease.name || b.fencing > lease.fencing || b.phase != RecoveryDesired { return false; }
      if b.fencing < lease.fencing { TakeOver(id, lease, handoffId); }
      SetPhase(id, Recovering);
      InsertRow(id, lease, Recovery(recoveryId, Recovering));
      ok := true;
    }

    method RecordRecoveryPhase(id: string, lease: Lease, to: Phase, attempt: Option<string>, recoveryId: string,
                               handoffId: string, now: int)
      returns (ok: bool)
      requires to in {RecoveryDesired, RecoverySucceeded, RecoveryFailed}
      modifies this`batches
      ensures var command := OnBatch(id, lease, None, now, RecordRecovery(to, attempt, recoveryId, handoffId));
              State() == Next(old(State()), command) && (ok <==> Execute(old(State()), command).Ok?)
    {
      hide NewIds, Current, ActiveAttempt;
      if !Current(leases, lease, now) || id !in batches { return false; }
      if !NewIds(Journal(leases, keys, batches), RecordRecovery(to, attempt, recoveryId, handoffId)) { return false; }
      var saved := batches;
      var from := batches[id].phase;
      var takenOver := false;
      if batches[id].leaseName != lease.name { return false; }
      if batches[id].fencing != lease.fencing {
        var stale := batches[id].fencing < lease.fencing;
        if !(stale && ((to != RecoveryDesired && from == RecoveryDesired)
                       || (to == RecoveryDesired && from in {Failed, Recovering, RecoveryFailed})))
        { return false; }
        TakeOver(id, lease, handoffId);
        takenOver := true;
      }
      if !((takenOver && from == Recovering && to == RecoveryDesired) || (from == Succeeded && to == RecoveryDesired)
           || ValidTransition(from, to))
      { batches := saved; return false; }
      if to != RecoveryDesired && (attempt.None? || !ActiveAttempt(batches[id], attempt.value)) {
        batches := saved;
        return false;
      }
      SetPhase(id, to);
      InsertRow(id, lease, Recovery(recoveryId, to));
      ok := true;
    }

    // A write for a recovery action may begin with a takeover, which the check right after it undoes.
    method RecordRecoveryAction(id: string, lease: Lease, resourceKey: Option<string>, attemptId: string, actionId: string,
                                status: Status, handoffId: string, now: int)
      returns (ok: bool)
      modifies this`batches
      ensures var command := OnBatch(id, lease, resourceKey, now, RecordAction(attemptId, actionId, status, handoffId));
              State() == Next(old(State()), command) && (ok <==> Execute(old(State()), command).Ok?)
    {
      hide Current, ActiveAttempt;
      if !Current(leases, lease, now) || id !in batches { return false; }
      var saved := batches;
      var b := batches[id];
      if b.leaseName != lease.name || b.phase != Recovering || b.fencing > lease.fencing { return false; }
      if b.fencing < lease.fencing { TakeOver(id, lease, handoffId); }
      if !ActiveAttempt(batches[id], attemptId) || !RightResource(b, resourceKey) {
        batches := saved;
        return false;
      }
      InsertRow(id, lease, Action(attemptId, actionId, status));
      ok := true;
    }
  }
}
