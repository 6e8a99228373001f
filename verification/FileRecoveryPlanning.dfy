/**
  What may be done to a file whose journaled write or delete did not finish: the verdict
  is computed from the surviving checkpoints and the latest recorded failure alone
  (operation_journal/file_recovery_planning.py).
*/
module FileRecoveryPlanning {
  import opened Wrappers
  import opened Snapshots
  import opened Backups

  datatype Kind = Before | BackupIntent | Backup | ExpectedAfter | After | Failure

  datatype Desired =
    | DesiredMissing(path: string)
    | DesiredFile(path: string, size: nat, contentHash: Digest)

  datatype Payload =
    | Observed(snapshot: Snapshot)
    | BackedUp(backup: FileBackup)
    | Wanted(desired: Desired)

  datatype Checkpoint = Checkpoint(kind: Kind, resourceKey: string, payload: Payload)

  // What a failing or replaying process wrote down; every part may be absent.
  datatype FailurePayload = FailurePayload(stage: Option<string>, snapshot: Option<Snapshot>, after: Option<Snapshot>)

  datatype Operation = WriteBytes | WriteText | DeleteFile | OtherOperation

  datatype Reason = MissingBackupProof | MissingExpectedCurrentProof

  datatype Verdict =
    | NotAFileOperation
    | Restore(backup: FileBackup, expectedCurrent: Snapshot)
    | Noop
    | Manual(reason: Reason)

  const PREPARE_CHECKPOINTS := "prepare_checkpoints"

  function PathOf(payload: Payload): string {
    match payload
    case Observed(s) => s.path
    case BackedUp(b) => b.path
    case Wanted(d) => d.path
  }

  predicate Concerns(c: Checkpoint, kind: Kind, resourceKey: string, path: string) {
    c.kind == kind && c.resourceKey == resourceKey && PathOf(c.payload) == path
  }

  // The newest checkpoint of one kind about one path.
  function Latest(checkpoints: seq<Checkpoint>, kind: Kind, resourceKey: string, path: string): (latest: Option<Payload>)
    ensures latest.None? <==> forall c :: c in checkpoints ==> !Concerns(c, kind, resourceKey, path)
    ensures latest.Some? ==> Checkpoint(kind, resourceKey, latest.value) in checkpoints && PathOf(latest.value) == path
  {
    if checkpoints == [] then None
    else
      var last := checkpoints[|checkpoints| - 1];
      if Concerns(last, kind, resourceKey, path) then Some(last.payload)
      else
        assert checkpoints == checkpoints[..|checkpoints| - 1] + [last];
        Latest(checkpoints[..|checkpoints| - 1], kind, resourceKey, path)
  }

  predicate IsBackup(payload: Payload) {
    payload.BackedUp? && payload.backup.Valid()
  }

  predicate MatchesDesired(snapshot: Snapshot, desired: Desired) {
    && snapshot.path == desired.path
    && match desired
       case DesiredMissing(_) => !snapshot.exists_ && snapshot.fileType == MissingPath
       case DesiredFile(_, size, contentHash) =>
         && snapshot.exists_
         && snapshot.fileType == RegularFile
         && snapshot.size == Some(size)
         && snapshot.contentHash == Some(contentHash)
  }

  predicate StageIsPrepare(failure: Option<FailurePayload>) {
    failure.Some? && failure.value.stage == Some(PREPARE_CHECKPOINTS)
  }

  function FailureSnapshot(failure: Option<FailurePayload>): Option<Snapshot> {
    if failure.Some? then failure.value.snapshot else None
  }

  function ObservedAfter(failure: Option<FailurePayload>): Option<Snapshot> {
    if failure.None? then None
    else if failure.value.after.Some? then failure.value.after
    else failure.value.snapshot
  }

  predicate IsObserved(payload: Option<Payload>) {
    payload.Some? && payload.value.Observed?
  }

  predicate IsWanted(payload: Option<Payload>) {
    payload.Some? && payload.value.Wanted?
  }

  function BeforeMutationProof(checkpoints: seq<Checkpoint>, key: string, path: string, failure: Option<FailurePayload>)
    : bool
  {
    var before := Latest(checkpoints, Before, key, path);
    var snapshot := FailureSnapshot(failure);
    && StageIsPrepare(failure)
    && IsObserved(before) && snapshot.Some?
    && SameSnapshot(before.value.snapshot, snapshot.value, path)
  }

  function NoSideEffectProof(checkpoints: seq<Checkpoint>, key: string, path: string, backup: FileBackup,
                             failure: Option<FailurePayload>)
    : bool
  {
    var before := Latest(checkpoints, Before, key, path);
    var snapshot := FailureSnapshot(failure);
    && snapshot.Some?
    && Latest(checkpoints, ExpectedAfter, key, path).Some?
    && (|| (IsObserved(before) && SameSnapshot(before.value.snapshot, snapshot.value, path))
        || SameSnapshot(backup.snapshot, snapshot.value, path))
  }

  // The state the path must still be in for a restore to overwrite it.
  function ExpectedCurrent(checkpoints: seq<Checkpoint>, key: string, path: string, failure: Option<FailurePayload>)
    : Option<Snapshot>
  {
    var after := Latest(checkpoints, After, key, path);
    var expected := Latest(checkpoints, ExpectedAfter, key, path);
    var observed := ObservedAfter(failure);
    var failed := Latest(checkpoints, Failure, key, path);
    if IsObserved(after) then Some(after.value.snapshot)
    else if observed.Some? && IsWanted(expected) && MatchesDesired(observed.value, expected.value.desired) then observed
    else if IsObserved(failed) && IsWanted(expected) && MatchesDesired(failed.value.snapshot, expected.value.desired) then
      Some(failed.value.snapshot)
    else if StageIsPrepare(failure) && FailureSnapshot(failure).Some? && FailureSnapshot(failure).value.path == path then
      FailureSnapshot(failure)
    else None
  }

  function RecoveryProof(operation: Operation, path: string, resourceKey: Option<string>,
                         checkpoints: seq<Checkpoint>, failure: Option<FailurePayload>)
    : Verdict
  {
    if operation == OtherOperation || resourceKey.None? then NotAFileOperation
    else
      var key := resourceKey.value;
      var backup := Latest(checkpoints, Backup, key, path);
      if backup.None? || !IsBackup(backup.value) then
        if BeforeMutationProof(checkpoints, key, path, failure) then Noop else Manual(MissingBackupProof)
      else
        var expected := ExpectedCurrent(checkpoints, key, path, failure);
        if expected.Some? then Restore(backup.value.backup, expected.value)
        else if NoSideEffectProof(checkpoints, key, path, backup.value.backup, failure) then Noop
        else Manual(MissingExpectedCurrentProof)
  }

  // A restore is offered only with a recorded backup of this path, and expects only a state that
  // was recorded: the after-checkpoint, an observation equal to the intended result, or what the
  // failing process saw while it was still preparing.
  lemma RestoreRestsOnRecords(operation: Operation, path: string, key: string, checkpoints: seq<Checkpoint>,
                              failure: Option<FailurePayload>, backup: FileBackup, expected: Snapshot)
    requires RecoveryProof(operation, path, Some(key), checkpoints, failure) == Restore(backup, expected)
    ensures Checkpoint(Backup, key, BackedUp(backup)) in checkpoints && backup.Valid() && backup.path == path
    ensures expected.path == path
    ensures || Checkpoint(After, key, Observed(expected)) in checkpoints
            || (exists d :: Checkpoint(ExpectedAfter, key, Wanted(d)) in checkpoints && MatchesDesired(expected, d)
                  && (ObservedAfter(failure) == Some(expected) || Checkpoint(Failure, key, Observed(expected)) in checkpoints))
            || (StageIsPrepare(failure) && FailureSnapshot(failure) == Some(expected))
  {
    var wanted := Latest(checkpoints, ExpectedAfter, key, path);
    if IsWanted(wanted) {
      assert Checkpoint(ExpectedAfter, key, Wanted(wanted.value.desired)) in checkpoints;
    }
  }

  // Nothing needs undoing only if a snapshot taken when the run failed or was replayed agrees, inode
  // included, with one taken before it, and the run either died preparing or had recorded its intent.
  lemma NoopRestsOnRecords(operation: Operation, path: string, key: string, checkpoints: seq<Checkpoint>,
                           failure: Option<FailurePayload>)
    requires RecoveryProof(operation, path, Some(key), checkpoints, failure) == Noop
    ensures FailureSnapshot(failure).Some?
    ensures exists s ::
              && (|| Checkpoint(Before, key, Observed(s)) in checkpoints
                  || exists b :: Checkpoint(Backup, key, BackedUp(b)) in checkpoints && b.snapshot == s)
              && SameSnapshot(s, FailureSnapshot(failure).value, path)
    ensures StageIsPrepare(failure) || exists d :: Checkpoint(ExpectedAfter, key, d) in checkpoints
  {
    var before := Latest(checkpoints, Before, key, path);
    var backup := Latest(checkpoints, Backup, key, path);
    var seen := FailureSnapshot(failure).value;
    if IsObserved(before) && SameSnapshot(before.value.snapshot, seen, path) {
      assert Checkpoint(Before, key, Observed(before.value.snapshot)) in checkpoints;
    } else {
      assert Checkpoint(Backup, key, BackedUp(backup.value.backup)) in checkpoints;
      assert SameSnapshot(backup.value.backup.snapshot, seen, path);
    }
  }

  lemma {:induction false} LatestSkips(checkpoints: seq<Checkpoint>, more: seq<Checkpoint>, kind: Kind, key: string, path: string)
    requires forall c :: c in more ==> !Concerns(c, kind, key, path)
    ensures Latest(checkpoints + more, kind, key, path) == Latest(checkpoints, kind, key, path)
  {
    if more == [] {
      assert checkpoints + more == checkpoints;
    } else {
      var shorter := more[..|more| - 1];
      var last := more[|more| - 1];
      assert last in more;
      assert forall c :: c in shorter ==> c in more;
      LatestSkips(checkpoints, shorter, kind, key, path);
      assert (checkpoints + more)[..|checkpoints + more| - 1] == checkpoints + shorter;
      assert (checkpoints + more)[|checkpoints + more| - 1] == last;
    }
  }

  lemma LatestIs(checkpoints: seq<Checkpoint>, i: nat, kind: Kind, key: string, path: string)
    requires i < |checkpoints| && Concerns(checkpoints[i], kind, key, path)
    requires forall j :: i < j < |checkpoints| ==> !Concerns(checkpoints[j], kind, key, path)
    ensures Latest(checkpoints, kind, key, path) == Some(checkpoints[i].payload)
  {
    LatestSkips(checkpoints[..i + 1], checkpoints[i + 1..], kind, key, path);
    assert checkpoints == checkpoints[..i + 1] + checkpoints[i + 1..];
  }

  // Checkpoints about other resources or other paths never change a verdict.
  lemma VerdictIgnoresOthers(operation: Operation, path: string, key: string, checkpoints: seq<Checkpoint>,
                             others: seq<Checkpoint>, failure: Option<FailurePayload>)
    requires forall c :: c in others ==> c.resourceKey != key || PathOf(c.payload) != path
    ensures RecoveryProof(operation, path, Some(key), checkpoints + others, failure)
            == RecoveryProof(operation, path, Some(key), checkpoints, failure)
  {
    LatestSkips(checkpoints, others, Before, key, path);
    LatestSkips(checkpoints, others, Backup, key, path);
    LatestSkips(checkpoints, others, ExpectedAfter, key, path);
    LatestSkips(checkpoints, others, After, key, path);
    LatestSkips(checkpoints, others, Failure, key, path);
    var all := checkpoints + others;
    assert BeforeMutationProof(all, key, path, failure) == BeforeMutationProof(checkpoints, key, path, failure);
    assert ExpectedCurrent(all, key, path, failure) == ExpectedCurrent(checkpoints, key, path, failure);
    var backup := Latest(checkpoints, Backup, key, path);
    if backup.Some? && IsBackup(backup.value) {
      var b := backup.value.backup;
      assert NoSideEffectProof(all, key, path, b, failure) == NoSideEffectProof(checkpoints, key, path, b, failure);
    }
  }
}
