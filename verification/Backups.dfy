/** File backups and their guarded restore (filesystem_ops/backups.py). */
module Backups {
  import opened Wrappers
  import opened Snapshots

  datatype FileBackup = FileBackup(
    path: string,
    existed: bool,
    fileType: FileType,
    contentHash: Option<Digest>,
    size: Option<nat>,
    permissions: Option<nat>,
    snapshot: Snapshot)
  {
    // The checks a FileBackup makes of itself when it is built.
    predicate Valid() {
      && fileType in {MissingPath, RegularFile}
      && existed == (fileType == RegularFile)
      && snapshot.path == path && snapshot.fileType == fileType && snapshot.exists_ == existed
      && (fileType == MissingPath ==> contentHash.None? && size.None? && permissions.None?)
      && (fileType == RegularFile ==> contentHash.Some? && size.Some? && permissions.Some?)
    }
  }

  // The backup payload planned from a before-snapshot; the permissions come from a second
  // look at the path, which must still have the size and mtime of the snapshot.
  function PlannedBackup(before: Snapshot, node: Node): Option<FileBackup> {
    if before.fileType == MissingPath then
      Some(FileBackup(before.path, false, MissingPath, None, None, None, before))
    else if before.fileType == RegularFile && before.exists_ && node.File?
            && before.size == Some(|node.content|) && before.mtime == Some(node.stamp.mtime) then
      Some(FileBackup(before.path, true, RegularFile, before.contentHash, before.size, Some(node.permissions), before))
    else
      None
  }

  // Reading the bytes to keep: refused when they are no longer the ones of the snapshot.
  function CapturedBytes(before: Snapshot, node: Node): Option<Bytes> {
    if node.File? && before.size == Some(|node.content|) && before.mtime == Some(node.stamp.mtime)
       && before.contentHash == Some(Sha256(node.content))
    then Some(node.content) else None
  }

  datatype RestoreError = RestoreConflict | ContentMismatch | UnsafePath | InvalidRequest

  datatype RestoreResult = Restored(node: Node, wrote: bool) | Refused(error: RestoreError)

  predicate MatchesBackup(node: Node, backup: FileBackup) {
    if backup.fileType != RegularFile then node.Absent?
    else
      && node.File?
      && Some(Sha256(node.content)) == backup.contentHash
      && Some(|node.content|) == backup.size
      && Some(node.permissions) == backup.permissions
  }

  predicate ValidContent(backup: FileBackup, artifact: Option<Bytes>) {
    artifact.Some? && Some(Sha256(artifact.value)) == backup.contentHash && Some(|artifact.value|) == backup.size
  }

  function Preconditions(backup: FileBackup, current: Node, expectedCurrent: Option<Snapshot>, allowOverwrite: bool)
    : Option<RestoreError>
  {
    if allowOverwrite then None
    else if expectedCurrent.None? then Some(RestoreConflict)
    else if expectedCurrent.value.path != backup.path then Some(InvalidRequest)
    else if !SameResource(TakeSnapshot(backup.path, current), expectedCurrent.value) then Some(RestoreConflict)
    else None
  }

  // `artifact` is what the backup's content path holds, `stamp` what a replacement will carry.
  function RestoreBackup(backup: FileBackup, current: Node, artifact: Option<Bytes>,
                         expectedCurrent: Option<Snapshot>, allowOverwrite: bool, stamp: Stamp)
    : RestoreResult
    requires backup.Valid()
  {
    if backup.fileType == MissingPath then
      if current.Absent? then Restored(current, false)
      else if !current.File? then Refused(UnsafePath)
      else
        var refusal := Preconditions(backup, current, expectedCurrent, allowOverwrite);
        if refusal.Some? then Refused(refusal.value) else Restored(Absent, true)
    else if MatchesBackup(current, backup) then
      if ValidContent(backup, artifact) then Restored(current, false) else Refused(ContentMismatch)
    else
      var refusal := Preconditions(backup, current, expectedCurrent, allowOverwrite);
      if refusal.Some? then Refused(refusal.value)
      else if !ValidContent(backup, artifact) then Refused(ContentMismatch)
      else if !current.Absent? && !current.File? then Refused(UnsafePath)
      else Restored(File(artifact.value, backup.permissions.value, stamp), true)
  }

  // Whatever a restore reports as done is the state the backup was taken of.
  lemma RestoreReachesBefore(before: Node, backup: FileBackup, current: Node, artifact: Option<Bytes>,
                             expectedCurrent: Option<Snapshot>, allowOverwrite: bool, stamp: Stamp)
    requires backup.Valid()
    requires PlannedBackup(TakeSnapshot(backup.path, before), before) == Some(backup)
    ensures var r := RestoreBackup(backup, current, artifact, expectedCurrent, allowOverwrite, stamp);
            r.Restored? ==> SameData(r.node, before) && (!r.wrote ==> r.node == current)
  {
  }

  // A restore overwrites only a file (or an absence) whose content is the one it was told to expect,
  // and it says nothing was written exactly when the path already held the before state.
  lemma RestoreOverwritesOnlyExpected(backup: FileBackup, current: Node, artifact: Option<Bytes>,
                                      expectedCurrent: Option<Snapshot>, stamp: Stamp)
    requires backup.Valid()
    ensures var r := RestoreBackup(backup, current, artifact, expectedCurrent, false, stamp);
            && (r.Restored? && r.wrote ==>
                  && expectedCurrent.Some?
                  && (current.Absent? ==> !expectedCurrent.value.exists_)
                  && (current.File? ==> expectedCurrent.value.contentHash == Some(Sha256(current.content)))
                  && (current.Absent? || current.File?))
            && (r.Restored? ==> (r.wrote <==> !MatchesBackup(current, backup)))
  {
  }

  // When a restore goes through: the kept bytes are whole (where there are any), and the before-state is
  // there already, or a file or nothing is, and overwriting it is allowed or it is what was expected.
  lemma RestoreGoesThroughIff(backup: FileBackup, current: Node, artifact: Option<Bytes>,
                              expectedCurrent: Option<Snapshot>, allowOverwrite: bool, stamp: Stamp)
    requires backup.Valid()
    ensures var asExpected := expectedCurrent.Some? && expectedCurrent.value.path == backup.path
                              && SameResource(TakeSnapshot(backup.path, current), expectedCurrent.value);
            RestoreBackup(backup, current, artifact, expectedCurrent, allowOverwrite, stamp).Restored?
            <==> && (backup.existed ==>
                       artifact.Some? && Some(Sha256(artifact.value)) == backup.contentHash && Some(|artifact.value|) == backup.size)
                 && (|| MatchesBackup(current, backup)
                     || ((current.Absent? || current.File?) && (allowOverwrite || asExpected)))
  {
    hide TakeSnapshot, SameResource;
  }

  // Restoring twice writes once, whatever the second call is told to expect.
  lemma RestoreIsIdempotent(backup: FileBackup, current: Node, artifact: Option<Bytes>,
                            expectedCurrent: Option<Snapshot>, allowOverwrite: bool, stamp: Stamp,
                            expectedAgain: Option<Snapshot>, stampAgain: Stamp)
    requires backup.Valid()
    ensures var r := RestoreBackup(backup, current, artifact, expectedCurrent, allowOverwrite, stamp);
            r.Restored? ==>
              RestoreBackup(backup, r.node, artifact, expectedAgain, allowOverwrite, stampAgain) == Restored(r.node, false)
  {
  }
}
