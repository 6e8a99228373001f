/**
  What the library can observe of one path: a node of the filesystem and the
  snapshot record taken of it (filesystem_ops/models.py, filesystem_ops/snapshots.py).
*/
module Snapshots {
  import opened Wrappers

  newtype Byte = x: int | 0 <= x < 0x100
  type Bytes = seq<Byte>

  // SHA-256 is taken as injective: a digest is identified with its preimage.
  datatype Digest = Sha256(preimage: Bytes)

  datatype FileType = MissingPath | RegularFile | DirectoryPath | SymlinkPath | OtherPath

  // The part of a stat result that a replacement of the path renews.
  datatype Stamp = Stamp(mtime: nat, device: nat, inode: nat)

  datatype Node =
    | Absent
    | File(content: Bytes, permissions: nat, stamp: Stamp)
    | Directory(size: nat, stamp: Stamp)
    | Symlink(target: string, size: nat, stamp: Stamp)
    | Other(size: nat, stamp: Stamp)

  datatype Snapshot = Snapshot(
    path: string,
    exists_: bool,
    fileType: FileType,
    contentHash: Option<Digest>,
    size: Option<nat>,
    mtime: Option<nat>,
    symlinkTarget: Option<string>,
    device: Option<nat>,
    inode: Option<nat>)

  function TakeSnapshot(path: string, node: Node): (s: Snapshot)
  {
    match node
    case Absent =>
      Snapshot(path, false, MissingPath, None, None, None, None, None, None)
    case File(content, _, st) =>
      Snapshot(path, true, RegularFile, Some(Sha256(content)), Some(|content|),
               Some(st.mtime), None, Some(st.device), Some(st.inode))
    case Directory(size, st) =>
      Snapshot(path, true, DirectoryPath, None, Some(size), Some(st.mtime), None, Some(st.device), Some(st.inode))
    case Symlink(target, size, st) =>
      Snapshot(path, true, SymlinkPath, None, Some(size), Some(st.mtime), Some(target), Some(st.device), Some(st.inode))
    case Other(size, st) =>
      Snapshot(path, true, OtherPath, None, Some(size), Some(st.mtime), None, Some(st.device), Some(st.inode))
  }

  // Existence, content and permissions agree; the stamp may differ.
  predicate SameData(a: Node, b: Node) {
    if a.File? && b.File? then a.content == b.content && a.permissions == b.permissions else a == b
  }

  // The comparison a restore makes before it overwrites: mtime and inode are ignored for two files.
  predicate SameResource(left: Snapshot, right: Snapshot) {
    if left.path == right.path && left.exists_ && right.exists_
       && left.fileType == RegularFile && right.fileType == RegularFile
       && left.contentHash.Some? && right.contentHash.Some?
    then
      left.contentHash == right.contentHash && left.size == right.size && left.symlinkTarget == right.symlinkTarget
    else
      && left.path == right.path
      && left.exists_ == right.exists_
      && left.fileType == right.fileType
      && left.contentHash == right.contentHash
      && left.size == right.size
      && left.mtime == right.mtime
      && left.symlinkTarget == right.symlinkTarget
  }

  // The comparison behind a noop verdict: eight fields, the device and inode among them.
  predicate SameSnapshot(left: Snapshot, right: Snapshot, path: string) {
    && left.path == path && right.path == path
    && left.exists_ == right.exists_
    && left.fileType == right.fileType
    && left.contentHash == right.contentHash
    && left.size == right.size
    && left.mtime == right.mtime
    && left.symlinkTarget == right.symlinkTarget
    && left.device == right.device
    && left.inode == right.inode
  }
}
