/**
  Restoring a tree backup: a preflight of every entry against the tree as it is, then the entries one
  by one (filesystem_ops/tree_backups.py, filesystem_ops/models.py).
*/
module TreeRestore {
  import opened Paths
  import opened Snapshots
  import opened Wrappers

  datatype TreeNode =
    | FileNode(content: Bytes, permissions: nat, mtime: nat)
    | LinkNode(target: string)
    | DirNode(mount: bool)
    | SpecialNode

  type Tree = map<Path, TreeNode>

  datatype EntryKind =
    | FileEntry(contentHash: Digest, size: nat, permissions: nat, mtime: Option<nat>)
    | LinkEntry(target: string)

  datatype Entry = Entry(relative: Path, kind: EntryKind)

  datatype Policy = NoReplace | Replace

  datatype Error = UnsafePath | RestoreConflict | ContentMismatch | Unsupported

  // The store of kept bytes, and whether this platform can create links safely.
  datatype Context = Context(stored: map<Digest, Bytes>, links: bool, policy: Policy, newMtime: nat)

  // What exists has its parent, and the parent is a directory.
  ghost predicate WellFormed(tree: Tree) {
    forall p :: p in tree && p != [] ==> Parent(p) in tree && tree[Parent(p)].DirNode?
  }

  // The rule the record of a backup checks of itself: no path twice, none inside another.
  predicate PrefixFree(entries: seq<Entry>) {
    && (forall i :: 0 <= i < |entries| ==> entries[i].relative != [])
    && forall i, k :: 0 <= i < |entries| && 0 <= k < |entries| && i != k ==>
         !IsPrefixOrSame(entries[i].relative, entries[k].relative)
  }

  // Every existing directory on the way is a plain one.
  ghost predicate Clear(tree: Tree, path: Path) {
    forall q :: q in tree && q != [] && IsPrefixOrSame(q, path) ==> tree[q] == DirNode(false)
  }

  // Creates whatever is missing on the way.
  function WithDirectories(tree: Tree, path: Path): Tree {
    tree + (map q | q in (set k | 0 < k <= |path| :: path[..k]) && q !in tree :: DirNode(false))
  }

  predicate StoreHas(c: Context, contentHash: Digest, size: nat) {
    contentHash in c.stored && Sha256(c.stored[contentHash]) == contentHash && |c.stored[contentHash]| == size
  }

  predicate ArtifactUsable(c: Context, kind: EntryKind) {
    match kind
    case FileEntry(contentHash, size, _, _) => StoreHas(c, contentHash, size)
    case LinkEntry(_) => c.links
  }

  predicate Matches(node: TreeNode, kind: EntryKind) {
    match kind
    case FileEntry(contentHash, size, permissions, mtime) =>
      && node.FileNode? && Sha256(node.content) == contentHash && |node.content| == size
      && node.permissions == permissions && (mtime.None? || node.mtime == mtime.value)
    case LinkEntry(target) => node == LinkNode(target)
  }

  // Why an existing leaf may not become the entry, if it may not.
  function LeafError(node: TreeNode, kind: EntryKind, policy: Policy): Option<Error> {
    if node == DirNode(true) then Some(UnsafePath)
    else if Matches(node, kind) then None
    else if policy.NoReplace? then Some(RestoreConflict)
    else if !node.FileNode? && !node.LinkNode? then Some(UnsafePath)
    else if node.LinkNode? && kind.FileEntry? then Some(UnsafePath)
    else if kind.LinkEntry? then Some(Unsupported)
    else None
  }

  ghost function PreflightEntry(tree: Tree, root: Path, e: Entry, c: Context): Option<Error> {
    var target := root + e.relative;
    if !ArtifactUsable(c, e.kind) then Some(ContentMismatch)
    else if e.relative == [] || !Clear(tree, Parent(target)) then Some(UnsafePath)
    else if target !in tree then None
    else LeafError(tree[target], e.kind, c.policy)
  }

  ghost predicate PreflightPasses(tree: Tree, root: Path, entries: seq<Entry>, c: Context) {
    && Clear(tree, root)
    && forall i :: 0 <= i < |entries| ==> PreflightEntry(tree, root, entries[i], c).None?
  }

  function Restored(kind: EntryKind, c: Context): TreeNode
    requires ArtifactUsable(c, kind)
  {
    match kind
    case FileEntry(contentHash, _, permissions, mtime) =>
      FileNode(c.stored[contentHash], permissions, mtime.GetOr(c.newMtime))
    case LinkEntry(target) => LinkNode(target)
  }

  datatype Result = Completed(tree: Tree) | Stopped(tree: Tree, error: Error)

  ghost function RestoreEntry(tree: Tree, root: Path, e: Entry, c: Context): Result {
    var target := root + e.relative;
    if e.relative == [] || !Clear(tree, Parent(target)) then Stopped(tree, UnsafePath)
    else
      var made := WithDirectories(tree, Parent(target));
      var refusal := if target in made then LeafError(made[target], e.kind, c.policy) else None;
      if refusal.Some? then Stopped(made, refusal.value)
      else if target in made && Matches(made[target], e.kind) then Completed(made)
      else if !ArtifactUsable(c, e.kind) then Stopped(made, ContentMismatch)
      else Completed(made[target := Restored(e.kind, c)])
  }

  ghost function RestoreEntries(tree: Tree, root: Path, entries: seq<Entry>, c: Context): Result
    decreases |entries|
  {
    if entries == [] then Completed(tree)
    else
      var first := RestoreEntry(tree, root, entries[0], c);
      if first.Stopped? then first else RestoreEntries(first.tree, root, entries[1..], c)
  }

  ghost function RestoreTree(tree: Tree, root: Path, entries: seq<Entry>, c: Context): Result {
    if !PreflightPasses(tree, root, entries, c) then Stopped(tree, UnsafePath)
    else RestoreEntries(WithDirectories(tree, root), root, entries, c)
  }

  // When the preflight passes, told on the tree, the kept bytes and the policy: no link, mount or file on
  // any way, every entry's bytes kept (or links possible), and nothing at a target but what matches the
  // entry already, or a file that may be replaced by a file.
  lemma PreflightPassesIff(tree: Tree, root: Path, entries: seq<Entry>, c: Context)
    ensures PreflightPasses(tree, root, entries, c)
            <==> && Clear(tree, root)
                 && forall e :: e in entries ==>
                      && e.relative != [] && Clear(tree, Parent(root + e.relative))
                      && (e.kind.LinkEntry? ==> c.links)
                      && (e.kind.FileEntry? ==>
                            e.kind.contentHash in c.stored && Sha256(c.stored[e.kind.contentHash]) == e.kind.contentHash
                            && |c.stored[e.kind.contentHash]| == e.kind.size)
                      && (|| root + e.relative !in tree
                          || Matches(tree[root + e.relative], e.kind)
                          || (c.policy == Replace && e.kind.FileEntry? && tree[root + e.relative].FileNode?))
  {
    hide Clear, Matches;
    forall e ensures (PreflightEntry(tree, root, e, c).None?
            <==> && e.relative != [] && Clear(tree, Parent(root + e.relative))
                 && (e.kind.LinkEntry? ==> c.links)
                 && (e.kind.FileEntry? ==>
                       e.kind.contentHash in c.stored && Sha256(c.stored[e.kind.contentHash]) == e.kind.contentHash
                       && |c.stored[e.kind.contentHash]| == e.kind.size)
                 && (|| root + e.relative !in tree
                     || Matches(tree[root + e.relative], e.kind)
                     || (c.policy == Replace && e.kind.FileEntry? && tree[root + e.relative].FileNode?)))
    {
      if root + e.relative in tree { DirectoryNeverMatches(tree[root + e.relative], e.kind); }
    }
    hide PreflightEntry;
    forall i | 0 <= i < |entries| ensures entries[i] in entries {}
  }

  lemma DirectoryNeverMatches(node: TreeNode, kind: EntryKind)
    ensures Matches(node, kind) ==> !node.DirNode?
  {
  }

  lemma PrefixesOf(path: Path, q: Path)
    ensures q in (set k | 0 < k <= |path| :: path[..k]) <==> q != [] && IsPrefixOrSame(q, path)
  {
    if q != [] && IsPrefixOrSame(q, path) { assert q == path[..|q|]; }
    if q in (set k | 0 < k <= |path| :: path[..k]) {
      var k :| 0 < k <= |path| && q == path[..k];
      if k == |path| { assert q == path; }
    }
  }

  // Creating directories on a clear way changes nothing that exists and keeps the tree well formed.
  lemma DirectoriesMade(tree: Tree, path: Path)
    requires WellFormed(tree) && [] in tree && tree[[]].DirNode? && Clear(tree, path)
    ensures var made := WithDirectories(tree, path);
            && WellFormed(made) && Clear(made, path)
            && (forall q :: q in tree ==> q in made && made[q] == tree[q])
            && (forall q :: q in made && q !in tree ==> made[q] == DirNode(false) && q != [] && IsPrefixOrSame(q, path))
            && (forall q :: q != [] && IsPrefixOrSame(q, path) ==> q in made && made[q] == DirNode(false))
  {
    var made := WithDirectories(tree, path);
    forall q ensures q in (set k | 0 < k <= |path| :: path[..k]) <==> q != [] && IsPrefixOrSame(q, path) {
      PrefixesOf(path, q);
    }
    forall q | q in made && q != [] ensures Parent(q) in made && made[Parent(q)].DirNode? {
      if q !in tree && Parent(q) != [] {
        assert IsPrefixOrSame(Parent(q), path) by { assert Parent(q) == path[..|q| - 1]; }
      }
    }
  }

  // Where an entry goes, and what may be new: its target, and directories on the way to targets.
  predicate OnTheWay(q: Path, root: Path, entries: seq<Entry>) {
    || IsPrefixOrSame(q, root)
    || exists i :: 0 <= i < |entries| && IsPrefix(q, root + entries[i].relative)
  }

  predicate IsTarget(q: Path, root: Path, entries: seq<Entry>, n: nat) {
    exists i :: 0 <= i < |entries| && i < n && q == root + entries[i].relative
  }

  // What holds after the first n entries.
  ghost predicate Progress(start: Tree, now: Tree, root: Path, entries: seq<Entry>, n: nat) {
    && WellFormed(now) && [] in now && now[[]].DirNode?
    && (forall q :: q in start ==> q in now && (now[q] == start[q] || IsTarget(q, root, entries, n)))
    && (forall q :: q in now && q !in start ==>
          IsTarget(q, root, entries, n) || (now[q] == DirNode(false) && q != [] && OnTheWay(q, root, entries)))
    && (forall i :: 0 <= i < n && i < |entries| ==>
          root + entries[i].relative in now && Matches(now[root + entries[i].relative], entries[i].kind))
  }

  lemma SamePrefix(root: Path, a: Path, b: Path)
    ensures IsPrefix(root + a, root + b) <==> IsPrefix(a, b)
    ensures root + a == root + b <==> a == b
  {
    assert (root + b)[..|root|] == root;
    if |a| <= |b| { assert (root + b)[..|root + a|] == root + b[..|a|]; }
    assert (root + a)[|root|..] == a && (root + b)[|root|..] == b;
  }

  // The next entry's way and target are still as the preflight saw them: no earlier target lies on
  // its way, and none of the new directories is its target.
  lemma StillClear(start: Tree, now: Tree, root: Path, entries: seq<Entry>, n: nat, c: Context)
    requires n < |entries| && PrefixFree(entries) && WellFormed(start)
    requires PreflightPasses(start, root, entries, c) && Progress(start, now, root, entries, n)
    ensures var target := root + entries[n].relative;
            && Clear(now, Parent(target))
            && (target in now <==> target in start) && (target in now ==> now[target] == start[target])
  {
    var target := root + entries[n].relative;
    assert entries[n].relative != [] && PreflightEntry(start, root, entries[n], c).None?;
    forall q | IsPrefixOrSame(q, target) ensures !IsTarget(q, root, entries, n) {
      if IsTarget(q, root, entries, n) {
        var i :| 0 <= i < |entries| && i < n && q == root + entries[i].relative;
        SamePrefix(root, entries[i].relative, entries[n].relative);
        assert IsPrefixOrSame(entries[i].relative, entries[n].relative);
        assert false;
      }
    }
    forall q | q in now && q != [] && IsPrefixOrSame(q, Parent(target)) ensures now[q] == DirNode(false) {
      assert IsPrefixOrSame(q, target) by { assert target[..|q|] == q; }
    }
    if target in now && target !in start {
      assert OnTheWay(target, root, entries);
      if !IsPrefixOrSame(target, root) {
        var i :| 0 <= i < |entries| && IsPrefix(target, root + entries[i].relative);
        SamePrefix(root, entries[n].relative, entries[i].relative);
        assert i != n && IsPrefixOrSame(entries[n].relative, entries[i].relative);
      }
      assert false;
    }
  }

  // A leaf is put where its parent is, and no directory gives way to it.
  ghost predicate LeafPut(made: Tree, after: Tree, target: Path) {
    && target != [] && target in after && Parent(target) in made && made[Parent(target)].DirNode?
    && after.Keys == made.Keys + {target}
    && (forall q :: q in made && q != target ==> after[q] == made[q])
    && (target in made ==> !made[target].DirNode?)
  }

  // One entry whose way is clear and whose leaf nothing speaks against.
  lemma EntryRestored(now: Tree, root: Path, e: Entry, c: Context)
    requires WellFormed(now) && [] in now && now[[]].DirNode? && e.relative != []
    requires var target := root + e.relative;
             && Clear(now, Parent(target)) && ArtifactUsable(c, e.kind)
             && (target in now ==> LeafError(now[target], e.kind, c.policy).None?)
    ensures var target, r := root + e.relative, RestoreEntry(now, root, e, c);
            var made := WithDirectories(now, Parent(target));
            r.Completed? && LeafPut(made, r.tree, target) && Matches(r.tree[target], e.kind)
  {
    var target := root + e.relative;
    var made := WithDirectories(now, Parent(target));
    hide WellFormed, Clear, WithDirectories, Parent;
    PlaceFor(now, target);
    RestoredMatches(e.kind, c);
    hide Restored, Matches, ArtifactUsable;
    LeafErrorSparesDirectories(e.kind, c.policy);
    hide LeafError;
    if target in now {
      assert made[target] == now[target];
      assert LeafError(made[target], e.kind, c.policy).None?;
    }
  }

  lemma RestoredMatches(kind: EntryKind, c: Context)
    requires ArtifactUsable(c, kind)
    ensures Matches(Restored(kind, c), kind)
  {
  }

  lemma LeafErrorSparesDirectories(kind: EntryKind, policy: Policy)
    ensures forall mount :: LeafError(DirNode(mount), kind, policy).Some?
  {
  }

  lemma PlaceFor(now: Tree, target: Path)
    requires WellFormed(now) && [] in now && now[[]].DirNode? && target != [] && Clear(now, Parent(target))
    ensures var made := WithDirectories(now, Parent(target));
            && Parent(target) in made && made[Parent(target)].DirNode?
            && (target in made <==> target in now) && (target in now ==> made[target] == now[target])
  {
    DirectoriesMade(now, Parent(target));
    assert !IsPrefixOrSame(target, Parent(target));
  }

  lemma EntryProgresses(start: Tree, now: Tree, root: Path, entries: seq<Entry>, n: nat, c: Context)
    requires n < |entries| && PrefixFree(entries) && WellFormed(start)
    requires PreflightPasses(start, root, entries, c) && Progress(start, now, root, entries, n)
    ensures var r := RestoreEntry(now, root, entries[n], c);
            r.Completed? && Progress(start, r.tree, root, entries, n + 1)
  {
    var e := entries[n];
    var target := root + e.relative;
    StillClear(start, now, root, entries, n, c);
    assert PreflightEntry(start, root, e, c).None? && e.relative != [];
    hide PreflightPasses, Clear, PrefixFree, OnTheWay, LeafError, ArtifactUsable, Matches, LeafPut, WithDirectories;
    EntryRestored(now, root, e, c);
    DirectoriesMade(now, Parent(target));
    var made := WithDirectories(now, Parent(target));
    MadeProgresses(start, now, made, root, entries, n);
    LeafProgresses(start, made, RestoreEntry(now, root, e, c).tree, root, entries, n);
  }

  // New directories on the way to the next target.
  lemma MadeProgresses(start: Tree, now: Tree, made: Tree, root: Path, entries: seq<Entry>, n: nat)
    requires n < |entries| && entries[n].relative != [] && Progress(start, now, root, entries, n)
    requires WellFormed(made) && forall q :: q in now ==> q in made && made[q] == now[q]
    requires forall q :: q in made && q !in now ==>
               made[q] == DirNode(false) && q != [] && IsPrefixOrSame(q, Parent(root + entries[n].relative))
    ensures Progress(start, made, root, entries, n)
  {
    var target := root + entries[n].relative;
    forall q | q in made && q !in now ensures OnTheWay(q, root, entries) {
      assert IsPrefix(q, target) by { assert target[..|q|] == q; }
    }
  }

  lemma LeafKeepsWellFormed(made: Tree, after: Tree, target: Path)
    requires WellFormed(made) && [] in made && made[[]].DirNode? && LeafPut(made, after, target)
    ensures WellFormed(after) && [] in after && after[[]].DirNode?
  {
    forall q | q in after && q != [] ensures Parent(q) in after && after[Parent(q)].DirNode? {
      assert Parent(q) in made && made[Parent(q)].DirNode?;
    }
  }

  lemma LaterTargets(root: Path, entries: seq<Entry>, n: nat)
    requires n < |entries|
    ensures forall q :: IsTarget(q, root, entries, n) ==> IsTarget(q, root, entries, n + 1)
    ensures IsTarget(root + entries[n].relative, root, entries, n + 1)
  {
  }

  lemma LeafSparesOthers(start: Tree, made: Tree, after: Tree, root: Path, entries: seq<Entry>, n: nat)
    requires n < |entries| && Progress(start, made, root, entries, n)
    requires LeafPut(made, after, root + entries[n].relative)
    ensures forall q :: q in start ==> q in after && (after[q] == start[q] || IsTarget(q, root, entries, n + 1))
    ensures forall q :: q in after && q !in start ==>
              IsTarget(q, root, entries, n + 1) || (after[q] == DirNode(false) && q != [] && OnTheWay(q, root, entries))
  {
    hide WellFormed, OnTheWay, Matches, IsTarget, Parent;
    LaterTargets(root, entries, n);
  }

  lemma LeafKeepsMatches(start: Tree, made: Tree, after: Tree, root: Path, entries: seq<Entry>, n: nat)
    requires n < |entries| && PrefixFree(entries) && Progress(start, made, root, entries, n)
    requires var target := root + entries[n].relative;
             LeafPut(made, after, target) && Matches(after[target], entries[n].kind)
    ensures forall i :: 0 <= i < n + 1 ==>
              root + entries[i].relative in after && Matches(after[root + entries[i].relative], entries[i].kind)
  {
    hide WellFormed, OnTheWay, Matches, IsTarget, Parent;
    forall i | 0 <= i < n + 1
      ensures root + entries[i].relative in after && Matches(after[root + entries[i].relative], entries[i].kind)
    {
      SamePrefix(root, entries[i].relative, entries[n].relative);
      assert i < n ==> !IsPrefixOrSame(entries[i].relative, entries[n].relative);
    }
  }

  lemma LeafProgresses(start: Tree, made: Tree, after: Tree, root: Path, entries: seq<Entry>, n: nat)
    requires n < |entries| && PrefixFree(entries) && Progress(start, made, root, entries, n)
    requires var target := root + entries[n].relative;
             LeafPut(made, after, target) && Matches(after[target], entries[n].kind)
    ensures Progress(start, after, root, entries, n + 1)
  {
    hide WellFormed, PrefixFree, OnTheWay, Matches, IsTarget, LeafPut, Parent;
    LeafKeepsWellFormed(made, after, root + entries[n].relative);
    LeafSparesOthers(start, made, after, root, entries, n);
    LeafKeepsMatches(start, made, after, root, entries, n);
  }

  lemma {:induction false} EntriesComplete(start: Tree, now: Tree, root: Path, entries: seq<Entry>, n: nat, c: Context)
    requires n <= |entries| && PrefixFree(entries) && WellFormed(start)
    requires PreflightPasses(start, root, entries, c) && Progress(start, now, root, entries, n)
    ensures var r := RestoreEntries(now, root, entries[n..], c);
            r.Completed? && Progress(start, r.tree, root, entries, |entries|)
    decreases |entries| - n
  {
    if n < |entries| {
      EntryProgresses(start, now, root, entries, n, c);
      assert entries[n..][0] == entries[n] && entries[n..][1..] == entries[n + 1..];
      EntriesComplete(start, RestoreEntry(now, root, entries[n], c).tree, root, entries, n + 1, c);
    }
  }

  // Without interference a restore completes exactly when its preflight passes, and when it does not
  // pass nothing has changed. Afterwards every entry is there, every other path is as it was, and
  // whatever is new besides the entries is a plain directory on the way to one of them.
  lemma RestoreCompletesIff(tree: Tree, root: Path, entries: seq<Entry>, c: Context)
    requires WellFormed(tree) && [] in tree && tree[[]].DirNode? && PrefixFree(entries)
    ensures var r := RestoreTree(tree, root, entries, c);
            && (r.Completed? <==> PreflightPasses(tree, root, entries, c))
            && (r.Stopped? ==> r.tree == tree)
            && (r.Completed? ==> Progress(tree, r.tree, root, entries, |entries|))
  {
    if PreflightPasses(tree, root, entries, c) {
      StartProgresses(tree, root, entries, c);
      var made := WithDirectories(tree, root);
      assert entries[0..] == entries;
      EntriesComplete(tree, made, root, entries, 0, c);
    }
  }

  // What a restore may do to a path that exists: put a file in place of a file that differs from its
  // entry, if the policy allows to replace.
  predicate MayReplace(node: TreeNode, kind: EntryKind, policy: Policy) {
    policy.Replace? && node.FileNode? && kind.FileEntry? && !Matches(node, kind)
  }

  lemma EntryKeeps(now: Tree, root: Path, e: Entry, c: Context, q: Path)
    requires WellFormed(now) && [] in now && now[[]].DirNode? && q in now
    requires RestoreEntry(now, root, e, c).Completed?
    ensures var r := RestoreEntry(now, root, e, c);
            q in r.tree && (r.tree[q] == now[q] || (q == root + e.relative && MayReplace(now[q], e.kind, c.policy)))
  {
    hide Matches, Clear, WithDirectories, WellFormed, ArtifactUsable, Restored;
    DirectoriesMade(now, Parent(root + e.relative));
  }

  lemma {:induction false} EntriesKeep(start: Tree, now: Tree, root: Path, entries: seq<Entry>, n: nat, c: Context, q: Path)
    requires n <= |entries| && PrefixFree(entries) && WellFormed(start)
    requires PreflightPasses(start, root, entries, c) && Progress(start, now, root, entries, n)
    requires q in start && q in now && now[q] == start[q]
    requires forall e :: e in entries && q == root + e.relative ==> !MayReplace(start[q], e.kind, c.policy)
    ensures var r := RestoreEntries(now, root, entries[n..], c);
            r.Completed? && q in r.tree && r.tree[q] == start[q]
    decreases |entries| - n
  {
    if n < |entries| {
      hide PrefixFree, MayReplace, PreflightPasses, RestoreEntry;
      EntryProgresses(start, now, root, entries, n, c);
      assert entries[n] in entries;
      EntryKeeps(now, root, entries[n], c, q);
      assert entries[n..][0] == entries[n] && entries[n..][1..] == entries[n + 1..];
      EntriesKeep(start, RestoreEntry(now, root, entries[n], c).tree, root, entries, n + 1, c, q);
    }
  }

  // A path that exists is changed only under the replacing policy, and only from a file that differs
  // from its entry to that entry: links, directories and matching files stay as they are.
  lemma OnlyDifferingFilesReplaced(tree: Tree, root: Path, entries: seq<Entry>, c: Context, q: Path)
    requires WellFormed(tree) && [] in tree && tree[[]].DirNode? && PrefixFree(entries) && q in tree
    requires forall e :: e in entries && q == root + e.relative ==> !MayReplace(tree[q], e.kind, c.policy)
    ensures var r := RestoreTree(tree, root, entries, c); q in r.tree && r.tree[q] == tree[q]
  {
    if PreflightPasses(tree, root, entries, c) {
      StartProgresses(tree, root, entries, c);
      DirectoriesMade(tree, root);
      assert entries[0..] == entries;
      hide MayReplace, PrefixFree, Progress, WithDirectories, WellFormed;
      EntriesKeep(tree, WithDirectories(tree, root), root, entries, 0, c, q);
    }
  }

  // Where an entry already matches, restoring it again changes nothing, not even its parents.
  lemma {:induction false} MatchingEntriesStay(tree: Tree, root: Path, entries: seq<Entry>, c: Context)
    requires WellFormed(tree)
    requires forall e :: e in entries ==>
               && e.relative != [] && Clear(tree, Parent(root + e.relative))
               && root + e.relative in tree && Matches(tree[root + e.relative], e.kind)
    ensures RestoreEntries(tree, root, entries, c) == Completed(tree)
    decreases |entries|
  {
    if entries != [] {
      var e := entries[0];
      assert e in entries && forall x :: x in entries[1..] ==> x in entries;
      var target := root + e.relative;
      NothingToMake(tree, Parent(target));
      MatchingEntriesStay(tree, root, entries[1..], c);
    }
  }

  lemma {:induction false} AncestorsExist(tree: Tree, path: Path, q: Path)
    requires WellFormed(tree) && path in tree && IsPrefixOrSame(q, path)
    ensures q in tree
    decreases |path|
  {
    if q != path {
      assert IsPrefixOrSame(q, Parent(path)) by { assert Parent(path)[..|q|] == path[..|q|]; }
      AncestorsExist(tree, Parent(path), q);
    }
  }

  lemma NothingToMake(tree: Tree, path: Path)
    requires WellFormed(tree) && path in tree
    ensures WithDirectories(tree, path) == tree
  {
    forall q | q in (set k | 0 < k <= |path| :: path[..k]) ensures q in tree {
      PrefixesOf(path, q);
      AncestorsExist(tree, path, q);
    }
  }

  // Restoring again is a no-op, under either policy.
  lemma SecondRestoreIsNoop(tree: Tree, root: Path, entries: seq<Entry>, c: Context, again: Context)
    requires WellFormed(tree) && [] in tree && tree[[]].DirNode? && PrefixFree(entries)
    requires PreflightPasses(tree, root, entries, c) && again.stored == c.stored && again.links == c.links
    ensures var r := RestoreTree(tree, root, entries, c);
            r.Completed? && RestoreTree(r.tree, root, entries, again) == Completed(r.tree)
  {
    RestoreCompletesIff(tree, root, entries, c);
    var after := RestoreTree(tree, root, entries, c).tree;
    forall i | 0 <= i < |entries| ensures Clear(after, Parent(root + entries[i].relative)) {
      WayIsClearAfter(tree, after, root, entries, i, c);
    }
    RootIsClearAfter(tree, after, root, entries, c);
    if entries == [] {
      DirectoriesMade(tree, root);
      NothingToMake(after, root);
    } else {
      NothingToMakeForRoot(after, root, entries);
    }
    MatchingEntriesStay(after, root, entries, again);
  }

  lemma NothingToMakeForRoot(after: Tree, root: Path, entries: seq<Entry>)
    requires WellFormed(after) && entries != [] && root + entries[0].relative in after
    ensures WithDirectories(after, root) == after
  {
    var target := root + entries[0].relative;
    assert IsPrefixOrSame(root, target) by { assert target[..|root|] == root; if |target| == |root| { assert target == root; } }
    AncestorsExist(after, target, root);
    NothingToMake(after, root);
  }

  lemma WayIsClearAfter(tree: Tree, after: Tree, root: Path, entries: seq<Entry>, i: nat, c: Context)
    requires PrefixFree(entries) && i < |entries| && PreflightPasses(tree, root, entries, c)
    requires Progress(tree, after, root, entries, |entries|)
    ensures Clear(after, Parent(root + entries[i].relative))
  {
    var target := root + entries[i].relative;
    assert entries[i].relative != [] && PreflightEntry(tree, root, entries[i], c).None?;
    forall q | q in after && q != [] && IsPrefixOrSame(q, Parent(target)) ensures after[q] == DirNode(false) {
      assert IsPrefix(q, target) by { assert target[..|q|] == q; }
      if IsTarget(q, root, entries, |entries|) {
        var k :| 0 <= k < |entries| && k < |entries| && q == root + entries[k].relative;
        SamePrefix(root, entries[k].relative, entries[i].relative);
        assert k != i && IsPrefixOrSame(entries[k].relative, entries[i].relative);
        assert false;
      }
    }
  }

  lemma RootIsClearAfter(tree: Tree, after: Tree, root: Path, entries: seq<Entry>, c: Context)
    requires PrefixFree(entries) && PreflightPasses(tree, root, entries, c) && Progress(tree, after, root, entries, |entries|)
    ensures Clear(after, root)
  {
    assert forall i :: 0 <= i < |entries| ==> |root + entries[i].relative| > |root|;
  }

  // The record's own check, as the nested loops it is.
  method CheckPrefixFree(entries: seq<Entry>) returns (ok: bool)
    ensures ok <==> PrefixFree(entries)
  {
    var n := 0;
    var seen: seq<Path> := [];
    while n < |entries|
      invariant 0 <= n <= |entries| && PrefixFree(entries[..n]) && |seen| == n
      invariant forall i :: 0 <= i < n ==> seen[i] == entries[i].relative
    {
      var path := entries[n].relative;
      if path == [] { return false; }
      var k := 0;
      while k < |seen|
        invariant 0 <= k <= |seen|
        invariant forall i :: 0 <= i < k ==> !IsPrefixOrSame(seen[i], path) && !IsPrefixOrSame(path, seen[i])
      {
        if seen[k] == path || IsPrefix(seen[k], path) || IsPrefix(path, seen[k]) {
          assert IsPrefixOrSame(entries[k].relative, entries[n].relative) || IsPrefixOrSame(entries[n].relative, entries[k].relative);
          return false;
        }
        k := k + 1;
      }
      seen := seen + [path];
      n := n + 1;
    }
    assert entries[..n] == entries;
    ok := true;
  }

  lemma MissingEndsTheWay(tree: Tree, path: Path, k: nat)
    requires WellFormed(tree) && 0 < k <= |path| && path[..k] !in tree
    ensures forall x :: x in tree && |x| >= k ==> !IsPrefixOrSame(x, path)
  {
    forall x | x in tree && |x| >= k ensures !IsPrefixOrSame(x, path) {
      if IsPrefixOrSame(x, path) {
        CutIsPrefix(path, x, k);
        AncestorsExist(tree, x, path[..k]);
      }
    }
  }

  lemma CutIsPrefix(path: Path, x: Path, k: nat)
    requires IsPrefixOrSame(x, path) && k <= |x|
    ensures IsPrefixOrSame(path[..k], x)
  {
    assert x == path[..|x|];
    assert path[..k] == x[..k];
    if k == |x| { assert path[..k] == x; }
  }

  lemma OnePrefixPerLength(path: Path, k: nat)
    requires k <= |path|
    ensures forall x :: IsPrefixOrSame(x, path) && |x| == k ==> x == path[..k]
  {
  }

  // Walks the way from the top and stops at the first missing directory, below which nothing exists.
  method CheckWay(tree: Tree, path: Path) returns (clear: bool)
    requires WellFormed(tree)
    ensures clear <==> Clear(tree, path)
  {
    var k := 1;
    while k <= |path|
      invariant 1 <= k <= |path| + 1
      invariant forall q :: q in tree && q != [] && |q| < k && IsPrefixOrSame(q, path) ==> tree[q] == DirNode(false)
    {
      var q := path[..k];
      PrefixesOf(path, q);
      if q !in tree {
        MissingEndsTheWay(tree, path, k);
        return true;
      }
      if tree[q] != DirNode(false) { return false; }
      OnePrefixPerLength(path, k);
      k := k + 1;
    }
    clear := true;
  }

  // The destination as the restore changes it: the whole preflight first, then entry after entry.
  class Destination {
    var tree: Tree

    ghost predicate Valid()
      reads this
    {
      WellFormed(tree) && [] in tree && tree[[]].DirNode?
    }

    method Preflight(root: Path, e: Entry, c: Context) returns (error: Option<Error>)
      requires Valid()
      ensures error == PreflightEntry(tree, root, e, c)
    {
      if !ArtifactUsable(c, e.kind) { return Some(ContentMismatch); }
      if e.relative == [] { return Some(UnsafePath); }
      var target := root + e.relative;
      var clear := CheckWay(tree, Parent(target));
      if !clear { return Some(UnsafePath); }
      if target !in tree { return None; }
      return LeafError(tree[target], e.kind, c.policy);
    }

    method PreflightAll(root: Path, entries: seq<Entry>, c: Context) returns (passes: bool)
      requires Valid()
      ensures passes <==> PreflightPasses(tree, root, entries, c)
    {
      passes := CheckWay(tree, root);
      if !passes { return; }
      var n := 0;
      while n < |entries|
        invariant 0 <= n <= |entries|
        invariant forall i :: 0 <= i < n ==> PreflightEntry(tree, root, entries[i], c).None?
      {
        var error := Preflight(root, entries[n], c);
        if error.Some? { return false; }
        n := n + 1;
      }
    }

    method Put(root: Path, e: Entry, c: Context) returns (ok: bool)
      requires Valid()
      modifies this
      ensures var r := RestoreEntry(old(tree), root, e, c); tree == r.tree && ok == r.Completed?
    {
      var target := root + e.relative;
      if e.relative == [] { return false; }
      var clear := CheckWay(tree, Parent(target));
      if !clear { return false; }
      tree := WithDirectories(tree, Parent(target));
      if target in tree {
        if LeafError(tree[target], e.kind, c.policy).Some? { return false; }
        if Matches(tree[target], e.kind) { return true; }
      }
      if !ArtifactUsable(c, e.kind) { return false; }
      tree := tree[target := Restored(e.kind, c)];
      ok := true;
    }

    method Restore(root: Path, entries: seq<Entry>, c: Context) returns (ok: bool)
      requires Valid() && PrefixFree(entries)
      modifies this
      ensures var r := RestoreTree(old(tree), root, entries, c); tree == r.tree && ok == r.Completed?
    {
      hide WellFormed, Clear, PrefixFree, Progress, PreflightEntry, RestoreEntry, WithDirectories;
      ghost var start := tree;
      ok := PreflightAll(root, entries, c);
      if !ok { return; }
      StartProgresses(tree, root, entries, c);
      tree := WithDirectories(tree, root);
      var n := 0;
      assert entries[0..] == entries;
      while n < |entries|
        invariant 0 <= n <= |entries| && ok && Valid()
        invariant Progress(start, tree, root, entries, n)
        invariant RestoreTree(start, root, entries, c) == RestoreEntries(tree, root, entries[n..], c)
      {
        EntryProgresses(start, tree, root, entries, n, c);
        assert entries[n..][0] == entries[n] && entries[n..][1..] == entries[n + 1..];
        ok := Put(root, entries[n], c);
        n := n + 1;
        ProgressIsValid(start, tree, root, entries, n);
      }
    }
  }

  lemma StartProgresses(tree: Tree, root: Path, entries: seq<Entry>, c: Context)
    requires WellFormed(tree) && [] in tree && tree[[]].DirNode? && PreflightPasses(tree, root, entries, c)
    ensures var made := WithDirectories(tree, root);
            Progress(tree, made, root, entries, 0) && WellFormed(made) && [] in made && made[[]].DirNode?
  {
    DirectoriesMade(tree, root);
  }

  lemma ProgressIsValid(start: Tree, now: Tree, root: Path, entries: seq<Entry>, n: nat)
    requires Progress(start, now, root, entries, n)
    ensures WellFormed(now) && [] in now && now[[]].DirNode?
  {
  }
}
