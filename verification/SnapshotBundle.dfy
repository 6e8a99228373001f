/**
  Listing what is below a directory with an explicit stack, and collecting one entry per path
  (filesystem_ops/snapshot_bundles.py).
*/
module SnapshotBundle {
  import opened Paths
  import opened Wrappers

  // Plain directories are entered; links, mounts and files are listed only; reparse points are not
  // even listed. Entries come sorted by name.
  datatype Node = Directory(entries: seq<Entry>) | Leaf | MountPoint(hidden: seq<Entry>) | ReparsePoint

  datatype Entry = Entry(name: string, node: Node)

  function Size(node: Node): (size: nat)
    ensures size > 0
    decreases node, 1, 0
  {
    if node.Directory? then 1 + SizeFrom(node, 0) else 1
  }

  function SizeFrom(node: Node, i: nat): nat
    requires node.Directory? && i <= |node.entries|
    decreases node, 0, |node.entries| - i
  {
    if i == |node.entries| then 0 else Size(node.entries[i].node) + SizeFrom(node, i + 1)
  }

  // What is listed for one directory.
  function Listed(path: Path, entries: seq<Entry>): seq<Path> {
    if entries == [] then []
    else (if entries[0].node.ReparsePoint? then [] else [path + [entries[0].name]]) + Listed(path, entries[1..])
  }

  // The recursive specification: a directory's own listing, then its plain subdirectories in order.
  function Walk(path: Path, dir: Node): seq<Path>
    requires dir.Directory?
    decreases dir, 1, 0
  {
    Listed(path, dir.entries) + WalkFrom(path, dir, 0)
  }

  function WalkFrom(path: Path, dir: Node, i: nat): seq<Path>
    requires dir.Directory? && i <= |dir.entries|
    decreases dir, 0, |dir.entries| - i
  {
    if i == |dir.entries| then []
    else
      var e := dir.entries[i];
      (if e.node.Directory? then Walk(path + [e.name], e.node) else []) + WalkFrom(path, dir, i + 1)
  }

  datatype Pending = Pending(path: Path, dir: Node)

  predicate AllDirectories(stack: seq<Pending>) {
    forall i :: 0 <= i < |stack| ==> stack[i].dir.Directory?
  }

  // What the stack still owes, its top first.
  function Owed(stack: seq<Pending>): seq<Path>
    requires AllDirectories(stack)
  {
    if stack == [] then []
    else
      var top := stack[|stack| - 1];
      Walk(top.path, top.dir) + Owed(stack[..|stack| - 1])
  }

  function StackSize(stack: seq<Pending>): nat {
    if stack == [] then 0 else Size(stack[|stack| - 1].dir) + StackSize(stack[..|stack| - 1])
  }

  method PushSubdirectories(stack: seq<Pending>, top: Pending) returns (pushed: seq<Pending>)
    requires AllDirectories(stack) && top.dir.Directory?
    ensures AllDirectories(pushed)
    ensures Owed(pushed) == WalkFrom(top.path, top.dir, 0) + Owed(stack)
    ensures StackSize(pushed) <= SizeFrom(top.dir, 0) + StackSize(stack)
  {
    hide Walk, Listed, Size;
    pushed := stack;
    var i := |top.dir.entries|;
    while i > 0
      invariant 0 <= i <= |top.dir.entries| && AllDirectories(pushed)
      invariant Owed(pushed) == WalkFrom(top.path, top.dir, i) + Owed(stack)
      invariant StackSize(pushed) <= SizeFrom(top.dir, i) + StackSize(stack)
    {
      i := i - 1;
      var e := top.dir.entries[i];
      if e.node.Directory? {
        var next := Pending(top.path + [e.name], e.node);
        assert (pushed + [next])[..|pushed|] == pushed;
        pushed := pushed + [next];
      }
    }
  }

  lemma OwedUnfolds(stack: seq<Pending>)
    requires AllDirectories(stack) && stack != []
    ensures var top, rest := stack[|stack| - 1], stack[..|stack| - 1];
            && AllDirectories(rest)
            && Owed(stack) == Listed(top.path, top.dir.entries) + (WalkFrom(top.path, top.dir, 0) + Owed(rest))
            && StackSize(stack) == 1 + SizeFrom(top.dir, 0) + StackSize(rest)
  {
  }

  // The explicit-stack walk of the library.
  method IterChildPaths(root: Path, dir: Node) returns (children: seq<Path>)
    requires dir.Directory?
    ensures children == Walk(root, dir)
  {
    children := [];
    var stack := [Pending(root, dir)];
    assert stack[..0] == [];
    assert Owed(stack) == Walk(root, dir) + [];
    assert Owed([]) == [];
    hide Owed, StackSize, Walk, WalkFrom, Listed, SizeFrom;
    while stack != []
      invariant AllDirectories(stack)
      invariant Walk(root, dir) == children + Owed(stack)
      decreases StackSize(stack)
    {
      OwedUnfolds(stack);
      var top := stack[|stack| - 1];
      stack := stack[..|stack| - 1];
      children := children + Listed(top.path, top.dir.entries);
      stack := PushSubdirectories(stack, top);
    }
  }

  // Names are unique within a directory.
  ghost predicate WellFormed(node: Node)
    decreases node
  {
    node.Directory? ==>
      && (forall i, k :: 0 <= i < k < |node.entries| ==> node.entries[i].name != node.entries[k].name)
      && (forall i :: 0 <= i < |node.entries| ==> WellFormed(node.entries[i].node))
  }

  function Find(entries: seq<Entry>, name: string): (r: Option<Node>)
    ensures r.Some? ==> exists i :: 0 <= i < |entries| && entries[i] == Entry(name, r.value)
    ensures r.None? ==> forall i :: 0 <= i < |entries| ==> entries[i].name != name
  {
    if entries == [] then None
    else if entries[0].name == name then Some(entries[0].node)
    else Find(entries[1..], name)
  }

  // Where a chain of names leads, going through plain directories only.
  function Lookup(node: Node, names: seq<string>): Option<Node>
    decreases |names|
  {
    if names == [] then Some(node)
    else if !node.Directory? then None
    else
      match Find(node.entries, names[0])
      case None => None
      case Some(child) => Lookup(child, names[1..])
  }

  predicate Reachable(dir: Node, names: seq<string>) {
    names != [] && Lookup(dir, names).Some? && !Lookup(dir, names).value.ReparsePoint?
  }

  predicate NoRepeats(s: seq<Path>) {
    forall i, k :: 0 <= i < k < |s| ==> s[i] != s[k]
  }

  lemma {:induction false} FindUnique(entries: seq<Entry>, i: nat)
    requires i < |entries| && forall a, b :: 0 <= a < b < |entries| ==> entries[a].name != entries[b].name
    ensures Find(entries, entries[i].name) == Some(entries[i].node)
    decreases |entries|
  {
    if i > 0 {
      FindUnique(entries[1..], i - 1);
      assert entries[1..][i - 1] == entries[i];
    }
  }

  lemma {:induction false} ListedMember(path: Path, entries: seq<Entry>, p: Path)
    ensures p in Listed(path, entries) <==>
              exists i :: 0 <= i < |entries| && p == path + [entries[i].name] && !entries[i].node.ReparsePoint?
    decreases |entries|
  {
    if entries != [] {
      ListedMember(path, entries[1..], p);
      assert forall i :: 0 < i < |entries| ==> entries[1..][i - 1] == entries[i];
      if i :| 0 <= i < |entries| && p == path + [entries[i].name] && !entries[i].node.ReparsePoint? && i > 0 {
        assert entries[1..][i - 1] == entries[i];
      }
    }
  }

  // p is two or more names below path, through the plain subdirectory k.
  predicate Through(path: Path, dir: Node, k: nat, p: Path)
    requires dir.Directory? && k < |dir.entries|
  {
    var e := dir.entries[k];
    IsPrefix(path + [e.name], p) && e.node.Directory? && Reachable(e.node, p[|path| + 1..])
  }

  lemma {:induction false} WalkFromMember(path: Path, dir: Node, i: nat, p: Path)
    requires dir.Directory? && WellFormed(dir) && i <= |dir.entries|
    ensures p in WalkFrom(path, dir, i) <==> exists k :: i <= k < |dir.entries| && Through(path, dir, k, p)
    decreases dir, 0, |dir.entries| - i
  {
    if i < |dir.entries| {
      var e := dir.entries[i];
      WalkFromMember(path, dir, i + 1, p);
      if e.node.Directory? { WalkMember(path + [e.name], e.node, p); }
      assert Through(path, dir, i, p) <==> e.node.Directory? && p in Walk(path + [e.name], e.node);
    }
  }

  // The walk lists exactly what is reachable through plain directories.
  lemma {:induction false} WalkMember(path: Path, dir: Node, p: Path)
    requires dir.Directory? && WellFormed(dir)
    ensures p in Walk(path, dir) <==> IsPrefix(path, p) && Reachable(dir, p[|path|..])
    decreases dir, 1, 0
  {
    ListedMember(path, dir.entries, p);
    WalkFromMember(path, dir, 0, p);
    if i :| 0 <= i < |dir.entries| && p == path + [dir.entries[i].name] && !dir.entries[i].node.ReparsePoint? {
      ChildIsReachable(path, dir, i);
    }
    if k :| 0 <= k < |dir.entries| && Through(path, dir, k, p) { ThroughIsReachable(path, dir, k, p); }
    if IsPrefix(path, p) && Reachable(dir, p[|path|..]) { ReachableCases(path, dir, p); }
  }

  lemma ChildIsReachable(path: Path, dir: Node, i: nat)
    requires dir.Directory? && WellFormed(dir) && i < |dir.entries| && !dir.entries[i].node.ReparsePoint?
    ensures var p := path + [dir.entries[i].name]; IsPrefix(path, p) && Reachable(dir, p[|path|..])
  {
    var name, node := dir.entries[i].name, dir.entries[i].node;
    FindUnique(dir.entries, i);
    var p := path + [name];
    assert p[|path|..] == [name] && p[..|path|] == path;
    assert [name][1..] == [] && Lookup(node, []) == Some(node);
    assert Lookup(dir, [name]) == Lookup(node, [name][1..]);
  }

  lemma ThroughIsReachable(path: Path, dir: Node, k: nat, p: Path)
    requires dir.Directory? && WellFormed(dir) && k < |dir.entries| && Through(path, dir, k, p)
    ensures IsPrefix(path, p) && Reachable(dir, p[|path|..])
  {
    var e := dir.entries[k];
    FindUnique(dir.entries, k);
    assert p[..|path|] == p[..|path| + 1][..|path|] == path;
    assert p[|path|] == p[..|path| + 1][|path|] == e.name;
    assert p[|path|..][1..] == p[|path| + 1..];
  }

  lemma ReachableCases(path: Path, dir: Node, p: Path)
    requires dir.Directory? && IsPrefix(path, p) && Reachable(dir, p[|path|..])
    ensures exists i :: 0 <= i < |dir.entries| &&
              ((p == path + [dir.entries[i].name] && !dir.entries[i].node.ReparsePoint?) || Through(path, dir, i, p))
  {
    var names := p[|path|..];
    var child := Find(dir.entries, names[0]).value;
    var i :| 0 <= i < |dir.entries| && dir.entries[i] == Entry(names[0], child);
    assert names[1..] == p[|path| + 1..] && Lookup(dir, names) == Lookup(child, names[1..]);
    if names[1..] == [] {
      assert p == path + names && names == [names[0]];
      assert p == path + [dir.entries[i].name] && Lookup(child, []) == Some(child);
    } else {
      assert p[..|path| + 1] == path + [names[0]];
      assert Through(path, dir, i, p);
    }
  }

  lemma {:induction false} ListedOnce(path: Path, entries: seq<Entry>)
    requires forall a, b :: 0 <= a < b < |entries| ==> entries[a].name != entries[b].name
    ensures NoRepeats(Listed(path, entries))
    decreases |entries|
  {
    if entries != [] {
      ListedOnce(path, entries[1..]);
      var first := path + [entries[0].name];
      ListedMember(path, entries[1..], first);
      assert first !in Listed(path, entries[1..]) by {
        forall i | 0 <= i < |entries[1..]| ensures first != path + [entries[1..][i].name] {
          assert first[|path|] != (path + [entries[1..][i].name])[|path|];
        }
      }
    }
  }

  lemma JoinedOnce(a: seq<Path>, b: seq<Path>)
    requires NoRepeats(a) && NoRepeats(b) && forall p :: p in a ==> p !in b
    ensures NoRepeats(a + b)
  {
    forall i, k | 0 <= i < k < |a + b| ensures (a + b)[i] != (a + b)[k] {
      if i < |a| { assert (a + b)[i] in a; }
      if k >= |a| { assert (a + b)[k] in b; }
    }
  }

  lemma NotPrefix(path: Path, name: string, p: Path)
    requires |p| > |path| && p[|path|] != name
    ensures !IsPrefix(path + [name], p)
  {
    assert (path + [name])[|path|] == name;
    if |p| > |path| + 1 { assert p[..|path| + 1][|path|] == p[|path|]; }
  }

  lemma {:induction false} WalkFromOnce(path: Path, dir: Node, i: nat)
    requires dir.Directory? && WellFormed(dir) && i <= |dir.entries|
    ensures NoRepeats(WalkFrom(path, dir, i))
    decreases dir, 0, |dir.entries| - i
  {
    if i < |dir.entries| {
      var e := dir.entries[i];
      WalkFromOnce(path, dir, i + 1);
      if e.node.Directory? {
        WalkOnce(path + [e.name], e.node);
        forall p | p in Walk(path + [e.name], e.node) ensures p !in WalkFrom(path, dir, i + 1) {
          WalkMember(path + [e.name], e.node, p);
          WalkFromMember(path, dir, i + 1, p);
          assert p[|path|] == p[..|path| + 1][|path|] == e.name;
          forall k | i + 1 <= k < |dir.entries| ensures !Through(path, dir, k, p) {
            NotPrefix(path, dir.entries[k].name, p);
          }
        }
        JoinedOnce(Walk(path + [e.name], e.node), WalkFrom(path, dir, i + 1));
      }
    }
  }

  // Every path is listed once.
  lemma {:induction false} WalkOnce(path: Path, dir: Node)
    requires dir.Directory? && WellFormed(dir)
    ensures NoRepeats(Walk(path, dir))
    decreases dir, 1, 0
  {
    ListedOnce(path, dir.entries);
    WalkFromOnce(path, dir, 0);
    forall p | p in Listed(path, dir.entries) ensures p !in WalkFrom(path, dir, 0) {
      ListedMember(path, dir.entries, p);
      WalkFromMember(path, dir, 0, p);
    }
    JoinedOnce(Listed(path, dir.entries), WalkFrom(path, dir, 0));
  }

  // What the stack walk of the library lists: every path reachable through plain directories, each of
  // them once, and nothing else.
  lemma ChildrenAreExactlyReachable(root: Path, dir: Node, p: Path)
    requires dir.Directory? && WellFormed(dir)
    ensures NoRepeats(Walk(root, dir))
    ensures p in Walk(root, dir) <==> IsPrefix(root, p) && Reachable(dir, p[|root|..])
  {
    WalkOnce(root, dir);
    WalkMember(root, dir, p);
  }

  datatype BundleEntry = BundleEntry(path: Path, requested: bool)

  // All paths one requested path stands for, in order.
  function PathsFor(top: Node, path: Path, includeChildren: bool): seq<Path> {
    var node := Lookup(top, path);
    [path] + (if includeChildren && node.Some? && node.value.Directory? then Walk(path, node.value) else [])
  }

  function AllPaths(top: Node, requested: seq<Path>, includeChildren: bool): seq<Path> {
    if requested == [] then []
    else AllPaths(top, requested[..|requested| - 1], includeChildren)
         + PathsFor(top, requested[|requested| - 1], includeChildren)
  }

  // Keeps the first occurrence of every path.
  function FirstOnly(paths: seq<Path>): seq<Path> {
    if paths == [] then []
    else
      var rest, last := FirstOnly(paths[..|paths| - 1]), paths[|paths| - 1];
      if last in paths[..|paths| - 1] then rest else rest + [last]
  }

  lemma {:induction false} FirstOnlyKeepsAll(paths: seq<Path>)
    ensures NoRepeats(FirstOnly(paths))
    ensures forall p :: p in FirstOnly(paths) <==> p in paths
    ensures FirstOnly(paths) == [] <==> paths == []
  {
    if paths != [] {
      var n := |paths| - 1;
      FirstOnlyKeepsAll(paths[..n]);
      assert paths == paths[..n] + [paths[n]];
      if paths[n] !in paths[..n] { JoinedOnce(FirstOnly(paths[..n]), [paths[n]]); }
    }
  }

  lemma FirstOnlyNext(paths: seq<Path>, p: Path)
    ensures FirstOnly(paths + [p]) == if p in FirstOnly(paths) then FirstOnly(paths) else FirstOnly(paths) + [p]
  {
    FirstOnlyKeepsAll(paths);
    assert (paths + [p])[..|paths|] == paths;
  }

  // One entry per path although requested roots may overlap: nothing requested or below a requested
  // directory is missed, and nothing appears twice.
  lemma BundleHasEachPathOnce(top: Node, requested: seq<Path>, includeChildren: bool, p: Path)
    ensures NoRepeats(FirstOnly(AllPaths(top, requested, includeChildren)))
    ensures p in FirstOnly(AllPaths(top, requested, includeChildren)) <==>
              exists i :: 0 <= i < |requested| && p in PathsFor(top, requested[i], includeChildren)
  {
    FirstOnlyKeepsAll(AllPaths(top, requested, includeChildren));
    AllPathsMember(top, requested, includeChildren, p);
  }

  lemma {:induction false} AllPathsMember(top: Node, requested: seq<Path>, includeChildren: bool, p: Path)
    ensures p in AllPaths(top, requested, includeChildren) <==>
              exists i :: 0 <= i < |requested| && p in PathsFor(top, requested[i], includeChildren)
  {
    hide PathsFor;
    if requested != [] {
      var n := |requested| - 1;
      AllPathsMember(top, requested[..n], includeChildren, p);
      if i :| 0 <= i < |requested| && p in PathsFor(top, requested[i], includeChildren) && i < n {
        assert requested[..n][i] == requested[i];
      }
    }
  }

  // What is in the bundle, told on the tree: every requested path, and, where children are wanted, every
  // path reachable through plain directories below a requested plain directory. Nothing else.
  lemma BundleHoldsReachable(top: Node, requested: seq<Path>, includeChildren: bool, p: Path)
    requires WellFormed(top)
    ensures p in FirstOnly(AllPaths(top, requested, includeChildren))
            <==> exists i :: 0 <= i < |requested|
                   && (|| p == requested[i]
                       || (&& includeChildren && IsPrefix(requested[i], p)
                           && Lookup(top, requested[i]).Some? && Lookup(top, requested[i]).value.Directory?
                           && Reachable(Lookup(top, requested[i]).value, p[|requested[i]|..])))
  {
    BundleHasEachPathOnce(top, requested, includeChildren, p);
    forall i | 0 <= i < |requested|
      ensures p in PathsFor(top, requested[i], includeChildren)
              <==> || p == requested[i]
                   || (&& includeChildren && IsPrefix(requested[i], p)
                       && Lookup(top, requested[i]).Some? && Lookup(top, requested[i]).value.Directory?
                       && Reachable(Lookup(top, requested[i]).value, p[|requested[i]|..]))
    {
      PathsForMember(top, requested[i], includeChildren, p);
    }
    hide PathsFor, FirstOnly, AllPaths;
  }

  lemma PathsForMember(top: Node, path: Path, includeChildren: bool, p: Path)
    requires WellFormed(top)
    ensures p in PathsFor(top, path, includeChildren)
            <==> || p == path
                 || (&& includeChildren && IsPrefix(path, p)
                     && Lookup(top, path).Some? && Lookup(top, path).value.Directory?
                     && Reachable(Lookup(top, path).value, p[|path|..]))
  {
    LookupWellFormed(top, path);
    var node := Lookup(top, path);
    if node.Some? && node.value.Directory? { ChildrenAreExactlyReachable(path, node.value, p); }
    hide Walk, Reachable, Lookup, WellFormed;
  }

  lemma {:induction false} LookupWellFormed(node: Node, names: seq<string>)
    requires WellFormed(node)
    ensures Lookup(node, names).Some? ==> WellFormed(Lookup(node, names).value)
    decreases |names|
  {
    if names != [] && node.Directory? {
      var child := Find(node.entries, names[0]);
      if child.Some? { LookupWellFormed(child.value, names[1..]); }
    }
  }

  // The bundle as it is built up.
  class Bundle {
    var entries: seq<BundleEntry>
    var byPath: map<Path, BundleEntry>

    ghost function Paths(): seq<Path>
      reads this
    {
      seq(|entries|, i requires 0 <= i < |entries| reads this => entries[i].path)
    }

    ghost predicate Valid()
      reads this
    {
      && (forall p :: p in byPath <==> p in Paths())
      && (forall p :: p in byPath ==> byPath[p] in entries && byPath[p].path == p)
    }

    constructor ()
      ensures Valid() && entries == []
    {
      entries, byPath := [], map[];
    }

    method AppendEntry(path: Path, requested: bool)
      requires Valid()
      modifies this
      ensures Valid()
      ensures path in old(byPath) ==> entries == old(entries) && byPath == old(byPath)
      ensures path !in old(byPath) ==> entries == old(entries) + [BundleEntry(path, requested)]
      ensures Paths() == if path in old(Paths()) then old(Paths()) else old(Paths()) + [path]
    {
      if path in byPath { return; }
      var entry := BundleEntry(path, requested);
      byPath := byPath[path := entry];
      entries := entries + [entry];
      assert Paths() == old(Paths()) + [path];
      assert forall p :: p in Paths() <==> p in old(Paths()) || p == path;
    }

    ghost predicate Marked(requested: set<Path>)
      reads this
    {
      forall i :: 0 <= i < |entries| ==> (entries[i].requested <==> entries[i].path in requested)
    }

    method AppendAll(paths: seq<Path>, requested: set<Path>, ghost earlier: seq<Path>)
      requires Valid() && Paths() == FirstOnly(earlier) && Marked(requested)
      modifies this
      ensures Valid() && Paths() == FirstOnly(earlier + paths) && Marked(requested)
    {
      hide FirstOnly;
      var n := 0;
      assert earlier + paths[..0] == earlier;
      while n < |paths|
        invariant 0 <= n <= |paths| && Valid() && Paths() == FirstOnly(earlier + paths[..n]) && Marked(requested)
      {
        FirstOnlyNext(earlier + paths[..n], paths[n]);
        assert earlier + paths[..n + 1] == earlier + paths[..n] + [paths[n]];
        AppendEntry(paths[n], paths[n] in requested);
        n := n + 1;
      }
      assert paths[..n] == paths;
    }

    method Collect(top: Node, requested: seq<Path>, includeChildren: bool)
      requires Valid() && entries == []
      modifies this
      ensures Valid() && Paths() == FirstOnly(AllPaths(top, requested, includeChildren))
      ensures Marked(set p | p in requested)
    {
      hide FirstOnly, Walk, Lookup;
      var requestedSet := set p | p in requested;
      var n := 0;
      FirstOnlyKeepsAll(AllPaths(top, requested[..0], includeChildren));
      assert Paths() == [];
      while n < |requested|
        invariant 0 <= n <= |requested| && Valid() && Marked(requestedSet)
        invariant Paths() == FirstOnly(AllPaths(top, requested[..n], includeChildren))
      {
        var path := requested[n];
        ghost var earlier := AllPaths(top, requested[..n], includeChildren);
        var paths := [path];
        var node := Lookup(top, path);
        if includeChildren && node.Some? && node.value.Directory? {
          var children := IterChildPaths(path, node.value);
          paths := paths + children;
        }
        assert requested[..n + 1][..n] == requested[..n];
        assert paths == PathsFor(top, path, includeChildren);
        assert AllPaths(top, requested[..n + 1], includeChildren) == earlier + paths;
        AppendAll(paths, requestedSet, earlier);
        n := n + 1;
      }
      assert requested[..n] == requested;
    }
  }
}
