/**
  Creating a directory with its missing parents: the plan, the steps with what they record, and their
  undoing (recursive_mkdir.py, workspace_recursive_mkdir.py).
*/
module RecursiveMkdir {
  import opened Paths
  import opened Wrappers

  // A plain directory, a directory behind a link or mount, or something that is no directory.
  datatype Kind = PlainDir | UnsafeDir | NotDir

  type Dirs = map<Path, Kind>

  datatype Error = PathMissing | PathExists | UnsafePath

  ghost predicate WellFormed(dirs: Dirs) {
    && [] in dirs && dirs[[]].PlainDir?
    && forall p :: p in dirs && p != [] ==> Parent(p) in dirs && dirs[Parent(p)] != NotDir
  }

  // The missing directories on the way to a path, outermost first.
  function MissingOnTheWay(dirs: Dirs, path: Path): (steps: seq<Path>)
    requires [] in dirs
    decreases |path|
  {
    if path in dirs then [] else MissingOnTheWay(dirs, Parent(path)) + [path]
  }

  // The deepest existing directory on the way.
  function Anchor(dirs: Dirs, path: Path): (anchor: Path)
    requires [] in dirs
    ensures anchor in dirs && IsPrefixOrSame(anchor, path)
    decreases |path|
  {
    if path in dirs then path
    else
      var anchor := Anchor(dirs, Parent(path));
      assert IsPrefix(anchor, path) by { assert path[..|anchor|] == Parent(path)[..|anchor|]; }
      anchor
  }

  function Plan(dirs: Dirs, target: Path, parents: bool, existOk: bool, boundary: Option<Path>): Result<seq<Path>, Error>
    requires [] in dirs
  {
    if boundary.Some? && !IsPrefixOrSame(boundary.value, target) then Err(UnsafePath)
    else if boundary.Some? && boundary.value !in dirs then Err(PathMissing)
    else if boundary.Some? && dirs[boundary.value] != PlainDir then Err(UnsafePath)
    else if target in dirs then
      if dirs[target] != PlainDir then Err(UnsafePath) else if existOk then Ok([]) else Err(PathExists)
    else if dirs[Anchor(dirs, target)] != PlainDir then Err(UnsafePath)
    else if !parents && |MissingOnTheWay(dirs, target)| != 1 then Err(PathMissing)
    else Ok(MissingOnTheWay(dirs, target))
  }

  lemma {:induction false} StepsArePrefixes(dirs: Dirs, path: Path)
    requires [] in dirs
    ensures var steps, anchor := MissingOnTheWay(dirs, path), Anchor(dirs, path);
            && |steps| == |path| - |anchor|
            && forall i :: 0 <= i < |steps| ==> steps[i] == path[..|anchor| + 1 + i] && steps[i] !in dirs
    decreases |path|
  {
    if path in dirs {
    } else {
      var up := Parent(path);
      StepsArePrefixes(dirs, up);
      var steps, earlier, anchor := MissingOnTheWay(dirs, path), MissingOnTheWay(dirs, up), Anchor(dirs, path);
      forall i | 0 <= i < |steps| ensures steps[i] == path[..|anchor| + 1 + i] && steps[i] !in dirs {
        if i < |earlier| {
          assert up[..|anchor| + 1 + i] == path[..|anchor| + 1 + i];
        } else {
          assert path[..|path|] == path;
        }
      }
    }
  }

  lemma StepsFollowEachOther(dirs: Dirs, path: Path, i: nat)
    requires [] in dirs && i < |MissingOnTheWay(dirs, path)|
    ensures var steps := MissingOnTheWay(dirs, path);
            steps[i] != [] && Parent(steps[i]) == if i == 0 then Anchor(dirs, path) else steps[i - 1]
  {
    hide MissingOnTheWay, Anchor;
    StepsArePrefixes(dirs, path);
    var anchor := Anchor(dirs, path);
    assert anchor == path[..|anchor|];
    assert path[..|anchor| + 1 + i][..|anchor| + i] == path[..|anchor| + i];
  }

  lemma MissingIsPlanned(dirs: Dirs, path: Path, q: Path)
    requires WellFormed(dirs) && IsPrefixOrSame(q, path) && q !in dirs
    ensures q in MissingOnTheWay(dirs, path)
  {
    hide MissingOnTheWay, Anchor;
    StepsArePrefixes(dirs, path);
    var steps, anchor := MissingOnTheWay(dirs, path), Anchor(dirs, path);
    assert q == path[..|q|] && anchor == path[..|anchor|];
    if |q| <= |anchor| {
      assert anchor[..|q|] == q;
      ExistingHasAncestors(dirs, anchor, q);
    } else {
      assert steps[|q| - |anchor| - 1] == q;
    }
  }

  // Exactly the missing directories on the way, from the outermost on: each step's parent is the step
  // before it, or, for the first, an existing directory.
  lemma {:induction false} PlanIsExact(dirs: Dirs, path: Path)
    requires WellFormed(dirs)
    ensures var steps, anchor := MissingOnTheWay(dirs, path), Anchor(dirs, path);
            && |steps| == |path| - |anchor|
            && (forall i :: 0 <= i < |steps| ==> steps[i] == path[..|anchor| + 1 + i])
            && (forall i :: 0 <= i < |steps| ==> steps[i] !in dirs)
            && (steps != [] ==> steps[0] != [] && Parent(steps[0]) == anchor)
            && (forall i :: 0 < i < |steps| ==> steps[i] != [] && Parent(steps[i]) == steps[i - 1])
            && (forall q :: IsPrefixOrSame(q, path) && q !in dirs ==> q in steps)
  {
    hide MissingOnTheWay, Anchor;
    var steps, anchor := MissingOnTheWay(dirs, path), Anchor(dirs, path);
    StepsArePrefixes(dirs, path);
    if steps != [] { StepsFollowEachOther(dirs, path, 0); }
    forall i | 0 < i < |steps| ensures steps[i] != [] && Parent(steps[i]) == steps[i - 1] {
      StepsFollowEachOther(dirs, path, i);
    }
    forall q | IsPrefixOrSame(q, path) && q !in dirs ensures q in steps {
      MissingIsPlanned(dirs, path, q);
    }
  }

  lemma {:induction false} ExistingHasAncestors(dirs: Dirs, path: Path, q: Path)
    requires WellFormed(dirs) && path in dirs && IsPrefixOrSame(q, path)
    ensures q in dirs
    decreases |path|
  {
    if q != path {
      assert IsPrefixOrSame(q, Parent(path)) by {
        assert Parent(path)[..|q|] == path[..|q|];
        if |q| == |Parent(path)| { assert q == Parent(path); }
      }
      ExistingHasAncestors(dirs, Parent(path), q);
    }
  }

  // Walks up from the target until something exists.
  method CollectMissingChain(dirs: Dirs, target: Path, boundary: Option<Path>) returns (r: Result<seq<Path>, Error>)
    requires WellFormed(dirs)
    requires boundary.Some? ==> boundary.value in dirs
    ensures if dirs[Anchor(dirs, target)] != PlainDir then r == Err(UnsafePath)
            else r.Ok? && Reversed(r.value) == MissingOnTheWay(dirs, target)
  {
    var current := target;
    var chain: seq<Path> := [];
    while true
      invariant Anchor(dirs, current) == Anchor(dirs, target)
      invariant MissingOnTheWay(dirs, current) + Reversed(chain) == MissingOnTheWay(dirs, target)
      decreases |current|
    {
      if current in dirs {
        assert MissingOnTheWay(dirs, current) + Reversed(chain) == Reversed(chain);
        return if dirs[current] != PlainDir then Err(UnsafePath) else Ok(chain);
      }
      ReversedAppend(chain, current);
      assert MissingOnTheWay(dirs, Parent(current)) + ([current] + Reversed(chain))
             == (MissingOnTheWay(dirs, Parent(current)) + [current]) + Reversed(chain);
      chain := chain + [current];
      current := Parent(current);
    }
  }

  function Reversed(s: seq<Path>): seq<Path> {
    if s == [] then [] else [s[|s| - 1]] + Reversed(s[..|s| - 1])
  }

  lemma ReversedAppend(s: seq<Path>, p: Path)
    ensures Reversed(s + [p]) == [p] + Reversed(s)
  {
    assert (s + [p])[..|s|] == s;
  }

  method PlanDirectoryCreation(dirs: Dirs, target: Path, parents: bool, existOk: bool, boundary: Option<Path>)
    returns (r: Result<seq<Path>, Error>)
    requires WellFormed(dirs)
    ensures r == Plan(dirs, target, parents, existOk, boundary)
  {
    if boundary.Some? {
      if !IsPrefixOrSame(boundary.value, target) { return Err(UnsafePath); }
      if boundary.value !in dirs { return Err(PathMissing); }
      if dirs[boundary.value] != PlainDir { return Err(UnsafePath); }
    }
    if target in dirs {
      if dirs[target] != PlainDir { return Err(UnsafePath); }
      return if existOk then Ok([]) else Err(PathExists);
    }
    var chain := CollectMissingChain(dirs, target, boundary);
    if chain.Err? { return chain; }
    ReversedLength(chain.value);
    if !parents && |chain.value| != 1 { return Err(PathMissing); }
    return Ok(Reversed(chain.value));
  }

  lemma {:induction false} ReversedLength(s: seq<Path>)
    ensures |Reversed(s)| == |s|
  {
    if s != [] { ReversedLength(s[..|s| - 1]); }
  }

  function Created(dirs: Dirs, steps: seq<Path>): (after: Dirs)
    ensures forall p :: p in after <==> p in dirs || p in steps
  {
    if steps == [] then dirs
    else
      assert steps == steps[..|steps| - 1] + [steps[|steps| - 1]];
      Created(dirs, steps[..|steps| - 1])[steps[|steps| - 1] := PlainDir]
  }

  // A directory is removed only if it is a plain one with nothing in it.
  predicate Removable(dirs: Dirs, path: Path) {
    path in dirs && dirs[path] == PlainDir && forall q :: q in dirs ==> !IsPrefix(path, q)
  }

  // Removing recorded steps, the last one first; None when some step may not be removed.
  function RemoveNewestFirst(dirs: Dirs, steps: seq<Path>): Option<Dirs>
    decreases |steps|
  {
    if steps == [] then Some(dirs)
    else if !Removable(dirs, steps[|steps| - 1]) then None
    else RemoveNewestFirst(dirs - {steps[|steps| - 1]}, steps[..|steps| - 1])
  }

  // New directories, each deeper than the ones before it.
  predicate IsChain(dirs: Dirs, steps: seq<Path>) {
    && (forall i :: 0 <= i < |steps| ==> steps[i] !in dirs)
    && (forall i, k :: 0 <= i < k < |steps| ==> |steps[i]| < |steps[k]|)
  }

  lemma LastRemoved(dirs: Dirs, steps: seq<Path>)
    requires IsChain(dirs, steps) && steps != []
    ensures Created(dirs, steps) - {steps[|steps| - 1]} == Created(dirs, steps[..|steps| - 1])
    ensures IsChain(dirs, steps[..|steps| - 1])
  {
    var earlier, last := Created(dirs, steps[..|steps| - 1]), steps[|steps| - 1];
    assert last !in earlier;
    assert earlier[last := PlainDir] - {last} == earlier;
  }

  lemma DeepestIsRemovable(dirs: Dirs, steps: seq<Path>)
    requires WellFormed(dirs) && IsChain(dirs, steps) && steps != []
    ensures Removable(Created(dirs, steps), steps[|steps| - 1])
  {
    var last := steps[|steps| - 1];
    forall q | q in dirs ensures !IsPrefix(last, q) {
      if IsPrefix(last, q) { ExistingHasAncestors(dirs, q, last); }
    }
    assert last in steps;
  }

  lemma {:induction false} RemovalOfChain(dirs: Dirs, steps: seq<Path>)
    requires WellFormed(dirs) && IsChain(dirs, steps)
    ensures RemoveNewestFirst(Created(dirs, steps), steps) == Some(dirs)
    decreases |steps|
  {
    if steps == [] {
    } else {
      hide WellFormed, Created, Removable, IsChain;
      DeepestIsRemovable(dirs, steps);
      LastRemoved(dirs, steps);
      RemovalOfChain(dirs, steps[..|steps| - 1]);
    }
  }

  // After any number of steps of a plan, removing the recorded ones deepest first succeeds and gives
  // back the directories there were.
  lemma RemovalRestores(dirs: Dirs, target: Path, k: nat)
    requires WellFormed(dirs) && k <= |MissingOnTheWay(dirs, target)|
    ensures RemoveNewestFirst(Created(dirs, MissingOnTheWay(dirs, target)[..k]), MissingOnTheWay(dirs, target)[..k]) == Some(dirs)
  {
    PlanIsExact(dirs, target);
    RemovalOfChain(dirs, MissingOnTheWay(dirs, target)[..k]);
  }

  // When a plan is accepted, told on the directories: inside an existing plain boundary, if one is given;
  // over an existing plain directory only where that is fine; else below a plain directory that is the
  // deepest one there, and, where parents are not wanted, directly below it.
  lemma PlanAcceptedIff(dirs: Dirs, target: Path, parents: bool, existOk: bool, boundary: Option<Path>)
    requires WellFormed(dirs)
    ensures Plan(dirs, target, parents, existOk, boundary).Ok?
            <==> && (boundary.Some? ==> IsPrefixOrSame(boundary.value, target)
                                        && boundary.value in dirs && dirs[boundary.value] == PlainDir)
                 && if target in dirs then dirs[target] == PlainDir && existOk
                    else exists n :: DeepestThere(dirs, target, n) && dirs[target[..n]] == PlainDir && (parents || n == |target| - 1)
  {
    if target !in dirs {
      hide MissingOnTheWay, Anchor;
      StepsArePrefixes(dirs, target);
      var anchor := Anchor(dirs, target);
      assert anchor == target[..|anchor|];
      AnchorIsDeepest(dirs, target);
      forall n | DeepestThere(dirs, target, n) ensures n == |anchor| { OneDeepest(dirs, target, n, |anchor|); }
    }
  }

  // The first n names of the path lead to something, one more does not.
  predicate DeepestThere(dirs: Dirs, path: Path, n: int) {
    0 <= n < |path| && path[..n] in dirs && path[..n + 1] !in dirs
  }

  lemma AnchorIsDeepest(dirs: Dirs, path: Path)
    requires [] in dirs && path !in dirs
    ensures DeepestThere(dirs, path, |Anchor(dirs, path)|)
  {
    hide MissingOnTheWay, Anchor;
    StepsArePrefixes(dirs, path);
    var anchor, steps := Anchor(dirs, path), MissingOnTheWay(dirs, path);
    assert anchor == path[..|anchor|] && path[..|path|] == path;
    assert steps[0] == path[..|anchor| + 1];
  }

  lemma OneDeepest(dirs: Dirs, path: Path, n: int, m: int)
    requires WellFormed(dirs) && DeepestThere(dirs, path, n) && DeepestThere(dirs, path, m)
    ensures n == m
  {
    if n < m {
      assert path[..m][..n + 1] == path[..n + 1];
      ExistingHasAncestors(dirs, path[..m], path[..n + 1]);
    } else if m < n {
      assert path[..n][..m + 1] == path[..m + 1];
      ExistingHasAncestors(dirs, path[..n], path[..m + 1]);
    }
  }

  lemma LastIsTarget(dirs: Dirs, path: Path)
    requires [] in dirs
    ensures var steps := MissingOnTheWay(dirs, path); if path in dirs then steps == [] else steps != [] && steps[|steps| - 1] == path
  {
  }

  // Carrying out an accepted plan ends with the target a plain directory. It starts from a plain
  // directory, stays inside the boundary, and makes no more than the target where parents are not wanted.
  lemma AcceptedPlanIsSafe(dirs: Dirs, target: Path, parents: bool, existOk: bool, boundary: Option<Path>)
    requires WellFormed(dirs) && Plan(dirs, target, parents, existOk, boundary).Ok?
    ensures var steps := Plan(dirs, target, parents, existOk, boundary).value;
            && target in Created(dirs, steps) && Created(dirs, steps)[target] == PlainDir
            && (steps == [] <==> target in dirs) && (steps == [] ==> existOk)
            && (steps != [] ==> steps[0] != [] && Parent(steps[0]) in dirs && dirs[Parent(steps[0])] == PlainDir)
            && (!parents ==> |steps| <= 1)
            && (boundary.Some? ==> boundary.value in dirs && dirs[boundary.value] == PlainDir
                                   && forall i :: 0 <= i < |steps| ==> IsPrefix(boundary.value, steps[i]))
  {
    hide MissingOnTheWay, Anchor;
    var steps, anchor := MissingOnTheWay(dirs, target), Anchor(dirs, target);
    PlanIsExact(dirs, target);
    LastIsTarget(dirs, target);
    if boundary.Some? {
      forall i | 0 <= i < |steps| ensures IsPrefix(boundary.value, steps[i]) {
        BoundaryHolds(dirs, target, boundary.value, i);
      }
    }
  }

  lemma BoundaryHolds(dirs: Dirs, target: Path, boundary: Path, i: nat)
    requires WellFormed(dirs) && IsPrefixOrSame(boundary, target) && boundary in dirs
    requires i < |MissingOnTheWay(dirs, target)|
    ensures IsPrefix(boundary, MissingOnTheWay(dirs, target)[i])
  {
    hide MissingOnTheWay, Anchor;
    StepsArePrefixes(dirs, target);
    var step := MissingOnTheWay(dirs, target)[i];
    assert step == target[..|step|] && boundary == target[..|boundary|];
    if |step| <= |boundary| {
      assert boundary[..|step|] == step;
      ExistingHasAncestors(dirs, boundary, step);
    } else {
      assert step[..|boundary|] == boundary;
    }
  }

  lemma CreatedNext(dirs: Dirs, steps: seq<Path>, k: nat)
    requires k < |steps|
    ensures Created(dirs, steps[..k + 1]) == Created(dirs, steps[..k])[steps[k] := PlainDir]
    ensures steps[..k + 1] == steps[..k] + [steps[k]]
  {
    assert steps[..k + 1][..k] == steps[..k];
  }

  // The tree and the metadata of earlier steps as the execution grows them.
  class Execution {
    var dirs: Dirs
    var recorded: seq<Path>

    // failsAt: how many steps go through before one raises, if one does.
    method Execute(target: Path, existOk: bool, failsAt: Option<nat>) returns (r: Result<seq<Path>, Error>, completed: bool)
      requires WellFormed(dirs) && recorded == []
      modifies this
      ensures r == Plan(old(dirs), target, true, existOk, None)
      ensures r.Err? ==> dirs == old(dirs) && recorded == [] && !completed
      ensures r.Ok? ==>
                var k := if failsAt.Some? && failsAt.value < |r.value| then failsAt.value else |r.value|;
                && dirs == Created(old(dirs), r.value[..k])
                && recorded == r.value[..k]
                && (completed <==> k == |r.value|)
    {
      hide WellFormed, Plan;
      r := PlanDirectoryCreation(dirs, target, true, existOk, None);
      completed := false;
      if r.Err? { return; }
      var steps := r.value;
      ghost var start := dirs;
      var k := 0;
      assert steps[..0] == [];
      while k < |steps|
        invariant 0 <= k <= |steps| && (failsAt.Some? ==> k <= failsAt.value || k == 0)
        invariant dirs == Created(start, steps[..k]) && recorded == steps[..k]
      {
        if failsAt == Some(k) { return; }
        CreatedNext(start, steps, k);
        dirs := dirs[steps[k] := PlainDir];
        recorded := recorded + [steps[k]];
        k := k + 1;
      }
      assert steps[..k] == steps;
      completed := true;
    }
  }
}
