/**
  Rolling a whole transaction back, newest batch first, over any paths
  (workspace_rollback.py, filesystem_ops/backups.py).
*/
module TransactionRollback {
  import opened Wrappers
  import opened Snapshots
  import opened Backups
  import opened FileMutation

  type Files = map<string, Node>

  function At(files: Files, path: string): Node {
    if path in files then files[path] else Absent
  }

  // A journaled mutation that succeeded, with what it found and what it left.
  datatype Batch = Batch(path: string, mutation: Mutation, stamp: Stamp, before: Node, after: Node) {
    predicate LeftItsResult() { Mutated(mutation, before, stamp) == Some(after) }
  }

  // The batches are what really happened, one after the other, starting from `files`.
  predicate Happened(files: Files, batches: seq<Batch>)
    decreases |batches|
  {
    batches == [] ||
    (var b := batches[0];
     && b.before == At(files, b.path)
     && b.LeftItsResult()
     && Happened(files[b.path := b.after], batches[1..]))
  }

  function Final(files: Files, batches: seq<Batch>): Files
    decreases |batches|
  {
    if batches == [] then files else Final(files[batches[0].path := batches[0].after], batches[1..])
  }

  // What the environment makes of one recovery: it runs, with the stamp a written file would get,
  // or it fails before touching the path (lost bytes, lost authority, an error).
  datatype Try = Runs(stamp: Stamp) | Fails

  datatype Write = Write(batch: nat, over: Node, put: Node)

  datatype Rolled = Rolled(files: Files, failed: set<nat>, writes: seq<Write>)

  function BackupOf(b: Batch): Option<FileBackup> {
    PlannedBackup(TakeSnapshot(b.path, b.before), b.before)
  }

  function KeptBytes(b: Batch): Option<Bytes> {
    if b.before.File? then Some(b.before.content) else None
  }

  function RestoreBatch(files: Files, b: Batch, t: Try): RestoreResult {
    if t.Fails? || BackupOf(b).None? then Refused(RestoreConflict)
    else
      assert BackupOf(b).value.Valid();
      RestoreBackup(BackupOf(b).value, At(files, b.path), KeptBytes(b), Some(TakeSnapshot(b.path, b.after)), false, t.stamp)
  }

  function RollBack(files: Files, batches: seq<Batch>, tries: seq<Try>): Rolled
    requires |tries| == |batches|
    decreases |batches|
  {
    if batches == [] then Rolled(files, {}, [])
    else
      var n := |batches| - 1;
      var b := batches[n];
      var r := RestoreBatch(files, b, tries[n]);
      if r.Refused? then
        var rest := RollBack(files, batches[..n], tries[..n]);
        Rolled(rest.files, rest.failed + {n}, rest.writes)
      else if !r.wrote then RollBack(files, batches[..n], tries[..n])
      else
        var rest := RollBack(files[b.path := r.node], batches[..n], tries[..n]);
        Rolled(rest.files, rest.failed, [Write(n, At(files, b.path), r.node)] + rest.writes)
  }

  lemma {:induction false} SplitLast(files: Files, batches: seq<Batch>)
    requires batches != [] && Happened(files, batches)
    ensures var n := |batches| - 1;
            var b := batches[n];
            var earlier := Final(files, batches[..n]);
            && Happened(files, batches[..n])
            && b.before == At(earlier, b.path)
            && b.LeftItsResult()
            && Final(files, batches) == earlier[b.path := b.after]
    decreases |batches|
  {
    var n := |batches| - 1;
    if n == 0 {
      assert batches[1..] == [];
    } else {
      var next := files[batches[0].path := batches[0].after];
      SplitLast(next, batches[1..]);
      assert batches[1..][..n - 1] == batches[..n][1..];
    }
  }

  // The guard of the newest batch always lets its restore through: the path looks as it left it.
  lemma NewestIsRestored(earlier: Files, files: Files, b: Batch, stamp: Stamp)
    requires b.before == At(earlier, b.path) && b.LeftItsResult()
    requires SameData(At(files, b.path), b.after)
    ensures var r := RestoreBatch(files, b, Runs(stamp));
            r.Restored? && SameData(r.node, b.before) && (!r.wrote ==> r.node == At(files, b.path))
  {
  }

  // Per path: if no recovery of a batch on it fails from outside, all of them go through and the
  // path is back to what it was before the transaction, whatever happens to other paths.
  lemma {:induction false} PathIsRestored(start: Files, batches: seq<Batch>, files: Files, tries: seq<Try>, path: string)
    requires |tries| == |batches| && Happened(start, batches)
    requires SameData(At(files, path), At(Final(start, batches), path))
    requires forall i :: 0 <= i < |batches| && batches[i].path == path ==> tries[i].Runs?
    ensures var r := RollBack(files, batches, tries);
            && SameData(At(r.files, path), At(start, path))
            && forall i :: i in r.failed ==> i < |batches| && batches[i].path != path
    decreases |batches|
  {
    if batches == [] {
    } else {
      var n := |batches| - 1;
      var b := batches[n];
      SplitLast(start, batches);
      var earlier := Final(start, batches[..n]);
      if b.path == path { NewestIsRestored(earlier, files, b, tries[n].stamp); }
      var r := RestoreBatch(files, b, tries[n]);
      var next := if r.Restored? && r.wrote then files[b.path := r.node] else files;
      assert At(Final(start, batches), path) == if b.path == path then b.after else At(earlier, path);
      assert SameData(At(next, path), At(earlier, path));
      PathIsRestored(start, batches[..n], next, tries[..n], path);
    }
  }

  // With no outside failure every batch meets its expected-current check and the file map ends with
  // the existence, content and permissions it started with, everywhere.
  lemma RollbackUndoesTransaction(start: Files, batches: seq<Batch>, tries: seq<Try>)
    requires |tries| == |batches| && Happened(start, batches)
    requires forall i :: 0 <= i < |tries| ==> tries[i].Runs?
    ensures var r := RollBack(Final(start, batches), batches, tries);
            r.failed == {} && forall path :: SameData(At(r.files, path), At(start, path))
  {
    var r := RollBack(Final(start, batches), batches, tries);
    forall path ensures SameData(At(r.files, path), At(start, path))
    {
      PathIsRestored(start, batches, Final(start, batches), tries, path);
    }
    forall i | i in r.failed ensures false {
      FailedAreBatches(Final(start, batches), batches, tries);
      PathIsRestored(start, batches, Final(start, batches), tries, batches[i].path);
    }
  }

  lemma {:induction false} FailedAreBatches(files: Files, batches: seq<Batch>, tries: seq<Try>)
    requires |tries| == |batches|
    ensures forall i :: i in RollBack(files, batches, tries).failed ==> i < |batches|
    decreases |batches|
  {
    if batches == [] {
    } else {
      var n := |batches| - 1;
      var r := RestoreBatch(files, batches[n], tries[n]);
      FailedAreBatches(files, batches[..n], tries[..n]);
      if r.Restored? { FailedAreBatches(files[batches[n].path := r.node], batches[..n], tries[..n]); }
    }
  }

  predicate SameContent(a: Node, b: Node) {
    if a.File? && b.File? then a.content == b.content else a.Absent? && b.Absent?
  }

  // Whatever fails and whatever the files have become meanwhile, a restore writes only over the
  // content its batch left, and what it puts there is what that batch had found.
  lemma {:induction false} WritesAreProven(files: Files, batches: seq<Batch>, tries: seq<Try>, k: nat)
    requires |tries| == |batches| && k < |RollBack(files, batches, tries).writes|
    requires forall i :: 0 <= i < |batches| ==> batches[i].LeftItsResult()
    ensures var w := RollBack(files, batches, tries).writes[k];
            && w.batch < |batches|
            && SameContent(w.over, batches[w.batch].after)
            && SameData(w.put, batches[w.batch].before)
    decreases |batches|
  {
    var n := |batches| - 1;
    var b := batches[n];
    var r := RestoreBatch(files, b, tries[n]);
    if r.Refused? || !r.wrote {
      WritesAreProven(files, batches[..n], tries[..n], k);
    } else if k > 0 {
      WritesAreProven(files[b.path := r.node], batches[..n], tries[..n], k - 1);
    } else {
      WriteIsProven(files, b, tries[n]);
    }
  }

  lemma WriteIsProven(files: Files, b: Batch, t: Try)
    requires b.LeftItsResult()
    requires var r := RestoreBatch(files, b, t); r.Restored? && r.wrote
    ensures SameContent(At(files, b.path), b.after) && SameData(RestoreBatch(files, b, t).node, b.before)
  {
    var backup := BackupOf(b).value;
    RestoreOverwritesOnlyExpected(backup, At(files, b.path), KeptBytes(b), Some(TakeSnapshot(b.path, b.after)), t.stamp);
    RestoreReachesBefore(b.before, backup, At(files, b.path), KeptBytes(b), Some(TakeSnapshot(b.path, b.after)), false, t.stamp);
  }

  // After any rollback, however partial, each path holds what it held, or what some batch of this
  // transaction had found there.
  lemma {:induction false} EveryPathIsHistoric(files: Files, batches: seq<Batch>, tries: seq<Try>, path: string)
    requires |tries| == |batches|
    ensures var r := RollBack(files, batches, tries);
            || At(r.files, path) == At(files, path)
            || exists i :: 0 <= i < |batches| && batches[i].path == path && SameData(At(r.files, path), batches[i].before)
    decreases |batches|
  {
    if batches == [] {
    } else {
      var n := |batches| - 1;
      var b := batches[n];
      var r := RestoreBatch(files, b, tries[n]);
      var next := if r.Restored? && r.wrote then files[b.path := r.node] else files;
      if r.Restored? {
        RestoreReachesBefore(b.before, BackupOf(b).value, At(files, b.path), KeptBytes(b),
                             Some(TakeSnapshot(b.path, b.after)), false, tries[n].stamp);
      }
      EveryPathIsHistoric(next, batches[..n], tries[..n], path);
      var end := At(RollBack(next, batches[..n], tries[..n]).files, path);
      if end == At(next, path) {
        assert end == At(files, path) || (b.path == path && SameData(end, batches[n].before));
      } else {
        var i :| 0 <= i < n && batches[..n][i].path == path && SameData(end, batches[..n][i].before);
        assert batches[i].path == path;
      }
    }
  }

  // The rollback loop of a transaction: failures are collected, never allowed to stop it.
  class Workspace {
    var files: Files

    method RollBackAll(batches: seq<Batch>, tries: seq<Try>) returns (failed: set<nat>)
      requires |tries| == |batches|
      modifies this
      ensures files == RollBack(old(files), batches, tries).files
      ensures failed == RollBack(old(files), batches, tries).failed
    {
      failed := {};
      var n := |batches|;
      assert batches[..n] == batches && tries[..n] == tries;
      while n > 0
        invariant 0 <= n <= |batches|
        invariant var all, rest := RollBack(old(files), batches, tries), RollBack(files, batches[..n], tries[..n]);
                  all.files == rest.files && all.failed == failed + rest.failed
      {
        var b, t := batches[n - 1], tries[n - 1];
        assert batches[..n][..n - 1] == batches[..n - 1] && tries[..n][..n - 1] == tries[..n - 1];
        var r := RestoreBatch(files, b, t);
        if r.Refused? {
          failed := failed + {n - 1};
        } else if r.wrote {
          files := files[b.path := r.node];
        }
        n := n - 1;
      }
    }
  }
}
