/**
  The content-addressed store under concurrent puts, and the trackers of the tree backups that use
  it (filesystem_ops/content_addressed.py, operation_journal/filesystem_mutations.py). Each step below
  is one atomic action of one process; temporary files are private to their process.
*/
module ContentStore {
  import opened Snapshots
  import opened Wrappers

  datatype ContentRef = ContentRef(digest: Digest, size: nat)

  datatype PutStage =
    | Digested
    | Copying(temp: Bytes)
    | Verified(temp: Bytes)
    | Linked
    | Finished(created: bool, tracked: bool)
    | Raised
    | Dead

  // content: the bytes that were digested; what is copied later may differ if the source changes.
  datatype Put = Put(content: Bytes, tracker: nat, stage: PutStage) {
    function Ref(): ContentRef { ContentRef(Sha256(content), |content|) }
    predicate Created() { stage.Linked? || (stage.Finished? && stage.created) }
  }

  // tracked: which put made which tracker record its ref, in that order.
  datatype State = State(objects: map<Digest, Bytes>, puts: map<nat, Put>, tracked: seq<nat>)

  datatype Action =
    | Begin(pid: nat, content: Bytes, tracker: nat)
    | Look(pid: nat)
    | CopyChunk(pid: nat, chunk: Bytes)
    | CheckTemp(pid: nat)
    | Install(pid: nat)
    | CheckInstalled(pid: nat)
    | Track(pid: nat)
    | Crash(pid: nat)

  predicate Verify(objects: map<Digest, Bytes>, ref: ContentRef) {
    ref.digest in objects && Sha256(objects[ref.digest]) == ref.digest && |objects[ref.digest]| == ref.size
  }

  function At(s: State, pid: nat, stage: PutStage): State
    requires pid in s.puts
  {
    s.(puts := s.puts[pid := s.puts[pid].(stage := stage)])
  }

  // An object that is already there must verify before it is taken for the one to be stored.
  function TakeExisting(s: State, pid: nat): State
    requires pid in s.puts
  {
    At(s, pid, if Verify(s.objects, s.puts[pid].Ref()) then Finished(false, false) else Raised)
  }

  function Step(s: State, a: Action): State {
    if a.Begin? then
      if a.pid in s.puts then s else s.(puts := s.puts[a.pid := Put(a.content, a.tracker, Digested)])
    else if a.pid !in s.puts then s
    else
      var put := s.puts[a.pid];
      var digest := put.Ref().digest;
      match a
      case Look(pid) =>
        if !put.stage.Digested? then s
        else if digest in s.objects then TakeExisting(s, pid) else At(s, pid, Copying([]))
      case CopyChunk(pid, chunk) =>
        if put.stage.Copying? then At(s, pid, Copying(put.stage.temp + chunk)) else s
      case CheckTemp(pid) =>
        if !put.stage.Copying? then s
        else if Sha256(put.stage.temp) == digest && |put.stage.temp| == |put.content| then At(s, pid, Verified(put.stage.temp))
        else At(s, pid, Raised)
      case Install(pid) =>
        if !put.stage.Verified? then s
        else if digest in s.objects then TakeExisting(s, pid)
        else At(s.(objects := s.objects[digest := put.stage.temp]), pid, Linked)
      case CheckInstalled(pid) =>
        if !put.stage.Linked? then s
        else At(s, pid, if Verify(s.objects, put.Ref()) then Finished(true, false) else Raised)
      case Track(pid) =>
        if put.stage == Finished(true, false) then At(s, pid, Finished(true, true)).(tracked := s.tracked + [pid]) else s
      case Crash(pid) =>
        if put.stage.Finished? || put.stage.Raised? then s else At(s, pid, Dead)
  }

  ghost predicate IsHistory(actions: seq<Action>, states: seq<State>) {
    && |states| == |actions| + 1
    && states[0] == State(map[], map[], [])
    && forall i {:trigger actions[i]} :: 0 <= i < |actions| ==> states[i + 1] == Step(states[i], actions[i])
  }

  predicate PutInv(objects: map<Digest, Bytes>, put: Put) {
    && (put.stage.Verified? ==> put.stage.temp == put.content)
    && (put.Created() || put.stage.Finished? ==> Verify(objects, put.Ref()))
  }

  ghost predicate Inv(s: State) {
    && (forall d :: d in s.objects ==> Sha256(s.objects[d]) == d)
    && (forall p :: p in s.puts ==> PutInv(s.objects, s.puts[p]))
    && (forall p, q :: p in s.puts && q in s.puts && p != q && s.puts[p].Created() && s.puts[q].Created() ==>
          s.puts[p].content != s.puts[q].content)
    && (forall i :: 0 <= i < |s.tracked| ==> s.tracked[i] in s.puts && s.puts[s.tracked[i]].stage == Finished(true, true))
    && (forall i, k :: 0 <= i < k < |s.tracked| ==> s.tracked[i] != s.tracked[k])
  }

  // A put that moves on without creating anything, over the same objects.
  lemma MoveKeepsInv(s: State, pid: nat, stage: PutStage)
    requires Inv(s) && pid in s.puts && s.puts[pid].stage != Finished(true, true)
    requires PutInv(s.objects, s.puts[pid].(stage := stage))
    requires s.puts[pid].(stage := stage).Created() ==> s.puts[pid].Created()
    ensures Inv(At(s, pid, stage))
  {
  }

  lemma InstallKeepsInv(s: State, pid: nat)
    requires Inv(s) && pid in s.puts && s.puts[pid].stage.Verified? && s.puts[pid].Ref().digest !in s.objects
    ensures Inv(Step(s, Install(pid)))
    ensures forall d :: d in s.objects ==> d in Step(s, Install(pid)).objects && Step(s, Install(pid)).objects[d] == s.objects[d]
  {
    var put := s.puts[pid];
    var t := Step(s, Install(pid));
    assert t.objects == s.objects[put.Ref().digest := put.content];
    forall p | p in t.puts ensures PutInv(t.objects, t.puts[p]) {
      assert PutInv(s.objects, s.puts[p]);
    }
  }

  lemma TrackKeepsInv(s: State, pid: nat)
    requires Inv(s) && pid in s.puts && s.puts[pid].stage == Finished(true, false)
    ensures Inv(Step(s, Track(pid)))
  {
    var t := Step(s, Track(pid));
    assert forall i :: 0 <= i < |s.tracked| ==> s.tracked[i] != pid;
    assert forall p :: p in s.puts ==> PutInv(s.objects, s.puts[p]);
  }

  lemma BeginKeepsInv(s: State, a: Action)
    requires Inv(s) && a.Begin?
    ensures Inv(Step(s, a)) && Step(s, a).objects == s.objects
  {
  }

  lemma StepKeepsInv(s: State, a: Action)
    requires Inv(s)
    ensures Inv(Step(s, a))
    ensures forall d :: d in s.objects ==> d in Step(s, a).objects && Step(s, a).objects[d] == s.objects[d]
  {
    if a.Begin? {
      BeginKeepsInv(s, a);
    } else if a.pid in s.puts {
      var put := s.puts[a.pid];
      assert PutInv(s.objects, put);
      if a.Install? && put.stage.Verified? && put.Ref().digest !in s.objects {
        InstallKeepsInv(s, a.pid);
      } else if a.Track? && put.stage == Finished(true, false) {
        TrackKeepsInv(s, a.pid);
      } else if Step(s, a) != s {
        MoveKeepsInv(s, a.pid, Step(s, a).puts[a.pid].stage);
      }
    }
  }

  lemma {:induction false} HistoryKeepsInv(actions: seq<Action>, states: seq<State>, k: nat)
    requires IsHistory(actions, states) && k < |states|
    ensures Inv(states[k])
  {
    if k > 0 {
      HistoryKeepsInv(actions, states, k - 1);
      StepKeepsInv(states[k - 1], actions[k - 1]);
    }
  }

  lemma {:induction false} ObjectsStay(actions: seq<Action>, states: seq<State>, k: nat, m: nat, digest: Digest)
    requires IsHistory(actions, states) && k <= m < |states| && digest in states[k].objects
    ensures digest in states[m].objects && states[m].objects[digest] == states[k].objects[digest]
  {
    if k < m {
      ObjectsStay(actions, states, k, m - 1, digest);
      HistoryKeepsInv(actions, states, m - 1);
      StepKeepsInv(states[m - 1], actions[m - 1]);
    }
  }

  // Whatever is visible under a name is what the name says.
  lemma VisibleObjectsHashToTheirNames(actions: seq<Action>, states: seq<State>, k: nat, digest: Digest)
    requires IsHistory(actions, states) && k < |states| && digest in states[k].objects
    ensures Sha256(states[k].objects[digest]) == digest
  {
    HistoryKeepsInv(actions, states, k);
  }

  // A ref a put has returned verifies ever after and copies back exactly the bytes that were put.
  lemma ReturnedRefsCopyBack(actions: seq<Action>, states: seq<State>, k: nat, m: nat, pid: nat)
    requires IsHistory(actions, states) && k <= m < |states|
    requires pid in states[k].puts && states[k].puts[pid].stage.Finished?
    ensures var put := states[k].puts[pid];
            Verify(states[m].objects, put.Ref()) && states[m].objects[put.Ref().digest] == put.content
  {
    HistoryKeepsInv(actions, states, k);
    ObjectsStay(actions, states, k, m, states[k].puts[pid].Ref().digest);
  }

  // A put that finds its object already there, before or after copying, never has to refuse it: it
  // raises only if the bytes it copied are not the ones it had digested.
  lemma OnlyChangedSourcesRaise(actions: seq<Action>, states: seq<State>, k: nat)
    requires IsHistory(actions, states) && k < |actions|
    requires var a := actions[k]; a.Look? || a.Install? || a.CheckInstalled?
    requires actions[k].pid in states[k].puts && !states[k].puts[actions[k].pid].stage.Raised?
    ensures actions[k].pid in states[k + 1].puts && !states[k + 1].puts[actions[k].pid].stage.Raised?
  {
    HistoryKeepsInv(actions, states, k);
    assert states[k + 1] == Step(states[k], actions[k]);
  }

  // Of all puts of the same bytes at most one reports having created the object.
  lemma AtMostOneCreates(actions: seq<Action>, states: seq<State>, k: nat, p: nat, q: nat)
    requires IsHistory(actions, states) && k < |states| && p in states[k].puts && q in states[k].puts
    requires states[k].puts[p].stage.Finished? && states[k].puts[p].stage.created
    requires states[k].puts[q].stage.Finished? && states[k].puts[q].stage.created
    requires states[k].puts[p].Ref() == states[k].puts[q].Ref()
    ensures p == q
  {
    HistoryKeepsInv(actions, states, k);
  }

  // An object has its creator: the put that installed it, which reports having created it, unless it
  // died before it could.
  ghost predicate HasCreator(s: State, digest: Digest) {
    exists p :: p in s.puts && Sha256(s.puts[p].content) == digest && (s.puts[p].Created() || s.puts[p].stage.Dead?)
  }

  // A creator goes on to say that it is one, or dies.
  lemma CreatorStays(s: State, a: Action, p: nat)
    requires p in s.puts && PutInv(s.objects, s.puts[p]) && (s.puts[p].Created() || s.puts[p].stage.Dead?)
    ensures var t := Step(s, a);
            p in t.puts && t.puts[p].content == s.puts[p].content && (t.puts[p].Created() || t.puts[p].stage.Dead?)
  {
  }

  lemma StepKeepsCreator(s: State, a: Action, digest: Digest)
    requires Inv(s) && (digest in s.objects ==> HasCreator(s, digest))
    ensures digest in Step(s, a).objects ==> HasCreator(Step(s, a), digest)
  {
    var t := Step(s, a);
    if digest in s.objects {
      hide Step;
      var p :| p in s.puts && Sha256(s.puts[p].content) == digest && (s.puts[p].Created() || s.puts[p].stage.Dead?);
      assert PutInv(s.objects, s.puts[p]);
      CreatorStays(s, a, p);
    } else if digest in t.objects {
      assert a.pid in t.puts && t.puts[a.pid].Created();
    }
  }

  // So whenever every put of some bytes has come to its end without dying, and they are in the store,
  // exactly one of them has reported creating the object.
  lemma {:induction false} ObjectsHaveCreators(actions: seq<Action>, states: seq<State>, k: nat, digest: Digest)
    requires IsHistory(actions, states) && k < |states| && digest in states[k].objects
    ensures HasCreator(states[k], digest)
    ensures (forall p :: p in states[k].puts && Sha256(states[k].puts[p].content) == digest ==>
               states[k].puts[p].stage.Finished? || states[k].puts[p].stage.Raised?) ==>
            exists p :: p in states[k].puts && Sha256(states[k].puts[p].content) == digest
                        && states[k].puts[p].stage.Finished? && states[k].puts[p].stage.created
  {
    CreatorsStay(actions, states, k, digest);
  }

  lemma {:induction false} CreatorsStay(actions: seq<Action>, states: seq<State>, k: nat, digest: Digest)
    requires IsHistory(actions, states) && k < |states|
    ensures digest in states[k].objects ==> HasCreator(states[k], digest)
  {
    if k > 0 {
      hide HasCreator, Inv;
      CreatorsStay(actions, states, k - 1, digest);
      HistoryKeepsInv(actions, states, k - 1);
      StepKeepsCreator(states[k - 1], actions[k - 1], digest);
    }
  }

  // A put that nothing disturbs returns: it looks, copies what it digested, checks, installs and checks
  // again. It reports creation exactly when the object was not there.
  lemma UndisturbedPutFinishes(s: State, pid: nat, content: Bytes, tracker: nat)
    requires Inv(s) && pid !in s.puts
    ensures var there := Sha256(content) in s.objects;
            var begun := Step(Step(s, Begin(pid, content, tracker)), Look(pid));
            var done := if there then begun
                        else Step(Step(Step(Step(begun, CopyChunk(pid, content)), CheckTemp(pid)), Install(pid)), CheckInstalled(pid));
            && pid in done.puts && done.puts[pid] == Put(content, tracker, Finished(!there, false))
            && Sha256(content) in done.objects && done.objects[Sha256(content)] == content
            && (forall d :: d in s.objects ==> d in done.objects && done.objects[d] == s.objects[d])
  {
    var begun := Step(s, Begin(pid, content, tracker));
    assert begun.puts[pid] == Put(content, tracker, Digested);
    var looked := Step(begun, Look(pid));
    if Sha256(content) !in s.objects {
      assert looked.puts[pid].stage == Copying([]) && [] + content == content;
      var copied := Step(looked, CopyChunk(pid, content));
      assert copied.puts[pid].stage == Copying(content);
      var checked := Step(copied, CheckTemp(pid));
      assert checked.puts[pid].stage == Verified(content);
    }
  }

  // So no object is ever in the partial artifacts of two tree backups, nor twice in those of one.
  lemma NoObjectTrackedTwice(actions: seq<Action>, states: seq<State>, k: nat, i: nat, n: nat)
    requires IsHistory(actions, states) && k < |states| && i < |states[k].tracked| && n < |states[k].tracked|
    requires states[k].tracked[i] in states[k].puts && states[k].tracked[n] in states[k].puts
    requires states[k].puts[states[k].tracked[i]].Ref() == states[k].puts[states[k].tracked[n]].Ref()
    ensures i == n
  {
    HistoryKeepsInv(actions, states, k);
  }

  const CHUNK: nat := 0x10_0000

  function Flatten(rows: seq<seq<ContentRef>>): seq<ContentRef> {
    if rows == [] then [] else Flatten(rows[..|rows| - 1]) + rows[|rows| - 1]
  }

  // One process with the store to itself.
  class Store {
    var objects: map<Digest, Bytes>

    ghost predicate Valid()
      reads this
    {
      forall d :: d in objects ==> Sha256(objects[d]) == d
    }

    // Copies chunk by chunk into a temporary file.
    method CopyStream(content: Bytes) returns (temp: Bytes)
      ensures temp == content
    {
      temp := [];
      var read := 0;
      while read < |content|
        invariant 0 <= read <= |content| && temp == content[..read]
        decreases |content| - read
      {
        var upTo := if read + CHUNK < |content| then read + CHUNK else |content|;
        assert content[..upTo] == content[..read] + content[read..upTo];
        temp := temp + content[read..upTo];
        read := upTo;
      }
    }

    method PutBytes(content: Bytes) returns (ref: ContentRef, created: bool)
      requires Valid()
      modifies this
      ensures Valid() && ref == ContentRef(Sha256(content), |content|) && Verify(objects, ref)
      ensures objects == old(objects)[ref.digest := content]
      ensures created <==> ref.digest !in old(objects)
    {
      ref := ContentRef(Sha256(content), |content|);
      if ref.digest in objects { return ref, false; }
      var temp := CopyStream(content);
      objects := objects[ref.digest := temp];
      created := true;
    }

    method CopyTo(ref: ContentRef) returns (r: Option<Bytes>)
      requires Valid()
      ensures r.Some? <==> Verify(objects, ref)
      ensures r.Some? ==> Sha256(r.value) == ref.digest && |r.value| == ref.size
    {
      if !Verify(objects, ref) { return None; }
      r := Some(objects[ref.digest]);
    }
  }

  // The list of refs a tree backup created, written to the journal as it grows: a row that could
  // not be written is made up for by the next one.
  class PartialArtifactTracker {
    var created: seq<ContentRef>
    var checkpointed: nat
    var rows: seq<seq<ContentRef>>

    ghost predicate Valid()
      reads this
    {
      checkpointed <= |created| && Flatten(rows) == created[..checkpointed] && [] !in rows
    }

    constructor ()
      ensures Valid() && created == []
    {
      created, checkpointed, rows := [], 0, [];
    }

    method RecordCheckpoint(journalAccepts: bool) returns (raised: bool)
      requires Valid()
      modifies this`checkpointed, this`rows
      ensures Valid() && raised == (!journalAccepts && old(checkpointed) < |created|)
      ensures raised ==> rows == old(rows)
      ensures !raised ==> Flatten(rows) == created
    {
      var refs := created[checkpointed..];
      if refs == [] {
        assert created[..checkpointed] == created;
        return false;
      }
      if !journalAccepts { return true; }
      assert (rows + [refs])[..|rows|] == rows;
      assert created[..checkpointed] + refs == created;
      rows := rows + [refs];
      checkpointed := |created|;
      raised := false;
    }

    method RecordCreatedRef(ref: ContentRef, journalAccepts: bool) returns (raised: bool)
      requires Valid()
      modifies this
      ensures Valid() && created == old(created) + [ref]
      ensures raised <==> !journalAccepts
      ensures !raised ==> Flatten(rows) == created
      ensures raised ==> Flatten(rows) == Flatten(old(rows))
    {
      assert (created + [ref])[..checkpointed] == created[..checkpointed];
      created := created + [ref];
      raised := RecordCheckpoint(journalAccepts);
    }
  }
}
