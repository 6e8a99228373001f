/**
  Adopting a directory captured before tokens existed: approval, tag and proof, each durable before
  the next (workspace_legacy_captures.py, filesystem_ops/directory_capture_token.py,
  operation_journal/legacy_captures.py).
*/
module LegacyAdoption {
  import opened Steps
  import opened Wrappers

  // `stamp` stands for the change times, which setting a tag renews.
  datatype Dir = Dir(device: nat, inode: nat, stamp: nat, tag: Option<string>)

  datatype Stage = CheckAuthority | RecordApproval | WriteTag | RecordProof

  datatype Plan = Plan(faults: map<Stage, Fault>, uuid: string, newStamp: nat)
  {
    function At(stage: Stage): Fault { if stage in faults then faults[stage] else Proceeds }
  }

  // A proof, and the tag the directory bore when the proof was written.
  datatype Proof = Proof(token: string, tag: Option<string>)

  datatype World = World(dir: Option<Dir>, approvals: seq<string>, proofs: seq<Proof>)

  // What the operator inspected and confirmed: the recorded identity and the times seen.
  datatype Candidate = Candidate(device: nat, inode: nat, stamp: nat)

  // Creates the tag once; one that is there stays.
  function WithTag(dir: Dir, token: string, newStamp: nat): Dir {
    if dir.tag.Some? then dir else dir.(tag := Some(token), stamp := newStamp)
  }

  function Approved(w: World): Option<string> {
    if w.approvals == [] then None else Some(w.approvals[|w.approvals| - 1])
  }

  predicate IsCandidate(w: World, c: Candidate) {
    w.dir.Some? && w.dir.value.device == c.device && w.dir.value.inode == c.inode
  }

  // Unchanged since the inspection, or changed by an earlier adoption whose approval it bears.
  predicate MayProceed(w: World, c: Candidate) {
    && IsCandidate(w, c)
    && (|| w.dir.value.stamp == c.stamp
        || (Approved(w).Some? && w.dir.value.tag == Approved(w)))
  }

  function TokenFor(w: World, uuid: string): string
    requires w.dir.Some?
  {
    match Approved(w)
    case Some(token) => token
    case None => w.dir.value.tag.GetOr(uuid)
  }

  function Adopt(w: World, c: Candidate, plan: Plan): Outcome<World> {
    var allowed := Attempt(w, if MayProceed(w, c) then Some(w) else None, plan.At(CheckAuthority));
    if !allowed.Going? then allowed else
    var token := TokenFor(w, plan.uuid);
    var approved := if Approved(w).Some? then Going(w)
                    else Attempt(w, Some(w.(approvals := w.approvals + [token])), plan.At(RecordApproval));
    if !approved.Going? then approved
    else TagAndProve(approved.world, token, plan)
  }

  // A tag that cannot be written or does not read back as the approved one stops the adoption.
  function TagAndProve(w: World, token: string, plan: Plan): Outcome<World>
    requires w.dir.Some?
  {
    var tagged := Attempt(w, Some(w.(dir := Some(WithTag(w.dir.value, token, plan.newStamp)))), plan.At(WriteTag));
    if !tagged.Going? then tagged
    else if tagged.world.dir.value.tag != Some(token) then Raised(tagged.world, false)
    else if w.proofs != [] then Going(tagged.world)
    else
      Attempt(tagged.world, Some(tagged.world.(proofs := [Proof(token, tagged.world.dir.value.tag)])), plan.At(RecordProof))
  }

  datatype Event = Try(candidate: Candidate, plan: Plan) | Interfere(dir: Option<Dir>)

  function Step(w: World, event: Event): World {
    match event
    case Try(c, plan) => Adopt(w, c, plan).world
    case Interfere(dir) => w.(dir := dir)
  }

  ghost predicate IsHistory(dir: Option<Dir>, events: seq<Event>, states: seq<World>) {
    && |states| == |events| + 1
    && states[0] == World(dir, [], [])
    && forall i {:trigger events[i]} :: 0 <= i < |events| ==> states[i + 1] == Step(states[i], events[i])
  }

  predicate Inv(w: World) {
    && |w.approvals| <= 1 && |w.proofs| <= 1
    && (w.proofs != [] ==> w.approvals != [] && w.proofs[0] == Proof(w.approvals[0], Some(w.approvals[0])))
  }

  lemma TagAndProveKeepsInv(w: World, plan: Plan)
    requires Inv(w) && w.approvals != [] && w.dir.Some?
    ensures var o := TagAndProve(w, w.approvals[0], plan).world; Inv(o) && o.approvals == w.approvals
  {
  }

  lemma AdoptKeepsInv(w: World, c: Candidate, plan: Plan)
    requires Inv(w)
    ensures Inv(Adopt(w, c, plan).world) && w.approvals <= Adopt(w, c, plan).world.approvals
  {
    if MayProceed(w, c) {
      var token := TokenFor(w, plan.uuid);
      var approved := if Approved(w).Some? then w else w.(approvals := w.approvals + [token]);
      TagAndProveKeepsInv(approved, plan);
      hide TagAndProve, MayProceed;
    }
  }

  lemma {:induction false} HistoryKeepsInv(dir: Option<Dir>, events: seq<Event>, states: seq<World>, k: nat)
    requires IsHistory(dir, events, states) && k < |states|
    ensures Inv(states[k])
  {
    if k > 0 {
      hide Adopt;
      HistoryKeepsInv(dir, events, states, k - 1);
      match events[k - 1]
      case Try(c, plan) => AdoptKeepsInv(states[k - 1], c, plan);
      case Interfere(_) =>
    }
  }

  // However often an adoption dies and is tried again, and whatever others do to the directory in
  // between, one token at most is ever approved, and a proof is written only for that token and only
  // while the directory bears it.
  lemma OneTokenApprovedAndProven(dir: Option<Dir>, events: seq<Event>, states: seq<World>, k: nat)
    requires IsHistory(dir, events, states) && k < |states|
    ensures |states[k].approvals| <= 1
    ensures forall proof :: proof in states[k].proofs ==>
              states[k].approvals == [proof.token] && proof.tag == Some(proof.token)
  {
    HistoryKeepsInv(dir, events, states, k);
  }

  // A directory bearing another tag than the approved one is never tagged over, approved or proven.
  lemma OtherTagIsRefused(w: World, c: Candidate, plan: Plan)
    requires Approved(w).Some? && w.dir.Some? && w.dir.value.tag.Some? && w.dir.value.tag != Approved(w)
    ensures !Adopt(w, c, plan).Going? && Adopt(w, c, plan).world == w
  {
  }

  // An undisturbed adoption completes exactly when the directory is the one inspected, unchanged since or
  // bearing the tag approved before, and bears no other tag than the one approved. It then bears the
  // token, approved and proven; otherwise no proof is added.
  lemma UndisturbedAdoptionIff(w: World, c: Candidate, uuid: string, newStamp: nat)
    requires Inv(w)
    ensures var o := Adopt(w, c, Plan(map[], uuid, newStamp));
            var approved := w.approvals != [];
            && (o.Going? <==>
                  && w.dir.Some? && w.dir.value.device == c.device && w.dir.value.inode == c.inode
                  && (w.dir.value.stamp == c.stamp || (approved && w.dir.value.tag == Some(w.approvals[0])))
                  && (approved && w.dir.value.tag.Some? ==> w.dir.value.tag == Some(w.approvals[0])))
            && (o.Going? ==>
                  var token := if approved then w.approvals[0] else if w.dir.value.tag.Some? then w.dir.value.tag.value else uuid;
                  && o.world.approvals == [token] && o.world.proofs == [Proof(token, Some(token))]
                  && o.world.dir == Some(Dir(c.device, c.inode, if w.dir.value.tag.Some? then w.dir.value.stamp else newStamp,
                                             Some(token))))
            && (!o.Going? ==> o.Raised? && o.world == w)
  {
    assert w.approvals == [] || w.approvals == [w.approvals[0]];
    assert w.proofs == [] || w.proofs == [w.proofs[0]];
  }

  // What an adoption interrupted anywhere leaves: times as confirmed, or the approved tag.
  lemma FirstLeaves(dir: Dir, c: Candidate, plan: Plan)
    requires dir.device == c.device && dir.inode == c.inode && dir.stamp == c.stamp
    ensures var first := Adopt(World(Some(dir), [], []), c, plan).world;
            && Inv(first) && MayProceed(first, c)
            && (Approved(first).Some? && first.dir.value.tag.Some? ==> first.dir.value.tag == Approved(first))
  {
    var w := World(Some(dir), [], []);
    AdoptKeepsInv(w, c, plan);
  }

  lemma SecondCompletes(first: World, c: Candidate, again: Plan)
    requires Inv(first) && MayProceed(first, c) && again.faults == map[]
    requires Approved(first).Some? && first.dir.value.tag.Some? ==> first.dir.value.tag == Approved(first)
    ensures var second := Adopt(first, c, again);
            && second.Going?
            && second.world.proofs != [] && second.world.dir.value.tag == Some(second.world.proofs[0].token)
            && (first.approvals != [] ==> second.world.approvals == first.approvals)
  {
  }

  // Interrupted after any stage, an adoption is completed by the same confirmation given again, with
  // the token first approved, although its own tag has changed the times that were confirmed.
  lemma RetryCompletes(dir: Dir, c: Candidate, plan: Plan, again: Plan)
    requires dir.device == c.device && dir.inode == c.inode && dir.stamp == c.stamp && again.faults == map[]
    ensures var first := Adopt(World(Some(dir), [], []), c, plan).world;
            var second := Adopt(first, c, again);
            && second.Going?
            && second.world.proofs != [] && second.world.dir.value.tag == Some(second.world.proofs[0].token)
            && (first.approvals != [] ==> second.world.approvals == first.approvals)
  {
    hide Adopt, Inv, MayProceed;
    FirstLeaves(dir, c, plan);
    SecondCompletes(Adopt(World(Some(dir), [], []), c, plan).world, c, again);
  }

  // The adoption as it runs inside a recovery attempt.
  class Adoption {
    var dir: Option<Dir>
    var approvals: seq<string>
    var proofs: seq<Proof>

    ghost function Now(): World
      reads this
    {
      World(dir, approvals, proofs)
    }

    method TagQuarantine(token: string, newStamp: nat) returns (actual: Option<string>)
      requires dir.Some?
      modifies this`dir
      ensures dir == Some(WithTag(old(dir).value, token, newStamp)) && actual == dir.value.tag
    {
      if dir.value.tag.None? { dir := Some(dir.value.(tag := Some(token), stamp := newStamp)); }
      actual := dir.value.tag;
    }

    method RecordApproval(token: string, fault: Fault) returns (signal: Signal)
      modifies this`approvals
      ensures OutcomeOf(Now(), signal)
              == Attempt(old(Now()), Some(old(Now()).(approvals := old(approvals) + [token])), fault)
    {
      if TakesEffect(fault) { approvals := approvals + [token]; }
      signal := SignalOf(fault, true);
    }

    // Approval before tag before proof, and each only while the attempt is still the current one.
    method AdoptCandidate(c: Candidate, plan: Plan) returns (signal: Signal)
      modifies this
      ensures OutcomeOf(Now(), signal) == Adopt(old(Now()), c, plan)
    {
      var same := dir.Some? && dir.value.device == c.device && dir.value.inode == c.inode;
      var approval := if approvals == [] then None else Some(approvals[|approvals| - 1]);
      var retry := same && approval.Some? && dir.value.tag == approval;
      signal := SignalOf(plan.At(CheckAuthority), same && (dir.value.stamp == c.stamp || retry));
      if signal != Returned { return; }
      var token := if approval.Some? then approval.value else dir.value.tag.GetOr(plan.uuid);
      if approval.None? {
        signal := RecordApproval(token, plan.At(Stage.RecordApproval));
        if signal != Returned { return; }
      }
      signal := TagAndRecord(token, plan);
    }

    method TagAndRecord(token: string, plan: Plan) returns (signal: Signal)
      requires dir.Some?
      modifies this
      ensures OutcomeOf(Now(), signal) == TagAndProve(old(Now()), token, plan)
    {
      var actual := dir.value.tag;
      if TakesEffect(plan.At(WriteTag)) { actual := TagQuarantine(token, plan.newStamp); }
      signal := SignalOf(plan.At(WriteTag), true);
      if signal != Returned { return; }
      if actual != Some(token) { return Threw(false); }
      if proofs != [] { return; }
      if TakesEffect(plan.At(RecordProof)) { proofs := [Proof(token, actual)]; }
      signal := SignalOf(plan.At(RecordProof), true);
    }
  }
}
