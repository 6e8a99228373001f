/**
  The workspace replay loop and the claims it frees: one by one with their batch, and whole groups
  once every batch of an owner and scope is recovered (workspace_rollback.py).
*/
module ReplayClaims {
  import opened Wrappers

  // A selected batch; `done` when an earlier replay recovered it but could not free its claims.
  datatype Batch = Batch(id: string, owner: Option<string>, scope: Option<string>, resource: Option<string>, done: bool)

  // `stale`: taken by a transaction of this replay's run whose lease token has been superseded.
  datatype Claim = Claim(owner: string, scope: Option<string>, stale: bool)

  type Claims = map<string, Claim>

  // How far the turn of one batch gets: it fails before or while recovering, fails after the batch
  // is recovered but before any claim is freed, fails with only the first `freed` of the claims it
  // was to free freed, or completes.
  datatype Turn = FailsEarly | FailsLate | StopsReleasing(freed: set<string>) | Completes

  datatype State = State(claims: Claims, recovered: set<string>)

  predicate InGroup(b: Batch, owner: string, scope: Option<string>) {
    b.owner == Some(owner) && b.scope == scope
  }

  function Group(selected: seq<Batch>, owner: string, scope: Option<string>): set<string> {
    set i | 0 <= i < |selected| && InGroup(selected[i], owner, scope) :: selected[i].id
  }

  function ClaimGroup(selected: seq<Batch>, owner: string, scope: Option<string>, resource: string): set<string> {
    set i | 0 <= i < |selected| && InGroup(selected[i], owner, scope) && selected[i].resource == Some(resource)
      :: selected[i].id
  }

  predicate Owned(claims: Claims, resource: string, owner: string, scope: Option<string>) {
    resource in claims && claims[resource].owner == owner && claims[resource].scope == scope
  }

  // Everything the turn of a recovered batch may free.
  function ToFree(s: State, selected: seq<Batch>, b: Batch): set<string> {
    if b.owner.None? then {}
    else
      var owner := b.owner.value;
      var own := if b.resource.Some? && ClaimGroup(selected, owner, b.scope, b.resource.value) <= s.recovered
                    && Owned(s.claims, b.resource.value, owner, b.scope)
                 then {b.resource.value} else {};
      var group := if b.scope.Some? && Group(selected, owner, b.scope) <= s.recovered
                   then set r | r in s.claims && Owned(s.claims, r, owner, b.scope) else {};
      own + group
  }

  function TakeTurn(s: State, selected: seq<Batch>, b: Batch, turn: Turn): State {
    if turn.FailsEarly? || (b.done && turn.FailsLate?) then s
    else
      var added := s.(recovered := s.recovered + {b.id});
      match turn
      case StopsReleasing(freed) => added.(claims := s.claims - (ToFree(added, selected, b) * freed))
      case Completes => added.(claims := s.claims - ToFree(added, selected, b))
      case _ => added
  }

  // One batch only, when the caller asked for one.
  predicate Chosen(b: Batch, only: Option<string>) {
    only.None? || only == Some(b.id)
  }

  function Loop(s: State, selected: seq<Batch>, rest: seq<Batch>, turns: seq<Turn>, only: Option<string>): State
    requires |turns| == |rest|
    decreases |rest|
  {
    if rest == [] then s
    else
      var next := if Chosen(rest[0], only) then TakeTurn(s, selected, rest[0], turns[0]) else s;
      Loop(next, selected, rest[1..], turns[1..], only)
  }

  // Claims of transactions that never made a batch. `scopes` are the owner-scopes of every batch in
  // the journal, `mine` the owner replaying, `instances` the scopes that name a transaction instance.
  function Sweep(claims: Claims, mine: string, instances: set<string>, scopes: set<(string, string)>): Claims {
    map r | r in claims &&
            !(claims[r].owner == mine && claims[r].scope.Some? && claims[r].scope.value in instances
              && (claims[r].owner, claims[r].scope.value) !in scopes && claims[r].stale)
      :: claims[r]
  }

  function Recovered(selected: seq<Batch>, only: Option<string>): set<string> {
    if only.None? then {} else set i | 0 <= i < |selected| && selected[i].done :: selected[i].id
  }

  function Replay(claims: Claims, selected: seq<Batch>, turns: seq<Turn>, only: Option<string>,
                  mine: string, instances: set<string>, scopes: set<(string, string)>): Claims
    requires |turns| == |selected|
  {
    Sweep(Loop(State(claims, Recovered(selected, only)), selected, selected, turns, only).claims, mine, instances, scopes)
  }

  // A claim that some unrecovered selected batch still stands for.
  predicate Needed(selected: seq<Batch>, recovered: set<string>, resource: string, claim: Claim) {
    exists i :: 0 <= i < |selected| && selected[i].id !in recovered && selected[i].resource == Some(resource)
                && InGroup(selected[i], claim.owner, claim.scope)
  }

  ghost predicate KeepsNeeded(before: Claims, s: State, selected: seq<Batch>) {
    forall r :: r in before && Needed(selected, s.recovered, r, before[r]) ==> r in s.claims && s.claims[r] == before[r]
  }

  lemma TurnKeepsNeeded(before: Claims, s: State, selected: seq<Batch>, b: Batch, turn: Turn)
    requires KeepsNeeded(before, s, selected)
    ensures KeepsNeeded(before, TakeTurn(s, selected, b, turn), selected)
  {
    var after := TakeTurn(s, selected, b, turn);
    var added := s.(recovered := s.recovered + {b.id});
    forall r | r in before && Needed(selected, after.recovered, r, before[r])
      ensures r in after.claims && after.claims[r] == before[r]
    {
      assert Needed(selected, s.recovered, r, before[r]);
      var i :| 0 <= i < |selected| && selected[i].id !in after.recovered && selected[i].resource == Some(r)
               && InGroup(selected[i], before[r].owner, before[r].scope);
      if b.owner.Some? && after != s {
        var owner := b.owner.value;
        if Owned(s.claims, r, owner, b.scope) {
          assert selected[i].id in Group(selected, owner, b.scope);
          assert selected[i].id in ClaimGroup(selected, owner, b.scope, r);
        }
        assert r !in ToFree(added, selected, b);
      }
    }
  }

  // After every turn, each selected batch not yet recovered still has the claim it had.
  lemma {:induction false} LoopKeepsNeeded(before: Claims, s: State, selected: seq<Batch>, rest: seq<Batch>,
                                           turns: seq<Turn>, only: Option<string>)
    requires |turns| == |rest| && KeepsNeeded(before, s, selected)
    ensures KeepsNeeded(before, Loop(s, selected, rest, turns, only), selected)
    decreases |rest|
  {
    if rest == [] {
    } else {
      var next := if Chosen(rest[0], only) then TakeTurn(s, selected, rest[0], turns[0]) else s;
      TurnKeepsNeeded(before, s, selected, rest[0], turns[0]);
      LoopKeepsNeeded(before, next, selected, rest[1..], turns[1..], only);
    }
  }

  // The whole replay, the orphan sweep included, as long as the journal lists the selected batches.
  lemma ReplayKeepsUnrecoveredClaims(claims: Claims, selected: seq<Batch>, turns: seq<Turn>, only: Option<string>,
                                     mine: string, instances: set<string>, scopes: set<(string, string)>, i: nat, n: nat)
    requires |turns| == |selected| && i < |selected| && n <= |selected|
    requires forall k :: 0 <= k < |selected| && selected[k].owner.Some? && selected[k].scope.Some? ==>
               (selected[k].owner.value, selected[k].scope.value) in scopes
    requires selected[i].resource.Some? && selected[i].owner.Some?
    requires Owned(claims, selected[i].resource.value, selected[i].owner.value, selected[i].scope)
    ensures var start := State(claims, Recovered(selected, only));
            var during := Loop(start, selected, selected[..n], turns[..n], only);
            selected[i].id !in during.recovered ==>
              selected[i].resource.value in during.claims
              && during.claims[selected[i].resource.value] == claims[selected[i].resource.value]
    ensures selected[i].id !in Loop(State(claims, Recovered(selected, only)), selected, selected, turns, only).recovered ==>
              selected[i].resource.value in Replay(claims, selected, turns, only, mine, instances, scopes)
  {
    var start := State(claims, Recovered(selected, only));
    var during := Loop(start, selected, selected[..n], turns[..n], only);
    LoopKeepsNeeded(claims, start, selected, selected[..n], turns[..n], only);
    LoopKeepsNeeded(claims, start, selected, selected, turns, only);
    var end := Loop(start, selected, selected, turns, only);
    var r := selected[i].resource.value;
    if selected[i].id !in during.recovered { assert Needed(selected, during.recovered, r, claims[r]); }
    if selected[i].id !in end.recovered { assert Needed(selected, end.recovered, r, claims[r]); }
  }

  // The orphan sweep frees exactly the claims of this owner that name a transaction instance without any
  // batch and whose lease has been superseded; it changes no other.
  lemma SweepFreesOrphans(claims: Claims, mine: string, instances: set<string>, scopes: set<(string, string)>, r: string)
    requires r in claims
    ensures var swept := Sweep(claims, mine, instances, scopes);
            && (r !in swept <==>
                  && claims[r].owner == mine && claims[r].stale
                  && exists instance :: instance in instances && claims[r].scope == Some(instance)
                       && forall scope :: scope in scopes ==> scope != (mine, instance))
            && (r in swept ==> swept[r] == claims[r])
    ensures Sweep(claims, mine, instances, scopes).Keys <= claims.Keys
  {
    if claims[r].scope.Some? && claims[r].scope.value in instances { assert claims[r].scope == Some(claims[r].scope.value); }
  }

  // Whether a turn leaves its batch recovered in this replay.
  predicate Recovers(b: Batch, turn: Turn) {
    turn.Completes? || turn.StopsReleasing? || (turn.FailsLate? && !b.done)
  }

  // The replay counts as recovered exactly the chosen batches whose turn got that far.
  lemma {:induction false} LoopRecoversExactly(s: State, selected: seq<Batch>, rest: seq<Batch>, turns: seq<Turn>,
                                               only: Option<string>, id: string)
    requires |turns| == |rest|
    ensures id in Loop(s, selected, rest, turns, only).recovered
            <==> || id in s.recovered
                 || exists i :: 0 <= i < |rest| && rest[i].id == id && (only.None? || only == Some(id)) && Recovers(rest[i], turns[i])
    decreases |rest|
  {
    if rest != [] {
      var next := if Chosen(rest[0], only) then TakeTurn(s, selected, rest[0], turns[0]) else s;
      LoopRecoversExactly(next, selected, rest[1..], turns[1..], only, id);
      assert id in next.recovered <==> id in s.recovered || (rest[0].id == id && Chosen(rest[0], only) && Recovers(rest[0], turns[0]));
      hide Loop, TakeTurn;
      if i :| 0 <= i < |rest[1..]| && rest[1..][i].id == id && (only.None? || only == Some(id)) && Recovers(rest[1..][i], turns[1..][i]) {
        assert rest[i + 1] == rest[1..][i] && turns[i + 1] == turns[1..][i];
      }
      if i :| 0 < i < |rest| && rest[i].id == id && (only.None? || only == Some(id)) && Recovers(rest[i], turns[i]) {
        assert rest[i] == rest[1..][i - 1] && turns[i] == turns[1..][i - 1];
      }
    }
  }

  // The loop never touches a claim whose owner and scope have no selected batch.
  lemma {:induction false} LoopSparesStrangers(s: State, selected: seq<Batch>, rest: seq<Batch>, turns: seq<Turn>,
                                               only: Option<string>, r: string)
    requires |turns| == |rest| && r in s.claims
    requires forall b :: b in rest ==> !InGroup(b, s.claims[r].owner, s.claims[r].scope)
    ensures var e := Loop(s, selected, rest, turns, only); r in e.claims && e.claims[r] == s.claims[r]
    decreases |rest|
  {
    if rest != [] {
      assert rest[0] in rest && forall b :: b in rest[1..] ==> b in rest;
      var next := if Chosen(rest[0], only) then TakeTurn(s, selected, rest[0], turns[0]) else s;
      assert r in next.claims && next.claims[r] == s.claims[r];
      LoopSparesStrangers(next, selected, rest[1..], turns[1..], only, r);
    }
  }

  // Claims only ever disappear.
  lemma {:induction false} LoopOnlyFrees(s: State, selected: seq<Batch>, rest: seq<Batch>, turns: seq<Turn>, only: Option<string>)
    requires |turns| == |rest|
    ensures var e := Loop(s, selected, rest, turns, only);
            && s.recovered <= e.recovered
            && forall r :: r in e.claims ==> r in s.claims && e.claims[r] == s.claims[r]
    decreases |rest|
  {
    if rest == [] {
    } else {
      var next := if Chosen(rest[0], only) then TakeTurn(s, selected, rest[0], turns[0]) else s;
      LoopOnlyFrees(next, selected, rest[1..], turns[1..], only);
    }
  }

  predicate GroupIn(batches: seq<Batch>, turns: seq<Turn>, owner: string, scope: Option<string>)
    requires |turns| == |batches|
  {
    forall i :: 0 <= i < |batches| && InGroup(batches[i], owner, scope) ==> turns[i].Completes?
  }

  predicate HasResource(batches: seq<Batch>, owner: string, scope: Option<string>, r: string) {
    exists i :: 0 <= i < |batches| && InGroup(batches[i], owner, scope) && batches[i].resource == Some(r)
  }

  // Some batch from k on will still free r when it completes, or none of the group ever frees it.
  predicate Waiting(selected: seq<Batch>, k: nat, owner: string, scope: Option<string>, r: string) {
    if scope.Some? then exists i :: k <= i < |selected| && InGroup(selected[i], owner, scope)
    else
      || !HasResource(selected, owner, scope, r)
      || exists i :: k <= i < |selected| && InGroup(selected[i], owner, scope) && selected[i].resource == Some(r)
  }

  lemma TurnFrees(s: State, selected: seq<Batch>, k: nat, owner: string, scope: Option<string>, r: string, turn: Turn)
    requires k < |selected| && Owned(s.claims, r, owner, scope) && Waiting(selected, k, owner, scope, r)
    requires InGroup(selected[k], owner, scope) ==> turn.Completes?
    requires forall i :: 0 <= i < k && InGroup(selected[i], owner, scope) ==> selected[i].id in s.recovered
    ensures r in TakeTurn(s, selected, selected[k], turn).claims ==> Waiting(selected, k + 1, owner, scope, r)
  {
    var b := selected[k];
    if InGroup(b, owner, scope) && !Waiting(selected, k + 1, owner, scope, r) {
      var added := s.(recovered := s.recovered + {b.id});
      if scope.Some? {
        assert Group(selected, owner, scope) <= added.recovered;
      } else {
        assert b.resource == Some(r);
        assert ClaimGroup(selected, owner, scope, r) <= added.recovered;
      }
      assert r in ToFree(added, selected, b);
    }
  }

  // While the batches of a group complete one after the other, a claim of the group outlives the last
  // of them only if the group has no scope and no batch of it is about that resource.
  lemma {:induction false} LoopFreesGroup(s: State, selected: seq<Batch>, k: nat, turns: seq<Turn>, owner: string,
                                          scope: Option<string>, r: string)
    requires |turns| == |selected| && k <= |selected| && GroupIn(selected, turns, owner, scope)
    requires forall i :: 0 <= i < k && InGroup(selected[i], owner, scope) ==> selected[i].id in s.recovered
    requires Owned(s.claims, r, owner, scope) ==> Waiting(selected, k, owner, scope, r)
    ensures r in Loop(s, selected, selected[k..], turns[k..], None).claims && Owned(s.claims, r, owner, scope) ==>
              scope.None? && !HasResource(selected, owner, scope, r)
    decreases |selected| - k
  {
    if k < |selected| && Owned(s.claims, r, owner, scope) {
      assert selected[k..][0] == selected[k] && selected[k..][1..] == selected[k + 1..];
      assert turns[k..][0] == turns[k] && turns[k..][1..] == turns[k + 1..];
      var next := TakeTurn(s, selected, selected[k], turns[k]);
      LoopOnlyFrees(next, selected, selected[k + 1..], turns[k + 1..], None);
      if r in next.claims {
        TurnFrees(s, selected, k, owner, scope, r, turns[k]);
        LoopFreesGroup(next, selected, k + 1, turns, owner, scope, r);
      }
    }
  }

  // Nothing frees a claim without a scope except a batch of its owner about that very resource.
  lemma {:induction false} LoopSparesOthers(s: State, selected: seq<Batch>, rest: seq<Batch>, turns: seq<Turn>, owner: string,
                                            r: string)
    requires |turns| == |rest| && Owned(s.claims, r, owner, None) && !HasResource(selected, owner, None, r)
    requires forall b :: b in rest ==> b in selected
    ensures r in Loop(s, selected, rest, turns, None).claims
    decreases |rest|
  {
    if rest == [] {
    } else {
      var b := rest[0];
      assert b in selected && forall x :: x in rest[1..] ==> x in rest;
      var next := TakeTurn(s, selected, b, turns[0]);
      assert r in next.claims;
      LoopOnlyFrees(s, selected, rest[..1], turns[..1], None);
      LoopSparesOthers(next, selected, rest[1..], turns[1..], owner, r);
    }
  }

  // When every batch of a group completes, which of the group's claims are still held afterwards,
  // sweep included: none if the group has a scope; without one, exactly those on resources that no
  // batch of the group was about.
  lemma GroupFreedIff(claims: Claims, selected: seq<Batch>, turns: seq<Turn>, mine: string, instances: set<string>,
                      scopes: set<(string, string)>, owner: string, scope: Option<string>, r: string)
    requires |turns| == |selected| && GroupIn(selected, turns, owner, scope)
    requires exists i :: 0 <= i < |selected| && InGroup(selected[i], owner, scope)
    requires Owned(claims, r, owner, scope)
    ensures r in Replay(claims, selected, turns, None, mine, instances, scopes)
            <==> scope.None? && !HasResource(selected, owner, scope, r)
  {
    var start := State(claims, Recovered(selected, None));
    assert selected[0..] == selected && turns[0..] == turns;
    if scope.None? && HasResource(selected, owner, scope, r) {
      var i :| 0 <= i < |selected| && InGroup(selected[i], owner, scope) && selected[i].resource == Some(r);
    }
    assert Waiting(selected, 0, owner, scope, r);
    LoopFreesGroup(start, selected, 0, turns, owner, scope, r);
    LoopOnlyFrees(start, selected, selected, turns, None);
    if scope.None? && !HasResource(selected, owner, scope, r) {
      LoopSparesOthers(start, selected, selected, turns, owner, r);
    }
  }

  // So a batch without a scope can complete and leave a claim of its owner behind.
  lemma UnscopedClaimSurvives()
    ensures var b := Batch("b", Some("me"), None, Some("file:a"), false);
            var claims := map["file:a" := Claim("me", None, false), "file:c" := Claim("me", None, false)];
            Replay(claims, [b], [Completes], None, "me", {}, {}).Keys == {"file:c"}
  {
    var b := Batch("b", Some("me"), None, Some("file:a"), false);
    var claims := map["file:a" := Claim("me", None, false), "file:c" := Claim("me", None, false)];
    var left := Replay(claims, [b], [Completes], None, "me", {}, {});
    assert InGroup([b][0], "me", None);
    GroupFreedIff(claims, [b], [Completes], "me", {}, {}, "me", None, "file:a");
    GroupFreedIff(claims, [b], [Completes], "me", {}, {}, "me", None, "file:c");
    LoopOnlyFrees(State(claims, {}), [b], [b], [Completes], None);
  }

  // The loop itself: it never stops at a failing batch, and it takes the batches in the order given.
  class Workspace {
    var claims: Claims

    method ReleaseRecovered(selected: seq<Batch>, recovered: set<string>, b: Batch, upTo: Option<set<string>>)
      modifies this
      ensures var free := ToFree(State(old(claims), recovered), selected, b);
              claims == old(claims) - (if upTo.Some? then free * upTo.value else free)
    {
      if b.owner.None? { return; }
      var owner := b.owner.value;
      var before := claims;
      if b.resource.Some? && ClaimGroup(selected, owner, b.scope, b.resource.value) <= recovered
         && Owned(claims, b.resource.value, owner, b.scope)
         && (upTo.None? || b.resource.value in upTo.value)
      {
        claims := claims - {b.resource.value};
      }
      if b.scope.None? { return; }
      if !(Group(selected, owner, b.scope) <= recovered) { return; }
      var listed := set r | r in claims && Owned(claims, r, owner, b.scope);
      claims := claims - (if upTo.Some? then listed * upTo.value else listed);
    }

    method ReplayAll(selected: seq<Batch>, turns: seq<Turn>, only: Option<string>) returns (recovered: set<string>, failed: bool)
      requires |turns| == |selected|
      modifies this
      ensures State(claims, recovered) == Loop(State(old(claims), Recovered(selected, only)), selected, selected, turns, only)
      ensures failed <==> exists i :: 0 <= i < |selected| && Chosen(selected[i], only) && !turns[i].Completes?
    {
      recovered := Recovered(selected, only);
      failed := false;
      var n := 0;
      assert selected[0..] == selected && turns[0..] == turns;
      while n < |selected|
        invariant 0 <= n <= |selected|
        invariant Loop(State(old(claims), Recovered(selected, only)), selected, selected, turns, only)
                  == Loop(State(claims, recovered), selected, selected[n..], turns[n..], only)
        invariant failed <==> exists i :: 0 <= i < n && Chosen(selected[i], only) && !turns[i].Completes?
      {
        var b, turn := selected[n], turns[n];
        assert selected[n..][0] == b && selected[n..][1..] == selected[n + 1..];
        assert turns[n..][0] == turn && turns[n..][1..] == turns[n + 1..];
        if Chosen(b, only) {
          if !turn.Completes? { failed := true; }
          if !turn.FailsEarly? && !(b.done && turn.FailsLate?) {
            recovered := recovered + {b.id};
            if turn.StopsReleasing? {
              ReleaseRecovered(selected, recovered, b, Some(turn.freed));
            } else if turn.Completes? {
              ReleaseRecovered(selected, recovered, b, None);
            }
          }
        }
        n := n + 1;
      }
    }
  }
}
