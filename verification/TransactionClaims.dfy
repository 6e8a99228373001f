/**
  The claims of one transaction: what it remembers, the order it will release in, and what the claim
  store durably holds (workspace_transaction.py, workspace_transaction_state.py,
  workspace_transaction_operation.py, workspace_transaction_bookkeeping.py).
*/
module TransactionClaims {
  import opened Wrappers

  // The scope names one transaction instance, so no other transaction uses the same pair.
  datatype Who = Who(owner: string, scope: string)

  datatype Claim = Claim(who: Who, version: nat)

  datatype State = State(
    store: map<string, Claim>,
    remembered: map<string, Claim>,
    order: seq<string>,
    entered: bool,
    closed: bool)

  // A claim of somebody else on the resource is a conflict; one's own is renewed.
  function Upsert(store: map<string, Claim>, me: Who, key: string, version: nat): Option<map<string, Claim>> {
    if key in store && store[key].who != me then None else Some(store[key := Claim(me, version)])
  }

  function Remember(s: State, key: string, claim: Claim): State {
    s.(remembered := s.remembered[key := claim], order := if key in s.order then s.order else s.order + [key])
  }

  function Without(order: seq<string>, key: string): seq<string> {
    if order == [] then []
    else if order[0] == key then order[1..]
    else [order[0]] + Without(order[1..], key)
  }

  function Forget(s: State, key: string): State {
    s.(remembered := s.remembered - {key}, order := Without(s.order, key))
  }

  function TakeClaim(s: State, me: Who, key: string, version: nat): Option<State> {
    match Upsert(s.store, me, key, version)
    case None => None
    case Some(store) => Some(Remember(s.(store := store), key, store[key]))
  }

  // Releases newest first; the release after `allowed` successful ones fails.
  function ReleaseClaims(s: State, pending: seq<string>, allowed: nat, tolerateMissing: bool): (State, bool)
    decreases |pending|
  {
    if pending == [] then (s, true)
    else
      var key := pending[|pending| - 1];
      var rest := pending[..|pending| - 1];
      if key !in s.remembered then ReleaseClaims(s, rest, allowed, tolerateMissing)
      else if allowed == 0 then (s, false)
      else if key in s.store && s.store[key] == s.remembered[key] then
        ReleaseClaims(Forget(s.(store := s.store - {key}), key), rest, allowed - 1, tolerateMissing)
      else if tolerateMissing && key !in s.store then ReleaseClaims(Forget(s, key), rest, allowed - 1, tolerateMissing)
      else (s, false)
  }

  // Claims for the declared resources one by one; on any exception what was claimed is released again.
  function ClaimAll(s: State, me: Who, keys: seq<string>, version: nat, raisesAt: Option<nat>): (State, bool)
    decreases |keys|
  {
    if keys == [] then (s, true)
    else if raisesAt == Some(0) then (s, false)
    else
      match TakeClaim(s, me, keys[0], version)
      case None => (s, false)
      case Some(next) =>
        ClaimAll(next, me, keys[1..], version, if raisesAt.Some? then Some(raisesAt.value - 1) else None)
  }

  datatype Op =
    | Enter(keys: seq<string>, version: nat, raisesAt: Option<nat>, releases: nat)
    | LateClaim(key: string, version: nat)
    | Cleanup(releases: nat)
    | Finalize(failsAt: Option<nat>)
    | OtherClaims(key: string, claim: Option<Claim>)

  function EnterTransaction(s: State, me: Who, op: Op): State
    requires op.Enter?
  {
    if s.closed || s.entered || s.order != [] then s
    else
      var (claimed, ok) := ClaimAll(s, me, op.keys, op.version, op.raisesAt);
      if ok then claimed.(entered := true) else ReleaseClaims(claimed, claimed.order, op.releases, true).0
  }

  // Everything is released inside one database transaction; the memory follows only after it commits.
  function FinalizeClaims(s: State, failsAt: Option<nat>): State {
    var allowed := if failsAt.Some? then failsAt.value else |s.order| + 1;
    var (released, ok) := ReleaseClaims(s, s.order, allowed, false);
    if ok && failsAt.None? then released.(entered := false, closed := true) else s.(entered := false, closed := true)
  }

  function Step(s: State, me: Who, op: Op): State {
    match op
    case Enter(_, _, _, _) => EnterTransaction(s, me, op)
    case LateClaim(key, version) =>
      if !s.entered || key in s.remembered then s else TakeClaim(s, me, key, version).GetOr(s)
    case Cleanup(releases) => ReleaseClaims(s, s.order, releases, true).0.(entered := false, closed := true)
    case Finalize(failsAt) => if s.entered then FinalizeClaims(s, failsAt) else s
    case OtherClaims(key, claim) =>
      if (key in s.store && s.store[key].who == me) || (claim.Some? && claim.value.who == me) then s
      else s.(store := if claim.Some? then s.store[key := claim.value] else s.store - {key})
  }

  predicate NoRepeats(order: seq<string>) {
    forall i, k :: 0 <= i < k < |order| ==> order[i] != order[k]
  }

  // The three views of the transaction's claims are the same.
  ghost predicate Agree(s: State, me: Who) {
    && NoRepeats(s.order)
    && (forall key :: key in s.remembered <==> key in s.order)
    && (forall key :: key in s.remembered <==> key in s.store && s.store[key].who == me)
    && (forall key :: key in s.remembered ==> s.store[key] == s.remembered[key])
  }

  lemma {:induction false} WithoutLast(order: seq<string>)
    requires order != [] && NoRepeats(order)
    ensures Without(order, order[|order| - 1]) == order[..|order| - 1]
  {
    if |order| > 1 {
      assert order[1..][|order| - 2] == order[|order| - 1];
      WithoutLast(order[1..]);
      assert order[..|order| - 1] == [order[0]] + order[1..][..|order| - 2];
    }
  }

  lemma LastLeaves(order: seq<string>)
    requires order != [] && NoRepeats(order)
    ensures var last, left := order[|order| - 1], order[..|order| - 1];
            && Without(order, last) == left && NoRepeats(left) && last in order
            && forall key :: key in left <==> key in order && key != last
  {
    WithoutLast(order);
    assert order == order[..|order| - 1] + [order[|order| - 1]];
  }

  lemma TakeKeepsAgreement(s: State, me: Who, key: string, version: nat)
    requires Agree(s, me)
    ensures var r := TakeClaim(s, me, key, version);
            r.Some? ==> && Agree(r.value, me)
                        && r.value.order == if key in s.order then s.order else s.order + [key]
  {
  }

  predicate OthersKept(s: State, after: State, me: Who) {
    && (forall key :: key in s.store && s.store[key].who != me ==> key in after.store && after.store[key] == s.store[key])
    && after.entered == s.entered && after.closed == s.closed
  }

  lemma ReleaseLastKeepsAgreement(s: State, me: Who)
    requires Agree(s, me) && s.order != []
    ensures var key := s.order[|s.order| - 1];
            var next := Forget(s.(store := s.store - {key}), key);
            key in s.remembered && key in s.store && s.store[key] == s.remembered[key] && s.store[key].who == me
            && Agree(next, me) && OthersKept(s, next, me) && next.order == s.order[..|s.order| - 1]
  {
    hide Without, NoRepeats;
    var key := s.order[|s.order| - 1];
    LastLeaves(s.order);
    var next := Forget(s.(store := s.store - {key}), key);
    assert next.order == Without(s.order, key);
  }

  // One unfolding of the release loop while the views agree.
  lemma ReleaseUnfolds(s: State, me: Who, allowed: nat, tolerateMissing: bool)
    requires Agree(s, me) && s.order != []
    ensures var key := s.order[|s.order| - 1];
            var next := Forget(s.(store := s.store - {key}), key);
            && Agree(next, me) && next.order == s.order[..|s.order| - 1] && OthersKept(s, next, me)
            && ReleaseClaims(s, s.order, allowed, tolerateMissing)
               == if allowed == 0 then (s, false) else ReleaseClaims(next, next.order, allowed - 1, tolerateMissing)
  {
    hide Agree, Without, OthersKept, Forget;
    ReleaseLastKeepsAgreement(s, me);
  }

  // A release that gets n claims far leaves exactly the earlier-acquired ones, in all three views.
  lemma {:induction false} ReleaseLeavesEarliest(s: State, me: Who, allowed: nat, tolerateMissing: bool)
    requires Agree(s, me)
    ensures var (after, ok) := ReleaseClaims(s, s.order, allowed, tolerateMissing);
            && Agree(after, me) && OthersKept(s, after, me)
            && after.order == s.order[..if allowed >= |s.order| then 0 else |s.order| - allowed]
            && (ok <==> allowed >= |s.order|)
    decreases |s.order|
  {
    hide Agree;
    if s.order == [] {
      assert ReleaseClaims(s, s.order, allowed, tolerateMissing) == (s, true);
    } else {
      ReleaseUnfolds(s, me, allowed, tolerateMissing);
      hide ReleaseClaims, Forget;
      var key := s.order[|s.order| - 1];
      var next := Forget(s.(store := s.store - {key}), key);
      if allowed == 0 {
        assert s.order[..|s.order|] == s.order;
      } else {
        ReleaseLeavesEarliest(next, me, allowed - 1, tolerateMissing);
        assert |next.order| == |s.order| - 1;
      }
    }
  }

  lemma TakeKeepsOthers(s: State, me: Who, key: string, version: nat)
    requires Agree(s, me)
    ensures var r := TakeClaim(s, me, key, version);
            r.Some? ==> && Agree(r.value, me) && OthersKept(s, r.value, me) && key in r.value.order
                        && s.order <= r.value.order
  {
    TakeKeepsAgreement(s, me, key, version);
  }

  lemma {:induction false} ClaimAllAgrees(s: State, me: Who, keys: seq<string>, version: nat, raisesAt: Option<nat>)
    requires Agree(s, me)
    ensures var (after, ok) := ClaimAll(s, me, keys, version, raisesAt);
            && Agree(after, me) && s.order <= after.order && OthersKept(s, after, me)
            && (ok ==> forall key :: key in keys ==> key in after.order)
    decreases |keys|
  {
    hide Agree, TakeClaim;
    if keys != [] && raisesAt != Some(0) {
      TakeKeepsOthers(s, me, keys[0], version);
      var next := TakeClaim(s, me, keys[0], version);
      if next.Some? {
        ClaimAllAgrees(next.value, me, keys[1..], version, if raisesAt.Some? then Some(raisesAt.value - 1) else None);
        assert forall key :: key in keys ==> key == keys[0] || key in keys[1..];
      }
    }
  }

  lemma StepKeepsAgreement(s: State, me: Who, op: Op)
    requires Agree(s, me)
    ensures Agree(Step(s, me, op), me)
  {
    match op
    case Enter(keys, version, raisesAt, releases) =>
      ClaimAllAgrees(s, me, keys, version, raisesAt);
      ReleaseLeavesEarliest(ClaimAll(s, me, keys, version, raisesAt).0, me, releases, true);
    case LateClaim(key, version) => TakeKeepsAgreement(s, me, key, version);
    case Cleanup(releases) => ReleaseLeavesEarliest(s, me, releases, true);
    case Finalize(failsAt) =>
      ReleaseLeavesEarliest(s, me, if failsAt.Some? then failsAt.value else |s.order| + 1, false);
    case OtherClaims(_, _) =>
  }

  ghost predicate IsHistory(me: Who, store: map<string, Claim>, ops: seq<Op>, states: seq<State>) {
    && (forall key :: key in store ==> store[key].who != me)
    && |states| == |ops| + 1
    && states[0] == State(store, map[], [], false, false)
    && forall i {:trigger ops[i]} :: 0 <= i < |ops| ==> states[i + 1] == Step(states[i], me, ops[i])
  }

  // In every run, with other transactions claiming and releasing around it, the remembered claims, the
  // release order without repeats, and the durable claims of the transaction's scope agree.
  lemma {:induction false} ViewsAlwaysAgree(me: Who, store: map<string, Claim>, ops: seq<Op>, states: seq<State>, k: nat)
    requires IsHistory(me, store, ops, states) && k < |states|
    ensures Agree(states[k], me)
  {
    if k > 0 {
      ViewsAlwaysAgree(me, store, ops, states, k - 1);
      StepKeepsAgreement(states[k - 1], me, ops[k - 1]);
    }
  }

  predicate HoldsNothing(s: State, me: Who) {
    s.remembered == map[] && s.order == [] && forall key :: key in s.store ==> s.store[key].who != me
  }

  // How a transaction lets go: a finalize that fails anywhere changes none of the three views, and one
  // that succeeds empties all three.
  lemma FinalizeIsAllOrNothing(me: Who, store: map<string, Claim>, ops: seq<Op>, states: seq<State>, k: nat)
    requires IsHistory(me, store, ops, states) && k < |ops| && ops[k].Finalize? && states[k].entered
    ensures ops[k].failsAt.None? ==> HoldsNothing(states[k + 1], me)
    ensures var s, t := states[k], states[k + 1];
            ops[k].failsAt.Some? ==> t.store == s.store && t.remembered == s.remembered && t.order == s.order
  {
    var s, failsAt := states[k], ops[k].failsAt;
    assert states[k + 1] == Step(s, me, ops[k]);
    ViewsAlwaysAgree(me, store, ops, states, k);
    hide IsHistory, ReleaseClaims;
    ReleaseLeavesEarliest(s, me, if failsAt.Some? then failsAt.value else |s.order| + 1, false);
  }

  // A cleanup empties all three views, or leaves exactly the earliest claims where it was stopped.
  lemma CleanupLeavesEarliest(me: Who, store: map<string, Claim>, ops: seq<Op>, states: seq<State>, k: nat)
    requires IsHistory(me, store, ops, states) && k < |ops| && ops[k].Cleanup?
    ensures var s, t, n := states[k], states[k + 1], ops[k].releases;
            && Agree(t, me)
            && (n >= |s.order| ==> HoldsNothing(t, me))
            && (n < |s.order| ==> t.order == s.order[..|s.order| - n])
  {
    var s := states[k];
    assert states[k + 1] == Step(s, me, ops[k]);
    ViewsAlwaysAgree(me, store, ops, states, k);
    hide IsHistory, ReleaseClaims;
    ReleaseLeavesEarliest(s, me, ops[k].releases, true);
  }

  // An enter that fails gives back every claim it had taken, unless its own cleanup is stopped.
  lemma FailedEnterHoldsNothing(me: Who, store: map<string, Claim>, ops: seq<Op>, states: seq<State>, k: nat)
    requires IsHistory(me, store, ops, states) && k < |ops| && ops[k].Enter?
    requires !states[k].entered && !states[k].closed && states[k].order == [] && !states[k + 1].entered
    requires ops[k].releases >= |ops[k].keys|
    ensures HoldsNothing(states[k + 1], me)
  {
    var s, op := states[k], ops[k];
    assert states[k + 1] == Step(s, me, op);
    ViewsAlwaysAgree(me, store, ops, states, k);
    hide IsHistory, ReleaseClaims, ClaimAll;
    ClaimAllAgrees(s, me, op.keys, op.version, op.raisesAt);
    ClaimAllTakesAtMost(s, me, op.keys, op.version, op.raisesAt);
    ReleaseLeavesEarliest(ClaimAll(s, me, op.keys, op.version, op.raisesAt).0, me, op.releases, true);
  }

  lemma {:induction false} ClaimAllTakesAtMost(s: State, me: Who, keys: seq<string>, version: nat, raisesAt: Option<nat>)
    ensures |ClaimAll(s, me, keys, version, raisesAt).0.order| <= |s.order| + |keys|
    decreases |keys|
  {
    if keys != [] && raisesAt != Some(0) {
      var next := TakeClaim(s, me, keys[0], version);
      if next.Some? {
        ClaimAllTakesAtMost(next.value, me, keys[1..], version, if raisesAt.Some? then Some(raisesAt.value - 1) else None);
      }
    }
  }

  // What the claims of an enter leave in the store.
  ghost predicate Claimed(store: map<string, Claim>, after: map<string, Claim>, me: Who, keys: seq<string>, version: nat) {
    && after.Keys == store.Keys + (set key | key in keys)
    && (forall key :: key in keys ==> after[key] == Claim(me, version))
    && (forall key :: key in store && key !in keys ==> after[key] == store[key])
  }

  lemma {:induction false} ClaimAllIs(s: State, me: Who, keys: seq<string>, version: nat)
    ensures var (after, ok) := ClaimAll(s, me, keys, version, None);
            && (ok <==> forall key :: key in keys && key in s.store ==> s.store[key].who == me)
            && (ok ==> Claimed(s.store, after.store, me, keys, version))
            && after.entered == s.entered && after.closed == s.closed
    decreases |keys|
  {
    if keys != [] {
      var first, rest := keys[0], keys[1..];
      assert forall key :: key in keys <==> key == first || key in rest;
      var next := TakeClaim(s, me, first, version);
      if next.Some? {
        assert next.value.store == s.store[first := Claim(me, version)];
        ClaimAllIs(next.value, me, rest, version);
        hide ClaimAll, TakeClaim;
      }
    }
  }

  // An enter that nothing interrupts succeeds exactly when no declared resource is claimed by anybody
  // else; the store then holds exactly the declared claims besides what it held.
  lemma EnterSucceedsIff(me: Who, store: map<string, Claim>, ops: seq<Op>, states: seq<State>, k: nat)
    requires IsHistory(me, store, ops, states) && k < |ops| && ops[k].Enter? && ops[k].raisesAt.None?
    requires !states[k].entered && !states[k].closed && states[k].order == []
    ensures states[k + 1].entered <==> forall key :: key in ops[k].keys ==> key !in states[k].store
    ensures states[k + 1].entered ==>
              Claimed(states[k].store, states[k + 1].store, me, ops[k].keys, ops[k].version)
              && forall key :: key in states[k + 1].order <==> key in ops[k].keys
  {
    var s, op := states[k], ops[k];
    assert states[k + 1] == Step(s, me, op);
    ViewsAlwaysAgree(me, store, ops, states, k);
    ViewsAlwaysAgree(me, store, ops, states, k + 1);
    hide IsHistory, ReleaseClaims, ClaimAll;
    assert forall key :: key in s.store ==> s.store[key].who != me;
    ClaimAllIs(s, me, op.keys, op.version);
    var claimed := ClaimAll(s, me, op.keys, op.version, None).0;
    ClaimAllAgrees(s, me, op.keys, op.version, None);
    ReleaseLeavesEarliest(claimed, me, op.releases, true);
  }

  // A claim made later is taken exactly when nobody else holds the resource.
  lemma LateClaimTakenIff(me: Who, store: map<string, Claim>, ops: seq<Op>, states: seq<State>, k: nat)
    requires IsHistory(me, store, ops, states) && k < |ops| && ops[k].LateClaim? && states[k].entered
    ensures var s, t, key := states[k], states[k + 1], ops[k].key;
            if key in s.order || (key in s.store && s.store[key].who != me) then t == s
            else t.store == s.store[key := Claim(me, ops[k].version)] && t.order == s.order + [key]
  {
    assert states[k + 1] == Step(states[k], me, ops[k]);
    ViewsAlwaysAgree(me, store, ops, states, k);
    hide IsHistory;
  }

  class SafeTransaction {
    const me: Who
    var store: map<string, Claim>
    var remembered: map<string, Claim>
    var order: seq<string>
    var entered: bool
    var closed: bool

    ghost function Now(): State
      reads this
    {
      State(store, remembered, order, entered, closed)
    }

    method RememberClaim(key: string, claim: Claim)
      modifies this`remembered, this`order
      ensures Now() == Remember(old(Now()), key, claim)
    {
      remembered := remembered[key := claim];
      if key !in order { order := order + [key]; }
    }

    method ForgetClaim(key: string)
      modifies this`remembered, this`order
      ensures Now() == Forget(old(Now()), key)
    {
      remembered := remembered - {key};
      order := Without(order, key);
    }

    method Claim(key: string, version: nat) returns (ok: bool)
      modifies this
      ensures var r := TakeClaim(old(Now()), me, key, version); ok == r.Some? && Now() == r.GetOr(old(Now()))
    {
      var upserted := Upsert(store, me, key, version);
      ok := upserted.Some?;
      if ok {
        store := upserted.value;
        RememberClaim(key, store[key]);
      }
    }

    method ClaimDirectory(key: string, version: nat) returns (ok: bool)
      modifies this
      ensures Now() == Step(old(Now()), me, LateClaim(key, version))
    {
      if !entered { return false; }
      if key in remembered { return true; }
      ok := Claim(key, version);
    }

    method ReleaseAll(allowed: nat, tolerateMissing: bool) returns (ok: bool)
      modifies this
      ensures (Now(), ok) == ReleaseClaims(old(Now()), old(order), allowed, tolerateMissing)
    {
      var pending := order;
      var left: nat := allowed;
      ghost var start := Now();
      while pending != []
        invariant left <= allowed
        invariant ReleaseClaims(start, start.order, allowed, tolerateMissing)
                  == ReleaseClaims(Now(), pending, left, tolerateMissing)
        decreases |pending|
      {
        var key := pending[|pending| - 1];
        var rest := pending[..|pending| - 1];
        if key in remembered {
          if left == 0 { return false; }
          if key in store && store[key] == remembered[key] {
            store := store - {key};
            ForgetClaim(key);
          } else if tolerateMissing && key !in store {
            ForgetClaim(key);
          } else {
            return false;
          }
          left := left - 1;
        }
        pending := rest;
      }
      ok := true;
    }

    method ClaimEach(keys: seq<string>, version: nat, raisesAt: Option<nat>) returns (ok: bool)
      modifies this
      ensures (Now(), ok) == ClaimAll(old(Now()), me, keys, version, raisesAt)
    {
      ghost var start := Now();
      var n := 0;
      var left := raisesAt;
      assert keys[0..] == keys;
      while n < |keys|
        invariant 0 <= n <= |keys|
        invariant ClaimAll(start, me, keys, version, raisesAt) == ClaimAll(Now(), me, keys[n..], version, left)
      {
        assert keys[n..][0] == keys[n] && keys[n..][1..] == keys[n + 1..];
        if left == Some(0) { return false; }
        var claimed := Claim(keys[n], version);
        if !claimed { return false; }
        left := if left.Some? then Some(left.value - 1) else None;
        n := n + 1;
      }
      ok := true;
    }

    method EnterWith(keys: seq<string>, version: nat, raisesAt: Option<nat>, releases: nat) returns (ok: bool)
      requires !closed && !entered && order == []
      modifies this
      ensures Now() == Step(old(Now()), me, Enter(keys, version, raisesAt, releases))
    {
      ok := ClaimEach(keys, version, raisesAt);
      if ok { entered := true; } else { var _ := ReleaseAll(releases, true); }
    }

    // The store is put back when the database transaction does not commit.
    method FinalizeSuccess(failsAt: Option<nat>) returns (ok: bool)
      requires entered
      modifies this
      ensures Now() == Step(old(Now()), me, Finalize(failsAt))
    {
      var saved := (store, remembered, order);
      ok := ReleaseAll(if failsAt.Some? then failsAt.value else |order| + 1, false);
      ok := ok && failsAt.None?;
      if !ok { store, remembered, order := saved.0, saved.1, saved.2; }
      entered, closed := false, true;
    }
  }
}
