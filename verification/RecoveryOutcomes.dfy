/**
  What a recovery attempt makes of its actions, told by what each handler does: which status each row
  may have, and the whole log of an attempt that nothing disturbs (operation_journal/filesystem_recovery.py).
*/
module RecoveryOutcomes {
  import opened Wrappers
  import opened RecoveryActions

  // Some handler is registered for the kind, and the kind does not itself ask for a human.
  predicate KnownKind(env: Env, kind: string) {
    kind != MANUAL_KIND && kind in env.kinds
  }

  predicate HandlerIs(env: Env, id: string, handled: Handled) {
    id in env.handlers && env.handlers[id] == handled
  }

  // What must have happened for a row to be written.
  predicate Caused(env: Env, row: Row) {
    match row.status
    case Planned => true
    case Attempting => true
    case Succeeded => KnownKind(env, row.kind) && HandlerIs(env, row.id, Completes)
    case Skipped => KnownKind(env, row.kind) && HandlerIs(env, row.id, Skips)
    case Failed => KnownKind(env, row.kind) && (row.id !in env.handlers || HandlerIs(env, row.id, Breaks))
    case Manual => !KnownKind(env, row.kind) || HandlerIs(env, row.id, AsksForHelp)
  }

  ghost predicate AllCaused(env: Env, log: seq<Row>) {
    forall row :: row in log ==> Caused(env, row)
  }

  lemma RunActionCaused(s: State, env: Env, row: Row)
    requires AllCaused(env, s.log)
    ensures AllCaused(env, RunAction(s, env, row).state.log)
  {
    hide Last;
  }

  lemma {:induction false} RunActionsCaused(s: State, env: Env, rows: seq<Row>)
    requires AllCaused(env, s.log)
    ensures AllCaused(env, RunActions(s, env, rows).state.log)
    decreases |rows|
  {
    hide RunAction, AllCaused;
    if rows != [] {
      var checked := s.(steps := s.steps + 1);
      assert AllCaused(env, checked.log);
      RunActionCaused(checked, env, rows[0]);
      var first := RunAction(checked, env, rows[0]);
      if first.Done? { RunActionsCaused(first.state, env, rows[1..]); }
    }
  }

  lemma {:induction false} PlanActionsCaused(s: State, env: Env, plans: seq<PlannedAction>, known: set<string>)
    requires AllCaused(env, s.log)
    ensures AllCaused(env, PlanActions(s, env, plans, known).state.log)
    decreases |plans|
  {
    hide Last;
    if plans != [] {
      if plans[0].id in known {
        PlanActionsCaused(s, env, plans[1..], known);
      } else {
        var put := Put(s, env, plans[0].id, plans[0].kind, Planned);
        if put.Some? { PlanActionsCaused(put.value, env, plans[1..], known); }
      }
    }
  }

  // In every attempt, wherever it is cut short, each row says what really became of its action.
  lemma RowsTellWhatHappened(env: Env, plans: seq<PlannedAction>, row: Row)
    requires row in RecoverBatch(env, plans).1.log
    ensures row.status == Succeeded ==> KnownKind(env, row.kind) && HandlerIs(env, row.id, Completes)
    ensures row.status == Skipped ==> KnownKind(env, row.kind) && HandlerIs(env, row.id, Skips)
    ensures row.status == Failed ==> KnownKind(env, row.kind) && (row.id !in env.handlers || HandlerIs(env, row.id, Breaks))
    ensures row.status == Manual ==> !KnownKind(env, row.kind) || HandlerIs(env, row.id, AsksForHelp)
  {
    hide PlanActions, RunActions, LatestRows;
    var start := State([], 1);
    PlanActionsCaused(start, env, plans, Ids([]));
    var planned := PlanActions(start, env, plans, Ids([]));
    RunActionsCaused(planned.state, env, LatestRows(planned.state.log));
  }

  // The status an action ends with when nothing disturbs it; None when its handler finds its authority gone.
  function Ending(env: Env, p: PlannedAction): Option<Status> {
    if !KnownKind(env, p.kind) then Some(Manual)
    else if HandlerIs(env, p.id, Completes) then Some(Succeeded)
    else if HandlerIs(env, p.id, Skips) then Some(Skipped)
    else if HandlerIs(env, p.id, AsksForHelp) then Some(Manual)
    else if HandlerIs(env, p.id, LosesAuthority) then None
    else Some(Failed)
  }

  predicate EndsWell(env: Env, p: PlannedAction) {
    KnownKind(env, p.kind) && (HandlerIs(env, p.id, Completes) || HandlerIs(env, p.id, Skips))
  }

  predicate DistinctPlans(plans: seq<PlannedAction>) {
    forall i, k :: 0 <= i < k < |plans| ==> plans[i].id != plans[k].id
  }

  function PlannedRows(plans: seq<PlannedAction>): (rows: seq<Row>)
    ensures |rows| == |plans|
    ensures forall i :: 0 <= i < |plans| ==> rows[i] == Row(plans[i].id, plans[i].kind, Planned)
  {
    seq(|plans|, i requires 0 <= i < |plans| => Row(plans[i].id, plans[i].kind, Planned))
  }

  // The rows of one action that is run, and those of a whole run, up to the first that raises.
  function ActionRows(env: Env, p: PlannedAction): seq<Row> {
    [Row(p.id, p.kind, Attempting)]
    + if Ending(env, p).Some? then [Row(p.id, p.kind, Ending(env, p).value)] else []
  }

  function RunRows(env: Env, plans: seq<PlannedAction>): seq<Row> {
    if plans == [] then []
    else ActionRows(env, plans[0]) + if EndsWell(env, plans[0]) then RunRows(env, plans[1..]) else []
  }

  lemma PlanningGoesOn(s: State, env: Env, plans: seq<PlannedAction>)
    requires plans != [] && s.steps < env.life && Last(s.log, plans[0].id).None?
    ensures PlanActions(s, env, plans, {})
            == PlanActions(State(s.log + [Row(plans[0].id, plans[0].kind, Planned)], s.steps + 1), env, plans[1..], {})
  {
    hide Last;
  }

  // All the plans, each under one id, have the same newest status.
  predicate AllAt(log: seq<Row>, plans: seq<PlannedAction>, last: Option<Status>) {
    DistinctPlans(plans) && forall i :: 0 <= i < |plans| ==> Last(log, plans[i].id) == last
  }

  lemma RestUnlogged(log: seq<Row>, plans: seq<PlannedAction>)
    requires AllAt(log, plans, None) && plans != []
    ensures AllAt(log + [Row(plans[0].id, plans[0].kind, Planned)], plans[1..], None)
  {
    hide Last;
    var row, rest := Row(plans[0].id, plans[0].kind, Planned), plans[1..];
    forall i | 0 <= i < |rest| ensures Last(log + [row], rest[i].id).None? {
      LastAfter(log, row, rest[i].id);
      assert rest[i] == plans[i + 1] && plans[0].id != plans[i + 1].id;
    }
  }

  lemma {:induction false} PlanningIs(s: State, env: Env, plans: seq<PlannedAction>)
    requires AllAt(s.log, plans, None) && s.steps + |plans| <= env.life
    ensures PlanActions(s, env, plans, {}) == Done(State(s.log + PlannedRows(plans), s.steps + |plans|))
    decreases |plans|
  {
    hide AllAt, Put, PlanActions;
    if plans == [] {
      assert s.log + PlannedRows(plans) == s.log;
      NothingToPlan(s, env);
    } else {
      var row, rest := Row(plans[0].id, plans[0].kind, Planned), plans[1..];
      RestUnlogged(s.log, plans);
      FirstIsAt(s.log, plans, None);
      PlanningGoesOn(s, env, plans);
      PlanningIs(State(s.log + [row], s.steps + 1), env, rest);
      assert s.log + PlannedRows(plans) == (s.log + [row]) + PlannedRows(rest);
    }
  }

  lemma NothingToPlan(s: State, env: Env)
    ensures PlanActions(s, env, [], {}) == Done(s)
  {
  }

  lemma FirstIsAt(log: seq<Row>, plans: seq<PlannedAction>, last: Option<Status>)
    requires AllAt(log, plans, last) && plans != []
    ensures Last(log, plans[0].id) == last
  {
  }

  lemma {:induction false} PlanningReturns(s: State, env: Env, plans: seq<PlannedAction>)
    requires PlanActions(s, env, plans, {}).Done?
    ensures DistinctPlans(plans) && (plans == [] || s.steps + |plans| <= env.life)
    ensures forall i :: 0 <= i < |plans| ==> Last(s.log, plans[i].id).None?
    decreases |plans|
  {
    if plans != [] {
      var row := Row(plans[0].id, plans[0].kind, Planned);
      var next := Put(s, env, row.id, row.kind, Planned).value;
      PlanningReturns(next, env, plans[1..]);
      forall i | 0 < i < |plans| ensures Last(s.log, plans[i].id).None? && plans[i].id != plans[0].id {
        LastAfter(s.log, row, plans[i].id);
        assert plans[i] == plans[1..][i - 1];
      }
      forall i, k | 0 <= i < k < |plans| ensures plans[i].id != plans[k].id {
        if i > 0 { assert plans[i] == plans[1..][i - 1] && plans[k] == plans[1..][k - 1]; }
      }
    }
  }

  // Actions that appear once are their own newest rows.
  lemma {:induction false} PlannedAreNewest(plans: seq<PlannedAction>)
    requires DistinctPlans(plans)
    ensures LatestRows(PlannedRows(plans)) == PlannedRows(plans)
    decreases |plans|
  {
    var rows := PlannedRows(plans);
    if plans != [] {
      var earlier := plans[..|plans| - 1];
      assert rows[..|rows| - 1] == PlannedRows(earlier);
      PlannedAreNewest(earlier);
      assert rows == PlannedRows(earlier) + [rows[|rows| - 1]];
    }
  }

  lemma {:induction false} PlannedAreLast(plans: seq<PlannedAction>, i: nat)
    requires DistinctPlans(plans) && i < |plans|
    ensures Last(PlannedRows(plans), plans[i].id) == Some(Planned)
    decreases |plans|
  {
    var rows, earlier := PlannedRows(plans), plans[..|plans| - 1];
    assert rows == PlannedRows(earlier) + [rows[|rows| - 1]];
    LastAfter(PlannedRows(earlier), rows[|rows| - 1], plans[i].id);
    if i < |earlier| { PlannedAreLast(earlier, i); }
  }

  lemma ActionIs(s: State, env: Env, p: PlannedAction)
    requires Last(s.log, p.id) == Some(Planned) && s.steps + 4 <= env.life
    ensures var r := RunAction(s, env, Row(p.id, p.kind, Planned));
            && r.state.log == s.log + ActionRows(env, p) && r.state.steps <= s.steps + 4
            && (r.Done? <==> EndsWell(env, p))
  {
    var row := Row(p.id, p.kind, Planned);
    var marked := State(s.log + [Row(p.id, p.kind, Attempting)], s.steps + 2);
    LastAfter(s.log, Row(p.id, p.kind, Attempting), p.id);
    hide Last;
    assert RunAction(s, env, row) == Handle(marked, env, row) by { hide Handle; }
    hide RunAction;
    forall x: Row ensures marked.log + [x] == s.log + [Row(p.id, p.kind, Attempting), x] {}
    assert marked.log == s.log + [Row(p.id, p.kind, Attempting)];
  }

  lemma ActionReturns(s: State, env: Env, p: PlannedAction)
    requires RunAction(s, env, Row(p.id, p.kind, Planned)).Done?
    ensures EndsWell(env, p) && RunAction(s, env, Row(p.id, p.kind, Planned)).state.steps == s.steps + 4
  {
    hide Last;
  }

  lemma ActionSparesOthers(log: seq<Row>, env: Env, p: PlannedAction, other: string)
    requires other != p.id
    ensures Last(log + ActionRows(env, p), other) == Last(log, other)
  {
    var first := Row(p.id, p.kind, Attempting);
    LastAfter(log, first, other);
    if Ending(env, p).Some? {
      var second := Row(p.id, p.kind, Ending(env, p).value);
      LastAfter(log + [first], second, other);
      assert log + ActionRows(env, p) == (log + [first]) + [second];
    } else {
      assert log + ActionRows(env, p) == log + [first];
    }
  }

  lemma RestStillPlanned(log: seq<Row>, env: Env, plans: seq<PlannedAction>)
    requires AllAt(log, plans, Some(Planned)) && plans != []
    ensures AllAt(log + ActionRows(env, plans[0]), plans[1..], Some(Planned))
  {
    hide Last, ActionRows;
    var rest := plans[1..];
    forall i | 0 <= i < |rest| ensures Last(log + ActionRows(env, plans[0]), rest[i].id) == Some(Planned) {
      assert rest[i] == plans[i + 1] && plans[0].id != plans[i + 1].id;
      ActionSparesOthers(log, env, plans[0], rest[i].id);
    }
  }

  lemma {:induction false} RunIs(s: State, env: Env, plans: seq<PlannedAction>)
    requires AllAt(s.log, plans, Some(Planned)) && s.steps + 5 * |plans| <= env.life
    ensures var r := RunActions(s, env, PlannedRows(plans));
            && r.state.log == s.log + RunRows(env, plans) && r.state.steps <= s.steps + 5 * |plans|
            && (r.Done? <==> forall i :: 0 <= i < |plans| ==> EndsWell(env, plans[i]))
    decreases |plans|
  {
    hide AllAt, EndsWell, RunAction, ActionRows;
    var rows := PlannedRows(plans);
    if plans == [] {
      assert s.log + RunRows(env, plans) == s.log;
    } else {
      var checked, rest := s.(steps := s.steps + 1), plans[1..];
      FirstIsAt(s.log, plans, Some(Planned));
      ActionIs(checked, env, plans[0]);
      var first := RunAction(checked, env, rows[0]);
      if first.Done? {
        RestStillPlanned(s.log, env, plans);
        RunIs(first.state, env, rest);
        assert rows[1..] == PlannedRows(rest);
        assert s.log + RunRows(env, plans) == (s.log + ActionRows(env, plans[0])) + RunRows(env, rest);
        assert forall i :: 0 < i < |plans| ==> plans[i] == rest[i - 1];
        assert forall i :: 0 <= i < |rest| ==> rest[i] == plans[i + 1];
      } else {
        assert s.log + RunRows(env, plans) == s.log + ActionRows(env, plans[0]);
      }
    }
  }

  lemma {:induction false} RunReturnsAfter(s: State, env: Env, plans: seq<PlannedAction>)
    requires RunActions(s, env, PlannedRows(plans)).Done?
    ensures RunActions(s, env, PlannedRows(plans)).state.steps == s.steps + 5 * |plans|
    ensures forall i :: 0 <= i < |plans| ==> EndsWell(env, plans[i])
    decreases |plans|
  {
    hide EndsWell, RunAction;
    if plans != [] {
      var rows, checked := PlannedRows(plans), s.(steps := s.steps + 1);
      ActionReturns(checked, env, plans[0]);
      assert rows[1..] == PlannedRows(plans[1..]);
      RunReturnsAfter(RunAction(checked, env, rows[0]).state, env, plans[1..]);
      assert forall i :: 0 < i < |plans| ==> plans[i] == plans[1..][i - 1];
    }
  }

  // Planning done, what is left is to run the planned rows.
  lemma PlannedThenRun(env: Env, plans: seq<PlannedAction>)
    requires DistinctPlans(plans) && 1 + |plans| <= env.life
    ensures RunRecoveryActions(State([], 0), env, plans)
            == RunActions(State(PlannedRows(plans), 1 + |plans|), env, PlannedRows(plans))
  {
    hide PlanActions, RunActions, LatestRows, Last;
    assert Ids([]) == {} && [] + PlannedRows(plans) == PlannedRows(plans);
    assert AllAt([], plans, None) by { NothingLogged(plans); }
    PlanningIs(State([], 1), env, plans);
    PlannedAreNewest(plans);
    hide DistinctPlans;
  }

  lemma NothingLogged(plans: seq<PlannedAction>)
    ensures forall i :: 0 <= i < |plans| ==> Last([], plans[i].id).None?
  {
  }

  // The whole log of an attempt that stays active: every action planned, then each one attempted and
  // ended as its handler ends, up to the first that raises.
  lemma UndisturbedAttempt(env: Env, plans: seq<PlannedAction>)
    requires DistinctPlans(plans) && env.life > 1 + 6 * |plans|
    ensures var (recorded, s) := RecoverBatch(env, plans);
            && s.log == PlannedRows(plans) + RunRows(env, plans)
            && recorded == if forall i :: 0 <= i < |plans| ==> EndsWell(env, plans[i]) then SuccessRecorded else FailureRecorded
  {
    hide RunRecoveryActions, RunActions, RunRows, EndsWell, Last;
    PlannedThenRun(env, plans);
    assert AllAt(PlannedRows(plans), plans, Some(Planned)) by {
      forall i | 0 <= i < |plans| ensures Last(PlannedRows(plans), plans[i].id) == Some(Planned) { PlannedAreLast(plans, i); }
    }
    RunIs(State(PlannedRows(plans), 1 + |plans|), env, plans);
  }

  // Each planned action of such an attempt, told on its own.
  lemma {:induction false} RunPathIs(env: Env, plans: seq<PlannedAction>, i: nat)
    requires DistinctPlans(plans) && i < |plans|
    ensures Path(RunRows(env, plans), plans[i].id)
            == if exists k :: 0 <= k < i && !EndsWell(env, plans[k]) then []
               else [Attempting] + if Ending(env, plans[i]).Some? then [Ending(env, plans[i]).value] else []
    decreases |plans|
  {
    hide Path, Ending;
    var p, id := plans[0], plans[i].id;
    RunPathUnfolds(env, plans, id);
    ActionPath(env, p, id);
    if i == 0 {
      if EndsWell(env, p) { OthersHaveNoRows(env, plans[1..], id); }
    } else if EndsWell(env, p) {
      RunPathIs(env, plans[1..], i - 1);
      RaisesEarlier(env, plans, i);
    }
  }

  lemma RunPathUnfolds(env: Env, plans: seq<PlannedAction>, id: string)
    requires plans != []
    ensures Path(RunRows(env, plans), id)
            == Path(ActionRows(env, plans[0]), id) + if EndsWell(env, plans[0]) then Path(RunRows(env, plans[1..]), id) else []
  {
    hide EndsWell, ActionRows;
    PathSplits(ActionRows(env, plans[0]), if EndsWell(env, plans[0]) then RunRows(env, plans[1..]) else [], id);
  }

  lemma RaisesEarlier(env: Env, plans: seq<PlannedAction>, i: nat)
    requires 0 < i < |plans| && EndsWell(env, plans[0])
    ensures (exists k :: 0 <= k < i && !EndsWell(env, plans[k]))
            <==> (exists k :: 0 <= k < i - 1 && !EndsWell(env, plans[1..][k]))
  {
    hide EndsWell;
    if k :| 0 <= k < i && !EndsWell(env, plans[k]) { assert plans[1..][k - 1] == plans[k]; }
    if k :| 0 <= k < i - 1 && !EndsWell(env, plans[1..][k]) { assert plans[k + 1] == plans[1..][k]; }
  }

  lemma ActionPath(env: Env, p: PlannedAction, id: string)
    ensures Path(ActionRows(env, p), id)
            == if id != p.id then [] else [Attempting] + if Ending(env, p).Some? then [Ending(env, p).value] else []
  {
    var rows := ActionRows(env, p);
    assert rows[..1] == [rows[0]] && rows[..1][..0] == [];
    assert Path(rows[..1], id) == if id == p.id then [Attempting] else [];
    if |rows| == 1 { assert rows[..1] == rows; } else { assert rows[..|rows| - 1] == rows[..1]; }
  }

  lemma {:induction false} PathSplits(a: seq<Row>, b: seq<Row>, id: string)
    ensures Path(a + b, id) == Path(a, id) + Path(b, id)
    decreases |b|
  {
    if b == [] {
      assert a + b == a;
    } else {
      PathSplits(a, b[..|b| - 1], id);
      assert (a + b)[..|a + b| - 1] == a + b[..|b| - 1];
    }
  }

  lemma {:induction false} OthersHaveNoRows(env: Env, plans: seq<PlannedAction>, id: string)
    requires forall i :: 0 <= i < |plans| ==> plans[i].id != id
    ensures Path(RunRows(env, plans), id) == []
    decreases |plans|
  {
    if plans != [] {
      ActionPath(env, plans[0], id);
      RunPathUnfolds(env, plans, id);
      if EndsWell(env, plans[0]) { OthersHaveNoRows(env, plans[1..], id); }
    }
  }

  lemma {:induction false} PlannedPath(plans: seq<PlannedAction>, i: nat)
    requires DistinctPlans(plans) && i < |plans|
    ensures Path(PlannedRows(plans), plans[i].id) == [Planned]
    decreases |plans|
  {
    var rows, earlier, id := PlannedRows(plans), plans[..|plans| - 1], plans[i].id;
    assert rows[..|rows| - 1] == PlannedRows(earlier);
    if i < |earlier| {
      PlannedPath(earlier, i);
    } else {
      forall row | row in PlannedRows(earlier) ensures row.id != id {}
      NoRowsNoPath(PlannedRows(earlier), id);
    }
  }

  lemma {:induction false} NoRowsNoPath(log: seq<Row>, id: string)
    requires forall row :: row in log ==> row.id != id
    ensures Path(log, id) == []
  {
    if log != [] { NoRowsNoPath(log[..|log| - 1], id); }
  }

  // In an undisturbed attempt an action is planned, attempted and ended as its handler ends; an action
  // behind one that raised stays planned.
  lemma UndisturbedPaths(env: Env, plans: seq<PlannedAction>, i: nat)
    requires DistinctPlans(plans) && env.life > 1 + 6 * |plans| && i < |plans|
    ensures Path(RecoverBatch(env, plans).1.log, plans[i].id)
            == if exists k :: 0 <= k < i && !EndsWell(env, plans[k]) then [Planned]
               else if !KnownKind(env, plans[i].kind) || HandlerIs(env, plans[i].id, AsksForHelp) then [Planned, Attempting, Manual]
               else if HandlerIs(env, plans[i].id, Completes) then [Planned, Attempting, Succeeded]
               else if HandlerIs(env, plans[i].id, Skips) then [Planned, Attempting, Skipped]
               else if HandlerIs(env, plans[i].id, LosesAuthority) then [Planned, Attempting]
               else [Planned, Attempting, Failed]
  {
    hide RecoverBatch, Path, RunRows;
    UndisturbedAttempt(env, plans);
    PathSplits(PlannedRows(plans), RunRows(env, plans), plans[i].id);
    PlannedPath(plans, i);
    RunPathIs(env, plans, i);
  }

  // A batch recovery records success exactly when its actions are told apart by their ids, every
  // handler completes or skips, and the attempt stays active for each of its six journal
  // interactions an action and the one before them.
  lemma SuccessRecordedIff(env: Env, plans: seq<PlannedAction>)
    ensures RecoverBatch(env, plans).0 == SuccessRecorded
            <==> && DistinctPlans(plans)
                 && (forall i :: 0 <= i < |plans| ==>
                       KnownKind(env, plans[i].kind)
                       && (HandlerIs(env, plans[i].id, Completes) || HandlerIs(env, plans[i].id, Skips)))
                 && env.life > 1 + 6 * |plans|
  {
    RevealsWell(env, plans);
    hide RunRecoveryActions, EndsWell, DistinctPlans, KnownKind, HandlerIs;
    if RecoverBatch(env, plans).0 == SuccessRecorded {
      ReturnedRun(env, plans);
    } else if DistinctPlans(plans) && env.life > 1 + 6 * |plans| {
      UndisturbedAttempt(env, plans);
    }
  }

  lemma ReturnedRun(env: Env, plans: seq<PlannedAction>)
    requires RunRecoveryActions(State([], 0), env, plans).Done?
    ensures DistinctPlans(plans) && RunRecoveryActions(State([], 0), env, plans).state.steps == 1 + 6 * |plans|
    ensures forall i :: 0 <= i < |plans| ==> EndsWell(env, plans[i])
  {
    PlanningReturned(env, plans);
    hide RunRecoveryActions, EndsWell, DistinctPlans, RunActions;
    PlannedThenRun(env, plans);
    RunReturnsAfter(State(PlannedRows(plans), 1 + |plans|), env, plans);
  }

  lemma PlanningReturned(env: Env, plans: seq<PlannedAction>)
    requires RunRecoveryActions(State([], 0), env, plans).Done?
    ensures DistinctPlans(plans) && 1 + |plans| <= env.life
  {
    hide PlanActions, RunActions, LatestRows, DistinctPlans;
    assert Ids([]) == {};
    PlanningReturns(State([], 1), env, plans);
  }

  lemma RevealsWell(env: Env, plans: seq<PlannedAction>)
    ensures forall i :: 0 <= i < |plans| ==>
              (EndsWell(env, plans[i])
               <==> KnownKind(env, plans[i].kind)
                    && (HandlerIs(env, plans[i].id, Completes) || HandlerIs(env, plans[i].id, Skips)))
  {
  }

  // An attempt that is taken up again leaves alone what it has planned before.
  lemma {:induction false} KnownPlansAreLeft(s: State, env: Env, plans: seq<PlannedAction>, known: set<string>)
    requires forall i :: 0 <= i < |plans| ==> plans[i].id in known
    ensures PlanActions(s, env, plans, known) == Done(s)
    decreases |plans|
  {
    if plans != [] { KnownPlansAreLeft(s, env, plans[1..], known); }
  }

  // An action found attempting is handled again, without a second attempting row.
  lemma AttemptingIsHandledAgain(s: State, env: Env, p: PlannedAction)
    requires Last(s.log, p.id) == Some(Attempting) && s.steps + 3 <= env.life
    ensures var r := RunAction(s, env, Row(p.id, p.kind, Attempting));
            && (r.Done? <==> EndsWell(env, p))
            && r.state.log == s.log + if Ending(env, p).Some? then [Row(p.id, p.kind, Ending(env, p).value)] else []
  {
    hide Last;
    assert s.log + [] == s.log;
  }
}
