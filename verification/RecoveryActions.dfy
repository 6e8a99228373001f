/**
  The actions of one recovery attempt: the append-only status log, its transition table, and the
  driver that plans and runs the actions (operation_journal/filesystem_recovery.py,
  journal_guards.py, recovery_runner.py).
*/
module RecoveryActions {
  import opened Wrappers

  datatype Status = Planned | Attempting | Succeeded | Failed | Skipped | Manual

  datatype Row = Row(id: string, kind: string, status: Status)

  const MANUAL_KIND := "manual_intervention_required"

  predicate Allowed(from: Status, to: Status) {
    match from
    case Planned => to in {Attempting, Skipped, Manual}
    case Attempting => to in {Succeeded, Failed, Skipped, Manual}
    case _ => false
  }

  predicate Terminal(status: Status) {
    status in {Succeeded, Failed, Skipped, Manual}
  }

  predicate Fine(status: Status) {
    status in {Succeeded, Skipped}
  }

  // All statuses one action went through, oldest first.
  function Path(log: seq<Row>, id: string): seq<Status> {
    if log == [] then []
    else
      var last := log[|log| - 1];
      Path(log[..|log| - 1], id) + (if last.id == id then [last.status] else [])
  }

  function Last(log: seq<Row>, id: string): Option<Status> {
    var path := Path(log, id);
    if path == [] then None else Some(path[|path| - 1])
  }

  predicate IsPath(path: seq<Status>) {
    && (path != [] ==> path[0] == Planned)
    && forall i :: 0 <= i < |path| - 1 ==> Allowed(path[i], path[i + 1])
  }

  ghost predicate Valid(log: seq<Row>) {
    forall id :: IsPath(Path(log, id))
  }

  // The attempt stays active for `life` journal interactions, then is superseded or loses its lease.
  // handlers says what each action's handler does when it is run; a kind with none is manual.
  datatype Handled = Completes | Skips | AsksForHelp | LosesAuthority | Breaks

  datatype Env = Env(life: nat, handlers: map<string, Handled>, kinds: set<string>)

  datatype State = State(log: seq<Row>, steps: nat)

  datatype Run = Done(state: State) | Raised(state: State)

  function Check(s: State, env: Env): Option<State> {
    if s.steps < env.life then Some(s.(steps := s.steps + 1)) else None
  }

  // One guarded append: refused when the attempt is no longer active or the table forbids it.
  function Put(s: State, env: Env, id: string, kind: string, status: Status): Option<State> {
    var last := Last(s.log, id);
    if s.steps >= env.life then None
    else if status == Planned then
      if last.Some? then None else Some(State(s.log + [Row(id, kind, Planned)], s.steps + 1))
    else if last.None? || !Allowed(last.value, status) then None
    else Some(State(s.log + [Row(id, kind, status)], s.steps + 1))
  }

  // The status is recorded, then the exception goes on.
  function PutAndRaise(s: State, env: Env, row: Row, status: Status): Run {
    Raised(Put(s, env, row.id, row.kind, status).GetOr(s))
  }

  function PutAndReturn(s: State, env: Env, row: Row, status: Status): Run {
    var r := Put(s, env, row.id, row.kind, status);
    if r.Some? then Done(r.value) else Raised(s)
  }

  function Handle(s: State, env: Env, row: Row): Run {
    if row.kind == MANUAL_KIND || row.kind !in env.kinds then PutAndRaise(s, env, row, Manual)
    else
      var checked := Check(s, env);
      if checked.None? then Raised(s)
      else
        match if row.id in env.handlers then env.handlers[row.id] else Breaks
        case Completes => PutAndReturn(checked.value, env, row, Succeeded)
        case Skips => PutAndReturn(checked.value, env, row, Skipped)
        case AsksForHelp => PutAndRaise(checked.value, env, row, Manual)
        case LosesAuthority => Raised(checked.value)
        case Breaks => PutAndRaise(checked.value, env, row, Failed)
  }

  // An action already over is handed back as it is, whatever it ended as.
  function RunAction(s: State, env: Env, row: Row): Run {
    if Terminal(row.status) then Done(s)
    else
      var checked := Check(s, env);
      if checked.None? then Raised(s)
      else if row.status == Planned then
        var marked := Put(checked.value, env, row.id, row.kind, Attempting);
        if marked.None? then Raised(checked.value) else Handle(marked.value, env, row)
      else Handle(checked.value, env, row)
  }

  function RunActions(s: State, env: Env, rows: seq<Row>): Run
    decreases |rows|
  {
    if rows == [] then Done(s)
    else
      var checked := Check(s, env);
      if checked.None? then Raised(s)
      else
        var first := RunAction(checked.value, env, rows[0]);
        if first.Raised? then first else RunActions(first.state, env, rows[1..])
  }

  // The newest row of each action, in the order in which the actions first appeared.
  function LatestRows(log: seq<Row>): (rows: seq<Row>)
  {
    if log == [] then []
    else
      var last := log[|log| - 1];
      var rows := LatestRows(log[..|log| - 1]);
      if exists i :: 0 <= i < |rows| && rows[i].id == last.id then Replace(rows, last) else rows + [last]
  }

  function Replace(rows: seq<Row>, row: Row): (r: seq<Row>)
    ensures |r| == |rows|
    ensures forall i :: 0 <= i < |rows| ==> r[i] == if rows[i].id == row.id then row else rows[i]
  {
    seq(|rows|, i requires 0 <= i < |rows| => if rows[i].id == row.id then row else rows[i])
  }

  datatype PlannedAction = PlannedAction(id: string, kind: string)

  // Plans whose id this attempt already knows are left alone.
  function PlanActions(s: State, env: Env, plans: seq<PlannedAction>, known: set<string>): Run
    decreases |plans|
  {
    if plans == [] then Done(s)
    else if plans[0].id in known then PlanActions(s, env, plans[1..], known)
    else
      var put := Put(s, env, plans[0].id, plans[0].kind, Planned);
      if put.None? then Raised(s) else PlanActions(put.value, env, plans[1..], known)
  }

  function Ids(log: seq<Row>): set<string> {
    set i | 0 <= i < |log| :: log[i].id
  }

  function RunRecoveryActions(s: State, env: Env, plans: seq<PlannedAction>): Run {
    var checked := Check(s, env);
    if checked.None? then Raised(s)
    else
      var planned := PlanActions(checked.value, env, plans, Ids(s.log));
      if planned.Raised? then planned else RunActions(planned.state, env, LatestRows(planned.state.log))
  }

  datatype Recorded = SuccessRecorded | FailureRecorded | NothingRecorded

  // A new attempt, its actions, and what is written about it in the end.
  function RecoverBatch(env: Env, plans: seq<PlannedAction>): (Recorded, State) {
    var run := RunRecoveryActions(State([], 0), env, plans);
    var active := run.state.steps < env.life;
    (if !active then NothingRecorded else if run.Done? then SuccessRecorded else FailureRecorded, run.state)
  }

  lemma PutExtendsPath(s: State, env: Env, id: string, kind: string, status: Status, other: string)
    ensures var r := Put(s, env, id, kind, status);
            r.Some? ==> Path(r.value.log, other) == Path(s.log, other) + (if other == id then [status] else [])
  {
    var r := Put(s, env, id, kind, status);
    if r.Some? { assert r.value.log[..|s.log|] == s.log; }
  }

  lemma PutKeepsValid(s: State, env: Env, id: string, kind: string, status: Status)
    requires Valid(s.log)
    ensures var r := Put(s, env, id, kind, status); r.Some? ==> Valid(r.value.log)
  {
    var r := Put(s, env, id, kind, status);
    if r.Some? {
      forall other ensures IsPath(Path(r.value.log, other)) {
        PutExtendsPath(s, env, id, kind, status, other);
        assert IsPath(Path(s.log, other));
      }
    }
  }

  // What running one action does to the log: only this action's path grows, along the table; when it
  // returns, the action has ended well or had ended before.
  ghost predicate OnlyGrows(s: State, t: State, id: string) {
    s.steps <= t.steps && (forall other :: other != id ==> Path(t.log, other) == Path(s.log, other))
  }

  lemma PutGrows(s: State, env: Env, row: Row, status: Status)
    requires Valid(s.log)
    ensures var r := Put(s, env, row.id, row.kind, status);
            r.Some? ==> Valid(r.value.log) && OnlyGrows(s, r.value, row.id) && Last(r.value.log, row.id) == Some(status)
  {
    PutKeepsValid(s, env, row.id, row.kind, status);
    forall other ensures var r := Put(s, env, row.id, row.kind, status);
        r.Some? ==> Path(r.value.log, other) == Path(s.log, other) + (if other == row.id then [status] else [])
    {
      PutExtendsPath(s, env, row.id, row.kind, status, other);
    }
  }

  lemma HandleGrows(s: State, env: Env, row: Row)
    requires Valid(s.log)
    ensures var r := Handle(s, env, row);
            && Valid(r.state.log) && OnlyGrows(s, r.state, row.id)
            && (r.Done? ==> Last(r.state.log, row.id) in {Some(Succeeded), Some(Skipped)})
  {
    hide Path, Valid, Last, Put;
    var checked := s.(steps := s.steps + 1);
    PutGrows(s, env, row, Manual);
    PutGrows(checked, env, row, Succeeded);
    PutGrows(checked, env, row, Skipped);
    PutGrows(checked, env, row, Manual);
    PutGrows(checked, env, row, Failed);
  }

  lemma RunActionGrows(s: State, env: Env, row: Row)
    requires Valid(s.log) && Last(s.log, row.id) == Some(row.status)
    ensures var r := RunAction(s, env, row);
            && Valid(r.state.log) && OnlyGrows(s, r.state, row.id)
            && (r.Done? ==> if Terminal(row.status) then Last(r.state.log, row.id) == Some(row.status)
                            else Last(r.state.log, row.id) in {Some(Succeeded), Some(Skipped)})
  {
    hide Path, Valid, Last, Put, Handle;
    var checked := s.(steps := s.steps + 1);
    PutGrows(checked, env, row, Attempting);
    HandleGrows(checked, env, row);
    var marked := Put(checked, env, row.id, row.kind, Attempting);
    if marked.Some? { HandleGrows(marked.value, env, row); }
  }

  predicate Distinct(rows: seq<Row>) {
    forall i, k :: 0 <= i < k < |rows| ==> rows[i].id != rows[k].id
  }

  predicate AreLatest(log: seq<Row>, rows: seq<Row>) {
    Distinct(rows) && forall i :: 0 <= i < |rows| ==> Last(log, rows[i].id) == Some(rows[i].status)
  }

  predicate EndedAs(row: Row, last: Option<Status>) {
    if Terminal(row.status) then last == Some(row.status) else last.Some? && Fine(last.value)
  }

  lemma {:induction false} RunActionsGrow(s: State, env: Env, rows: seq<Row>)
    requires Valid(s.log) && AreLatest(s.log, rows)
    ensures var r := RunActions(s, env, rows);
            && Valid(r.state.log) && s.steps <= r.state.steps
            && (forall other :: (forall i :: 0 <= i < |rows| ==> rows[i].id != other) ==>
                  Path(r.state.log, other) == Path(s.log, other))
            && (r.Done? ==> forall i :: 0 <= i < |rows| ==> EndedAs(rows[i], Last(r.state.log, rows[i].id)))
    decreases |rows|
  {
    hide RunAction, Valid, Path;
    if rows != [] {
      var checked := s.(steps := s.steps + 1);
      RunActionGrows(checked, env, rows[0]);
      var first := RunAction(checked, env, rows[0]);
      if first.Done? {
        assert AreLatest(first.state.log, rows[1..]);
        RunActionsGrow(first.state, env, rows[1..]);
        var r := RunActions(first.state, env, rows[1..]);
        assert Path(r.state.log, rows[0].id) == Path(first.state.log, rows[0].id);
        forall i | 0 <= i < |rows| && r.Done? ensures EndedAs(rows[i], Last(r.state.log, rows[i].id)) {
          if i > 0 { assert rows[i] == rows[1..][i - 1]; }
        }
      }
    }
  }

  lemma LastAfter(log: seq<Row>, last: Row, id: string)
    ensures Last(log + [last], id) == if id == last.id then Some(last.status) else Last(log, id)
  {
    assert (log + [last])[..|log|] == log;
  }

  predicate Covers(log: seq<Row>, rows: seq<Row>, id: string) {
    Last(log, id).Some? ==> exists i :: 0 <= i < |rows| && rows[i].id == id
  }

  // Adding one row to the log, and what that does to the newest rows.
  lemma NewestReplaced(log: seq<Row>, last: Row, rows: seq<Row>, n: nat)
    requires AreLatest(log, rows) && n < |rows| && rows[n].id == last.id
    requires forall id :: Covers(log, rows, id)
    ensures AreLatest(log + [last], Replace(rows, last)) && forall id :: Covers(log + [last], Replace(rows, last), id)
  {
    var after := Replace(rows, last);
    forall i | 0 <= i < |rows| ensures Last(log + [last], after[i].id) == Some(after[i].status) {
      LastAfter(log, last, after[i].id);
    }
    forall id ensures Covers(log + [last], after, id) {
      LastAfter(log, last, id);
      assert Covers(log, rows, id);
      hide Last;
      if i :| 0 <= i < |rows| && rows[i].id == id { assert after[i].id == id; }
    }
  }

  lemma NewestAppended(log: seq<Row>, last: Row, rows: seq<Row>)
    requires AreLatest(log, rows) && forall i :: 0 <= i < |rows| ==> rows[i].id != last.id
    requires forall id :: Covers(log, rows, id)
    ensures AreLatest(log + [last], rows + [last]) && forall id :: Covers(log + [last], rows + [last], id)
  {
    var after := rows + [last];
    forall i | 0 <= i < |after| ensures Last(log + [last], after[i].id) == Some(after[i].status) {
      LastAfter(log, last, after[i].id);
    }
    forall id ensures Covers(log + [last], after, id) {
      LastAfter(log, last, id);
      assert Covers(log, rows, id);
      hide Last;
      if i :| 0 <= i < |rows| && rows[i].id == id { assert after[i].id == id; }
      assert after[|rows|] == last;
    }
  }

  lemma {:induction false} LatestRowsAreLatest(log: seq<Row>)
    ensures AreLatest(log, LatestRows(log))
    ensures forall id :: Covers(log, LatestRows(log), id)
  {
    if log == [] {
    } else {
      var earlier, last := log[..|log| - 1], log[|log| - 1];
      LatestRowsAreLatest(earlier);
      assert log == earlier + [last];
      var rows := LatestRows(earlier);
      hide Last, AreLatest, Covers;
      if n :| 0 <= n < |rows| && rows[n].id == last.id {
        NewestReplaced(earlier, last, rows, n);
      } else {
        NewestAppended(earlier, last, rows);
      }
    }
  }

  lemma {:induction false} PlanActionsGrow(s: State, env: Env, plans: seq<PlannedAction>, known: set<string>)
    requires Valid(s.log)
    ensures var r := PlanActions(s, env, plans, known);
            && Valid(r.state.log) && s.steps <= r.state.steps
            && (forall id :: Path(s.log, id) != [] ==> Path(r.state.log, id) == Path(s.log, id))
            && (forall id :: Path(s.log, id) == [] ==> Path(r.state.log, id) in {[], [Planned]})
            && (r.Done? ==> forall i :: 0 <= i < |plans| ==> plans[i].id in known || Path(r.state.log, plans[i].id) != [])
    decreases |plans|
  {
    if plans == [] {
    } else if plans[0].id in known {
      PlanActionsGrow(s, env, plans[1..], known);
    } else {
      var row := Row(plans[0].id, plans[0].kind, Planned);
      PutGrows(s, env, row, Planned);
      var put := Put(s, env, row.id, row.kind, Planned);
      if put.Some? {
        PutExtendsPath(s, env, row.id, row.kind, Planned, row.id);
        assert Path(s.log, row.id) == [] && Path(put.value.log, row.id) == [Planned];
        hide Valid, Path;
        PlanActionsGrow(put.value, env, plans[1..], known);
      }
    }
  }

  lemma {:induction false} KnownHavePaths(log: seq<Row>, id: string)
    ensures id in Ids(log) <==> Path(log, id) != []
  {
    if log != [] {
      KnownHavePaths(log[..|log| - 1], id);
      assert forall i :: 0 <= i < |log| - 1 ==> log[i] == log[..|log| - 1][i];
    }
  }

  // The paths of the table written out: an action is planned, possibly attempted, and ends once; it
  // fails or succeeds only after it was attempted.
  lemma PathsAreShort(path: seq<Status>)
    ensures IsPath(path)
            <==> || path == [] || path == [Planned] || path == [Planned, Attempting]
                 || path == [Planned, Skipped] || path == [Planned, Manual]
                 || (|path| == 3 && path[..2] == [Planned, Attempting] && Terminal(path[2]))
  {
    if IsPath(path) && |path| > 1 {
      assert Allowed(path[0], path[1]);
      assert path[..2] == [path[0], path[1]];
      if |path| > 2 { assert Allowed(path[1], path[2]); }
      assert |path| > 3 ==> Allowed(path[2], path[3]);
    }
  }

  // In every attempt, whatever interrupts it, the log of each action is a path of the table.
  lemma LogsArePaths(env: Env, plans: seq<PlannedAction>)
    ensures Valid(RecoverBatch(env, plans).1.log)
  {
    assert Valid([]);
    RunKeepsValid(State([], 0), env, plans);
  }

  lemma RunKeepsValid(s: State, env: Env, plans: seq<PlannedAction>)
    requires Valid(s.log)
    ensures Valid(RunRecoveryActions(s, env, plans).state.log)
  {
    hide Valid, Path, Last, PlanActions, RunActions, LatestRows, AreLatest, Covers;
    var checked := s.(steps := s.steps + 1);
    PlanActionsGrow(checked, env, plans, Ids(s.log));
    var planned := PlanActions(checked, env, plans, Ids(s.log)).state;
    LatestRowsAreLatest(planned.log);
    RunActionsGrow(planned, env, LatestRows(planned.log));
  }

  // Every action of the attempt, known or newly planned, ended well.
  ghost predicate AllFine(log: seq<Row>) {
    forall id :: Last(log, id).Some? ==> Fine(Last(log, id).value)
  }

  // How a run that returns has left every action.
  lemma PlanningAdds(s: State, env: Env, plans: seq<PlannedAction>, id: string)
    requires Valid(s.log)
    ensures var r := PlanActions(s, env, plans, Ids(s.log));
            && Valid(r.state.log)
            && (if Last(s.log, id).Some? then Last(r.state.log, id) == Last(s.log, id)
                else Last(r.state.log, id) in {None, Some(Planned)})
            && (r.Done? && (exists i :: 0 <= i < |plans| && plans[i].id == id) ==> Last(r.state.log, id).Some?)
  {
    KnownHavePaths(s.log, id);
    PlanActionsGrow(s, env, plans, Ids(s.log));
  }

  lemma RunningEnds(s: State, env: Env, id: string)
    requires Valid(s.log) && RunActions(s, env, LatestRows(s.log)).Done?
    ensures var last := Last(RunActions(s, env, LatestRows(s.log)).state.log, id);
            match Last(s.log, id)
            case None => last == None
            case Some(status) => if Terminal(status) then last == Some(status) else last.Some? && Fine(last.value)
  {
    var rows := LatestRows(s.log);
    LatestRowsAreLatest(s.log);
    RunActionsGrow(s, env, rows);
    var log := RunActions(s, env, rows).state.log;
    assert Covers(s.log, rows, id);
    hide RunActions, LatestRows, Path;
    if Last(s.log, id).None? {
      assert forall i :: 0 <= i < |rows| ==> rows[i].id != id;
    } else {
      var i :| 0 <= i < |rows| && rows[i].id == id;
      assert EndedAs(rows[i], Last(log, rows[i].id));
    }
  }

  lemma RunReturns(s: State, env: Env, plans: seq<PlannedAction>, id: string)
    requires Valid(s.log) && RunRecoveryActions(s, env, plans).Done?
    ensures var before, after := Last(s.log, id), Last(RunRecoveryActions(s, env, plans).state.log, id);
            && (before.Some? || (exists i :: 0 <= i < |plans| && plans[i].id == id) ==> after.Some?)
            && (after.Some? ==>
                  if before.Some? && Terminal(before.value) then after == before else Fine(after.value))
  {
    hide Path, Last, PlanActions, RunActions, LatestRows, Valid, Ids;
    var checked := s.(steps := s.steps + 1);
    PlanningAdds(checked, env, plans, id);
    RunningEnds(PlanActions(checked, env, plans, Ids(s.log)).state, env, id);
  }

  // A run that returns leaves every action succeeded or skipped exactly when no action of its
  // attempt had already failed or been handed to a human before it began.
  lemma ReturnMeansFineIff(s: State, env: Env, plans: seq<PlannedAction>)
    requires Valid(s.log) && RunRecoveryActions(s, env, plans).Done?
    ensures AllFine(RunRecoveryActions(s, env, plans).state.log)
            <==> forall id :: Last(s.log, id) !in {Some(Failed), Some(Manual)}
  {
    forall id { RunReturns(s, env, plans, id); }
    hide RunRecoveryActions, Path;
    var log := RunRecoveryActions(s, env, plans).state.log;
    forall id ensures AllFine(log) ==> Last(s.log, id) !in {Some(Failed), Some(Manual)} {
      assert Last(s.log, id) in {Some(Failed), Some(Manual)} ==> Last(log, id) == Last(s.log, id);
    }
  }

  // So the success of a batch recovery, which always begins a new attempt, is recorded only when
  // every planned action ended succeeded or skipped and the attempt had stayed active throughout.
  lemma SuccessMeansAllFine(env: Env, plans: seq<PlannedAction>)
    requires RecoverBatch(env, plans).0 == SuccessRecorded
    ensures var s := RecoverBatch(env, plans).1;
            && AllFine(s.log) && s.steps < env.life
            && forall i :: 0 <= i < |plans| ==> Last(s.log, plans[i].id) in {Some(Succeeded), Some(Skipped)}
  {
    var start := State([], 0);
    assert Valid(start.log);
    ReturnMeansFineIff(start, env, plans);
    forall i | 0 <= i < |plans| { RunReturns(start, env, plans, plans[i].id); }
    hide RunRecoveryActions, Path;
  }

  function FailedLog(id: string, kind: string): seq<Row> {
    [Row(id, kind, Planned), Row(id, kind, Attempting), Row(id, kind, Failed)]
  }

  lemma FailedLogPaths(id: string, kind: string, other: string)
    ensures Path(FailedLog(id, kind), other) == if other == id then [Planned, Attempting, Failed] else []
  {
    var log := FailedLog(id, kind);
    assert log[..2][..1] == log[..1] && log[..1][..0] == [];
    assert Path(log[..1], other) == if other == id then [Planned] else [];
    assert Path(log[..2], other) == if other == id then [Planned, Attempting] else [];
  }

  lemma SingleRow(log: seq<Row>, row: Row, next: Row)
    requires LatestRows(log) == [row] && row.id == next.id
    ensures LatestRows(log + [next]) == [next]
  {
    assert (log + [next])[..|log|] == log;
    assert [row][0].id == next.id;
    assert LatestRows(log + [next]) == Replace([row], next);
  }

  lemma FailedLogRows(id: string, kind: string)
    ensures LatestRows(FailedLog(id, kind)) == [Row(id, kind, Failed)]
  {
    var first, second, third := Row(id, kind, Planned), Row(id, kind, Attempting), Row(id, kind, Failed);
    assert [first][..0] == [] && LatestRows([first]) == [first];
    hide LatestRows;
    SingleRow([first], first, second);
    assert [first] + [second] == [first, second];
    SingleRow([first, second], second, third);
    assert [first, second] + [third] == FailedLog(id, kind);
  }

  // Run again on an attempt in which an action has failed: the failure is handed back as completed.
  lemma FailureHandedBack(id: string, kind: string, env: Env)
    requires env.life > 2
    ensures var s := State(FailedLog(id, kind), 0);
            Valid(s.log) && RunRecoveryActions(s, env, []).Done? && !AllFine(RunRecoveryActions(s, env, []).state.log)
  {
    var log := FailedLog(id, kind);
    FailedLogRows(id, kind);
    forall other { FailedLogPaths(id, kind, other); }
    hide LatestRows, Path, FailedLog;
    assert Valid(log) && Last(log, id) == Some(Failed);
    var row := Row(id, kind, Failed);
    assert RunActions(State(log, 1), env, [row]) == RunActions(State(log, 2), env, [row][1..]);
  }

  // The driver as it runs: every method is the function of the same step on the state it changes.
  class Attempt {
    const env: Env
    var log: seq<Row>
    var steps: nat

    ghost function Now(): State
      reads this
    {
      State(log, steps)
    }

    constructor (env: Env)
      ensures Now() == State([], 0) && this.env == env
    {
      this.env := env;
      log, steps := [], 0;
    }

    method RequireActive() returns (ok: bool)
      modifies this`steps
      ensures var r := Check(old(Now()), env); ok == r.Some? && Now() == r.GetOr(old(Now()))
    {
      ok := steps < env.life;
      if ok { steps := steps + 1; }
    }

    method Record(id: string, kind: string, status: Status) returns (ok: bool)
      modifies this
      ensures var r := Put(old(Now()), env, id, kind, status); ok == r.Some? && Now() == r.GetOr(old(Now()))
    {
      var last := Last(log, id);
      ok := steps < env.life
            && if status == Planned then last.None? else last.Some? && Allowed(last.value, status);
      if ok {
        log := log + [Row(id, kind, status)];
        steps := steps + 1;
      }
    }

    method HandleAction(row: Row) returns (ok: bool)
      modifies this
      ensures Handle(old(Now()), env, row) == if ok then Done(Now()) else Raised(Now())
    {
      if row.kind == MANUAL_KIND || row.kind !in env.kinds {
        var _ := Record(row.id, row.kind, Manual);
        return false;
      }
      ok := RequireActive();
      if !ok { return; }
      var handled := if row.id in env.handlers then env.handlers[row.id] else Breaks;
      match handled
      case Completes => ok := Record(row.id, row.kind, Succeeded);
      case Skips => ok := Record(row.id, row.kind, Skipped);
      case AsksForHelp =>
        var _ := Record(row.id, row.kind, Manual);
        ok := false;
      case LosesAuthority => ok := false;
      case Breaks =>
        var _ := Record(row.id, row.kind, Failed);
        ok := false;
    }

    method RunOne(row: Row) returns (ok: bool)
      modifies this
      ensures RunAction(old(Now()), env, row) == if ok then Done(Now()) else Raised(Now())
    {
      if Terminal(row.status) { return true; }
      ok := RequireActive();
      if ok && row.status == Planned { ok := Record(row.id, row.kind, Attempting); }
      if ok { ok := HandleAction(row); }
    }

    method RunAll(rows: seq<Row>) returns (ok: bool)
      modifies this
      ensures RunActions(old(Now()), env, rows) == if ok then Done(Now()) else Raised(Now())
    {
      var i := 0;
      ok := true;
      assert rows[0..] == rows;
      while i < |rows|
        invariant 0 <= i <= |rows| && ok
        invariant RunActions(old(Now()), env, rows) == RunActions(Now(), env, rows[i..])
      {
        ok := RequireActive();
        if !ok { return; }
        ok := RunOne(rows[i]);
        if !ok { return; }
        assert rows[i..][1..] == rows[i + 1..];
        i := i + 1;
      }
    }

    method PlanAll(plans: seq<PlannedAction>) returns (ok: bool)
      modifies this
      ensures PlanActions(old(Now()), env, plans, Ids(old(log))) == if ok then Done(Now()) else Raised(Now())
    {
      var known := Ids(log);
      var i := 0;
      ok := true;
      assert plans[0..] == plans;
      while i < |plans|
        invariant 0 <= i <= |plans| && ok
        invariant PlanActions(old(Now()), env, plans, known) == PlanActions(Now(), env, plans[i..], known)
      {
        if plans[i].id !in known {
          ok := Record(plans[i].id, plans[i].kind, Planned);
          if !ok { return; }
        }
        assert plans[i..][1..] == plans[i + 1..];
        i := i + 1;
      }
    }

    // The newest row per action, collected in one pass over the log.
    method Newest() returns (rows: seq<Row>)
      ensures rows == LatestRows(log)
    {
      rows := [];
      var n := 0;
      while n < |log|
        invariant 0 <= n <= |log|
        invariant rows == LatestRows(log[..n])
      {
        var row := log[n];
        assert log[..n + 1][..n] == log[..n];
        if exists i :: 0 <= i < |rows| && rows[i].id == row.id {
          rows := Replace(rows, row);
        } else {
          rows := rows + [row];
        }
        n := n + 1;
      }
      assert log[..n] == log;
    }

    method Recover(plans: seq<PlannedAction>) returns (ok: bool)
      modifies this
      ensures RunRecoveryActions(old(Now()), env, plans) == if ok then Done(Now()) else Raised(Now())
    {
      ok := RequireActive();
      if !ok { return; }
      ok := PlanAll(plans);
      if !ok { return; }
      var rows := Newest();
      ok := RunAll(rows);
    }
  }
}
