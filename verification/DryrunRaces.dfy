/** Overlapping dryrun triggers and completions, statement by statement: a trigger reads the newest
    result of its target and inserts a new one later (internal/dryrun/usecase/usecase.go), a completion
    reads its result and finishes it later (internal/dryrun/usecase/consumer.go), and no lock spans the two. */
module DryrunRaces {
  import opened Model
  import ControlPlane

  datatype Row = Row(target: Id, status: DryrunStatus, completed: bool)

  /** `triggers` have passed the guard and will insert for their target; `dispatching` have inserted their
      row and are publishing it; `completions` have read an unfinished row and will finish it. */
  datatype State = State(rows: seq<Row>, triggers: map<nat, Id>, dispatching: map<nat, nat>, completions: map<nat, nat>)

  const EMPTY := State([], map[], map[], map[])

  datatype Action =
    | Guard(h: nat, target: Id)
    | Insert(h: nat)
    | Read(h: nat, row: nat)
    | Finish(h: nat, status: DryrunStatus)
    | Published(h: nat)
    | FailDispatch(h: nat)

  predicate Finished(r: Row) {
    IsTerminalDryrunStatus(r.status) || r.completed
  }

  /** The newest row of a target is RUNNING. */
  predicate NewestRuns(rows: seq<Row>, target: Id) {
    rows != [] &&
      var last := rows[|rows| - 1];
      if last.target == target then last.status.Running? else NewestRuns(rows[..|rows| - 1], target)
  }

  function Act(s: State, a: Action): State {
    match a
    case Guard(h, target) => s.(triggers := if NewestRuns(s.rows, target) then s.triggers - {h} else s.triggers[h := target])
    case Insert(h) =>
      if h !in s.triggers then s
      else s.(rows := s.rows + [Row(s.triggers[h], DryrunStatus.Running, false)], triggers := s.triggers - {h},
              dispatching := s.dispatching[h := |s.rows|])
    case Read(h, row) =>
      s.(completions := if row >= |s.rows| || Finished(s.rows[row]) then s.completions - {h} else s.completions[h := row])
    case Finish(h, status) =>
      if h !in s.completions || s.completions[h] >= |s.rows| || !IsTerminalDryrunStatus(status) then s
      else s.(rows := Closed(s.rows, s.completions[h], status), completions := s.completions - {h})
    case Published(h) => s.(dispatching := s.dispatching - {h})
    case FailDispatch(h) =>
      if h !in s.dispatching || s.dispatching[h] >= |s.rows| then s
      else s.(rows := Closed(s.rows, s.dispatching[h], DryrunStatus.Failed), dispatching := s.dispatching - {h})
  }

  function Closed(rows: seq<Row>, i: nat, status: DryrunStatus): seq<Row>
    requires i < |rows|
  {
    rows[i := rows[i].(status := status, completed := true)]
  }

  function After(actions: seq<Action>): State {
    if actions == [] then EMPTY else Act(After(actions[..|actions| - 1]), actions[|actions| - 1])
  }

  // ---------------------------------------------------------------- single flight

  predicate Runs(rows: seq<Row>, target: Id) {
    exists i :: 0 <= i < |rows| && rows[i].target == target && rows[i].status.Running?
  }

  /** At most one row of a target is RUNNING. */
  predicate OneFlight(rows: seq<Row>) {
    forall i, j :: 0 <= i < j < |rows| && rows[i].target == rows[j].target ==> !(rows[i].status.Running? && rows[j].status.Running?)
  }

  /** The insert of a trigger whose target has come to run after its guard, or still runs behind a
      newer finished row. */
  predicate InsertsLate(s: State, a: Action) {
    a.Insert? && a.h in s.triggers && Runs(s.rows, s.triggers[a.h])
  }

  /** A single statement starts a second flight exactly when it is a late insert. */
  lemma StepKeepsOneFlightExactly(s: State, a: Action)
    requires OneFlight(s.rows)
    ensures OneFlight(Act(s, a).rows) <==> !InsertsLate(s, a)
  {
    if InsertsLate(s, a) {
      var i :| 0 <= i < |s.rows| && s.rows[i].target == s.triggers[a.h] && s.rows[i].status.Running?;
      var rows := Act(s, a).rows;
      assert rows[i] == s.rows[i] && rows[|s.rows|].status.Running? && rows[|s.rows|].target == s.triggers[a.h];
    }
  }

  /** At every point of a run at most one row of each target is RUNNING. */
  predicate AlwaysOneFlight(actions: seq<Action>) {
    OneFlight(After(actions).rows) && (actions != [] ==> AlwaysOneFlight(actions[..|actions| - 1]))
  }

  /** No insert of a run is late. */
  predicate NeverLate(actions: seq<Action>) {
    actions != [] ==> NeverLate(actions[..|actions| - 1]) && !InsertsLate(After(actions[..|actions| - 1]), actions[|actions| - 1])
  }

  lemma {:induction false} RunKeepsOneFlightExactly(actions: seq<Action>)
    ensures AlwaysOneFlight(actions) <==> NeverLate(actions)
  {
    if actions != [] {
      var p := actions[..|actions| - 1];
      RunKeepsOneFlightExactly(p);
      if OneFlight(After(p).rows) {
        StepKeepsOneFlightExactly(After(p), actions[|actions| - 1]);
      }
    }
  }

  /** Where the newest row is the only one that may run, a guard and an insert with nothing between
      them are never late: serialised triggers are safe. */
  lemma SerialTriggerIsNotLate(s: State, h: nat, target: Id)
    requires forall i, j :: 0 <= i < j < |s.rows| && s.rows[i].target == s.rows[j].target ==> !s.rows[i].status.Running?
    ensures !InsertsLate(Act(s, Guard(h, target)), Insert(h))
  {
    if !NewestRuns(s.rows, target) {
      IdleWhenNewestIs(s.rows, target);
    }
  }

  lemma {:induction false} IdleWhenNewestIs(rows: seq<Row>, target: Id)
    requires forall i, j :: 0 <= i < j < |rows| && rows[i].target == rows[j].target ==> !rows[i].status.Running?
    requires !NewestRuns(rows, target)
    ensures !Runs(rows, target)
  {
    if rows != [] && rows[|rows| - 1].target != target {
      IdleWhenNewestIs(rows[..|rows| - 1], target);
      forall i | 0 <= i < |rows| && rows[i].target == target ensures !rows[i].status.Running? {
        assert rows[..|rows| - 1][i] == rows[i];
      }
    }
  }

  lemma AfterFour(a: Action, b: Action, c: Action, d: Action)
    ensures After([a, b, c, d]) == Act(Act(Act(Act(EMPTY, a), b), c), d)
  {
    assert [a, b, c, d][..3] == [a, b, c] && [a, b, c][..2] == [a, b] && [a, b][..1] == [a] && [a][..0] == [];
    assert After([a]) == Act(EMPTY, a);
    assert After([a, b]) == Act(After([a]), b);
    assert After([a, b, c]) == Act(After([a, b]), c);
  }

  /** Two overlapping triggers do put one target in flight twice. */
  lemma OverlappingTriggersFlyTwice()
    ensures exists actions: seq<Action> :: !OneFlight(After(actions).rows)
  {
    AfterFour(Guard(0, 7), Guard(1, 7), Insert(0), Insert(1));
    var s := After([Guard(0, 7), Guard(1, 7), Insert(0), Insert(1)]);
    assert s.rows == [Row(7, DryrunStatus.Running, false), Row(7, DryrunStatus.Running, false)];
    assert s.rows[0].status.Running? && s.rows[1].status.Running?;
  }

  function RowsOf(dryruns: seq<Dryrun>): seq<Row>
    requires forall i :: 0 <= i < |dryruns| ==> dryruns[i].target.Some?
  {
    seq(|dryruns|, i requires 0 <= i < |dryruns| => Row(dryruns[i].target.value, dryruns[i].status, dryruns[i].completed))
  }

  /** The guard is the one of the whole operation, which looks at the newest result of the target. */
  lemma {:induction false} GuardIsTheOperations(dryruns: seq<Dryrun>, target: Id)
    requires forall i :: 0 <= i < |dryruns| ==> dryruns[i].target.Some?
    ensures var latest := ControlPlane.LatestOf(dryruns, target);
            NewestRuns(RowsOf(dryruns), target) <==> latest.Some? && latest.value.status.Running?
  {
    if dryruns != [] {
      var n := |dryruns| - 1;
      GuardIsTheOperations(dryruns[..n], target);
      assert RowsOf(dryruns)[..n] == RowsOf(dryruns[..n]);
    }
  }

  // ---------------------------------------------------------------- finality

  /** The status with which an action closes a row, if it does. */
  function ClosesAs(s: State, a: Action, row: nat): Option<DryrunStatus> {
    match a
    case Finish(h, status) =>
      if h in s.completions && s.completions[h] == row && row < |s.rows| && IsTerminalDryrunStatus(status) then Some(status) else None
    case FailDispatch(h) =>
      if h in s.dispatching && s.dispatching[h] == row && row < |s.rows| then Some(DryrunStatus.Failed) else None
    case _ => None
  }

  /** The statuses with which the actions of a run close a row: the verdicts of the completions that
      read it unfinished, and FAILED of a trigger that was told its publish failed. */
  function Verdicts(actions: seq<Action>, row: nat): seq<DryrunStatus> {
    if actions == [] then []
    else
      var p := actions[..|actions| - 1];
      var v := ClosesAs(After(p), actions[|actions| - 1], row);
      Verdicts(p, row) + if v.Some? then [v.value] else []
  }

  predicate AllEqual(verdicts: seq<DryrunStatus>) {
    forall i, j :: 0 <= i < j < |verdicts| ==> verdicts[i] == verdicts[j]
  }

  predicate KeepsFinished(rows: seq<Row>, rows': seq<Row>) {
    |rows| <= |rows'| && forall i :: 0 <= i < |rows| && Finished(rows[i]) ==> rows'[i] == rows[i]
  }

  /** Finished rows stay as they were at every step of a run. */
  predicate AlwaysFinal(actions: seq<Action>) {
    actions != [] ==>
      AlwaysFinal(actions[..|actions| - 1]) && KeepsFinished(After(actions[..|actions| - 1]).rows, After(actions).rows)
  }

  /** What a row is: untouched before its first verdict, and closed with the last one after. */
  predicate IsVerdict(r: Row, verdicts: seq<DryrunStatus>) {
    if verdicts == [] then r.status.Running? && !r.completed
    else r.status == verdicts[|verdicts| - 1] && IsTerminalDryrunStatus(r.status) && r.completed
  }

  lemma ActOnRow(s: State, a: Action, row: nat)
    requires row < |s.rows|
    ensures row < |Act(s, a).rows|
    ensures Act(s, a).rows[row] ==
            if ClosesAs(s, a, row).Some? then s.rows[row].(status := ClosesAs(s, a, row).value, completed := true) else s.rows[row]
    ensures ClosesAs(s, a, row).Some? ==> IsTerminalDryrunStatus(ClosesAs(s, a, row).value)
  {
  }

  lemma NewRowRuns(s: State, a: Action, row: nat)
    requires |s.rows| <= row < |Act(s, a).rows|
    ensures Act(s, a).rows[row].status.Running? && !Act(s, a).rows[row].completed && ClosesAs(s, a, row).None?
  {
  }

  lemma {:induction false} NoVerdictBefore(actions: seq<Action>, row: nat)
    requires row >= |After(actions).rows|
    ensures Verdicts(actions, row) == []
  {
    if actions != [] {
      var p := actions[..|actions| - 1];
      var s := After(p);
      if row < |s.rows| {
        ActOnRow(s, actions[|actions| - 1], row);
      }
      NoVerdictBefore(p, row);
    }
  }

  /** In every run a row is finished exactly when it has a verdict, and carries the last one. */
  lemma {:induction false} RowIsVerdict(actions: seq<Action>, row: nat)
    requires row < |After(actions).rows|
    ensures IsVerdict(After(actions).rows[row], Verdicts(actions, row))
    ensures Finished(After(actions).rows[row]) <==> Verdicts(actions, row) != []
  {
    var p, a := actions[..|actions| - 1], actions[|actions| - 1];
    if row < |After(p).rows| {
      RowIsVerdict(p, row);
      ActOnRow(After(p), a, row);
    } else {
      NoVerdictBefore(p, row);
      NewRowRuns(After(p), a, row);
    }
  }

  lemma AllEqualAdds(verdicts: seq<DryrunStatus>, v: DryrunStatus)
    ensures AllEqual(verdicts + [v]) <==> AllEqual(verdicts) && (verdicts != [] ==> verdicts[|verdicts| - 1] == v)
  {
    var all := verdicts + [v];
    if AllEqual(all) {
      assert forall i :: 0 <= i < |verdicts| ==> all[i] == verdicts[i];
      assert verdicts != [] ==> all[|verdicts| - 1] == all[|verdicts|];
    }
    if AllEqual(verdicts) && (verdicts != [] ==> verdicts[|verdicts| - 1] == v) {
      forall i, j | 0 <= i < j < |all| ensures all[i] == all[j] {
        assert i < |verdicts| - 1 ==> verdicts[i] == verdicts[|verdicts| - 1];
      }
    }
  }

  /** One step keeps a row it finds finished exactly when its verdict, if any, is the last one again. */
  lemma StepOnRow(actions: seq<Action>, row: nat)
    requires actions != [] && row < |After(actions[..|actions| - 1]).rows|
    requires AllEqual(Verdicts(actions[..|actions| - 1], row))
    ensures row < |After(actions).rows|
    ensures var p := actions[..|actions| - 1];
            (Finished(After(p).rows[row]) ==> After(actions).rows[row] == After(p).rows[row]) <==> AllEqual(Verdicts(actions, row))
  {
    var p, a := actions[..|actions| - 1], actions[|actions| - 1];
    RowIsVerdict(p, row);
    ActOnRow(After(p), a, row);
    var v := ClosesAs(After(p), a, row);
    if v.Some? {
      AllEqualAdds(Verdicts(p, row), v.value);
    }
  }

  /** All verdicts of a run agree row by row. */
  ghost predicate VerdictsAgree(actions: seq<Action>) {
    forall row: nat :: AllEqual(Verdicts(actions, row))
  }

  /** The verdicts of a run agree exactly when those before its last step do, and that step keeps what
      it finds finished. */
  lemma VerdictsAgreeStep(actions: seq<Action>)
    requires actions != []
    ensures var p := actions[..|actions| - 1];
            VerdictsAgree(actions) <==> VerdictsAgree(p) && KeepsFinished(After(p).rows, After(actions).rows)
  {
    var p, a := actions[..|actions| - 1], actions[|actions| - 1];
    forall row: nat ensures AllEqual(Verdicts(actions, row)) ==> AllEqual(Verdicts(p, row)) {
      var v := ClosesAs(After(p), a, row);
      if v.Some? {
        AllEqualAdds(Verdicts(p, row), v.value);
      }
    }
    forall row: nat | row < |After(p).rows| && AllEqual(Verdicts(p, row))
      ensures (Finished(After(p).rows[row]) ==> After(actions).rows[row] == After(p).rows[row]) <==> AllEqual(Verdicts(actions, row))
    {
      StepOnRow(actions, row);
    }
    forall row: nat | row >= |After(p).rows| ensures AllEqual(Verdicts(actions, row)) {
      NoVerdictBefore(p, row);
    }
    RowsGrow(After(p), a);
  }

  lemma RowsGrow(s: State, a: Action)
    ensures |s.rows| <= |Act(s, a).rows|
  {
  }

  /** Finished rows stay as they were throughout a run exactly when, row by row, all verdicts of the run
      are equal. */
  lemma {:induction false} RunKeepsFinishedExactly(actions: seq<Action>)
    ensures AlwaysFinal(actions) <==> VerdictsAgree(actions)
  {
    if actions != [] {
      RunKeepsFinishedExactly(actions[..|actions| - 1]);
      VerdictsAgreeStep(actions);
    }
  }

  /** A completion finishes right after its read, and a trigger fails right after its insert. */
  predicate SerialStep(p: seq<Action>, a: Action) {
    && (a.Finish? ==> p != [] && p[|p| - 1].Read? && p[|p| - 1].h == a.h)
    && (a.FailDispatch? ==>
          p != [] && p[|p| - 1].Insert? && p[|p| - 1].h == a.h && a.h in After(p[..|p| - 1]).triggers)
  }

  predicate Serial(actions: seq<Action>) {
    actions != [] ==> Serial(actions[..|actions| - 1]) && SerialStep(actions[..|actions| - 1], actions[|actions| - 1])
  }

  lemma SerialStepClosesOpen(p: seq<Action>, a: Action, row: nat)
    requires SerialStep(p, a) && ClosesAs(After(p), a, row).Some?
    ensures row < |After(p).rows| && !Finished(After(p).rows[row])
  {
    var q, b := p[..|p| - 1], p[|p| - 1];
    assert After(p) == Act(After(q), b);
  }

  /** Serialised completions and triggers rewrite no finished result. */
  lemma {:induction false} SerialRunsAreFinal(actions: seq<Action>)
    requires Serial(actions)
    ensures AlwaysFinal(actions) && VerdictsAgree(actions)
  {
    if actions != [] {
      var p, a := actions[..|actions| - 1], actions[|actions| - 1];
      SerialRunsAreFinal(p);
      RowsGrow(After(p), a);
      forall row: nat | row < |After(p).rows| && Finished(After(p).rows[row]) ensures After(actions).rows[row] == After(p).rows[row] {
        ActOnRow(After(p), a, row);
        if ClosesAs(After(p), a, row).Some? {
          SerialStepClosesOpen(p, a, row);
        }
      }
    }
    RunKeepsFinishedExactly(actions);
  }

  lemma AfterSnoc(actions: seq<Action>, a: Action)
    ensures After(actions + [a]) == Act(After(actions), a)
    ensures forall row: nat :: Verdicts(actions + [a], row) ==
              Verdicts(actions, row) + if ClosesAs(After(actions), a, row).Some? then [ClosesAs(After(actions), a, row).value] else []
  {
    assert (actions + [a])[..|actions|] == actions;
  }

  /** A run with two different verdicts on row 0. */
  ghost predicate Rewrites(actions: seq<Action>) {
    Verdicts(actions, 0) == [DryrunStatus.Success, DryrunStatus.Failed] && !AlwaysFinal(actions)
  }

  lemma DifferentVerdictsRewrite(actions: seq<Action>)
    requires Verdicts(actions, 0) == [DryrunStatus.Success, DryrunStatus.Failed]
    ensures Rewrites(actions)
  {
    assert Verdicts(actions, 0)[0] != Verdicts(actions, 0)[1];
    RunKeepsFinishedExactly(actions);
  }

  /** One row, inserted by trigger 0, which is still publishing it. */
  lemma InFlight()
    ensures After([] + [Guard(0, 7)] + [Insert(0)]) == State([Row(7, DryrunStatus.Running, false)], map[], map[0 := 0], map[])
    ensures Verdicts([] + [Guard(0, 7)] + [Insert(0)], 0) == []
  {
    AfterSnoc([], Guard(0, 7));
    AfterSnoc([] + [Guard(0, 7)], Insert(0));
    assert After([]) == EMPTY;
  }

  /** Two completions read the result before either finishes it: the later one rewrites it. */
  lemma OverlappingCompletionsRewrite()
    ensures exists actions: seq<Action> :: Rewrites(actions)
  {
    InFlight();
    var a := [] + [Guard(0, 7)] + [Insert(0)];
    AfterSnoc(a, Read(1, 0));
    AfterSnoc(a + [Read(1, 0)], Read(2, 0));
    AfterSnoc(a + [Read(1, 0)] + [Read(2, 0)], Finish(1, DryrunStatus.Success));
    AfterSnoc(a + [Read(1, 0)] + [Read(2, 0)] + [Finish(1, DryrunStatus.Success)], Finish(2, DryrunStatus.Failed));
    DifferentVerdictsRewrite(a + [Read(1, 0)] + [Read(2, 0)] + [Finish(1, DryrunStatus.Success)] + [Finish(2, DryrunStatus.Failed)]);
  }

  /** A publish is delivered and reports an error all the same: the crawler's completion finishes the
      result, and then the trigger fails it. */
  lemma FailedDispatchRewrites()
    ensures exists actions: seq<Action> :: Rewrites(actions)
  {
    InFlight();
    var a := [] + [Guard(0, 7)] + [Insert(0)];
    AfterSnoc(a, Read(1, 0));
    AfterSnoc(a + [Read(1, 0)], Finish(1, DryrunStatus.Success));
    AfterSnoc(a + [Read(1, 0)] + [Finish(1, DryrunStatus.Success)], FailDispatch(0));
    DifferentVerdictsRewrite(a + [Read(1, 0)] + [Finish(1, DryrunStatus.Success)] + [FailDispatch(0)]);
  }
}
