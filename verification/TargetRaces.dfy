/** Overlapping operations on one crawl source and its targets, statement by statement. A guard reads the
    rows, the repository then finds the row it is to write, and last writes all of it back
    (internal/datasource/repository/postgre/target.go, datasource.go); no lock spans the three. */
module TargetRaces {
  import opened Model
  import ControlPlane

  /** What a handler has got to. `MayDisable` and `MayStart` have passed their guard; `WillWrite` and
      `WillSet` have found the row and hold the value they will write. A project command writes straight
      from `MayStart`, by one statement that looks at the status again. */
  datatype Held =
    | MayDisable(target: Id)
    | MayStart(from: SourceStatus)
    | WillWrite(target: Id, active: bool)
    | WillSet(status: SourceStatus)

  /** `active` are the listed targets that are active. */
  datatype State = State(status: SourceStatus, active: set<Id>, held: map<nat, Held>)

  const EMPTY := State(SourceStatus.Pending, {}, map[])

  /** `FindTarget` and `FindSource` open the operations that have no guard of this kind: with no change of
      the column an update of other columns, for a target also its activation, its deletion and a material
      update, for a source every other change of status. */
  datatype Action =
    | GuardRemoval(h: nat, target: Id)
    | GuardStart(h: nat, from: SourceStatus)
    | FindTarget(h: nat, target: Id, change: Option<bool>)
    | FindSource(h: nat, to: Option<SourceStatus>)
    | Find(h: nat)
    | Write(h: nat)

  /** The guard of a deactivation, as far as it looks at counts. */
  predicate MayRemove(s: State, target: Id) {
    target in s.active && s.status.Active? ==> |s.active| > 1
  }

  function Act(s: State, a: Action): State {
    match a
    case GuardRemoval(h, target) => Hold(s, h, if target in s.active && MayRemove(s, target) then Some(MayDisable(target)) else None)
    case GuardStart(h, from) =>
      Hold(s, h, if s.status == from && (from.Ready? || from.Paused?) && s.active != {} then Some(MayStart(from)) else None)
    case FindTarget(h, target, change) =>
      Hold(s, h, Some(WillWrite(target, if change.Some? then change.value else target in s.active)))
    case FindSource(h, to) =>
      Hold(s, h, if to == Some(SourceStatus.Active) then None else Some(WillSet(if to.Some? then to.value else s.status)))
    case Find(h) =>
      if h !in s.held then s
      else
        (match s.held[h]
         case MayDisable(target) => Hold(s, h, Some(WillWrite(target, false)))
         case MayStart(_) => Hold(s, h, Some(WillSet(SourceStatus.Active)))
         case _ => s)
    case Write(h) => if h !in s.held then s else Hold(Written(s, s.held[h]), h, None)
  }

  function Hold(s: State, h: nat, held: Option<Held>): State {
    s.(held := if held.Some? then s.held[h := held.value] else s.held - {h})
  }

  function Written(s: State, held: Held): State {
    match held
    case WillWrite(target, active) => s.(active := if active then s.active + {target} else s.active - {target})
    case WillSet(status) => s.(status := status)
    case MayStart(from) => if s.status == from then s.(status := SourceStatus.Active) else s
    case MayDisable(_) => s
  }

  function After(actions: seq<Action>): State {
    if actions == [] then EMPTY else Act(After(actions[..|actions| - 1]), actions[|actions| - 1])
  }

  /** An ACTIVE source has an active target. */
  predicate Served(s: State) {
    s.status.Active? ==> s.active != {}
  }

  predicate AlwaysServed(actions: seq<Action>) {
    Served(After(actions)) && (actions != [] ==> AlwaysServed(actions[..|actions| - 1]))
  }

  /** A source and its targets as the guards see them. */
  function StateOf(w: ControlPlane.World, sid: Id): State
    requires sid in w.sources
  {
    State(w.sources[sid].status, ControlPlane.ActiveTargets(w, sid), map[])
  }

  /** The guards are those of the whole operations: of a deactivation, and of an activation or resumption
      where no dryrun is required. */
  lemma GuardsAreTheOperations(cfg: ControlPlane.Config, w: ControlPlane.World, sid: Id, tid: Id)
    requires ControlPlane.Live(w, sid) && ControlPlane.ActiveListed(w, sid, tid) && !ControlPlane.DryrunRunning(w, tid)
    requires w.sources[sid].category.Crawl? && w.sources[sid].crawlMode.Some? && w.sources[sid].interval.Some? && w.sources[sid].interval.value > 0
    requires forall a, b :: !cfg.required(a, b)
    ensures 0 in Act(StateOf(w, sid), GuardRemoval(0, tid)).held <==> ControlPlane.PlanDeactivateTarget(w, sid, tid).Some?
    ensures 0 in Act(StateOf(w, sid), GuardStart(0, SourceStatus.Ready)).held <==> ControlPlane.PlanActivateSource(cfg, w, sid).Some?
    ensures 0 in Act(StateOf(w, sid), GuardStart(0, SourceStatus.Paused)).held <==> ControlPlane.PlanResumeSource(cfg, w, sid).Some?
  {
    assert tid in ControlPlane.ActiveTargets(w, sid);
  }

  // ---------------------------------------------------------------- exact condition

  /** The guard of what is held would pass now. */
  predicate Passes(s: State, held: Held) {
    match held
    case MayDisable(target) => MayRemove(s, target)
    case WillWrite(target, active) => active || MayRemove(s, target)
    case MayStart(_) => s.active != {}
    case WillSet(status) => status.Active? ==> s.active != {}
  }

  /** A write whose guard, asked once more right before it, refuses. */
  predicate WritesLate(s: State, a: Action) {
    a.Write? && a.h in s.held && Writes(s, s.held[a.h]) && !Passes(s, s.held[a.h])
  }

  predicate Writes(s: State, held: Held) {
    !held.MayDisable? && (held.MayStart? ==> s.status == held.from)
  }

  lemma OneMoreStays(active: set<Id>, target: Id)
    requires target in active
    ensures active - {target} != {} <==> |active| > 1
  {
    assert |active - {target}| == |active| - 1;
  }

  /** A statement leaves an ACTIVE source without an active target exactly when it is a late write. */
  lemma StepServesExactly(s: State, a: Action)
    requires Served(s)
    ensures Served(Act(s, a)) <==> !WritesLate(s, a)
  {
    if a.Write? && a.h in s.held && s.held[a.h].WillWrite? && !s.held[a.h].active {
      var target := s.held[a.h].target;
      if target in s.active {
        OneMoreStays(s.active, target);
      } else {
        assert s.active - {target} == s.active;
      }
    }
  }

  predicate NeverLate(actions: seq<Action>) {
    actions != [] ==> NeverLate(actions[..|actions| - 1]) && !WritesLate(After(actions[..|actions| - 1]), actions[|actions| - 1])
  }

  lemma {:induction false} RunServesExactly(actions: seq<Action>)
    ensures AlwaysServed(actions) <==> NeverLate(actions)
  {
    if actions != [] {
      var p := actions[..|actions| - 1];
      RunServesExactly(p);
      if Served(After(p)) {
        StepServesExactly(After(p), actions[|actions| - 1]);
      }
    }
  }

  // ---------------------------------------------------------------- what overlaps

  /** The action with which handler `h` takes up an operation. */
  predicate Opens(a: Action, h: nat) {
    a.h == h && (a.GuardRemoval? || a.GuardStart? || a.FindTarget? || a.FindSource?)
  }

  /** Nothing has been written since handler `h` took up its operation. */
  predicate Undisturbed(p: seq<Action>, h: nat) {
    p != [] &&
      var last := p[|p| - 1];
      Opens(last, h) || (!last.Write? && Undisturbed(p[..|p| - 1], h))
  }

  /** No target is disabled without a guard, as its deletion and a material update do, and no write comes
      between the start of an operation and its own write. Reads overlap freely. */
  predicate Apart(actions: seq<Action>) {
    actions != [] ==>
      var p, a := actions[..|actions| - 1], actions[|actions| - 1];
      Apart(p) && (a.FindTarget? ==> a.change != Some(false)) && (a.Write? ==> Undisturbed(p, a.h))
  }

  predicate HeldPasses(s: State, h: nat) {
    h in s.held ==> Passes(s, s.held[h])
  }

  lemma OpeningPasses(s: State, a: Action, h: nat)
    requires Served(s) && Opens(a, h) && (a.FindTarget? ==> a.change != Some(false))
    ensures HeldPasses(Act(s, a), h)
  {
  }

  lemma ReadKeepsPasses(s: State, a: Action, h: nat)
    requires !a.Write? && !Opens(a, h) && HeldPasses(s, h)
    ensures HeldPasses(Act(s, a), h)
  {
  }

  lemma {:induction false} UndisturbedPasses(p: seq<Action>, h: nat)
    requires Apart(p) && AlwaysServed(p) && Undisturbed(p, h)
    ensures HeldPasses(After(p), h)
  {
    var q, last := p[..|p| - 1], p[|p| - 1];
    if Opens(last, h) {
      OpeningPasses(After(q), last, h);
    } else {
      UndisturbedPasses(q, h);
      ReadKeepsPasses(After(q), last, h);
    }
  }

  /** Guarded operations whose writes do not overlap keep every ACTIVE source served throughout. */
  lemma {:induction false} ApartRunsServe(actions: seq<Action>)
    requires Apart(actions)
    ensures AlwaysServed(actions) && NeverLate(actions)
  {
    if actions != [] {
      var p, a := actions[..|actions| - 1], actions[|actions| - 1];
      ApartRunsServe(p);
      if a.Write? {
        UndisturbedPasses(p, a.h);
      }
      StepServesExactly(After(p), a);
    }
  }

  // ---------------------------------------------------------------- overlaps that strip

  /** No target is disabled without its guard, and every row write changes the column it guards. */
  predicate OnlyGuarded(a: Action) {
    (a.FindTarget? ==> a.change == Some(true)) && (a.FindSource? ==> a.to.Some?)
  }

  /** No target is disabled at all. */
  predicate OnlyEnables(a: Action) {
    !a.GuardRemoval? && (a.FindTarget? ==> a.change != Some(false))
  }

  lemma AfterNext(actions: seq<Action>, a: Action)
    ensures After(actions + [a]) == Act(After(actions), a)
  {
    assert (actions + [a])[..|actions|] == actions;
  }

  lemma {:induction false} AfterMore(actions: seq<Action>, more: seq<Action>)
    ensures After(actions + more) == ActAll(After(actions), more)
    decreases |more|
  {
    if more == [] {
      assert actions + more == actions;
    } else {
      AfterNext(actions, more[0]);
      assert actions + more == (actions + [more[0]]) + more[1..];
      AfterMore(actions + [more[0]], more[1..]);
    }
  }

  function ActAll(s: State, actions: seq<Action>): State
    decreases |actions|
  {
    if actions == [] then s else ActAll(Act(s, actions[0]), actions[1..])
  }

  lemma ActFour(s: State, a: Action, b: Action, c: Action, d: Action)
    ensures ActAll(s, [a, b, c, d]) == Act(Act(Act(Act(s, a), b), c), d)
  {
    assert [a, b, c, d][1..] == [b, c, d] && [b, c, d][1..] == [c, d] && [c, d][1..] == [d] && [d][1..] == [];
    var s' := Act(Act(s, a), b);
    assert ActAll(s', [c, d]) == ActAll(Act(s', c), [d]);
    assert ActAll(Act(s, a), [b, c, d]) == ActAll(s', [c, d]);
  }

  /** Finding a row and writing it at once. */
  lemma FindAndWrite(s: State, h: nat, target: Id, active: bool, to: SourceStatus)
    requires !to.Active?
    ensures Act(Act(s, FindTarget(h, target, Some(active))), Write(h)) == Hold(Written(s, WillWrite(target, active)), h, None)
    ensures Act(Act(s, FindSource(h, Some(to))), Write(h)) == Hold(s.(status := to), h, None)
  {
  }

  lemma StartAndWrite(s: State, h: nat)
    requires s.status.Ready? && s.active != {}
    ensures Act(Act(s, GuardStart(h, SourceStatus.Ready)), Write(h)) == Hold(s.(status := SourceStatus.Active), h, None)
  {
  }

  /** Target 1 is enabled and the source becomes READY. */
  const ENABLED: seq<Action> := [FindTarget(0, 1, Some(true)), Write(0), FindSource(0, Some(SourceStatus.Ready)), Write(0)]

  lemma Enables(s: State)
    ensures ActAll(s, ENABLED) == State(SourceStatus.Ready, s.active + {1}, s.held - {0})
  {
    ActFour(s, ENABLED[0], ENABLED[1], ENABLED[2], ENABLED[3]);
    FindAndWrite(s, 0, 1, true, SourceStatus.Ready);
    FindAndWrite(Act(Act(s, ENABLED[0]), ENABLED[1]), 0, 1, true, SourceStatus.Ready);
  }

  /** Target 2 is enabled and the source is activated. */
  const STARTED: seq<Action> := [FindTarget(0, 2, Some(true)), Write(0), GuardStart(0, SourceStatus.Ready), Write(0)]

  lemma Starts(s: State)
    requires s.status.Ready?
    ensures ActAll(s, STARTED) == State(SourceStatus.Active, s.active + {2}, s.held - {0})
  {
    ActFour(s, STARTED[0], STARTED[1], STARTED[2], STARTED[3]);
    FindAndWrite(s, 0, 2, true, SourceStatus.Ready);
    var s' := Act(Act(s, STARTED[0]), STARTED[1]);
    assert s' == State(SourceStatus.Ready, s.active + {2}, s.held - {0});
    assert 2 in s'.active;
    StartAndWrite(s', 0);
  }

  /** Two deactivations count two active targets and find their rows. */
  const REMOVALS: seq<Action> := [GuardRemoval(0, 1), GuardRemoval(1, 2), Find(0), Find(1)]

  lemma GuardsOverlap(s: State)
    requires s == State(SourceStatus.Active, {1, 2}, map[])
    ensures ActAll(s, REMOVALS) == s.(held := map[0 := WillWrite(1, false), 1 := WillWrite(2, false)])
  {
    assert |s.active| == 2;
    ActFour(s, REMOVALS[0], REMOVALS[1], REMOVALS[2], REMOVALS[3]);
  }

  lemma RemovalsWaiting()
    ensures After([] + ENABLED + STARTED + REMOVALS) ==
            State(SourceStatus.Active, {1, 2}, map[0 := WillWrite(1, false), 1 := WillWrite(2, false)])
  {
    AfterMore([], ENABLED);
    Enables(EMPTY);
    AfterMore([] + ENABLED, STARTED);
    Starts(After([] + ENABLED));
    AfterMore([] + ENABLED + STARTED, REMOVALS);
    GuardsOverlap(After([] + ENABLED + STARTED));
  }

  /** Two deactivations that both count two active targets leave none. */
  lemma OverlappingDeactivationsStrip()
    ensures exists actions: seq<Action> :: (forall a :: a in actions ==> OnlyGuarded(a)) && !Served(After(actions))
  {
    var actions := [] + ENABLED + STARTED + REMOVALS;
    RemovalsWaiting();
    AfterNext(actions, Write(0));
    AfterNext(actions + [Write(0)], Write(1));
    assert !Served(After(actions + [Write(0)] + [Write(1)]));
  }

  /** An update of the label of target 1 finds it inactive and writes it back after it has become the
      active target of an ACTIVE source. */
  lemma StaleTargetUpdateStrips()
    ensures exists actions: seq<Action> :: (forall a :: a in actions ==> OnlyEnables(a)) && !Served(After(actions))
  {
    var stale := [FindTarget(1, 1, None)];
    var start := [GuardStart(0, SourceStatus.Ready)];
    AfterNext([], FindTarget(1, 1, None));
    AfterMore([] + stale, ENABLED);
    Enables(After([] + stale));
    AfterNext([] + stale + ENABLED, GuardStart(0, SourceStatus.Ready));
    AfterNext([] + stale + ENABLED + start, Write(0));
    AfterNext([] + stale + ENABLED + start + [Write(0)], Write(1));
    assert !Served(After([] + stale + ENABLED + start + [Write(0)] + [Write(1)]));
  }
}
