/** Runs from an empty database that reach the cases the theorems single out. */
module Witnesses {
  import opened Model
  import opened Text
  import opened Values
  import opened ControlPlane
  import opened Invariants
  import opened ActiveTargetTheorems
  import opened LifecycleTheorems
  import opened AuditTheorems
  import opened StaleSpecs

  /** The service's own settings: no dryrun is required; every value passes as a URL. */
  const SERVICE: Config := Config((s, t) => false, u => true)

  const NAME: Labels := Labels("n", "", "")
  const SOURCE_INPUT: CreateInput := CreateInput(Some(0), NAME, SourceType.Facebook, Some(Crawl), Some(Normal), 11, "", "", "", "")
  const TARGET_INPUT: TargetInput := TargetInput(["v"], "", NoMeta, 0, 11)

  /** Source 1 with this status, and its target 2 when there is one. */
  function SourceOf(status: SourceStatus): Source {
    Source(0, NAME, SourceType.Facebook, Crawl, status, Onboarding.NotRequired, DryrunStatus.NotRequired, None,
           Some(Normal), Some(11), "{}", "", "", "", false)
  }

  function TargetOf(targetType: TargetType, active: bool): Target {
    Target(1, targetType, ["v"], "", NoMeta, active, 0, 11)
  }

  function WorldOf(status: SourceStatus, targets: map<Id, Target>): World {
    World(map[1 := SourceOf(status)], targets, [], map[1 := []])
  }

  function Setup(targetType: TargetType): seq<Call> {
    [Call(OpCreateSource(1, SOURCE_INPUT, true), 1), Call(OpCreateTarget(2, 1, targetType, TARGET_INPUT), 1),
     Call(OpActivateTarget(1, 2), 2), Call(OpActivateSource(1), 1)]
  }

  lemma NamesAreTrimmed()
    ensures TrimSpace("n") == "n" && TrimSpace("v") == "v" && Normalized(["v"], true) == ["v"] && Normalized(["v"], false) == ["v"]
  {
    TrimmedIsFixed("n");
    TrimmedIsFixed("v");
    NormalIsFixed(["v"], true);
    NormalIsFixed(["v"], false);
  }

  /** A run from the empty database that ends in `w`. */
  ghost predicate Reaches(calls: seq<Call>, w: World) {
    Run(SERVICE, EMPTY, calls) == w
  }

  lemma ReachesNext(calls: seq<Call>, call: Call, w: World, w': World)
    requires Reaches(calls, w) && Goes(w, call, w')
    ensures Reaches(calls + [call], w')
  {
    assert (calls + [call])[..|calls|] == calls;
  }

  /** The effect of one call. */
  ghost predicate Goes(w: World, call: Call, w': World) {
    Step(SERVICE, w, call) == w'
  }

  lemma PlanGoes(w: World, call: Call, writes: seq<Write>, w': World)
    requires PlanOf(SERVICE, w, call.op) == Some(writes) && |writes| <= call.through && ApplyAll(w, writes) == w'
    ensures Goes(w, call, w')
  {
    IssuedWhole(Some(writes), call.through);
  }

  lemma IssuedWhole(plan: Plan, through: nat)
    requires plan.Some? && |plan.value| <= through
    ensures Issued(plan, through) == plan.value
  {
    assert plan.value[..|plan.value|] == plan.value;
  }

  lemma FirstGoes()
    ensures Goes(EMPTY, Call(OpCreateSource(1, SOURCE_INPUT, true), 1), WorldOf(SourceStatus.Pending, map[]))
  {
    NamesAreTrimmed();
    var insert := InsertSource(1, SourceOf(SourceStatus.Pending));
    assert PlanCreateSource(1, SOURCE_INPUT, true) == Some([insert]);
    ApplyOne(EMPTY, insert);
    PlanGoes(EMPTY, Call(OpCreateSource(1, SOURCE_INPUT, true), 1), [insert], WorldOf(SourceStatus.Pending, map[]));
  }

  lemma ValuesPrepare(targetType: TargetType)
    ensures Prepared(targetType, TARGET_INPUT.values, SERVICE.isUrl) == Some(["v"])
  {
    NamesAreTrimmed();
  }

  lemma SecondPlan(targetType: TargetType)
    ensures PlanCreateTarget(SERVICE, WorldOf(SourceStatus.Pending, map[]), 2, 1, targetType, TARGET_INPUT)
         == Some([InsertTarget(2, TargetOf(targetType, false))])
  {
    ValuesPrepare(targetType);
  }

  lemma InsertsTarget(targetType: TargetType)
    ensures ApplyAll(WorldOf(SourceStatus.Pending, map[]), [InsertTarget(2, TargetOf(targetType, false))])
         == WorldOf(SourceStatus.Pending, map[2 := TargetOf(targetType, false)])
  {
    ApplyOne(WorldOf(SourceStatus.Pending, map[]), InsertTarget(2, TargetOf(targetType, false)));
  }

  lemma SecondGoes(targetType: TargetType)
    ensures Goes(WorldOf(SourceStatus.Pending, map[]), Call(OpCreateTarget(2, 1, targetType, TARGET_INPUT), 1),
                 WorldOf(SourceStatus.Pending, map[2 := TargetOf(targetType, false)]))
  {
    SecondPlan(targetType);
    InsertsTarget(targetType);
    PlanGoes(WorldOf(SourceStatus.Pending, map[]), Call(OpCreateTarget(2, 1, targetType, TARGET_INPUT), 1),
             [InsertTarget(2, TargetOf(targetType, false))], WorldOf(SourceStatus.Pending, map[2 := TargetOf(targetType, false)]));
  }

  lemma EnableAndPromote(targetType: TargetType)
    ensures ApplyAll(WorldOf(SourceStatus.Pending, map[2 := TargetOf(targetType, false)]), [UpdateTargetRow(2, ENABLE), UpdateSourceRow(1, MARK_READY)])
         == WorldOf(SourceStatus.Ready, map[2 := TargetOf(targetType, true)])
  {
    ApplyTwo(WorldOf(SourceStatus.Pending, map[2 := TargetOf(targetType, false)]), UpdateTargetRow(2, ENABLE), UpdateSourceRow(1, MARK_READY));
  }

  lemma ThirdGoes(targetType: TargetType)
    ensures Goes(WorldOf(SourceStatus.Pending, map[2 := TargetOf(targetType, false)]), Call(OpActivateTarget(1, 2), 2),
                 WorldOf(SourceStatus.Ready, map[2 := TargetOf(targetType, true)]))
  {
    var w := WorldOf(SourceStatus.Pending, map[2 := TargetOf(targetType, false)]);
    var writes := [UpdateTargetRow(2, ENABLE), UpdateSourceRow(1, MARK_READY)];
    assert PlanActivateTarget(SERVICE, w, 1, 2) == Some(writes);
    EnableAndPromote(targetType);
    PlanGoes(w, Call(OpActivateTarget(1, 2), 2), writes, WorldOf(SourceStatus.Ready, map[2 := TargetOf(targetType, true)]));
  }

  lemma FourthGoes(targetType: TargetType)
    ensures Goes(WorldOf(SourceStatus.Ready, map[2 := TargetOf(targetType, true)]), Call(OpActivateSource(1), 1), Running(targetType))
  {
    var w := WorldOf(SourceStatus.Ready, map[2 := TargetOf(targetType, true)]);
    assert 2 in ActiveTargets(w, 1);
    var activate := UpdateSourceRow(1, MoveTo(SourceStatus.Active));
    assert PlanActivateSource(SERVICE, w, 1) == Some([activate]);
    ApplyOne(w, activate);
    PlanGoes(w, Call(OpActivateSource(1), 1), [activate], Running(targetType));
  }

  function Running(targetType: TargetType): World {
    WorldOf(SourceStatus.Active, map[2 := TargetOf(targetType, true)])
  }

  /** Creating a source and a target, activating the target and then the source. */
  lemma SetupRuns(targetType: TargetType)
    ensures Reaches(Setup(targetType), Running(targetType))
  {
    var a := Setup(targetType);
    FirstGoes();
    ReachesNext([], a[0], EMPTY, WorldOf(SourceStatus.Pending, map[]));
    SecondGoes(targetType);
    ReachesNext([] + [a[0]], a[1], WorldOf(SourceStatus.Pending, map[]), WorldOf(SourceStatus.Pending, map[2 := TargetOf(targetType, false)]));
    LastTwo([] + [a[0]] + [a[1]], targetType);
    assert [] + [a[0]] + [a[1]] + [a[2]] + [a[3]] == a;
  }

  lemma LastTwo(calls: seq<Call>, targetType: TargetType)
    requires Reaches(calls, WorldOf(SourceStatus.Pending, map[2 := TargetOf(targetType, false)]))
    ensures Reaches(calls + [Call(OpActivateTarget(1, 2), 2)] + [Call(OpActivateSource(1), 1)], Running(targetType))
  {
    ThirdGoes(targetType);
    ReachesNext(calls, Call(OpActivateTarget(1, 2), 2), WorldOf(SourceStatus.Pending, map[2 := TargetOf(targetType, false)]),
                WorldOf(SourceStatus.Ready, map[2 := TargetOf(targetType, true)]));
    FourthGoes(targetType);
    ReachesNext(calls + [Call(OpActivateTarget(1, 2), 2)], Call(OpActivateSource(1), 1),
                WorldOf(SourceStatus.Ready, map[2 := TargetOf(targetType, true)]), Running(targetType));
  }

  /** The world after the setup is as the theorems ask. */
  lemma RunningIsServed(targetType: TargetType)
    ensures var w := Running(targetType);
            RowsOk(w) && Served(w) && LastActive(w, 1, 2) && !DryrunRunning(w, 2) && Live(w, 1)
  {
    SetupRuns(targetType);
    RunKeepsRowsOk(SERVICE, Setup(targetType));
    assert ActiveListed(Running(targetType), 1, 2);
  }

  // ---------------------------------------------------------------- stripping a source

  lemma DeletionBreaks()
    ensures exists w' :: Goes(Running(Keyword), Call(OpDeleteTarget(1, 2, true, ""), 1), w') && !Served(w')
  {
    RunningIsServed(Keyword);
    DeleteServed(SERVICE, Running(Keyword), 1, 2, true, "", 1);
    assert Goes(Running(Keyword), Call(OpDeleteTarget(1, 2, true, ""), 1), Step(SERVICE, Running(Keyword), Call(OpDeleteTarget(1, 2, true, ""), 1)));
  }

  /** Deleting the only target leaves an ACTIVE crawl source with nothing to crawl. */
  lemma DeletionStrips()
    ensures exists calls: seq<Call>, w :: Reaches(calls, w) && !Served(w)
  {
    SetupRuns(Keyword);
    DeletionBreaks();
    var call := Call(OpDeleteTarget(1, 2, true, ""), 1);
    var w' :| Goes(Running(Keyword), call, w') && !Served(w');
    ReachesNext(Setup(Keyword), call, Running(Keyword), w');
  }

  const EDIT: TargetUpdate := TargetUpdate(None, "", None, None, Some(22))

  lemma InterruptedUpdateBreaks()
    ensures exists w' :: Goes(Running(Keyword), Call(OpUpdateTarget(1, 2, EDIT), 1), w') && !Served(w')
  {
    RunningIsServed(Keyword);
    UpdateServed(SERVICE, Running(Keyword), 1, 2, EDIT, 1);
    assert Goes(Running(Keyword), Call(OpUpdateTarget(1, 2, EDIT), 1), Step(SERVICE, Running(Keyword), Call(OpUpdateTarget(1, 2, EDIT), 1)));
  }

  /** So does a material update whose second write is lost. */
  lemma InterruptedUpdateStrips()
    ensures exists calls: seq<Call>, w :: Reaches(calls, w) && !Served(w)
  {
    SetupRuns(Keyword);
    InterruptedUpdateBreaks();
    var call := Call(OpUpdateTarget(1, 2, EDIT), 1);
    var w' :| Goes(Running(Keyword), call, w') && !Served(w');
    ReachesNext(Setup(Keyword), call, Running(Keyword), w');
  }

  // ---------------------------------------------------------------- leaving ARCHIVED

  function Shelved(): World {
    WorldOf(SourceStatus.Archived, map[2 := TargetOf(Keyword, true)])
  }

  lemma ArchiveGoes()
    ensures Goes(Running(Keyword), Call(OpArchiveSource(1), 1), Shelved())
  {
    var w := Running(Keyword);
    assert PlanArchiveSource(w, 1) == Some([ArchiveRow(1)]);
    ApplyOne(w, ArchiveRow(1));
    PlanGoes(w, Call(OpArchiveSource(1), 1), [ArchiveRow(1)], Shelved());
  }

  lemma ShelvedIsReached()
    ensures Reaches(Setup(Keyword) + [Call(OpArchiveSource(1), 1)], Shelved()) && RowsOk(Shelved())
  {
    SetupRuns(Keyword);
    ArchiveGoes();
    ReachesNext(Setup(Keyword), Call(OpArchiveSource(1), 1), Running(Keyword), Shelved());
    RunKeepsRowsOk(SERVICE, Setup(Keyword) + [Call(OpArchiveSource(1), 1)]);
  }

  /** The source of a world, back at PENDING. */
  predicate Revived(w: World) {
    1 in w.sources && w.sources[1].status.Pending?
  }

  lemma UpdateRevives()
    ensures exists w' :: Goes(Shelved(), Call(OpUpdateTarget(1, 2, EDIT), 2), w') && Revived(w')
  {
    ShelvedIsReached();
    MaterialUpdateSends(SERVICE, Shelved(), 1, 2, EDIT, 2);
    assert Goes(Shelved(), Call(OpUpdateTarget(1, 2, EDIT), 2), Step(SERVICE, Shelved(), Call(OpUpdateTarget(1, 2, EDIT), 2)));
  }

  /** An archived source is brought back to PENDING by updating the interval of its target. */
  lemma ArchivedComesBack()
    ensures exists calls: seq<Call>, call: Call, w, w' ::
              Reaches(calls, w) && 1 in w.sources && w.sources[1].status.Archived? && Reaches(calls + [call], w') && Revived(w')
  {
    ShelvedIsReached();
    UpdateRevives();
    var call := Call(OpUpdateTarget(1, 2, EDIT), 2);
    var w' :| Goes(Shelved(), call, w') && Revived(w');
    ReachesNext(Setup(Keyword) + [Call(OpArchiveSource(1), 1)], call, Shelved(), w');
  }

  // ---------------------------------------------------------------- losing an audit row

  lemma CutModeChangeBreaks()
    ensures var w, call := Running(Keyword), Call(OpUpdateCrawlMode(1, Crisis), 1);
            Loses(w, call, 1) && exists w' :: Goes(w, call, w') && !Replays(w, w', 1)
  {
    var w, call := Running(Keyword), Call(OpUpdateCrawlMode(1, Crisis), 1);
    RunningIsServed(Keyword);
    ModeUpdateReplays(w, 1, Crisis, 1, 1);
    assert Goes(w, call, Step(SERVICE, w, call));
  }

  /** A mode change cut after its first write leaves a mode that the audit rows do not lead to. */
  lemma CutModeChangeLosesItsRow()
    ensures exists calls: seq<Call>, call: Call, w, w' ::
              Reaches(calls, w) && Loses(w, call, 1) && Reaches(calls + [call], w') && !Replays(w, w', 1)
  {
    var w, call := Running(Keyword), Call(OpUpdateCrawlMode(1, Crisis), 1);
    SetupRuns(Keyword);
    CutModeChangeBreaks();
    var w' :| Goes(w, call, w') && !Replays(w, w', 1);
    ReachesNext(Setup(Keyword), call, w, w');
  }

  // ---------------------------------------------------------------- stale specs

  /** A profile target reaches the stage on which its specs go stale. */
  lemma ProfileIsStaged()
    ensures exists calls: seq<Call>, w :: Reaches(calls, w) && Staged(SERVICE, w, 1, 2) && w.targets[2].targetType.Profile?
  {
    SetupRuns(Profile);
    RunningIsServed(Profile);
    assert Staged(SERVICE, Running(Profile), 1, 2);
  }
}
