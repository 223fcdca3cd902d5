/** Activation readiness of a project (GetActivationReadiness). */
module Readiness {
  import opened Model
  import opened ControlPlane
  import opened Invariants
  import opened Repository
  import opened Values

  datatype Code =
    | DatasourceRequired | DatasourceStatusInvalid | PassiveUnconfirmed
    | TargetDryrunMissing | TargetDryrunFailed | ActiveTargetRequired

  datatype Finding = Finding(code: Code, source: Option<Id>, target: Option<Id>)

  datatype Report = Report(
    count: nat, hasDatasource: bool, passiveUnconfirmed: nat, missingTargetDryrun: nat, failedTargetDryrun: nat,
    errors: seq<Finding>, canProceed: bool)

  // ---------------------------------------------------------------- meaning of the findings

  /** What readiness makes of one target of a source. */
  datatype Verdict = Idle | Fine | NoResult | FailedResult

  function VerdictOf(cfg: Config, w: World, sid: Id, tid: Id): Verdict
    requires sid in w.sources
  {
    if tid !in w.targets || !ActiveListed(w, sid, tid) then Idle
    else if !cfg.required(Some(w.sources[sid].sourceType), w.targets[tid].targetType) then Fine
    else
      match LatestOf(w.dryruns, tid)
      case None => NoResult
      case Some(latest) => if latest.status.Failed? then FailedResult else Fine
  }

  predicate Missing(cfg: Config, w: World, sid: Id, tid: Id)
    requires sid in w.sources
  {
    VerdictOf(cfg, w, sid, tid).NoResult?
  }

  predicate LastFailed(cfg: Config, w: World, sid: Id, tid: Id)
    requires sid in w.sources
  {
    VerdictOf(cfg, w, sid, tid).FailedResult?
  }

  /** The targets of the given sources that lack a dryrun result, or whose newest one failed. */
  function MissingIn(cfg: Config, w: World, sids: set<Id>): set<Id>
    requires sids <= w.sources.Keys
  {
    set tid | tid in w.targets && w.targets[tid].source in sids && Missing(cfg, w, w.targets[tid].source, tid)
  }

  function FailedIn(cfg: Config, w: World, sids: set<Id>): set<Id>
    requires sids <= w.sources.Keys
  {
    set tid | tid in w.targets && w.targets[tid].source in sids && LastFailed(cfg, w, w.targets[tid].source, tid)
  }

  predicate Unconfirmed(w: World, command: Command, sid: Id)
    requires sid in w.sources
  {
    w.sources[sid].category.Passive? && AllowedFor(w.sources[sid].status, command) && !w.sources[sid].onboarding.Confirmed?
  }

  predicate Inspected(w: World, command: Command, sid: Id)
    requires sid in w.sources
  {
    w.sources[sid].category.Crawl? && AllowedFor(w.sources[sid].status, command)
  }

  function ProjectSources(w: World, project: Id): set<Id> {
    set sid | sid in w.sources && InProject(w, project, sid)
  }

  /** What each reported finding says about a source. */
  predicate Holds(cfg: Config, w: World, command: Command, e: Finding)
    requires e.source.Some? && e.source.value in w.sources
  {
    var sid := e.source.value;
    match e.code
    case DatasourceRequired => false
    case DatasourceStatusInvalid => e.target.None? && !AllowedFor(w.sources[sid].status, command)
    case PassiveUnconfirmed => e.target.None? && Unconfirmed(w, command, sid)
    case TargetDryrunMissing => e.target.Some? && Inspected(w, command, sid) && Missing(cfg, w, sid, e.target.value)
    case TargetDryrunFailed => e.target.Some? && Inspected(w, command, sid) && LastFailed(cfg, w, sid, e.target.value)
    case ActiveTargetRequired => e.target.None? && Inspected(w, command, sid) && ActiveTargets(w, sid) == {}
  }

  /** A finding about one target of a source. */
  predicate TargetFinding(cfg: Config, w: World, sid: Id, e: Finding)
    requires sid in w.sources
  {
    && e.source == Some(sid) && e.target.Some?
    && ((e.code.TargetDryrunMissing? && Missing(cfg, w, sid, e.target.value))
        || (e.code.TargetDryrunFailed? && LastFailed(cfg, w, sid, e.target.value)))
  }

  predicate Reported(cfg: Config, w: World, command: Command, sids: set<Id>, e: Finding)
    requires sids <= w.sources.Keys
  {
    e.source.Some? && e.source.value in sids && Holds(cfg, w, command, e)
  }

  /** The findings of a whole project. */
  predicate ReportedFor(cfg: Config, w: World, command: Command, project: Id, e: Finding) {
    var sids := ProjectSources(w, project);
    Reported(cfg, w, command, sids, e) || (sids == {} && e == Finding(DatasourceRequired, None, None))
  }

  /** The sources of a set that readiness counts, and those that block the project. */
  function EligibleIn(cfg: Config, w: World, command: Command, sids: set<Id>): set<Id>
    requires sids <= w.sources.Keys
  {
    set sid | sid in sids && Eligible(cfg, w, sid, command)
  }

  // ---------------------------------------------------------------- the loops

  method Judge(cfg: Config, store: Store, sid: Id, tid: Id) returns (verdict: Verdict)
    requires sid in store.rows.sources && tid in store.rows.targets && Listed(store.rows, sid, tid)
    ensures verdict == VerdictOf(cfg, store.rows, sid, tid)
  {
    var target := store.rows.targets[tid];
    if !target.isActive {
      return Idle;
    }
    if !cfg.required(Some(store.rows.sources[sid].sourceType), target.targetType) {
      return Fine;
    }
    var latest := LatestOf(store.rows.dryruns, tid);
    if latest.None? {
      return NoResult;
    }
    return if latest.value.status.Failed? then FailedResult else Fine;
  }

  function Judged(cfg: Config, w: World, sid: Id, tids: set<Id>, verdict: Verdict): set<Id>
    requires sid in w.sources
  {
    set tid | tid in tids && VerdictOf(cfg, w, sid, tid) == verdict
  }

  lemma JudgedAdds(cfg: Config, w: World, sid: Id, tids: set<Id>, tid: Id, verdict: Verdict)
    requires sid in w.sources && tid !in tids
    ensures |Judged(cfg, w, sid, tids + {tid}, verdict)| ==
            |Judged(cfg, w, sid, tids, verdict)| + if VerdictOf(cfg, w, sid, tid) == verdict then 1 else 0
  {
    var before, after := Judged(cfg, w, sid, tids, verdict), Judged(cfg, w, sid, tids + {tid}, verdict);
    assert after == if VerdictOf(cfg, w, sid, tid) == verdict then before + {tid} else before;
  }

  lemma JudgedAll(cfg: Config, w: World, sid: Id, tids: set<Id>)
    requires sid in w.sources && forall tid :: tid in tids <==> tid in w.targets && Listed(w, sid, tid)
    ensures |tids| - |Judged(cfg, w, sid, tids, Idle)| == |ActiveTargets(w, sid)|
    ensures Judged(cfg, w, sid, tids, NoResult) == MissingIn(cfg, w, {sid})
    ensures Judged(cfg, w, sid, tids, FailedResult) == FailedIn(cfg, w, {sid})
  {
    assert tids - Judged(cfg, w, sid, tids, Idle) == ActiveTargets(w, sid);
  }

  /** What the inner loop has gathered from the targets `done`. */
  ghost predicate Seen(cfg: Config, w: World, sid: Id, done: set<Id>, active: int, missing: int, failed: int, errors: seq<Finding>)
    requires sid in w.sources
  {
    && active == |done| - |Judged(cfg, w, sid, done, Idle)|
    && missing == |Judged(cfg, w, sid, done, NoResult)|
    && failed == |Judged(cfg, w, sid, done, FailedResult)|
    && forall e :: e in errors <==> TargetFinding(cfg, w, sid, e) && e.target.value in done
  }

  /** The finding a verdict adds. */
  function FindingsOf(verdict: Verdict, sid: Id, tid: Id): seq<Finding> {
    match verdict
    case NoResult => [Finding(TargetDryrunMissing, Some(sid), Some(tid))]
    case FailedResult => [Finding(TargetDryrunFailed, Some(sid), Some(tid))]
    case _ => []
  }

  lemma SeenAdds(cfg: Config, w: World, sid: Id, done: set<Id>, tid: Id, active: int, missing: int, failed: int, errors: seq<Finding>)
    requires sid in w.sources && tid !in done && Seen(cfg, w, sid, done, active, missing, failed, errors)
    ensures var v := VerdictOf(cfg, w, sid, tid);
            Seen(cfg, w, sid, done + {tid},
                 if v.Idle? then active else active + 1, if v.NoResult? then missing + 1 else missing,
                 if v.FailedResult? then failed + 1 else failed, errors + FindingsOf(v, sid, tid))
  {
    JudgedAdds(cfg, w, sid, done, tid, Idle);
    JudgedAdds(cfg, w, sid, done, tid, NoResult);
    JudgedAdds(cfg, w, sid, done, tid, FailedResult);
  }

  /** The inner loop: the active targets of one crawl source. */
  method InspectTargets(cfg: Config, store: Store, sid: Id)
    returns (active: nat, missing: nat, failed: nat, errors: seq<Finding>)
    requires sid in store.rows.sources
    ensures active == |ActiveTargets(store.rows, sid)|
    ensures missing == |MissingIn(cfg, store.rows, {sid})| && failed == |FailedIn(cfg, store.rows, {sid})|
    ensures forall e :: e in errors <==> TargetFinding(cfg, store.rows, sid, e)
  {
    var ids := store.ListTargets(sid);
    active, missing, failed, errors := 0, 0, 0, [];
    ghost var done: set<Id> := {};
    for i := 0 to |ids|
      invariant forall tid :: tid in done <==> tid in ids[..i]
      invariant Seen(cfg, store.rows, sid, done, active, missing, failed, errors)
    {
      var tid := ids[i];
      assert ids[..i + 1] == ids[..i] + [tid];
      SeenAdds(cfg, store.rows, sid, done, tid, active, missing, failed, errors);
      done := done + {tid};
      var verdict := Judge(cfg, store, sid, tid);
      if verdict.Idle? {
        continue;
      }
      active := active + 1;
      if verdict.NoResult? {
        missing := missing + 1;
        errors := errors + [Finding(TargetDryrunMissing, Some(sid), Some(tid))];
      } else if verdict.FailedResult? {
        failed := failed + 1;
        errors := errors + [Finding(TargetDryrunFailed, Some(sid), Some(tid))];
      }
    }
    assert ids[..|ids|] == ids;
    JudgedAll(cfg, store.rows, sid, done);
  }

  lemma ReadyWhenNoneFound(cfg: Config, w: World, sid: Id)
    requires sid in w.sources
    ensures TargetsReady(cfg, w, sid) <==>
            ActiveTargets(w, sid) != {} && MissingIn(cfg, w, {sid}) == {} && FailedIn(cfg, w, {sid}) == {}
  {
    forall tid | tid in w.targets && ActiveListed(w, sid, tid)
      ensures DryrunAcceptable(cfg, w, sid, tid) <==> tid !in MissingIn(cfg, w, {sid}) && tid !in FailedIn(cfg, w, {sid})
    {
    }
  }

  function InspectedIn(w: World, command: Command, sids: set<Id>): set<Id>
    requires sids <= w.sources.Keys
  {
    set sid | sid in sids && Inspected(w, command, sid)
  }

  function UnconfirmedIn(w: World, command: Command, sids: set<Id>): set<Id>
    requires sids <= w.sources.Keys
  {
    set sid | sid in sids && Unconfirmed(w, command, sid)
  }

  datatype Tally = Tally(passiveUnconfirmed: nat, missing: nat, failed: nat, eligible: nat, blocking: bool)

  /** What a pass over the given sources counts. */
  ghost predicate Tallies(cfg: Config, w: World, command: Command, sids: set<Id>, t: Tally)
    requires sids <= w.sources.Keys
  {
    && t.passiveUnconfirmed == |UnconfirmedIn(w, command, sids)|
    && t.missing == |MissingIn(cfg, w, InspectedIn(w, command, sids))|
    && t.failed == |FailedIn(cfg, w, InspectedIn(w, command, sids))|
    && t.eligible == |EligibleIn(cfg, w, command, sids)|
    && (t.blocking <==> exists sid :: sid in sids && Blocking(cfg, w, sid, command))
  }

  function Plus(a: Tally, b: Tally): Tally {
    Tally(a.passiveUnconfirmed + b.passiveUnconfirmed, a.missing + b.missing, a.failed + b.failed,
          a.eligible + b.eligible, a.blocking || b.blocking)
  }

  lemma SourceCountsAdd(cfg: Config, w: World, command: Command, sids: set<Id>, sid: Id)
    requires sids <= w.sources.Keys && sid in w.sources && sid !in sids
    ensures |UnconfirmedIn(w, command, sids + {sid})| == |UnconfirmedIn(w, command, sids)| + |UnconfirmedIn(w, command, {sid})|
    ensures |EligibleIn(cfg, w, command, sids + {sid})| == |EligibleIn(cfg, w, command, sids)| + |EligibleIn(cfg, w, command, {sid})|
  {
    assert UnconfirmedIn(w, command, sids + {sid}) == UnconfirmedIn(w, command, sids) + UnconfirmedIn(w, command, {sid});
    assert EligibleIn(cfg, w, command, sids + {sid}) == EligibleIn(cfg, w, command, sids) + EligibleIn(cfg, w, command, {sid});
  }

  lemma TargetCountsAdd(cfg: Config, w: World, a: set<Id>, b: set<Id>)
    requires a <= w.sources.Keys && b <= w.sources.Keys && a !! b
    ensures |MissingIn(cfg, w, a + b)| == |MissingIn(cfg, w, a)| + |MissingIn(cfg, w, b)|
    ensures |FailedIn(cfg, w, a + b)| == |FailedIn(cfg, w, a)| + |FailedIn(cfg, w, b)|
  {
    assert MissingIn(cfg, w, a + b) == MissingIn(cfg, w, a) + MissingIn(cfg, w, b);
    assert FailedIn(cfg, w, a + b) == FailedIn(cfg, w, a) + FailedIn(cfg, w, b);
  }

  /** Counts of disjoint sets of sources add up. */
  lemma TalliesAdd(cfg: Config, w: World, command: Command, sids: set<Id>, sid: Id, a: Tally, b: Tally)
    requires sids <= w.sources.Keys && sid in w.sources && sid !in sids
    requires Tallies(cfg, w, command, sids, a) && Tallies(cfg, w, command, {sid}, b)
    ensures Tallies(cfg, w, command, sids + {sid}, Plus(a, b))
  {
    SourceCountsAdd(cfg, w, command, sids, sid);
    TargetCountsAdd(cfg, w, InspectedIn(w, command, sids), InspectedIn(w, command, {sid}));
    assert InspectedIn(w, command, sids + {sid}) == InspectedIn(w, command, sids) + InspectedIn(w, command, {sid});
  }

  lemma TalliesOne(cfg: Config, w: World, command: Command, sid: Id, t: Tally)
    requires sid in w.sources
    requires t.passiveUnconfirmed == if Unconfirmed(w, command, sid) then 1 else 0
    requires t.missing == if Inspected(w, command, sid) then |MissingIn(cfg, w, {sid})| else 0
    requires t.failed == if Inspected(w, command, sid) then |FailedIn(cfg, w, {sid})| else 0
    requires t.eligible == if Eligible(cfg, w, sid, command) then 1 else 0
    requires t.blocking <==> Blocking(cfg, w, sid, command)
    ensures Tallies(cfg, w, command, {sid}, t)
  {
    assert UnconfirmedIn(w, command, {sid}) == if Unconfirmed(w, command, sid) then {sid} else {};
    assert InspectedIn(w, command, {sid}) == if Inspected(w, command, sid) then {sid} else {};
    assert EligibleIn(cfg, w, command, {sid}) == if Eligible(cfg, w, sid, command) then {sid} else {};
    assert MissingIn(cfg, w, {}) == {} && FailedIn(cfg, w, {}) == {};
  }

  /** One turn of the outer loop. */
  method InspectSource(cfg: Config, store: Store, command: Command, sid: Id) returns (t: Tally, errors: seq<Finding>)
    requires sid in store.rows.sources
    ensures Gathered(cfg, store.rows, command, {sid}, t, errors)
  {
    var source := store.rows.sources[sid];
    t := Tally(0, 0, 0, 0, false);
    errors := [];
    if !AllowedFor(source.status, command) {
      errors := [Finding(DatasourceStatusInvalid, Some(sid), None)];
    } else if source.category.Passive? {
      if !source.onboarding.Confirmed? {
        t := t.(passiveUnconfirmed := 1);
        errors := [Finding(PassiveUnconfirmed, Some(sid), None)];
      } else {
        t := t.(eligible := 1);
      }
    } else {
      var active, missing, failed, found := InspectTargets(cfg, store, sid);
      ReadyWhenNoneFound(cfg, store.rows, sid);
      errors := if active == 0 then found + [Finding(ActiveTargetRequired, Some(sid), None)] else found;
      var eligible := active > 0 && missing == 0 && failed == 0;
      t := Tally(0, missing, failed, if eligible then 1 else 0, !eligible);
    }
    TalliesOne(cfg, store.rows, command, sid, t);
  }

  lemma TalliesNone(cfg: Config, w: World, command: Command)
    ensures Tallies(cfg, w, command, {}, Tally(0, 0, 0, 0, false))
  {
    assert InspectedIn(w, command, {}) == {};
    assert MissingIn(cfg, w, {}) == {} && FailedIn(cfg, w, {}) == {};
  }

  lemma TalliesDecide(cfg: Config, w: World, command: Command, project: Id, t: Tally)
    requires Tallies(cfg, w, command, ProjectSources(w, project), t)
    ensures CanProceed(cfg, w, project, command) <==> t.eligible > 0 && !t.blocking
    ensures t.eligible > 0 ==> ProjectSources(w, project) != {}
  {
    var sids := ProjectSources(w, project);
    assert t.eligible > 0 <==> EligibleIn(cfg, w, command, sids) != {};
    assert forall sid :: sid in EligibleIn(cfg, w, command, sids) <==> sid in sids && Eligible(cfg, w, sid, command);
  }

  lemma ReportsAdd(cfg: Config, w: World, command: Command, done: set<Id>, sid: Id, errors: seq<Finding>, found: seq<Finding>)
    requires done <= w.sources.Keys && sid in w.sources
    requires forall e :: e in errors <==> Reported(cfg, w, command, done, e)
    requires forall e :: e in found <==> Reported(cfg, w, command, {sid}, e)
    ensures forall e :: e in errors + found <==> Reported(cfg, w, command, done + {sid}, e)
  {
  }

  /** What the outer loop has gathered from the sources `done`. */
  ghost predicate Gathered(cfg: Config, w: World, command: Command, done: set<Id>, sum: Tally, errors: seq<Finding>)
    requires done <= w.sources.Keys
  {
    && Tallies(cfg, w, command, done, sum)
    && forall e :: e in errors <==> Reported(cfg, w, command, done, e)
  }

  lemma GatheredAdds(cfg: Config, w: World, command: Command, done: set<Id>, sid: Id, sum: Tally, errors: seq<Finding>,
                     t: Tally, found: seq<Finding>)
    requires done <= w.sources.Keys && sid in w.sources && sid !in done
    requires Gathered(cfg, w, command, done, sum, errors) && Gathered(cfg, w, command, {sid}, t, found)
    ensures Gathered(cfg, w, command, done + {sid}, Plus(sum, t), errors + found)
  {
    TalliesAdd(cfg, w, command, done, sid, sum, t);
    ReportsAdd(cfg, w, command, done, sid, errors, found);
  }

  /** The outer loop. */
  method InspectSources(cfg: Config, store: Store, command: Command, ids: seq<Id>, ghost sids: set<Id>)
    returns (sum: Tally, errors: seq<Finding>)
    requires sids <= store.rows.sources.Keys && Distinct(ids) && forall sid :: sid in sids <==> sid in ids
    ensures Gathered(cfg, store.rows, command, sids, sum, errors) && |ids| == |sids|
  {
    sum, errors := Tally(0, 0, 0, 0, false), [];
    ghost var done: set<Id> := {};
    TalliesNone(cfg, store.rows, command);
    for i := 0 to |ids|
      invariant |done| == i && done <= store.rows.sources.Keys && forall sid :: sid in done <==> sid in ids[..i]
      invariant Gathered(cfg, store.rows, command, done, sum, errors)
    {
      assert ids[..i + 1] == ids[..i] + [ids[i]];
      var t, found := InspectSource(cfg, store, command, ids[i]);
      GatheredAdds(cfg, store.rows, command, done, ids[i], sum, errors, t, found);
      sum, errors, done := Plus(sum, t), errors + found, done + {ids[i]};
    }
    assert ids[..|ids|] == ids;
    assert done == sids;
  }

  /** `GetActivationReadiness`: the verdict is CanProceed, the counters count what they are named
      after, and the report lists exactly the findings that hold. */
  method GetActivationReadiness(cfg: Config, store: Store, project: Id, command: Command) returns (r: Report)
    ensures r.canProceed <==> CanProceed(cfg, store.rows, project, command)
    ensures r.count == |ProjectSources(store.rows, project)| && (r.hasDatasource <==> r.count > 0)
    ensures r.passiveUnconfirmed == |UnconfirmedIn(store.rows, command, ProjectSources(store.rows, project))|
    ensures r.missingTargetDryrun == |MissingIn(cfg, store.rows, InspectedIn(store.rows, command, ProjectSources(store.rows, project)))|
    ensures r.failedTargetDryrun == |FailedIn(cfg, store.rows, InspectedIn(store.rows, command, ProjectSources(store.rows, project)))|
    ensures forall e :: e in r.errors <==> ReportedFor(cfg, store.rows, command, project, e)
  {
    var ids := store.ListDataSources(project);
    var sum, found := InspectSources(cfg, store, command, ids, ProjectSources(store.rows, project));
    TalliesDecide(cfg, store.rows, command, project, sum);
    var errors := if ids == [] then [Finding(DatasourceRequired, None, None)] + found else found;
    r := Report(|ids|, |ids| > 0, sum.passiveUnconfirmed, sum.missing, sum.failed, errors,
                |ids| > 0 && sum.eligible > 0 && !sum.blocking);
  }

  // ---------------------------------------------------------------- consequences

  /** A finding about the targets of a crawl source. */
  predicate Blocks(e: Finding) {
    e.code.TargetDryrunMissing? || e.code.TargetDryrunFailed? || e.code.ActiveTargetRequired?
  }

  /** The verdict can be read off the report: a project proceeds exactly when some source is eligible and no
      finding about targets is reported. */
  lemma ProceedsUnlessReported(cfg: Config, w: World, project: Id, command: Command)
    ensures CanProceed(cfg, w, project, command) <==>
            && EligibleIn(cfg, w, command, ProjectSources(w, project)) != {}
            && forall e :: ReportedFor(cfg, w, command, project, e) ==> !Blocks(e)
  {
    var sids := ProjectSources(w, project);
    assert forall sid :: sid in EligibleIn(cfg, w, command, sids) <==> sid in w.sources && InProject(w, project, sid) && Eligible(cfg, w, sid, command);
    if sid :| sid in sids && Blocking(cfg, w, sid, command) {
      BlockingIsReported(cfg, w, command, sids, sid);
      var e: Finding :| e.source == Some(sid) && Reported(cfg, w, command, sids, e) && Blocks(e);
      assert ReportedFor(cfg, w, command, project, e);
    }
    if e :| ReportedFor(cfg, w, command, project, e) && Blocks(e) {
      BlockingIsReported(cfg, w, command, sids, e.source.value);
    }
  }

  /** Readiness judges every source of a project in one way only: it is eligible, or its status is reported as
      invalid, or it is reported as unconfirmed, or some finding about its targets is reported. */
  lemma EverySourceIsJudged(cfg: Config, w: World, project: Id, command: Command, sid: Id)
    requires sid in ProjectSources(w, project)
    ensures var eligible := Eligible(cfg, w, sid, command);
            var invalid := ReportedFor(cfg, w, command, project, Finding(DatasourceStatusInvalid, Some(sid), None));
            var unconfirmed := ReportedFor(cfg, w, command, project, Finding(PassiveUnconfirmed, Some(sid), None));
            var blocked := exists e: Finding :: e.source == Some(sid) && Reported(cfg, w, command, ProjectSources(w, project), e) && Blocks(e);
            && (eligible || invalid || unconfirmed || blocked)
            && !(eligible && (invalid || unconfirmed || blocked))
            && !(invalid && (unconfirmed || blocked)) && !(unconfirmed && blocked)
  {
    BlockingIsReported(cfg, w, command, ProjectSources(w, project), sid);
  }

  lemma BlockingIsReported(cfg: Config, w: World, command: Command, sids: set<Id>, sid: Id)
    requires sids <= w.sources.Keys && sid in sids
    ensures Blocking(cfg, w, sid, command) <==> exists e: Finding :: e.source == Some(sid) && Reported(cfg, w, command, sids, e) && Blocks(e)
  {
    ReadyWhenNoneFound(cfg, w, sid);
    var missing, failed := MissingIn(cfg, w, {sid}), FailedIn(cfg, w, {sid});
    if Blocking(cfg, w, sid, command) {
      if tid :| tid in missing {
        assert Reported(cfg, w, command, sids, Finding(TargetDryrunMissing, Some(sid), Some(tid)));
      } else if tid :| tid in failed {
        assert Reported(cfg, w, command, sids, Finding(TargetDryrunFailed, Some(sid), Some(tid)));
      } else {
        assert missing == {} && failed == {};
        assert Reported(cfg, w, command, sids, Finding(ActiveTargetRequired, Some(sid), None));
      }
    }
    if exists e: Finding :: e.source == Some(sid) && Reported(cfg, w, command, sids, e) && Blocks(e) {
      var e: Finding :| e.source == Some(sid) && Reported(cfg, w, command, sids, e) && Blocks(e);
      assert e.code.TargetDryrunMissing? ==> e.target.value in missing;
      assert e.code.TargetDryrunFailed? ==> e.target.value in failed;
    }
  }

  /** Project activation keeps what readiness asked for: readiness passes again, and a second
      activation moves no source. */
  lemma ActivateTwice(cfg: Config, w: World, project: Id)
    requires SourcesOk(w) && CanProceed(cfg, w, project, Activate)
    ensures var moved := Apply(w, MoveProject(project, SourceStatus.Ready, SourceStatus.Active));
            && moved.Some?
            && CanProceed(cfg, moved.value, project, Activate)
            && Apply(moved.value, MoveProject(project, SourceStatus.Ready, SourceStatus.Active)) == moved
            && forall sid :: sid in moved.value.sources ==> !Moves(moved.value, project, SourceStatus.Ready, sid)
  {
    var w' := Apply(w, MoveProject(project, SourceStatus.Ready, SourceStatus.Active)).value;
    forall sid | sid in w.sources
      ensures InProject(w', project, sid) == InProject(w, project, sid)
      ensures InProject(w, project, sid) ==> Eligible(cfg, w', sid, Activate) == Eligible(cfg, w, sid, Activate)
    {
      assert ActiveTargets(w', sid) == ActiveTargets(w, sid);
      assert forall tid :: tid in w.targets && ActiveListed(w, sid, tid) ==>
                             DryrunAcceptable(cfg, w', sid, tid) == DryrunAcceptable(cfg, w, sid, tid);
    }
    assert Moved(w', project, SourceStatus.Ready, SourceStatus.Active) == w'.sources;
  }
}
