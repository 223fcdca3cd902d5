/** What each control-plane operation leaves behind, read off the stored rows alone: when it takes effect,
    every column it changes, and that all else stays. `through` of its writes reach the database. */
module OutcomeTheorems {
  import opened Model
  import opened Text
  import opened Values
  import opened ControlPlane
  import opened Invariants
  import opened DryrunTheorems

  // ---------------------------------------------------------------- reading the rows

  /** Row `i` is the newest result of a target. */
  predicate NewestAt(rows: seq<Dryrun>, tid: Id, i: nat) {
    i < |rows| && rows[i].target == Some(tid) && forall j :: i < j < |rows| ==> rows[j].target != Some(tid)
  }

  /** The newest result of the target is RUNNING. */
  ghost predicate InFlight(w: World, tid: Id) {
    exists i: nat :: NewestAt(w.dryruns, tid, i) && w.dryruns[i].status.Running?
  }

  /** Its newest result is SUCCESS or WARNING. */
  ghost predicate Proven(w: World, tid: Id) {
    exists i: nat :: NewestAt(w.dryruns, tid, i) && w.dryruns[i].status in {DryrunStatus.Success, DryrunStatus.Warning}
  }

  /** It has a newest result, which is not FAILED. */
  ghost predicate Unfailed(w: World, tid: Id) {
    exists i: nat :: NewestAt(w.dryruns, tid, i) && w.dryruns[i].status != DryrunStatus.Failed
  }

  /** A target of the source that is not flushed. */
  predicate Shown(w: World, sid: Id, tid: Id) {
    tid in w.targets && w.targets[tid].source == sid && !(w.targets[tid].meta.Meta? && w.targets[tid].meta.flushed)
  }

  ghost predicate SomeInFlight(w: World, sid: Id) {
    exists tid :: Shown(w, sid, tid) && InFlight(w, tid)
  }

  /** The source has an active target, and each of them the dryrun evidence it needs. */
  ghost predicate Crawlable(cfg: Config, w: World, sid: Id)
    requires sid in w.sources
  {
    && (exists tid :: Shown(w, sid, tid) && w.targets[tid].isActive)
    && forall tid :: Shown(w, sid, tid) && w.targets[tid].isActive ==>
         (cfg.required(Some(w.sources[sid].sourceType), w.targets[tid].targetType) ==> Unfailed(w, tid))
  }

  lemma {:induction false} LatestIsNewest(rows: seq<Dryrun>, tid: Id)
    ensures LatestOf(rows, tid).Some? ==> exists i: nat :: NewestAt(rows, tid, i)
    ensures forall i: nat :: NewestAt(rows, tid, i) ==> LatestOf(rows, tid) == Some(rows[i])
  {
    if rows != [] {
      var n := |rows| - 1;
      LatestIsNewest(rows[..n], tid);
      if rows[n].target == Some(tid) {
        assert NewestAt(rows, tid, n);
      } else {
        forall i: nat ensures NewestAt(rows, tid, i) <==> NewestAt(rows[..n], tid, i) {
          NewestBefore(rows, tid, i);
        }
      }
    }
  }

  lemma NewestBefore(rows: seq<Dryrun>, tid: Id, i: nat)
    requires rows != [] && rows[|rows| - 1].target != Some(tid)
    ensures NewestAt(rows, tid, i) <==> NewestAt(rows[..|rows| - 1], tid, i)
  {
    var before := rows[..|rows| - 1];
    assert forall j :: 0 <= j < |before| ==> before[j] == rows[j];
  }

  lemma DryrunReads(w: World, tid: Id)
    ensures DryrunRunning(w, tid) <==> InFlight(w, tid)
    ensures (LatestOf(w.dryruns, tid).Some? && IsUsableDryrunStatus(LatestOf(w.dryruns, tid).value.status)) <==> Proven(w, tid)
    ensures (LatestOf(w.dryruns, tid).Some? && !LatestOf(w.dryruns, tid).value.status.Failed?) <==> Unfailed(w, tid)
  {
    LatestIsNewest(w.dryruns, tid);
  }

  lemma FlightReads(w: World, sid: Id)
    ensures AnyListedDryrunRunning(w, sid) <==> SomeInFlight(w, sid)
  {
    forall tid ensures DryrunRunning(w, tid) <==> InFlight(w, tid) {
      DryrunReads(w, tid);
    }
    forall tid ensures Listed(w, sid, tid) <==> Shown(w, sid, tid) {
    }
    if SomeInFlight(w, sid) {
      var tid :| Shown(w, sid, tid) && InFlight(w, tid);
      assert tid in w.targets && Listed(w, sid, tid) && DryrunRunning(w, tid);
    }
  }

  lemma TargetsRead(cfg: Config, w: World, sid: Id)
    requires sid in w.sources
    ensures TargetsReady(cfg, w, sid) <==> Crawlable(cfg, w, sid)
  {
    forall tid ensures ActiveListed(w, sid, tid) <==> Shown(w, sid, tid) && w.targets[tid].isActive {
    }
    forall tid | tid in w.targets && ActiveListed(w, sid, tid)
      ensures DryrunAcceptable(cfg, w, sid, tid) <==>
              (cfg.required(Some(w.sources[sid].sourceType), w.targets[tid].targetType) ==> Unfailed(w, tid))
    {
      DryrunReads(w, tid);
    }
    if tid :| Shown(w, sid, tid) && w.targets[tid].isActive {
      assert tid in ActiveTargets(w, sid);
    }
    if tid :| tid in ActiveTargets(w, sid) {
      assert Shown(w, sid, tid) && w.targets[tid].isActive;
    }
  }

  /** The source has two active targets. */
  ghost predicate HasTwo(w: World, sid: Id) {
    exists a, b :: a != b && Shown(w, sid, a) && w.targets[a].isActive && Shown(w, sid, b) && w.targets[b].isActive
  }

  lemma CountReads(w: World, sid: Id)
    ensures |ActiveTargets(w, sid)| > 1 <==> HasTwo(w, sid)
  {
    var active := ActiveTargets(w, sid);
    if HasTwo(w, sid) {
      var a, b :| a != b && Shown(w, sid, a) && w.targets[a].isActive && Shown(w, sid, b) && w.targets[b].isActive;
      assert a in active && b in active - {a};
      assert |active - {a}| == |active| - 1;
    }
    if |active| > 1 {
      var a :| a in active;
      var rest := active - {a};
      assert |rest| == |active| - 1;
      var b :| b in rest;
      assert b in active && a != b;
      assert Shown(w, sid, a) && w.targets[a].isActive && Shown(w, sid, b) && w.targets[b].isActive;
    }
  }

  lemma OneWriteIs(w: World, plan: Plan, through: nat)
    requires plan.Some? ==> |plan.value| == 1
    ensures ApplyAll(w, Issued(plan, through)) ==
            if plan.Some? && through >= 1 && Apply(w, plan.value[0]).Some? then Apply(w, plan.value[0]).value else w
  {
    if plan.Some? && through >= 1 {
      assert Issued(plan, through) == [plan.value[0]];
      ApplyOne(w, plan.value[0]);
    }
  }

  lemma TwoWritesAre(w: World, plan: Plan, through: nat)
    requires plan.Some? && |plan.value| == 2
    ensures ApplyAll(w, Issued(plan, through)) ==
            if through == 0 || Apply(w, plan.value[0]).None? then w
            else
              var w1 := Apply(w, plan.value[0]).value;
              if through == 1 || Apply(w1, plan.value[1]).None? then w1 else Apply(w1, plan.value[1]).value
  {
    var a, b := plan.value[0], plan.value[1];
    assert plan.value == [a, b];
    ApplyOne(w, a);
    ApplyTwo(w, a, b);
    if Apply(w, a).Some? {
      ApplyOne(Apply(w, a).value, b);
    }
    assert Issued(plan, through) == if through == 0 then [] else if through == 1 then [a] else [a, b];
  }

  // ---------------------------------------------------------------- data sources

  /** A source is created exactly from a named project, a nonblank name, a category that fits the type,
      and for crawl sources a mode and a positive interval. */
  lemma CreateSourceIs(cfg: Config, w: World, id: Id, c: CreateInput, available: bool, through: nat)
    requires id !in w.sources && id !in w.audit
    ensures Step(cfg, w, Call(OpCreateSource(id, c, available), through)) ==
            if && through >= 1 && available
               && c.project.Some? && TrimSpace(c.labels.name) != "" && c.category.Some?
               && (c.category.value.Crawl? <==> c.sourceType in {SourceType.TikTok, SourceType.Facebook, SourceType.YouTube})
               && (c.category.value.Crawl? ==> c.crawlMode.Some? && c.interval > 0)
            then
              w.(audit := w.audit[id := []],
                 sources := w.sources[id := Source(
                   project := c.project.value,
                   labels := Labels(TrimSpace(c.labels.name), c.labels.description, c.labels.accountRef),
                   sourceType := c.sourceType, category := c.category.value, status := SourceStatus.Pending,
                   onboarding := Onboarding.NotRequired, dryrunStatus := DryrunStatus.NotRequired, dryrunLastResult := None,
                   crawlMode := c.crawlMode, interval := if c.interval > 0 then Some(c.interval) else None,
                   config := if c.config != "" then c.config else "{}", mappingRules := c.mappingRules,
                   webhookId := c.webhookId, webhookSecret := c.webhookSecret, deleted := false)])
            else w
  {
    OneWriteIs(w, PlanCreateSource(id, c, available), through);
  }

  /** An update is refused for a bad interval, a missing source, a flying dryrun, and for settings of an
      ACTIVE source; otherwise it changes the nonblank columns given. */
  lemma UpdateSourceIs(cfg: Config, w: World, id: Id, e: SourceUpdate, through: nat)
    requires SourcesOk(w)
    ensures var resets := e.config != "" || e.mappingRules != "";
            Step(cfg, w, Call(OpUpdateSource(id, e), through)) ==
            if && through >= 1 && (e.interval.Some? ==> e.interval.value > 0)
               && id in w.sources && !w.sources[id].deleted && !SomeInFlight(w, id)
               && (w.sources[id].status.Active? ==> !resets && e.interval.None?)
            then
              var s := w.sources[id];
              w.(sources := w.sources[id := s.(
                labels := Labels(if TrimSpace(e.labels.name) != "" then TrimSpace(e.labels.name) else s.labels.name,
                                 if e.labels.description != "" then e.labels.description else s.labels.description,
                                 if e.labels.accountRef != "" then e.labels.accountRef else s.labels.accountRef),
                config := if e.config != "" then e.config else s.config,
                mappingRules := if e.mappingRules != "" then e.mappingRules else s.mappingRules,
                interval := if e.interval.Some? then e.interval else s.interval,
                dryrunStatus := if resets then DryrunStatus.NotRequired else s.dryrunStatus)])
            else w
  {
    FlightReads(w, id);
    OneWriteIs(w, PlanUpdateSource(w, id, e), through);
  }

  lemma ArchiveSourceIs(cfg: Config, w: World, id: Id, through: nat)
    requires SourcesOk(w)
    ensures Step(cfg, w, Call(OpArchiveSource(id), through)) ==
            if through >= 1 && id in w.sources && !w.sources[id].deleted && !SomeInFlight(w, id)
            then w.(sources := w.sources[id := w.sources[id].(status := SourceStatus.Archived)])
            else w
  {
    FlightReads(w, id);
    var plan := PlanArchiveSource(w, id);
    if plan == Some([]) {
      assert w.sources[id := w.sources[id].(status := SourceStatus.Archived)] == w.sources;
      assert Issued(plan, through) == [];
    } else {
      OneWriteIs(w, plan, through);
    }
  }

  lemma DeleteSourceIs(cfg: Config, w: World, id: Id, through: nat)
    requires SourcesOk(w)
    ensures Step(cfg, w, Call(OpDeleteSource(id), through)) ==
            if && through >= 1 && id in w.sources && !w.sources[id].deleted
               && w.sources[id].status.Archived? && !SomeInFlight(w, id)
            then w.(sources := w.sources[id := w.sources[id].(deleted := true)])
            else w
  {
    FlightReads(w, id);
    OneWriteIs(w, PlanDeleteSource(w, id), through);
  }

  // ---------------------------------------------------------------- lifecycle

  /** What a source needs to run: a crawl source a mode, a positive interval and crawlable targets; of the
      passive ones only a webhook with its id and secret. */
  ghost predicate MayRun(cfg: Config, w: World, id: Id)
    requires id in w.sources
  {
    var s := w.sources[id];
    if s.category == Crawl
    then s.crawlMode != None && s.interval.Some? && s.interval.value > 0 && Crawlable(cfg, w, id)
    else s.sourceType == SourceType.Webhook && s.webhookId != "" && s.webhookSecret != ""
  }

  function WithStatus(w: World, id: Id, status: SourceStatus): World
    requires id in w.sources
  {
    w.(sources := w.sources[id := w.sources[id].(status := status)])
  }

  /** A READY source is activated, and a PAUSED one resumed, exactly when it may run. */
  lemma StartIs(cfg: Config, w: World, id: Id, through: nat)
    requires SourcesOk(w)
    ensures Step(cfg, w, Call(OpActivateSource(id), through)) ==
            if through >= 1 && id in w.sources && !w.sources[id].deleted && w.sources[id].status.Ready? && MayRun(cfg, w, id)
            then WithStatus(w, id, SourceStatus.Active) else w
    ensures Step(cfg, w, Call(OpResumeSource(id), through)) ==
            if through >= 1 && id in w.sources && !w.sources[id].deleted && w.sources[id].status.Paused? && MayRun(cfg, w, id)
            then WithStatus(w, id, SourceStatus.Active) else w
  {
    if id in w.sources {
      TargetsRead(cfg, w, id);
    }
    OneWriteIs(w, PlanActivateSource(cfg, w, id), through);
    OneWriteIs(w, PlanResumeSource(cfg, w, id), through);
  }

  lemma PauseIs(cfg: Config, w: World, id: Id, through: nat)
    requires SourcesOk(w)
    ensures Step(cfg, w, Call(OpPauseSource(id), through)) ==
            if through >= 1 && id in w.sources && !w.sources[id].deleted && w.sources[id].status.Active?
            then WithStatus(w, id, SourceStatus.Paused) else w
  {
    OneWriteIs(w, PlanPauseSource(w, id), through);
  }

  predicate ModeChangeable(s: Source) {
    && s.category == Crawl && s.status in {SourceStatus.Ready, SourceStatus.Active, SourceStatus.Paused}
    && s.crawlMode != None && s.interval.Some? && s.interval.value > 0
  }

  /** A mode change first writes the mode and then the row that says so. */
  lemma CrawlModeIs(cfg: Config, w: World, id: Id, mode: CrawlMode, through: nat)
    requires SourcesOk(w)
    ensures Step(cfg, w, Call(OpUpdateCrawlMode(id, mode), through)) ==
            if through == 0 || id !in w.sources || w.sources[id].deleted || !ModeChangeable(w.sources[id]) then w
            else
              w.(sources := w.sources[id := w.sources[id].(crawlMode := Some(mode))],
                 audit := if through == 1 then w.audit
                          else w.audit[id := w.audit[id] + [ModeChange(w.sources[id].crawlMode.value, mode)]])
  {
    var plan := PlanUpdateCrawlMode(w, id, mode);
    if plan.Some? {
      TwoWritesAre(w, plan, through);
    }
  }

  // ---------------------------------------------------------------- project scope

  predicate Member(w: World, project: Id, sid: Id) {
    sid in w.sources && w.sources[sid].project == project && !w.sources[sid].deleted
  }

  /** READY sources wait for an activation, PAUSED ones for a resumption; ACTIVE ones count in both. */
  predicate Concerned(s: Source, command: Command) {
    s.status.Active? || s.status == if command.Activate? then SourceStatus.Ready else SourceStatus.Paused
  }

  /** Some concerned source of the project is confirmed or crawlable, and no concerned crawl source is not. */
  ghost predicate MayProceed(cfg: Config, w: World, project: Id, command: Command) {
    && (exists sid :: Member(w, project, sid) && Concerned(w.sources[sid], command)
                      && if w.sources[sid].category == Crawl then Crawlable(cfg, w, sid) else w.sources[sid].onboarding.Confirmed?)
    && forall sid :: Member(w, project, sid) && Concerned(w.sources[sid], command) && w.sources[sid].category == Crawl ==> Crawlable(cfg, w, sid)
  }

  lemma ProceedReads(cfg: Config, w: World, project: Id, command: Command)
    ensures CanProceed(cfg, w, project, command) <==> MayProceed(cfg, w, project, command)
  {
    forall sid | sid in w.sources ensures TargetsReady(cfg, w, sid) <==> Crawlable(cfg, w, sid) {
      TargetsRead(cfg, w, sid);
    }
    forall sid ensures (sid in w.sources && InProject(w, project, sid)) <==> Member(w, project, sid) {
    }
    forall sid | sid in w.sources ensures AllowedFor(w.sources[sid].status, command) <==> Concerned(w.sources[sid], command) {
    }
    if CanProceed(cfg, w, project, command) {
      var sid :| sid in w.sources && InProject(w, project, sid) && Eligible(cfg, w, sid, command);
      assert Member(w, project, sid) && Concerned(w.sources[sid], command);
      forall sid | Member(w, project, sid) && Concerned(w.sources[sid], command) && w.sources[sid].category == Crawl ensures Crawlable(cfg, w, sid) {
        assert InProject(w, project, sid) && !Blocking(cfg, w, sid, command);
      }
    }
    if MayProceed(cfg, w, project, command) {
      var sid :| Member(w, project, sid) && Concerned(w.sources[sid], command)
                 && if w.sources[sid].category == Crawl then Crawlable(cfg, w, sid) else w.sources[sid].onboarding.Confirmed?;
      assert InProject(w, project, sid) && Eligible(cfg, w, sid, command);
    }
  }

  function ProjectMoved(w: World, project: Id, from: SourceStatus, to: SourceStatus): World {
    w.(sources := map sid | sid in w.sources ::
         if Member(w, project, sid) && w.sources[sid].status == from then w.sources[sid].(status := to) else w.sources[sid])
  }

  lemma MovedIs(w: World, project: Id, from: SourceStatus, to: SourceStatus)
    ensures Moved(w, project, from, to) == ProjectMoved(w, project, from, to).sources
  {
  }

  /** The READY sources of a project become ACTIVE exactly when it may proceed. */
  lemma ProjectActivateIs(cfg: Config, w: World, project: Id, through: nat)
    requires SourcesOk(w)
    ensures Step(cfg, w, Call(OpProjectActivate(project), through)) ==
            if through >= 1 && MayProceed(cfg, w, project, Activate)
            then ProjectMoved(w, project, SourceStatus.Ready, SourceStatus.Active) else w
  {
    ProceedReads(cfg, w, project, Activate);
    MovedIs(w, project, SourceStatus.Ready, SourceStatus.Active);
    OneWriteIs(w, PlanProjectActivate(cfg, w, project), through);
  }

  lemma ProjectPauseIs(cfg: Config, w: World, project: Id, through: nat)
    requires SourcesOk(w)
    ensures Step(cfg, w, Call(OpProjectPause(project), through)) ==
            if through >= 1 then ProjectMoved(w, project, SourceStatus.Active, SourceStatus.Paused) else w
  {
    MovedIs(w, project, SourceStatus.Active, SourceStatus.Paused);
    OneWriteIs(w, PlanProjectPause(project), through);
  }

  /** So do the PAUSED ones, unless one of them is a webhook without its id or secret: then the schema
      refuses the statement. */
  lemma ProjectResumeIs(cfg: Config, w: World, project: Id, through: nat)
    requires SourcesOk(w)
    ensures Step(cfg, w, Call(OpProjectResume(project), through)) ==
            if through >= 1 && MayProceed(cfg, w, project, Resume) && (forall sid :: PausedIn(w, project, sid) ==> Runnable(w.sources[sid]))
            then ProjectMoved(w, project, SourceStatus.Paused, SourceStatus.Active) else w
  {
    ProceedReads(cfg, w, project, Resume);
    ResumeApplies(w, project);
    OneWriteIs(w, PlanProjectResume(cfg, w, project), through);
  }

  predicate PausedIn(w: World, project: Id, sid: Id) {
    Member(w, project, sid) && w.sources[sid].status.Paused?
  }

  predicate Runnable(s: Source) {
    s.sourceType == SourceType.Webhook ==> s.webhookId != "" && s.webhookSecret != ""
  }

  lemma ResumeApplies(w: World, project: Id)
    requires SourcesOk(w)
    ensures Apply(w, MoveProject(project, SourceStatus.Paused, SourceStatus.Active)) ==
            if forall sid :: PausedIn(w, project, sid) ==> Runnable(w.sources[sid])
            then Some(ProjectMoved(w, project, SourceStatus.Paused, SourceStatus.Active)) else None
  {
    MovedIs(w, project, SourceStatus.Paused, SourceStatus.Active);
    var sources := Moved(w, project, SourceStatus.Paused, SourceStatus.Active);
    forall sid | sid in w.sources ensures SourceRowOk(sources[sid]) <==> (PausedIn(w, project, sid) ==> Runnable(w.sources[sid])) {
    }
  }

  predicate ModeFlips(w: World, project: Id, mode: CrawlMode, locked: set<Id>, sid: Id) {
    Member(w, project, sid) && ModeChangeable(w.sources[sid]) && w.sources[sid].crawlMode != Some(mode) && sid !in locked
  }

  lemma ProjectCrawlModeIs(cfg: Config, w: World, project: Id, mode: CrawlMode, locked: set<Id>, through: nat)
    requires SourcesOk(w)
    ensures Step(cfg, w, Call(OpProjectCrawlMode(project, mode, locked), through)) ==
            if through == 0 then w else ModesFlipped(w, project, mode, locked)
  {
    OneWriteIs(w, Some([FlipProject(project, mode, locked)]), through);
    FlipIs(w, project, mode, locked);
  }

  /** Each flipped source gets the mode and one audit row from its old mode to it. */
  function ModesFlipped(w: World, project: Id, mode: CrawlMode, locked: set<Id>): World {
    w.(sources := map sid | sid in w.sources ::
         if ModeFlips(w, project, mode, locked, sid) then w.sources[sid].(crawlMode := Some(mode)) else w.sources[sid],
       audit := map sid | sid in w.audit ::
         if ModeFlips(w, project, mode, locked, sid)
         then w.audit[sid] + [ModeChange(w.sources[sid].crawlMode.value, mode)] else w.audit[sid])
  }

  lemma FlipIs(w: World, project: Id, mode: CrawlMode, locked: set<Id>)
    ensures Apply(w, FlipProject(project, mode, locked)) == Some(ModesFlipped(w, project, mode, locked))
  {
    forall sid ensures Flips(w, project, mode, locked, sid) <==> ModeFlips(w, project, mode, locked, sid) {
    }
    var w', flipped := Apply(w, FlipProject(project, mode, locked)).value, ModesFlipped(w, project, mode, locked);
    assert w'.sources == flipped.sources;
    assert w'.audit == flipped.audit;
  }

  // ---------------------------------------------------------------- crawl targets

  function WithTarget(w: World, tid: Id, t: Target): World {
    w.(targets := w.targets[tid := t])
  }

  /** A target is created, inactive, exactly under a live, unarchived crawl source from values that prepare. */
  lemma CreateTargetIs(cfg: Config, w: World, tid: Id, sid: Id, targetType: TargetType, i: TargetInput, through: nat)
    requires tid !in w.targets
    ensures Step(cfg, w, Call(OpCreateTarget(tid, sid, targetType, i), through)) ==
            if && through >= 1 && i.interval >= 0
               && sid in w.sources && !w.sources[sid].deleted && !w.sources[sid].status.Archived? && w.sources[sid].category == Crawl
               && Prepared(targetType, i.values, cfg.isUrl).Some?
            then
              WithTarget(w, tid, Target(
                source := sid, targetType := targetType, values := Normalized(i.values, targetType.Keyword?),
                targetLabel := i.targetLabel, meta := i.meta, isActive := false, priority := i.priority,
                interval := if i.interval > 0 then i.interval else 11))
            else w
  {
    OneWriteIs(w, PlanCreateTarget(cfg, w, tid, sid, targetType, i), through);
  }

  /** The crawl-relevant columns differ from what the update carries. */
  predicate Differs(t: Target, u: TargetUpdate) {
    !(u.interval in {None, Some(t.interval)} && u.meta in {None, Some(t.meta)})
  }

  predicate Updatable(cfg: Config, w: World, sid: Id, tid: Id, u: TargetUpdate) {
    && tid in w.targets && w.targets[tid].source == sid
    && (u.interval.Some? ==> u.interval.value > 0)
    && (u.values.Some? ==> Prepared(w.targets[tid].targetType, u.values.value, cfg.isUrl) == Some(w.targets[tid].values))
  }

  /** A target update writes the given columns. Another interval or other metadata also disables the
      target and then sends its source back to PENDING; anything else leaves both as they were. */
  lemma UpdateTargetIs(cfg: Config, w: World, sid: Id, tid: Id, u: TargetUpdate, through: nat)
    requires RowsOk(w)
    ensures Step(cfg, w, Call(OpUpdateTarget(sid, tid, u), through)) ==
            if through == 0 || !Updatable(cfg, w, sid, tid, u) || InFlight(w, tid) then w else TargetUpdated(w, sid, tid, u, through)
  {
    TargetUpdateIs(cfg, w, sid, tid, u, through);
  }

  function TargetEdited(t: Target, u: TargetUpdate): Target {
    t.(targetLabel := if u.targetLabel != "" then u.targetLabel else t.targetLabel,
       meta := if u.meta.Some? && u.meta.value.Meta? then u.meta.value else t.meta,
       priority := if u.priority.Some? then u.priority.value else t.priority,
       interval := if u.interval.Some? then u.interval.value else t.interval,
       isActive := t.isActive && !Differs(t, u))
  }

  function TargetUpdated(w: World, sid: Id, tid: Id, u: TargetUpdate, through: nat): World
    requires tid in w.targets
  {
    var w1 := WithTarget(w, tid, TargetEdited(w.targets[tid], u));
    if Differs(w.targets[tid], u) && through >= 2 && sid in w.sources && !w.sources[sid].deleted
    then w1.(sources := w.sources[sid := w.sources[sid].(status := SourceStatus.Pending, dryrunStatus := DryrunStatus.Pending)])
    else w1
  }

  lemma DifferenceReads(t: Target, u: TargetUpdate)
    ensures Material(t, u) <==> Differs(t, u)
  {
    assert u.interval in {None, Some(t.interval)} <==> u.interval.None? || u.interval.value == t.interval;
    assert u.meta in {None, Some(t.meta)} <==> u.meta.None? || u.meta.value == t.meta;
  }

  lemma UpdatePlanned(cfg: Config, w: World, sid: Id, tid: Id, u: TargetUpdate)
    requires RowsOk(w)
    ensures PlanUpdateTarget(cfg, w, sid, tid, u) ==
            if !Updatable(cfg, w, sid, tid, u) || InFlight(w, tid) then None
            else
              var update := UpdateTargetRow(tid, TargetUpdatePatch(w.targets[tid], u));
              Some(if Differs(w.targets[tid], u) && sid in w.sources && !w.sources[sid].deleted
                   then [update, UpdateSourceRow(sid, MARK_PENDING)] else [update])
  {
    DryrunReads(w, tid);
    if tid in w.targets && w.targets[tid].source == sid {
      UpdateAccepts(cfg, w, tid, u);
      DifferenceReads(w.targets[tid], u);
    }
  }

  lemma UpdateApplies(w: World, tid: Id, u: TargetUpdate)
    requires TargetsOk(w) && tid in w.targets && (u.interval.Some? ==> u.interval.value > 0)
    ensures Apply(w, UpdateTargetRow(tid, TargetUpdatePatch(w.targets[tid], u))) == Some(WithTarget(w, tid, TargetEdited(w.targets[tid], u)))
  {
    DifferenceReads(w.targets[tid], u);
  }

  lemma TargetUpdateIs(cfg: Config, w: World, sid: Id, tid: Id, u: TargetUpdate, through: nat)
    requires RowsOk(w)
    ensures ApplyAll(w, Issued(PlanUpdateTarget(cfg, w, sid, tid, u), through)) ==
            if through == 0 || !Updatable(cfg, w, sid, tid, u) || InFlight(w, tid) then w else TargetUpdated(w, sid, tid, u, through)
  {
    UpdatePlanned(cfg, w, sid, tid, u);
    var plan := PlanUpdateTarget(cfg, w, sid, tid, u);
    if plan.Some? {
      UpdateApplies(w, tid, u);
      if |plan.value| == 2 {
        TwoWritesAre(w, plan, through);
      } else {
        OneWriteIs(w, plan, through);
      }
    }
  }

  lemma UpdateAccepts(cfg: Config, w: World, tid: Id, u: TargetUpdate)
    requires RowsOk(w) && tid in w.targets
    ensures var t := w.targets[tid];
            ValuesAccepted(cfg, t, u.values) <==> (u.values.Some? ==> Prepared(t.targetType, u.values.value, cfg.isUrl) == Some(t.values))
  {
    var t := w.targets[tid];
    if u.values.Some? {
      NormalizedIsNormal(u.values.value, t.targetType.Keyword?);
      SlicesEqualOnNormal(t.values, Normalized(u.values.value, t.targetType.Keyword?), t.targetType.Keyword?);
    }
  }

  /** Whether a target needs dryrun evidence; its source may be gone. */
  predicate NeedsDryrun(cfg: Config, w: World, sid: Id, tid: Id)
    requires tid in w.targets
  {
    cfg.required(if sid in w.sources && !w.sources[sid].deleted then Some(w.sources[sid].sourceType) else None, w.targets[tid].targetType)
  }

  function EnabledIn(w: World, tid: Id): World
    requires tid in w.targets
  {
    WithTarget(w, tid, w.targets[tid].(isActive := true))
  }

  /** A target is enabled exactly when it needs no dryrun or has a usable one; a PENDING source whose
      target needs none then becomes READY. */
  lemma ActivateTargetIs(cfg: Config, w: World, sid: Id, tid: Id, through: nat)
    requires RowsOk(w)
    ensures Step(cfg, w, Call(OpActivateTarget(sid, tid), through)) == TargetActivated(cfg, w, sid, tid, through)
  {
    ActivationIs(cfg, w, sid, tid, through);
  }

  ghost function TargetActivated(cfg: Config, w: World, sid: Id, tid: Id, through: nat): World {
    if through == 0 || !Enables(cfg, w, sid, tid) then w
    else if through >= 2 && Promotes(cfg, w, sid, tid) && Runnable(w.sources[sid]) then PromotedIn(w, sid, tid)
    else EnabledIn(w, tid)
  }

  lemma ActivationIs(cfg: Config, w: World, sid: Id, tid: Id, through: nat)
    requires RowsOk(w)
    ensures ApplyAll(w, Issued(PlanActivateTarget(cfg, w, sid, tid), through)) == TargetActivated(cfg, w, sid, tid, through)
  {
    ActivationPlanned(cfg, w, sid, tid);
    var plan := PlanActivateTarget(cfg, w, sid, tid);
    if plan.None? || plan.value == [] {
      assert Issued(plan, through) == [];
    } else {
      EnableApplies(w, sid, tid);
      if |plan.value| == 2 {
        TwoWritesAre(w, plan, through);
      } else {
        OneWriteIs(w, plan, through);
      }
    }
  }

  /** A target that is there and idle, and has the evidence it needs. */
  ghost predicate Enables(cfg: Config, w: World, sid: Id, tid: Id) {
    && tid in w.targets && w.targets[tid].source == sid && !w.targets[tid].isActive
    && (NeedsDryrun(cfg, w, sid, tid) ==> Proven(w, tid))
  }

  ghost predicate Promotes(cfg: Config, w: World, sid: Id, tid: Id) {
    && tid in w.targets && !NeedsDryrun(cfg, w, sid, tid)
    && sid in w.sources && !w.sources[sid].deleted && w.sources[sid].status.Pending?
  }

  lemma ActivationPlanned(cfg: Config, w: World, sid: Id, tid: Id)
    ensures var plan := PlanActivateTarget(cfg, w, sid, tid);
            if !Enables(cfg, w, sid, tid) then plan.None? || plan.value == []
            else plan == Some(if Promotes(cfg, w, sid, tid) then [UpdateTargetRow(tid, ENABLE), UpdateSourceRow(sid, MARK_READY)]
                              else [UpdateTargetRow(tid, ENABLE)])
  {
    DryrunReads(w, tid);
    ProvenIsIdle(w, tid);
  }

  lemma ProvenIsIdle(w: World, tid: Id)
    ensures Proven(w, tid) ==> !InFlight(w, tid)
  {
    LatestIsNewest(w.dryruns, tid);
  }

  lemma EnableApplies(w: World, sid: Id, tid: Id)
    requires RowsOk(w) && tid in w.targets
    ensures Apply(w, UpdateTargetRow(tid, ENABLE)) == Some(EnabledIn(w, tid))
    ensures sid in w.sources ==>
              Apply(EnabledIn(w, tid), UpdateSourceRow(sid, MARK_READY)) ==
              if w.sources[sid].sourceType.Webhook? && (w.sources[sid].webhookId == "" || w.sources[sid].webhookSecret == "")
              then None else Some(PromotedIn(w, sid, tid))
  {
  }

  function PromotedIn(w: World, sid: Id, tid: Id): World
    requires tid in w.targets && sid in w.sources
  {
    EnabledIn(w, tid).(sources := w.sources[sid := w.sources[sid].(status := SourceStatus.Ready, dryrunStatus := DryrunStatus.NotRequired)])
  }

  /** A target is disabled unless its dryrun flies, its source is gone, or an ACTIVE source would be left
      without an active target. */
  lemma DeactivateTargetIs(cfg: Config, w: World, sid: Id, tid: Id, through: nat)
    requires RowsOk(w)
    ensures Step(cfg, w, Call(OpDeactivateTarget(sid, tid), through)) ==
            if through >= 1 && Deactivates(w, sid, tid) then WithTarget(w, tid, w.targets[tid].(isActive := false)) else w
  {
    DeactivationIs(w, sid, tid, through);
  }

  lemma DeactivationIs(w: World, sid: Id, tid: Id, through: nat)
    requires RowsOk(w)
    ensures ApplyAll(w, Issued(PlanDeactivateTarget(w, sid, tid), through)) ==
            if through >= 1 && Deactivates(w, sid, tid) then WithTarget(w, tid, w.targets[tid].(isActive := false)) else w
  {
    DeactivationPlanned(w, sid, tid);
    var plan := PlanDeactivateTarget(w, sid, tid);
    if plan == Some([]) {
      assert Issued(plan, through) == [];
    } else {
      OneWriteIs(w, plan, through);
      DisableApplies(w, tid);
    }
  }

  lemma DisableApplies(w: World, tid: Id)
    requires TargetsOk(w)
    ensures tid in w.targets ==> Apply(w, UpdateTargetRow(tid, DISABLE)) == Some(WithTarget(w, tid, w.targets[tid].(isActive := false)))
  {
  }

  ghost predicate Deactivates(w: World, sid: Id, tid: Id) {
    && tid in w.targets && w.targets[tid].source == sid && w.targets[tid].isActive && !InFlight(w, tid)
    && sid in w.sources && !w.sources[sid].deleted
    && (w.sources[sid].status.Active? ==> HasTwo(w, sid))
  }

  lemma DeactivationPlanned(w: World, sid: Id, tid: Id)
    ensures if Deactivates(w, sid, tid) then PlanDeactivateTarget(w, sid, tid) == Some([UpdateTargetRow(tid, DISABLE)])
            else PlanDeactivateTarget(w, sid, tid) in {None, Some([])}
  {
    DryrunReads(w, tid);
    CountReads(w, sid);
  }

  /** A deleted target stays stored, inactive and flushed, whatever its source is. */
  lemma DeleteTargetIs(cfg: Config, w: World, sid: Id, tid: Id, hidden: bool, text: string, through: nat)
    requires RowsOk(w)
    ensures Step(cfg, w, Call(OpDeleteTarget(sid, tid, hidden, text), through)) ==
            if through >= 1 && hidden && tid in w.targets && w.targets[tid].source == sid && !InFlight(w, tid)
            then WithTarget(w, tid, Flushed(w.targets[tid], text)) else w
  {
    DryrunReads(w, tid);
    if tid in w.targets {
      FlushApplies(w, tid, text);
    }
    OneWriteIs(w, PlanDeleteTarget(w, sid, tid, hidden, text), through);
  }

  function Flushed(t: Target, text: string): Target {
    t.(isActive := false,
       meta := if t.meta.Meta? then t.meta.(text := text, flushed := true) else Meta(text, true, [], "", [], [], "", "", []))
  }

  lemma FlushApplies(w: World, tid: Id, text: string)
    requires TargetsOk(w) && tid in w.targets
    ensures Apply(w, UpdateTargetRow(tid, DISABLE.(meta := Some(FlushedMeta(w.targets[tid].meta, text))))) ==
            Some(WithTarget(w, tid, Flushed(w.targets[tid], text)))
  {
  }

  // ---------------------------------------------------------------- dryruns

  predicate SomeNonblank(values: seq<string>) {
    exists i :: 0 <= i < |values| && TrimSpace(values[i]) != ""
  }

  /** The dryruns the service can send: keywords, and Facebook posts that name their parse ids. */
  predicate Dryable(s: Source, t: Target) {
    || (t.targetType.Keyword? && SomeNonblank(t.values))
    || (t.targetType.PostUrl? && s.sourceType.Facebook? && t.meta.Meta? && SomeNonblank(t.meta.parseIds))
  }

  lemma MappingReads(s: Source, t: Target)
    requires SourceRowOk(s) && s.category == Crawl
    ensures DryrunMapped(s, Some(t)) <==> Dryable(s, t)
  {
    if SomeNonblank(t.values) {
      var i :| 0 <= i < |t.values| && TrimSpace(t.values[i]) != "";
      NormalizedMembers(t.values, false, TrimSpace(t.values[i]));
    }
    if Normalized(t.values, false) != [] {
      NormalizedMembers(t.values, false, Normalized(t.values, false)[0]);
    }
    assert t.meta.Meta? ==> (HasParseIds(t.meta) <==> SomeNonblank(t.meta.parseIds));
  }

  ghost predicate Triggers(w: World, sid: Id, tid: Option<Id>) {
    && sid in w.sources && !w.sources[sid].deleted && w.sources[sid].status in {SourceStatus.Pending, SourceStatus.Ready}
    && w.sources[sid].category == Crawl
    && tid.Some? && tid.value in w.targets && w.targets[tid.value].source == sid && !InFlight(w, tid.value)
    && Dryable(w.sources[sid], w.targets[tid.value])
  }

  /** The source columns that follow its dryrun. */
  function Noted(w: World, sid: Id, dryrunStatus: DryrunStatus, rid: Id, status: SourceStatus): map<Id, Source>
    requires sid in w.sources
  {
    w.sources[sid := w.sources[sid].(dryrunStatus := dryrunStatus, dryrunLastResult := Some(rid), status := status)]
  }

  lemma TriggerReads(w: World, sid: Id, tid: Option<Id>, rid: Id, job: Id, published: bool)
    requires RowsOk(w)
    requires forall i :: 0 <= i < |w.dryruns| ==> w.dryruns[i].id != rid && w.dryruns[i].job != job
    ensures PlanTriggerDryrun(w, sid, tid, rid, job, published).Some? <==> Triggers(w, sid, tid)
  {
    if tid.Some? {
      DryrunReads(w, tid.value);
      if sid in w.sources && tid.value in w.targets && w.sources[sid].category == Crawl {
        MappingReads(w.sources[sid], w.targets[tid.value]);
      }
    }
  }

  /** The three states a trigger goes through: the result is inserted, its source marked, and, when the
      publish failed, both are failed. */
  ghost function Triggered(w: World, sid: Id, tid: Option<Id>, rid: Id, job: Id, steps: nat): World
    requires sid in w.sources
  {
    if steps == 0 then w
    else if steps == 1 then w.(dryruns := w.dryruns + [Dryrun(rid, sid, tid, job, DryrunStatus.Running, false)])
    else if steps == 2 then
      w.(dryruns := w.dryruns + [Dryrun(rid, sid, tid, job, DryrunStatus.Running, false)],
         sources := Noted(w, sid, DryrunStatus.Running, rid, SourceStatus.Pending))
    else
      w.(dryruns := w.dryruns + [Dryrun(rid, sid, tid, job, DryrunStatus.Failed, true)],
         sources := Noted(w, sid, DryrunStatus.Failed, rid, SourceStatus.Pending))
  }

  lemma TriggerIs(cfg: Config, w: World, sid: Id, tid: Option<Id>, rid: Id, job: Id, published: bool, through: nat)
    requires RowsOk(w)
    requires forall i :: 0 <= i < |w.dryruns| ==> w.dryruns[i].id != rid && w.dryruns[i].job != job
    ensures var steps := if through <= 2 then through else if published then 2 else 3;
            Step(cfg, w, Call(OpTriggerDryrun(sid, tid, rid, job, published), through)) ==
            if Triggers(w, sid, tid) then Triggered(w, sid, tid, rid, job, steps) else w
  {
    TriggerPlanIs(w, sid, tid, rid, job, published, through);
  }

  lemma TriggerPlanIs(w: World, sid: Id, tid: Option<Id>, rid: Id, job: Id, published: bool, through: nat)
    requires RowsOk(w)
    requires forall i :: 0 <= i < |w.dryruns| ==> w.dryruns[i].id != rid && w.dryruns[i].job != job
    ensures var steps := if through <= 2 then through else if published then 2 else 3;
            ApplyAll(w, Issued(PlanTriggerDryrun(w, sid, tid, rid, job, published), through)) ==
            if Triggers(w, sid, tid) then Triggered(w, sid, tid, rid, job, steps) else w
  {
    TriggerReads(w, sid, tid, rid, job, published);
    if Triggers(w, sid, tid) {
      TriggerWrites(w, sid, tid, rid, job);
      var insert := InsertDryrun(Dryrun(rid, sid, tid, job, DryrunStatus.Running, false));
      var mark, fail := UpdateSourceRow(sid, MarkRunning(w.sources[sid].status, rid)), FinishDryrun(|w.dryruns|, DryrunStatus.Failed, false);
      var issued := Issued(PlanTriggerDryrun(w, sid, tid, rid, job, published), through);
      assert [insert, mark] + [fail] == [insert, mark, fail] && [insert, mark] == [insert] + [mark] && [insert, mark, fail] == [insert] + [mark, fail];
      assert issued == if through == 0 then [] else if through == 1 then [insert]
                       else if through == 2 || published then [insert] + [mark] else [insert] + [mark, fail];
    }
  }

  lemma TriggerWrites(w: World, sid: Id, tid: Option<Id>, rid: Id, job: Id)
    requires SourcesOk(w) && Triggers(w, sid, tid)
    ensures var insert := InsertDryrun(Dryrun(rid, sid, tid, job, DryrunStatus.Running, false));
            var mark, fail := UpdateSourceRow(sid, MarkRunning(w.sources[sid].status, rid)), FinishDryrun(|w.dryruns|, DryrunStatus.Failed, false);
            && ApplyAll(w, [insert]) == Triggered(w, sid, tid, rid, job, 1)
            && ApplyAll(w, [insert] + [mark]) == Triggered(w, sid, tid, rid, job, 2)
            && ApplyAll(w, [insert] + [mark, fail]) == Triggered(w, sid, tid, rid, job, 3)
  {
    var insert := InsertDryrun(Dryrun(rid, sid, tid, job, DryrunStatus.Running, false));
    var mark, fail := UpdateSourceRow(sid, MarkRunning(w.sources[sid].status, rid)), FinishDryrun(|w.dryruns|, DryrunStatus.Failed, false);
    var w1, w2 := Triggered(w, sid, tid, rid, job, 1), Triggered(w, sid, tid, rid, job, 2);
    ApplyOne(w, insert);
    ApplyAfter(w, insert, [mark]);
    ApplyAfter(w, insert, [mark, fail]);
    assert Apply(w1, mark) == Some(w2);
    ApplyOne(w1, mark);
    ApplyTwo(w1, mark, fail);
    TriggerFails(w, sid, tid, rid, job);
  }

  lemma TriggerFails(w: World, sid: Id, tid: Option<Id>, rid: Id, job: Id)
    requires SourcesOk(w) && Triggers(w, sid, tid)
    ensures Apply(Triggered(w, sid, tid, rid, job, 2), FinishDryrun(|w.dryruns|, DryrunStatus.Failed, false))
         == Some(Triggered(w, sid, tid, rid, job, 3))
  {
    var w2, w3 := Triggered(w, sid, tid, rid, job, 2), Triggered(w, sid, tid, rid, job, 3);
    var w' := Apply(w2, FinishDryrun(|w.dryruns|, DryrunStatus.Failed, false)).value;
    assert w'.dryruns == w3.dryruns;
    assert w'.sources == w3.sources;
  }

  /** Where a verdict takes the status of a source. */
  function StatusWith(current: SourceStatus, verdict: DryrunStatus): SourceStatus {
    if current in {SourceStatus.Pending, SourceStatus.Ready}
    then if verdict == DryrunStatus.Failed then SourceStatus.Pending else SourceStatus.Ready
    else current
  }

  lemma {:induction false} JobIsAt(rows: seq<Dryrun>, job: Id, i: nat)
    requires i < |rows| && rows[i].job == job && forall j :: 0 <= j < |rows| && j != i ==> rows[j].job != job
    ensures IndexOfJob(rows, job) == Some(i)
  {
    if i < |rows| - 1 {
      JobIsAt(rows[..|rows| - 1], job, i);
    }
  }

  lemma {:induction false} JobIsNowhere(rows: seq<Dryrun>, job: Id)
    requires forall j :: 0 <= j < |rows| ==> rows[j].job != job
    ensures IndexOfJob(rows, job) == None
  {
    if rows != [] {
      JobIsNowhere(rows[..|rows| - 1], job);
    }
  }

  /** The verdict on an unfinished result of a live source finishes it and is noted on the source, which
      becomes READY or PENDING if it was waiting; a usable one also enables the target. */
  lemma VerdictIs(cfg: Config, w: World, i: nat, status: DryrunStatus, through: nat)
    requires SourcesOk(w) && FlightsOk(w) && i < |w.dryruns|
    requires status in {DryrunStatus.Success, DryrunStatus.Warning, DryrunStatus.Failed}
    requires !Finished(w.dryruns[i])
    ensures Step(cfg, w, Call(OpCompleteDryrun(w.dryruns[i].job, status), through)) ==
            if through == 0 || w.sources[w.dryruns[i].source].deleted then w else VerdictGiven(w, i, status)
  {
    CompleteStep(cfg, w, w.dryruns[i].job, status, through);
    VerdictPlanIs(cfg, w, i, status, through);
  }

  lemma CompleteStep(cfg: Config, w: World, job: Id, status: DryrunStatus, through: nat)
    ensures Step(cfg, w, Call(OpCompleteDryrun(job, status), through)) == ApplyAll(w, Issued(PlanCompleteDryrun(cfg, w, job, status), through))
  {
  }

  lemma VerdictPlanIs(cfg: Config, w: World, i: nat, status: DryrunStatus, through: nat)
    requires SourcesOk(w) && FlightsOk(w) && i < |w.dryruns| && !Finished(w.dryruns[i])
    requires status in {DryrunStatus.Success, DryrunStatus.Warning, DryrunStatus.Failed}
    ensures ApplyAll(w, Issued(PlanCompleteDryrun(cfg, w, w.dryruns[i].job, status), through)) ==
            if through == 0 || w.sources[w.dryruns[i].source].deleted then w else VerdictGiven(w, i, status)
  {
    VerdictPlanned(cfg, w, i, status);
    FinishApplies(w, i, status);
    OneWriteIs(w, PlanCompleteDryrun(cfg, w, w.dryruns[i].job, status), through);
  }

  lemma VerdictPlanned(cfg: Config, w: World, i: nat, status: DryrunStatus)
    requires FlightsOk(w) && i < |w.dryruns| && !Finished(w.dryruns[i])
    requires status in {DryrunStatus.Success, DryrunStatus.Warning, DryrunStatus.Failed}
    ensures PlanCompleteDryrun(cfg, w, w.dryruns[i].job, status) == Some([FinishDryrun(i, status, IsUsableDryrunStatus(status))])
  {
    JobIsAt(w.dryruns, w.dryruns[i].job, i);
  }

  function VerdictGiven(w: World, i: nat, status: DryrunStatus): World
    requires i < |w.dryruns| && w.dryruns[i].source in w.sources && w.dryruns[i].target.Some?
  {
    var row := w.dryruns[i];
    w.(dryruns := w.dryruns[i := row.(status := status, completed := true)],
       sources := Noted(w, row.source, status, row.id, StatusWith(w.sources[row.source].status, status)),
       targets := if status != DryrunStatus.Failed && row.target.value in w.targets
                  then EnabledIn(w, row.target.value).targets else w.targets)
  }

  lemma FinishApplies(w: World, i: nat, status: DryrunStatus)
    requires SourcesOk(w) && FlightsOk(w) && i < |w.dryruns|
    requires status in {DryrunStatus.Success, DryrunStatus.Warning, DryrunStatus.Failed}
    ensures Apply(w, FinishDryrun(i, status, IsUsableDryrunStatus(status))) ==
            if w.sources[w.dryruns[i].source].deleted then None else Some(VerdictGiven(w, i, status))
  {
  }

  /** A completion for a finished result only activates its target once more, if the result is usable. */
  lemma RepeatIs(cfg: Config, w: World, i: nat, status: DryrunStatus, through: nat)
    requires RowsOk(w) && FlightsOk(w) && i < |w.dryruns| && Finished(w.dryruns[i])
    ensures var row := w.dryruns[i];
            Step(cfg, w, Call(OpCompleteDryrun(row.job, status), through)) ==
            if row.status in {DryrunStatus.Success, DryrunStatus.Warning}
            then TargetActivated(cfg, w, row.source, row.target.value, through) else w
  {
    CompleteStep(cfg, w, w.dryruns[i].job, status, through);
    RepeatPlanIs(cfg, w, i, status, through);
  }

  lemma RepeatPlanIs(cfg: Config, w: World, i: nat, status: DryrunStatus, through: nat)
    requires RowsOk(w) && FlightsOk(w) && i < |w.dryruns| && Finished(w.dryruns[i])
    ensures ApplyAll(w, Issued(PlanCompleteDryrun(cfg, w, w.dryruns[i].job, status), through)) ==
            if w.dryruns[i].status in {DryrunStatus.Success, DryrunStatus.Warning}
            then TargetActivated(cfg, w, w.dryruns[i].source, w.dryruns[i].target.value, through) else w
  {
    JobIsAt(w.dryruns, w.dryruns[i].job, i);
    ActivationIs(cfg, w, w.dryruns[i].source, w.dryruns[i].target.value, through);
  }

  lemma StrayIs(cfg: Config, w: World, job: Id, status: DryrunStatus, through: nat)
    requires forall i :: 0 <= i < |w.dryruns| ==> w.dryruns[i].job != job
    ensures Step(cfg, w, Call(OpCompleteDryrun(job, status), through)) == w
  {
    JobIsNowhere(w.dryruns, job);
  }

  /** The same for a verdict noted on the source alone. */
  lemma ApplyResultIs(cfg: Config, w: World, sid: Id, status: DryrunStatus, rid: Id, through: nat)
    requires SourcesOk(w)
    ensures Step(cfg, w, Call(OpApplyDryrunResult(sid, status, rid), through)) ==
            if through >= 1 && Notes(w, sid, status)
            then w.(sources := Noted(w, sid, status, rid, StatusWith(w.sources[sid].status, status)))
            else w
  {
    ApplyPlanIs(w, sid, status, rid, through);
  }

  predicate Notes(w: World, sid: Id, status: DryrunStatus) {
    && sid in w.sources && !w.sources[sid].deleted
    && (StatusWith(w.sources[sid].status, status).Ready? ==> Runnable(w.sources[sid]))
  }

  lemma ApplyPlanIs(w: World, sid: Id, status: DryrunStatus, rid: Id, through: nat)
    requires SourcesOk(w)
    ensures ApplyAll(w, Issued(PlanApplyDryrunResult(w, sid, status, rid), through)) ==
            if through >= 1 && Notes(w, sid, status)
            then w.(sources := Noted(w, sid, status, rid, StatusWith(w.sources[sid].status, status))) else w
  {
    if sid in w.sources {
      NoteApplies(w, sid, status, rid);
    }
    OneWriteIs(w, PlanApplyDryrunResult(w, sid, status, rid), through);
  }

  lemma NoteApplies(w: World, sid: Id, status: DryrunStatus, rid: Id)
    requires SourcesOk(w) && sid in w.sources
    ensures Apply(w, UpdateSourceRow(sid, DryrunVerdict(w.sources[sid].status, status, rid))) ==
            if StatusWith(w.sources[sid].status, status).Ready? && !Runnable(w.sources[sid]) then None
            else Some(w.(sources := Noted(w, sid, status, rid, StatusWith(w.sources[sid].status, status))))
  {
  }
}
