/** The operations of internal/datasource/usecase, guard by guard and write by write. Each is proved to
    answer the plan that ControlPlane gives for it, so the theorems about runs of plans are about it. */
module DatasourceUseCases {
  import opened Model
  import opened Text
  import opened Values
  import opened ControlPlane
  import opened Repository
  import Readiness

  /** Why a project-wide mode change changed nothing. */
  datatype NoopReason = Changed | NoEligible | AlreadyInMode | NothingToChange

  function EligibleSources(w: World, project: Id): set<Id> {
    set sid | sid in w.sources && InProject(w, project, sid) && ModeEligible(w.sources[sid])
  }

  function SourcesInMode(w: World, project: Id, mode: CrawlMode): set<Id> {
    set sid | sid in EligibleSources(w, project) && w.sources[sid].crawlMode == Some(mode)
  }

  function FlippedSources(w: World, project: Id, mode: CrawlMode, locked: set<Id>): set<Id> {
    set sid | sid in w.sources && Flips(w, project, mode, locked, sid)
  }

  /** The sources whose crawl mode differs between two states. */
  function ModeChanged(w: World, w': World): set<Id> {
    set sid | sid in w.sources && sid in w'.sources && w.sources[sid].crawlMode != w'.sources[sid].crawlMode
  }

  lemma {:induction false} SubsetSize(a: set<Id>, b: set<Id>)
    requires a <= b
    ensures |a| <= |b|
  {
    if a != {} {
      var x :| x in a;
      SubsetSize(a - {x}, b - {x});
    }
  }

  /** The bulk statement changes the mode of the sources it counts, and of no other. */
  lemma FlipChanges(w: World, project: Id, mode: CrawlMode, locked: set<Id>)
    ensures ModeChanged(w, Apply(w, FlipProject(project, mode, locked)).value) == FlippedSources(w, project, mode, locked)
  {
  }

  lemma CountsDecide(w: World, project: Id, mode: CrawlMode, locked: set<Id>)
    ensures |SourcesInMode(w, project, mode)| == |EligibleSources(w, project)| <==> SourcesInMode(w, project, mode) == EligibleSources(w, project)
    ensures FlippedSources(w, project, mode, locked) <= EligibleSources(w, project) - SourcesInMode(w, project, mode)
  {
    var eligible, already := EligibleSources(w, project), SourcesInMode(w, project, mode);
    forall sid | sid in FlippedSources(w, project, mode, locked) ensures sid in eligible && sid !in already {
      assert Flips(w, project, mode, locked, sid);
    }
    if already != eligible {
      var sid :| sid in eligible && sid !in already;
      SubsetSize(already, eligible - {sid});
    }
  }

  class DatasourceUseCase {
    const cfg: Config
    const repo: Store

    constructor (cfg: Config, repo: Store)
      ensures this.cfg == cfg && this.repo == repo
    {
      this.cfg, this.repo := cfg, repo;
    }

    /** `ensureDatasourceTargetsDryrunNotRunning`: whether some listed target has a running dryrun. */
    method SomeTargetDryrunRunning(sid: Id) returns (running: bool)
      ensures running <==> AnyListedDryrunRunning(repo.rows, sid)
    {
      var ids := repo.ListTargets(sid);
      for i := 0 to |ids|
        invariant forall j :: 0 <= j < i ==> !DryrunRunning(repo.rows, ids[j])
      {
        if DryrunRunning(repo.rows, ids[i]) {
          return true;
        }
      }
      return false;
    }

    /** `ensureRuntimePrerequisites`, which stops at the first target that fails. */
    method EnsureRuntimePrerequisites(sid: Id) returns (ok: bool)
      requires sid in repo.rows.sources
      ensures ok <==> RuntimePrerequisites(cfg, repo.rows, sid)
    {
      var source := repo.rows.sources[sid];
      if source.category.Passive? {
        return source.sourceType.Webhook? && source.webhookId != "" && source.webhookSecret != "";
      }
      if source.crawlMode.None? || source.interval.None? || source.interval.value <= 0 {
        return false;
      }
      var ids := repo.ListTargets(sid);
      var active := 0;
      for i := 0 to |ids|
        invariant active > 0 <==> exists j :: 0 <= j < i && repo.rows.targets[ids[j]].isActive
        invariant forall j :: 0 <= j < i && repo.rows.targets[ids[j]].isActive ==> DryrunAcceptable(cfg, repo.rows, sid, ids[j])
      {
        var verdict := Readiness.Judge(cfg, repo, sid, ids[i]);
        if verdict.NoResult? || verdict.FailedResult? {
          assert ActiveListed(repo.rows, sid, ids[i]) && !DryrunAcceptable(cfg, repo.rows, sid, ids[i]);
          return false;
        }
        if !verdict.Idle? {
          active := active + 1;
        }
      }
      if active > 0 {
        var j :| 0 <= j < |ids| && repo.rows.targets[ids[j]].isActive;
        assert ids[j] in ActiveTargets(repo.rows, sid);
      }
      forall tid | tid in ActiveTargets(repo.rows, sid) ensures active > 0 {
        assert tid in ids;
      }
      return active > 0;
    }

    // -------------------------------------------------------------- data sources

    method Create(id: Id, input: CreateInput, projectAvailable: bool) returns (error: Option<Error>)
      modifies repo
      ensures Answers(old(repo.rows), old(repo.budget), PlanCreateSource(id, input, projectAvailable), repo.rows, error)
      ensures error == Some(InvalidInput) <==>
                || input.project.None? || TrimSpace(input.labels.name) == ""
                || ((input.category == Some(Crawl) || (input.category.None? && input.sourceType !in {SourceType.FileUpload, SourceType.Webhook}))
                    && (input.crawlMode.None? || input.interval <= 0))
      ensures error == Some(ProjectUnavailable) <==> error != Some(InvalidInput) && !projectAvailable
      ensures error == Some(CreateFailed) <==> error != Some(InvalidInput) && projectAvailable && input.category.None?
    {
      ghost var plan := PlanCreateSource(id, input, projectAvailable);
      if input.project.None? || TrimSpace(input.labels.name) == "" {
        error := repo.Refuse(plan, InvalidInput);
        return;
      }
      var category := if input.category.Some? then input.category.value else InferCategory(input.sourceType);
      if category.Crawl? && (input.crawlMode.None? || input.interval <= 0) {
        error := repo.Refuse(plan, InvalidInput);
        return;
      }
      if !projectAvailable {
        error := repo.Refuse(plan, ProjectUnavailable);
        return;
      }
      if input.category.None? {
        error := repo.Refuse(plan, CreateFailed);
        return;
      }
      error := repo.Finish(InsertSource(id, NewSource(input, input.category.value)));
    }

    method Update(id: Id, input: SourceUpdate) returns (error: Option<Error>)
      modifies repo
      ensures Answers(old(repo.rows), old(repo.budget), PlanUpdateSource(old(repo.rows), id, input), repo.rows, error)
      ensures error == Some(InvalidInput) <==> input.interval.Some? && input.interval.value <= 0
      ensures error == Some(NotFound) <==> error != Some(InvalidInput) && !Live(old(repo.rows), id)
      ensures error == Some(SourceDryrunRunning) <==> error != Some(InvalidInput) && Live(old(repo.rows), id) && AnyListedDryrunRunning(old(repo.rows), id)
      ensures error == Some(UpdateNotAllowed) <==>
                && error != Some(InvalidInput) && Live(old(repo.rows), id) && !AnyListedDryrunRunning(old(repo.rows), id) && old(repo.rows).sources[id].status.Active?
                && (input.config != "" || input.mappingRules != "" || input.interval.Some?)
    {
      ghost var plan := PlanUpdateSource(repo.rows, id, input);
      if input.interval.Some? && input.interval.value <= 0 {
        error := repo.Refuse(plan, InvalidInput);
        return;
      }
      if !Live(repo.rows, id) {
        error := repo.Refuse(plan, NotFound);
        return;
      }
      var running := SomeTargetDryrunRunning(id);
      if running {
        error := repo.Refuse(plan, SourceDryrunRunning);
        return;
      }
      var hasConfigOrMappingChange := input.config != "" || input.mappingRules != "";
      var hasRuntimeChange := hasConfigOrMappingChange || input.interval.Some?;
      if hasRuntimeChange && repo.rows.sources[id].status.Active? {
        error := repo.Refuse(plan, UpdateNotAllowed);
        return;
      }
      var patch := NO_CHANGE.(labels := input.labels.(name := TrimSpace(input.labels.name)),
                              config := input.config, mappingRules := input.mappingRules, interval := input.interval);
      if hasConfigOrMappingChange {
        patch := patch.(dryrunStatus := Some(DryrunStatus.NotRequired));
      }
      error := repo.Finish(UpdateSourceRow(id, patch));
    }

    method Archive(id: Id) returns (error: Option<Error>)
      modifies repo
      ensures Answers(old(repo.rows), old(repo.budget), PlanArchiveSource(old(repo.rows), id), repo.rows, error)
      ensures error == Some(NotFound) <==> !Live(old(repo.rows), id)
      ensures error == Some(SourceDryrunRunning) <==> Live(old(repo.rows), id) && AnyListedDryrunRunning(old(repo.rows), id)
      ensures error.Some? ==> error.value in {NotFound, SourceDryrunRunning, StoreFailed}
    {
      ghost var plan := PlanArchiveSource(repo.rows, id);
      if !Live(repo.rows, id) {
        error := repo.Refuse(plan, NotFound);
        return;
      }
      var running := SomeTargetDryrunRunning(id);
      if running {
        error := repo.Refuse(plan, SourceDryrunRunning);
        return;
      }
      if repo.rows.sources[id].status.Archived? {
        error := repo.Accept(plan);
        return;
      }
      error := repo.Finish(ArchiveRow(id));
    }

    method Delete(id: Id) returns (error: Option<Error>)
      modifies repo
      ensures Answers(old(repo.rows), old(repo.budget), PlanDeleteSource(old(repo.rows), id), repo.rows, error)
      ensures error == Some(NotFound) <==> !Live(old(repo.rows), id)
      ensures error == Some(SourceDryrunRunning) <==> Live(old(repo.rows), id) && AnyListedDryrunRunning(old(repo.rows), id)
      ensures error == Some(DeleteRequiresArchived) <==> Live(old(repo.rows), id) && !AnyListedDryrunRunning(old(repo.rows), id) && !old(repo.rows).sources[id].status.Archived?
    {
      ghost var plan := PlanDeleteSource(repo.rows, id);
      if !Live(repo.rows, id) {
        error := repo.Refuse(plan, NotFound);
        return;
      }
      var running := SomeTargetDryrunRunning(id);
      if running {
        error := repo.Refuse(plan, SourceDryrunRunning);
        return;
      }
      if !repo.rows.sources[id].status.Archived? {
        error := repo.Refuse(plan, DeleteRequiresArchived);
        return;
      }
      error := repo.Finish(DeleteRow(id));
    }

    // -------------------------------------------------------------- lifecycle

    method ActivateDataSource(id: Id) returns (error: Option<Error>)
      modifies repo
      ensures Answers(old(repo.rows), old(repo.budget), PlanActivateSource(cfg, old(repo.rows), id), repo.rows, error)
      ensures error == Some(NotFound) <==> !Live(old(repo.rows), id)
      ensures error == Some(ActivateNotAllowed) <==> Live(old(repo.rows), id) && !(old(repo.rows).sources[id].status.Ready? && RuntimePrerequisites(cfg, old(repo.rows), id))
    {
      ghost var plan := PlanActivateSource(cfg, repo.rows, id);
      if !Live(repo.rows, id) {
        error := repo.Refuse(plan, NotFound);
        return;
      }
      if !repo.rows.sources[id].status.Ready? {
        error := repo.Refuse(plan, ActivateNotAllowed);
        return;
      }
      var ok := EnsureRuntimePrerequisites(id);
      if !ok {
        error := repo.Refuse(plan, ActivateNotAllowed);
        return;
      }
      error := repo.Finish(UpdateSourceRow(id, MoveTo(SourceStatus.Active)));
    }

    method PauseDataSource(id: Id) returns (error: Option<Error>)
      modifies repo
      ensures Answers(old(repo.rows), old(repo.budget), PlanPauseSource(old(repo.rows), id), repo.rows, error)
      ensures error == Some(NotFound) <==> !Live(old(repo.rows), id)
      ensures error == Some(PauseNotAllowed) <==> Live(old(repo.rows), id) && !old(repo.rows).sources[id].status.Active?
    {
      ghost var plan := PlanPauseSource(repo.rows, id);
      if !Live(repo.rows, id) {
        error := repo.Refuse(plan, NotFound);
        return;
      }
      if !repo.rows.sources[id].status.Active? {
        error := repo.Refuse(plan, PauseNotAllowed);
        return;
      }
      error := repo.Finish(UpdateSourceRow(id, MoveTo(SourceStatus.Paused)));
    }

    method ResumeDataSource(id: Id) returns (error: Option<Error>)
      modifies repo
      ensures Answers(old(repo.rows), old(repo.budget), PlanResumeSource(cfg, old(repo.rows), id), repo.rows, error)
      ensures error == Some(NotFound) <==> !Live(old(repo.rows), id)
      ensures error == Some(ResumeNotAllowed) <==> Live(old(repo.rows), id) && !(old(repo.rows).sources[id].status.Paused? && RuntimePrerequisites(cfg, old(repo.rows), id))
    {
      ghost var plan := PlanResumeSource(cfg, repo.rows, id);
      if !Live(repo.rows, id) {
        error := repo.Refuse(plan, NotFound);
        return;
      }
      if !repo.rows.sources[id].status.Paused? {
        error := repo.Refuse(plan, ResumeNotAllowed);
        return;
      }
      var ok := EnsureRuntimePrerequisites(id);
      if !ok {
        error := repo.Refuse(plan, ResumeNotAllowed);
        return;
      }
      error := repo.Finish(UpdateSourceRow(id, MoveTo(SourceStatus.Active)));
    }

    method UpdateCrawlMode(id: Id, mode: CrawlMode) returns (error: Option<Error>)
      modifies repo
      ensures Answers(old(repo.rows), old(repo.budget), PlanUpdateCrawlMode(old(repo.rows), id, mode), repo.rows, error)
      ensures error == Some(NotFound) <==> !Live(old(repo.rows), id)
      ensures error == Some(CrawlModeNotAllowed) <==> Live(old(repo.rows), id) && !ModeEligible(old(repo.rows).sources[id])
    {
      ghost var plan := PlanUpdateCrawlMode(repo.rows, id, mode);
      if !Live(repo.rows, id) {
        error := repo.Refuse(plan, NotFound);
        return;
      }
      var current := repo.rows.sources[id];
      if !current.category.Crawl?
         || !(current.status.Ready? || current.status.Active? || current.status.Paused?)
         || current.interval.None? || current.interval.value <= 0 || current.crawlMode.None?
      {
        error := repo.Refuse(plan, CrawlModeNotAllowed);
        return;
      }
      error := repo.FinishTwo(UpdateSourceRow(id, NO_CHANGE.(crawlMode := Some(mode))),
                              InsertChange(id, ModeChange(current.crawlMode.value, mode)));
    }

    // -------------------------------------------------------------- project scope

    /** `ensureProjectSourcesEligible`. */
    method SomeSourceAllowed(ids: seq<Id>, command: Command) returns (found: bool)
      requires forall sid :: sid in ids ==> sid in repo.rows.sources
      ensures found <==> exists sid :: sid in ids && AllowedFor(repo.rows.sources[sid].status, command)
    {
      found := false;
      for i := 0 to |ids|
        invariant found <==> exists j :: 0 <= j < i && AllowedFor(repo.rows.sources[ids[j]].status, command)
      {
        if AllowedFor(repo.rows.sources[ids[i]].status, command) {
          found := true;
        }
      }
    }

    /** The shared part of project `Activate` and `Resume`: once readiness has passed, the second check
        on the listed sources cannot refuse. */
    method CheckProject(project: Id, command: Command) returns (ok: bool)
      ensures ok <==> CanProceed(cfg, repo.rows, project, command)
    {
      var readiness := Readiness.GetActivationReadiness(cfg, repo, project, command);
      if !readiness.canProceed {
        return false;
      }
      var ids := repo.ListDataSources(project);
      ok := SomeSourceAllowed(ids, command);
      var sid :| sid in repo.rows.sources && InProject(repo.rows, project, sid) && Eligible(cfg, repo.rows, sid, command);
      assert sid in ids && AllowedFor(repo.rows.sources[sid].status, command);
    }

    method Activate(project: Id) returns (error: Option<Error>)
      modifies repo
      ensures Answers(old(repo.rows), old(repo.budget), PlanProjectActivate(cfg, old(repo.rows), project), repo.rows, error)
      ensures error == Some(ReadinessFailed) <==> !CanProceed(cfg, old(repo.rows), project, Command.Activate)
    {
      ghost var plan := PlanProjectActivate(cfg, repo.rows, project);
      var ok := CheckProject(project, Command.Activate);
      if !ok {
        error := repo.Refuse(plan, ReadinessFailed);
        return;
      }
      error := repo.Finish(MoveProject(project, SourceStatus.Ready, SourceStatus.Active));
    }

    /** `runtimeCancelled` is the outcome of cancelling the project's jobs afterwards; the sources stay
        paused even when that fails. */
    method Pause(project: Id, runtimeCancelled: bool) returns (error: Option<Error>)
      modifies repo
      ensures Performs(old(repo.rows), old(repo.budget), PlanProjectPause(project), repo.rows)
      ensures error.None? <==> runtimeCancelled && AllAccepted(old(repo.rows), PlanProjectPause(project).value, old(repo.budget))
    {
      error := repo.Finish(MoveProject(project, SourceStatus.Active, SourceStatus.Paused));
      if error.None? && !runtimeCancelled {
        error := Some(StoreFailed);
      }
    }

    method Resume(project: Id) returns (error: Option<Error>)
      modifies repo
      ensures Answers(old(repo.rows), old(repo.budget), PlanProjectResume(cfg, old(repo.rows), project), repo.rows, error)
      ensures error == Some(ReadinessFailed) <==> !CanProceed(cfg, old(repo.rows), project, Command.Resume)
    {
      ghost var plan := PlanProjectResume(cfg, repo.rows, project);
      var ok := CheckProject(project, Command.Resume);
      if !ok {
        error := repo.Refuse(plan, ReadinessFailed);
        return;
      }
      error := repo.Finish(MoveProject(project, SourceStatus.Paused, SourceStatus.Active));
    }

    /** `BulkApplyProjectCrawlMode`'s counters and the reason given when nothing changed. `locked` are the
        rows other transactions hold, which the bulk statement skips. `affected` is the number of sources
        whose mode is another afterwards; a source without change is eligible in the mode already, or
        locked, or not eligible. */
    method UpdateProjectCrawlMode(project: Id, mode: CrawlMode, locked: set<Id>)
      returns (error: Option<Error>, affected: nat, noop: NoopReason)
      modifies repo
      ensures Answers(old(repo.rows), old(repo.budget), Some([FlipProject(project, mode, locked)]), repo.rows, error)
      ensures error.None? ==> affected == |ModeChanged(old(repo.rows), repo.rows)|
      ensures error.None? ==> (noop.Changed? <==> affected > 0)
      ensures error.None? ==> (noop.NoEligible? <==> EligibleSources(old(repo.rows), project) == {})
      ensures error.None? ==> (noop.AlreadyInMode? <==>
                && EligibleSources(old(repo.rows), project) != {}
                && forall sid :: sid in EligibleSources(old(repo.rows), project) ==> old(repo.rows).sources[sid].crawlMode == Some(mode))
    {
      var eligible := EligibleSources(repo.rows, project);
      var already := SourcesInMode(repo.rows, project, mode);
      affected := |FlippedSources(repo.rows, project, mode, locked)|;
      FlipChanges(repo.rows, project, mode, locked);
      CountsDecide(repo.rows, project, mode, locked);
      error := repo.Finish(FlipProject(project, mode, locked));
      if affected > 0 {
        noop := Changed;
      } else if |eligible| == 0 {
        noop := NoEligible;
      } else if |already| == |eligible| {
        noop := AlreadyInMode;
      } else {
        noop := NothingToChange;
      }
    }

    // -------------------------------------------------------------- crawl targets

    /** `prepareTargetValues`. */
    method PrepareTargetValues(targetType: TargetType, values: seq<string>) returns (prepared: Option<seq<string>>)
      ensures prepared == Prepared(targetType, values, cfg.isUrl)
    {
      var normalized := NormalizeTargetValues(values, targetType.Keyword?);
      if normalized == [] {
        return None;
      }
      if !targetType.Keyword? {
        for i := 0 to |normalized|
          invariant forall j :: 0 <= j < i ==> cfg.isUrl(normalized[j])
        {
          if !cfg.isUrl(normalized[i]) {
            return None;
          }
        }
      }
      return Some(normalized);
    }

    method CreateTarget(tid: Id, sid: Id, targetType: TargetType, input: TargetInput) returns (error: Option<Error>)
      modifies repo
      ensures Answers(old(repo.rows), old(repo.budget),
                      PlanCreateTarget(cfg, old(repo.rows), tid, sid, targetType, input), repo.rows, error)
      ensures error == Some(InvalidInput) <==> input.interval < 0
      ensures error == Some(NotFound) <==> input.interval >= 0 && !Live(old(repo.rows), sid)
      ensures error == Some(SourceArchived) <==> input.interval >= 0 && Live(old(repo.rows), sid) && old(repo.rows).sources[sid].status.Archived?
      ensures error == Some(SourceNotCrawl) <==>
                && input.interval >= 0 && Live(old(repo.rows), sid) && !old(repo.rows).sources[sid].status.Archived?
                && !old(repo.rows).sources[sid].category.Crawl?
      ensures error == Some(TargetValuesInvalid) <==>
                && input.interval >= 0 && Live(old(repo.rows), sid) && !old(repo.rows).sources[sid].status.Archived?
                && old(repo.rows).sources[sid].category.Crawl? && Prepared(targetType, input.values, cfg.isUrl).None?
    {
      ghost var plan := PlanCreateTarget(cfg, repo.rows, tid, sid, targetType, input);
      if input.interval < 0 {
        error := repo.Refuse(plan, InvalidInput);
        return;
      }
      if !Live(repo.rows, sid) {
        error := repo.Refuse(plan, NotFound);
        return;
      }
      if repo.rows.sources[sid].status.Archived? {
        error := repo.Refuse(plan, SourceArchived);
        return;
      }
      if !repo.rows.sources[sid].category.Crawl? {
        error := repo.Refuse(plan, SourceNotCrawl);
        return;
      }
      var prepared := PrepareTargetValues(targetType, input.values);
      if prepared.None? {
        error := repo.Refuse(plan, TargetValuesInvalid);
        return;
      }
      var interval := if input.interval > 0 then input.interval else DB_DEFAULT_INTERVAL;
      error := repo.Finish(InsertTarget(tid, Target(sid, targetType, prepared.value, input.targetLabel, input.meta, false,
                                                    input.priority, interval)));
    }

    /** After a material change of a target whose source is gone the row is updated all the same, and
        the caller is told NotFound. */
    method UpdateTarget(sid: Id, tid: Id, input: TargetUpdate) returns (error: Option<Error>)
      modifies repo
      ensures Performs(old(repo.rows), old(repo.budget), PlanUpdateTarget(cfg, old(repo.rows), sid, tid, input), repo.rows)
      ensures var plan := PlanUpdateTarget(cfg, old(repo.rows), sid, tid, input);
              error.None? <==>
                && plan.Some? && AllAccepted(old(repo.rows), plan.value, old(repo.budget))
                && (Material(old(repo.rows).targets[tid], input) ==> Live(old(repo.rows), sid))
      ensures var plan := PlanUpdateTarget(cfg, old(repo.rows), sid, tid, input);
              error == Some(NotFound) <==>
                && plan.Some? && AllAccepted(old(repo.rows), plan.value, old(repo.budget))
                && Material(old(repo.rows).targets[tid], input) && !Live(old(repo.rows), sid)
      ensures error == Some(InvalidInput) <==> input.interval.Some? && input.interval.value <= 0
      ensures error == Some(TargetNotFound) <==> error != Some(InvalidInput) && !Owned(old(repo.rows), sid, tid)
      ensures error == Some(TargetDryrunRunning) <==> error != Some(InvalidInput) && Owned(old(repo.rows), sid, tid) && DryrunRunning(old(repo.rows), tid)
      ensures error == Some(TargetValuesInvalid) <==>
                && error != Some(InvalidInput) && Owned(old(repo.rows), sid, tid) && !DryrunRunning(old(repo.rows), tid) && input.values.Some?
                && Prepared(old(repo.rows).targets[tid].targetType, input.values.value, cfg.isUrl).None?
      ensures error == Some(TargetValuesImmutable) <==>
                && error != Some(InvalidInput) && Owned(old(repo.rows), sid, tid) && !DryrunRunning(old(repo.rows), tid) && input.values.Some?
                && var prepared := Prepared(old(repo.rows).targets[tid].targetType, input.values.value, cfg.isUrl);
                   prepared.Some? && !SlicesEqual(old(repo.rows).targets[tid].values, prepared.value)
    {
      ghost var plan := PlanUpdateTarget(cfg, repo.rows, sid, tid, input);
      if input.interval.Some? && input.interval.value <= 0 {
        error := repo.Refuse(plan, InvalidInput);
        return;
      }
      if !Owned(repo.rows, sid, tid) {
        error := repo.Refuse(plan, TargetNotFound);
        return;
      }
      if DryrunRunning(repo.rows, tid) {
        error := repo.Refuse(plan, TargetDryrunRunning);
        return;
      }
      var current := repo.rows.targets[tid];
      if input.values.Some? {
        var prepared := PrepareTargetValues(current.targetType, input.values.value);
        if prepared.None? {
          error := repo.Refuse(plan, TargetValuesInvalid);
          return;
        }
        if !SlicesEqual(current.values, prepared.value) {
          error := repo.Refuse(plan, TargetValuesImmutable);
          return;
        }
      }
      var materialChanged := Material(current, input);
      var patch := TargetPatch(None, input.targetLabel, input.meta, None, input.priority, input.interval);
      if materialChanged && current.isActive {
        patch := patch.(isActive := Some(false));
      }
      error := FinishTargetUpdate(sid, UpdateTargetRow(tid, patch), materialChanged);
    }

    /** The row update and, after a material change, `markDatasourcePendingAfterMaterialTargetChange`. */
    method FinishTargetUpdate(sid: Id, update: Write, materialChanged: bool) returns (error: Option<Error>)
      requires update.UpdateTargetRow?
      modifies repo
      ensures var writes := if materialChanged && Live(old(repo.rows), sid) then [update, UpdateSourceRow(sid, MARK_PENDING)] else [update];
              && Performs(old(repo.rows), old(repo.budget), Some(writes), repo.rows)
              && (error.None? <==> AllAccepted(old(repo.rows), writes, old(repo.budget))
                                   && (materialChanged ==> Live(old(repo.rows), sid)))
              && (error == Some(NotFound) <==> AllAccepted(old(repo.rows), writes, old(repo.budget))
                                               && materialChanged && !Live(old(repo.rows), sid))
      ensures error.Some? ==> error.value.StoreFailed? || error.value.NotFound?
    {
      if !materialChanged {
        error := repo.Finish(update);
      } else if Live(repo.rows, sid) {
        error := repo.FinishTwo(update, UpdateSourceRow(sid, MARK_PENDING));
      } else {
        error := repo.Finish(update);
        if error.None? {
          error := Some(NotFound);
        }
      }
    }

    /** Promoting a PENDING source is best effort: losing that write is not an error. */
    method ActivateTarget(sid: Id, tid: Id) returns (error: Option<Error>)
      modifies repo
      ensures Performs(old(repo.rows), old(repo.budget), PlanActivateTarget(cfg, old(repo.rows), sid, tid), repo.rows)
      ensures var plan := PlanActivateTarget(cfg, old(repo.rows), sid, tid);
              && (plan.None? <==> error.Some? && !error.value.StoreFailed?)
              && (error.None? ==> Owned(repo.rows, sid, tid) && repo.rows.targets[tid].isActive)
              && (error == Some(StoreFailed) <==>
                    plan.Some? && plan.value != [] && (old(repo.budget) == 0 || Apply(old(repo.rows), plan.value[0]).None?))
      ensures error == Some(TargetNotFound) <==> !Owned(old(repo.rows), sid, tid)
      ensures error == Some(TargetDryrunRunning) <==>
                && Owned(old(repo.rows), sid, tid) && DryrunRunning(old(repo.rows), tid)
                && cfg.required(LiveSourceType(old(repo.rows), sid), old(repo.rows).targets[tid].targetType)
      ensures error.Some? ==> error.value.TargetNotFound? || error.value.TargetDryrunRunning? || error.value.TargetActivateNotAllowed? || error.value.StoreFailed?
    {
      ghost var plan := PlanActivateTarget(cfg, repo.rows, sid, tid);
      if !Owned(repo.rows, sid, tid) {
        error := repo.Refuse(plan, TargetNotFound);
        return;
      }
      var current := repo.rows.targets[tid];
      var dryrunNeeded := cfg.required(LiveSourceType(repo.rows, sid), current.targetType);
      if dryrunNeeded && DryrunRunning(repo.rows, tid) {
        error := repo.Refuse(plan, TargetDryrunRunning);
        return;
      }
      if current.isActive {
        error := repo.Accept(plan);
        return;
      }
      if dryrunNeeded {
        var latest := LatestOf(repo.rows.dryruns, tid);
        if latest.None? || !IsUsableDryrunStatus(latest.value.status) {
          error := repo.Refuse(plan, TargetActivateNotAllowed);
          return;
        }
      }
      var promote := !dryrunNeeded && Live(repo.rows, sid) && repo.rows.sources[sid].status.Pending?;
      error := FinishActivation(sid, tid, promote);
    }

    method FinishActivation(sid: Id, tid: Id, promote: bool) returns (error: Option<Error>)
      requires Owned(repo.rows, sid, tid)
      modifies repo
      ensures var writes := if promote then [UpdateTargetRow(tid, ENABLE), UpdateSourceRow(sid, MARK_READY)] else [UpdateTargetRow(tid, ENABLE)];
              Performs(old(repo.rows), old(repo.budget), Some(writes), repo.rows)
      ensures error.Some? ==> error.value.StoreFailed?
      ensures error.Some? <==> old(repo.budget) == 0 || Apply(old(repo.rows), UpdateTargetRow(tid, ENABLE)).None?
      ensures error.None? ==> Owned(repo.rows, sid, tid) && repo.rows.targets[tid].isActive
    {
      ghost var w, budget := repo.rows, repo.budget;
      var first, second := UpdateTargetRow(tid, ENABLE), UpdateSourceRow(sid, MARK_READY);
      assert [first, second] == [first] + [second];
      var ok := repo.Submit(first);
      AnswersOne(w, budget, first, ok, repo.rows);
      if !ok {
        AnswersLost(w, budget, first, [second]);
        return Some(StoreFailed);
      }
      if promote {
        ghost var w1, budget1 := repo.rows, repo.budget;
        var ready := repo.Submit(second);
        AnswersOne(w1, budget1, second, ready, repo.rows);
        AnswersFirst(w, budget, first, [second], w1, repo.rows, if ready then None else Some(StoreFailed));
      }
      return None;
    }

    method DeactivateTarget(sid: Id, tid: Id) returns (error: Option<Error>)
      modifies repo
      ensures Answers(old(repo.rows), old(repo.budget), PlanDeactivateTarget(old(repo.rows), sid, tid), repo.rows, error)
      ensures error == Some(TargetNotFound) <==> !Owned(old(repo.rows), sid, tid)
      ensures error == Some(TargetDryrunRunning) <==> Owned(old(repo.rows), sid, tid) && DryrunRunning(old(repo.rows), tid)
      ensures error == Some(NotFound) <==> Owned(old(repo.rows), sid, tid) && !DryrunRunning(old(repo.rows), tid) && old(repo.rows).targets[tid].isActive && !Live(old(repo.rows), sid)
      ensures error == Some(TargetDeactivateNotAllowed) <==>
                && Owned(old(repo.rows), sid, tid) && !DryrunRunning(old(repo.rows), tid) && old(repo.rows).targets[tid].isActive && Live(old(repo.rows), sid)
                && old(repo.rows).sources[sid].status.Active? && |ActiveTargets(old(repo.rows), sid)| <= 1
    {
      ghost var plan := PlanDeactivateTarget(repo.rows, sid, tid);
      if !Owned(repo.rows, sid, tid) {
        error := repo.Refuse(plan, TargetNotFound);
        return;
      }
      if DryrunRunning(repo.rows, tid) {
        error := repo.Refuse(plan, TargetDryrunRunning);
        return;
      }
      if !repo.rows.targets[tid].isActive {
        error := repo.Accept(plan);
        return;
      }
      // ensureCanRemoveActiveTarget
      if !Live(repo.rows, sid) {
        error := repo.Refuse(plan, NotFound);
        return;
      }
      if repo.rows.sources[sid].status.Active? && |ActiveTargets(repo.rows, sid)| <= 1 {
        error := repo.Refuse(plan, TargetDeactivateNotAllowed);
        return;
      }
      error := repo.Finish(UpdateTargetRow(tid, DISABLE));
    }

    method DeleteTarget(sid: Id, tid: Id, analyticsHidden: bool, text: string) returns (error: Option<Error>)
      modifies repo
      ensures Answers(old(repo.rows), old(repo.budget),
                      PlanDeleteTarget(old(repo.rows), sid, tid, analyticsHidden, text), repo.rows, error)
      ensures error == Some(TargetNotFound) <==> !Owned(old(repo.rows), sid, tid)
      ensures error == Some(TargetDryrunRunning) <==> Owned(old(repo.rows), sid, tid) && DryrunRunning(old(repo.rows), tid)
      ensures error == Some(TargetDeleteFailed) <==> Owned(old(repo.rows), sid, tid) && !DryrunRunning(old(repo.rows), tid) && !analyticsHidden
    {
      ghost var plan := PlanDeleteTarget(repo.rows, sid, tid, analyticsHidden, text);
      if !Owned(repo.rows, sid, tid) {
        error := repo.Refuse(plan, TargetNotFound);
        return;
      }
      if DryrunRunning(repo.rows, tid) {
        error := repo.Refuse(plan, TargetDryrunRunning);
        return;
      }
      if !analyticsHidden {
        error := repo.Refuse(plan, TargetDeleteFailed);
        return;
      }
      var meta := FlushedMeta(repo.rows.targets[tid].meta, text);
      error := repo.Finish(UpdateTargetRow(tid, DISABLE.(meta := Some(meta))));
    }

    // -------------------------------------------------------------- dryrun state

    method MarkDryrunRunning(sid: Id, rid: Id) returns (error: Option<Error>)
      modifies repo
      ensures !old(Live(repo.rows, sid)) ==> error == Some(NotFound) && repo.rows == old(repo.rows) && repo.budget == old(repo.budget)
      ensures old(Live(repo.rows, sid)) ==>
                var mark := UpdateSourceRow(sid, MarkRunning(old(repo.rows).sources[sid].status, rid));
                && Answers(old(repo.rows), old(repo.budget), Some([mark]), repo.rows, error)
                && (error.None? ==> old(repo.budget) > 0 && Apply(old(repo.rows), mark) == Some(repo.rows) && repo.budget == old(repo.budget) - 1)
                && (error.Some? ==> old(repo.budget) == 0 || Apply(old(repo.rows), mark).None?)
    {
      if !Live(repo.rows, sid) {
        return Some(NotFound);
      }
      var status := repo.rows.sources[sid].status;
      var patch := NO_CHANGE.(dryrunStatus := Some(DryrunStatus.Running), dryrunLastResult := Some(rid));
      if status.Pending? || status.Ready? {
        patch := patch.(status := Some(SourceStatus.Pending));
      }
      error := repo.Finish(UpdateSourceRow(sid, patch));
    }

    method ApplyDryrunResult(sid: Id, status: DryrunStatus, rid: Id) returns (error: Option<Error>)
      modifies repo
      ensures Answers(old(repo.rows), old(repo.budget), PlanApplyDryrunResult(old(repo.rows), sid, status, rid), repo.rows, error)
      ensures error == Some(NotFound) <==> !Live(old(repo.rows), sid)
    {
      ghost var plan := PlanApplyDryrunResult(repo.rows, sid, status, rid);
      if !Live(repo.rows, sid) {
        error := repo.Refuse(plan, NotFound);
        return;
      }
      var current := repo.rows.sources[sid].status;
      var patch := NO_CHANGE.(dryrunStatus := Some(status), dryrunLastResult := Some(rid));
      if current.Pending? || current.Ready? {
        if status.Failed? {
          patch := patch.(status := Some(SourceStatus.Pending));
        } else {
          patch := patch.(status := Some(SourceStatus.Ready));
        }
      }
      error := repo.Finish(UpdateSourceRow(sid, patch));
    }
  }
}
