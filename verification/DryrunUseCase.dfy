/** Dryrun dispatch and completion (internal/dryrun/usecase), on the same store. */
module DryrunUseCases {
  import opened Model
  import opened Values
  import opened Text
  import opened ControlPlane
  import opened Repository
  import opened DatasourceUseCases

  class DryrunUseCase {
    const repo: Store
    const datasources: DatasourceUseCase

    ghost predicate Valid() {
      datasources.repo == repo
    }

    constructor (datasources: DatasourceUseCase)
      ensures Valid() && this.datasources == datasources
    {
      this.repo, this.datasources := datasources.repo, datasources;
    }

    /** `buildDispatchSpec`, reduced to whether it finds a mapping. */
    method HasMapping(source: Source, target: Option<Target>) returns (ok: bool)
      ensures ok <==> DryrunMapped(source, target)
    {
      if !source.category.Crawl? || target.None? {
        return false;
      }
      if target.value.targetType.Keyword? {
        var keywords := ExtractKeywords(target.value.values);
        return keywords != [] && (source.sourceType.TikTok? || source.sourceType.Facebook? || source.sourceType.YouTube?);
      }
      if !source.sourceType.Facebook? || !target.value.targetType.PostUrl? || target.value.meta.NoMeta? {
        return false;
      }
      var parseIds := ExtractKeywords(target.value.meta.parseIds);
      ParseIdsRemain(target.value.meta);
      return parseIds != [];
    }

    lemma ParseIdsRemain(m: Meta)
      requires m.Meta?
      ensures HasParseIds(m) <==> Normalized(m.parseIds, false) != []
    {
      var ids := Normalized(m.parseIds, false);
      if ids != [] {
        NormalizedMembers(m.parseIds, false, ids[0]);
      }
      if HasParseIds(m) {
        var i :| 0 <= i < |m.parseIds| && TrimSpace(m.parseIds[i]) != "";
        NormalizedMembers(m.parseIds, false, TrimSpace(m.parseIds[i]));
      }
    }

    /** A source that is there and PENDING or READY. */
    static predicate Waits(w: World, id: Id) {
      Live(w, id) && (w.sources[id].status.Pending? || w.sources[id].status.Ready?)
    }

    /** `Trigger`; `rid` and `job` are the UUIDs it draws. */
    method Trigger(id: Id, target: Option<Id>, rid: Id, job: Id, published: bool) returns (error: Option<Error>)
      requires Valid()
      requires forall i :: 0 <= i < |repo.rows.dryruns| ==> repo.rows.dryruns[i].id != rid && repo.rows.dryruns[i].job != job
      modifies repo
      ensures Performs(old(repo.rows), old(repo.budget),
                       PlanTriggerDryrun(old(repo.rows), id, target, rid, job, published), repo.rows)
      ensures error == Some(NotFound) <==> !old(Live(repo.rows, id))
      ensures error == Some(DryrunNotAllowed) <==>
                old(Live(repo.rows, id)) && !old(repo.rows).sources[id].status.Pending? && !old(repo.rows).sources[id].status.Ready?
      ensures error == Some(DryrunTargetInvalid) <==>
                && Waits(old(repo.rows), id)
                && if old(repo.rows).sources[id].category.Crawl? then target.None? || !Owned(old(repo.rows), id, target.value) else target.Some?
      ensures error == Some(DryrunAlreadyRunning) <==>
                && Waits(old(repo.rows), id) && old(repo.rows).sources[id].category.Crawl?
                && target.Some? && Owned(old(repo.rows), id, target.value) && DryrunRunning(old(repo.rows), target.value)
      ensures error == Some(UnsupportedMapping) <==>
                && Waits(old(repo.rows), id) && DryrunTargetOk(old(repo.rows), id, target)
                && !DryrunMapped(old(repo.rows).sources[id], if target.Some? then Some(old(repo.rows).targets[target.value]) else None)
      ensures PlanTriggerDryrun(old(repo.rows), id, target, rid, job, published).None? <==>
                error.Some? && !error.value.StoreFailed? && !error.value.DispatchFailed?
      ensures error.None? <==>
                var plan := PlanTriggerDryrun(old(repo.rows), id, target, rid, job, published);
                published && plan.Some? && AllAccepted(old(repo.rows), plan.value, old(repo.budget))
      ensures error == Some(DispatchFailed) <==>
                var plan := PlanTriggerDryrun(old(repo.rows), id, target, rid, job, published);
                !published && plan.Some? && AllAccepted(old(repo.rows), plan.value, old(repo.budget))
    {
      if !Live(repo.rows, id) {
        return Some(NotFound);
      }
      var source := repo.rows.sources[id];
      if !source.status.Pending? && !source.status.Ready? {
        return Some(DryrunNotAllowed);
      }
      if source.category.Crawl? {
        if target.None? || !Owned(repo.rows, id, target.value) {
          return Some(DryrunTargetInvalid);
        }
        if DryrunRunning(repo.rows, target.value) {
          return Some(DryrunAlreadyRunning);
        }
      } else if target.Some? {
        return Some(DryrunTargetInvalid);
      }
      var mapped := HasMapping(source, if target.Some? then Some(repo.rows.targets[target.value]) else None);
      if !mapped {
        return Some(UnsupportedMapping);
      }
      error := Dispatch(id, Dryrun(rid, id, target, job, DryrunStatus.Running, false), published);
      if error.None? && !published {
        error := Some(DispatchFailed);
      }
    }

    /** Insert the RUNNING result, mark the source, publish, and fail the result when publishing fails. */
    method Dispatch(id: Id, row: Dryrun, published: bool) returns (error: Option<Error>)
      requires Valid() && Live(repo.rows, id)
      modifies repo
      ensures var begin := [InsertDryrun(row), UpdateSourceRow(id, MarkRunning(old(repo.rows).sources[id].status, row.id))];
              var fail := [FinishDryrun(|old(repo.rows).dryruns|, DryrunStatus.Failed, false)];
              Answers(old(repo.rows), old(repo.budget), Some(if published then begin else begin + fail), repo.rows, error)
    {
      ghost var w, budget := repo.rows, repo.budget;
      var insert, index := InsertDryrun(row), |repo.rows.dryruns|;
      ghost var mark := UpdateSourceRow(id, MarkRunning(w.sources[id].status, row.id));
      ghost var fail := [FinishDryrun(index, DryrunStatus.Failed, false)];
      assert [insert, mark] == [insert] + [mark] && [insert, mark] + fail == [insert] + ([mark] + fail);
      var ok := repo.Submit(insert);
      if !ok {
        AnswersLost(w, budget, insert, if published then [mark] else [mark] + fail);
        return Some(StoreFailed);
      }
      ghost var w1 := repo.rows;
      error := MarkAndPublish(id, row.id, index, published);
      AnswersFirst(w, budget, insert, if published then [mark] else [mark] + fail, w1, repo.rows, error);
    }

    method MarkAndPublish(id: Id, rid: Id, index: nat, published: bool) returns (error: Option<Error>)
      requires Valid() && Live(repo.rows, id)
      modifies repo
      ensures var mark := UpdateSourceRow(id, MarkRunning(old(repo.rows).sources[id].status, rid));
              var fail := [FinishDryrun(index, DryrunStatus.Failed, false)];
              Answers(old(repo.rows), old(repo.budget), Some(if published then [mark] else [mark] + fail), repo.rows, error)
    {
      ghost var w, budget := repo.rows, repo.budget;
      ghost var mark := UpdateSourceRow(id, MarkRunning(w.sources[id].status, rid));
      var fail := FinishDryrun(index, DryrunStatus.Failed, false);
      error := datasources.MarkDryrunRunning(id, rid);
      if !published {
        if error.Some? {
          AnswersLost(w, budget, mark, [fail]);
        } else {
          ghost var w1 := repo.rows;
          error := repo.Finish(fail);
          AnswersFirst(w, budget, mark, [fail], w1, repo.rows, error);
        }
      }
    }

    /** The job's result is not finished yet. */
    static predicate Finishes(w: World, job: Id) {
      var i := IndexOfJob(w.dryruns, job);
      i.Some? && !IsTerminalDryrunStatus(w.dryruns[i.value].status) && !w.dryruns[i.value].completed
    }

    /** Activating a target once more neither succeeds nor is refused for good: its dryrun is required and
        running again, or the write is lost. */
    predicate ActivationFails(w: World, budget: nat, sid: Id, tid: Id) {
      var plan := PlanActivateTarget(datasources.cfg, w, sid, tid);
      && Owned(w, sid, tid)
      && (if plan.None? then DryrunRunning(w, tid) && datasources.cfg.required(LiveSourceType(w, sid), w.targets[tid].targetType)
          else plan.value != [] && (budget == 0 || Apply(w, plan.value[0]).None?))
    }

    static predicate Repeats(w: World, job: Id) {
      IndexOfJob(w.dryruns, job).Some? && !Finishes(w, job)
    }

    /** `HandleCompletion`; `status` is what the delivered artifact is judged to be. */
    method HandleCompletion(job: Id, status: DryrunStatus) returns (error: Option<Error>)
      requires Valid() && IsTerminalDryrunStatus(status)
      modifies repo
      ensures Performs(old(repo.rows), old(repo.budget),
                       PlanCompleteDryrun(datasources.cfg, old(repo.rows), job, status), repo.rows)
      ensures IndexOfJob(old(repo.rows).dryruns, job).None? <==> error == Some(CompletionTaskNotFound)
      ensures Finishes(old(repo.rows), job) ==>
                Answers(old(repo.rows), old(repo.budget), PlanCompleteDryrun(datasources.cfg, old(repo.rows), job, status), repo.rows, error)
      ensures Repeats(old(repo.rows), job) ==>
                var row := old(repo.rows).dryruns[IndexOfJob(old(repo.rows).dryruns, job).value];
                error == if IsUsableDryrunStatus(row.status) && row.target.Some? && ActivationFails(old(repo.rows), old(repo.budget), row.source, row.target.value)
                         then Some(UpdateNotAllowed) else None
    {
      var index := IndexOfJob(repo.rows.dryruns, job);
      if index.None? {
        return Some(CompletionTaskNotFound);
      }
      var result := repo.rows.dryruns[index.value];
      if IsTerminalDryrunStatus(result.status) || result.completed {
        if IsUsableDryrunStatus(result.status) && result.target.Some? {
          error := datasources.ActivateTarget(result.source, result.target.value);
          error := if error.None? || error.value.TargetNotFound? || error.value.TargetActivateNotAllowed? then None else Some(UpdateNotAllowed);
          return;
        }
        return None;
      }
      error := repo.Finish(FinishDryrun(index.value, status, IsUsableDryrunStatus(status)));
    }
  }
}
