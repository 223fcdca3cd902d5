/** Status transitions of a data source, and what stays frozen while it is ACTIVE. */
module LifecycleTheorems {
  import opened Model
  import opened ControlPlane
  import opened Invariants

  // ---------------------------------------------------------------- one write

  /** The status of a source after one write. */
  function NextStatus(w: World, write: Write, sid: Id): SourceStatus
    requires sid in w.sources
  {
    var s := w.sources[sid];
    match write
    case UpdateSourceRow(id, p) => if id == sid && p.status.Some? then p.status.value else s.status
    case ArchiveRow(id) => if id == sid then SourceStatus.Archived else s.status
    case MoveProject(project, from, to) => if Moves(w, project, from, sid) then to else s.status
    case FinishDryrun(i, status, _) =>
      var verdict := ReadyAfter(s.status, status);
      if i < |w.dryruns| && w.dryruns[i].source == sid && verdict.Some? then verdict.value else s.status
    case _ => s.status
  }

  lemma WriteSetsStatus(w: World, write: Write, sid: Id)
    requires sid in w.sources && Apply(w, write).Some?
    ensures sid in Apply(w, write).value.sources
    ensures Apply(w, write).value.sources[sid].status == NextStatus(w, write, sid)
  {
  }

  // ---------------------------------------------------------------- one call

  predicate Waiting(s: SourceStatus) {
    s.Pending? || s.Ready?
  }

  /** The status changes an operation can cause. */
  predicate Leads(op: Op, s: SourceStatus, s': SourceStatus) {
    || s == s'
    || match op
       case OpArchiveSource(_) => s'.Archived?
       case OpActivateSource(_) => s.Ready? && s'.Active?
       case OpProjectActivate(_) => s.Ready? && s'.Active?
       case OpPauseSource(_) => s.Active? && s'.Paused?
       case OpProjectPause(_) => s.Active? && s'.Paused?
       case OpResumeSource(_) => s.Paused? && s'.Active?
       case OpProjectResume(_) => s.Paused? && s'.Active?
       case OpUpdateTarget(_, _, _) => s'.Pending?
       case OpTriggerDryrun(_, _, _, _, _) => Waiting(s) && s'.Pending?
       case OpActivateTarget(_, _) => s.Pending? && s'.Ready?
       case OpCompleteDryrun(_, _) => Waiting(s) && Waiting(s')
       case OpApplyDryrunResult(_, _, _) => Waiting(s) && Waiting(s')
       case _ => false
  }

  predicate SeveralWrites(op: Op) {
    || op.OpUpdateCrawlMode? || op.OpUpdateTarget? || op.OpActivateTarget?
    || op.OpTriggerDryrun? || op.OpCompleteDryrun?
  }

  lemma OneWriteLeads(cfg: Config, w: World, op: Op, sid: Id)
    requires sid in w.sources && !SeveralWrites(op) && PlanOf(cfg, w, op).Some?
    ensures var writes := PlanOf(cfg, w, op).value;
            writes == [] || (writes == [writes[0]] && Leads(op, w.sources[sid].status, NextStatus(w, writes[0], sid)))
  {
  }

  lemma ActivateTargetLeads(cfg: Config, w: World, id: Id, tid: Id, through: nat, sid: Id)
    requires sid in w.sources
    ensures var w' := ApplyAll(w, Issued(PlanActivateTarget(cfg, w, id, tid), through));
            && sid in w'.sources
            && (w.sources[sid].status == w'.sources[sid].status
                || (w.sources[sid].status.Pending? && w'.sources[sid].status.Ready?))
  {
    var issued := Issued(PlanActivateTarget(cfg, w, id, tid), through);
    var enable, ready := UpdateTargetRow(tid, ENABLE), UpdateSourceRow(id, MARK_READY);
    assert issued == [] || issued == [enable] || issued == [enable, ready];
    ApplyOne(w, enable);
    ApplyTwo(w, enable, ready);
    if Apply(w, enable).Some? {
      ApplyOne(Apply(w, enable).value, ready);
    }
  }

  /** An accepted material update of a target that gets as far as its source `sid`. */
  predicate Sends(w: World, id: Id, tid: Id, plan: Plan, input: TargetUpdate, through: nat, sid: Id) {
    plan.Some? && sid == id && Live(w, id) && Owned(w, id, tid) && Material(w.targets[tid], input) && through >= 2
  }

  lemma UpdateTargetLeads(cfg: Config, w: World, id: Id, tid: Id, input: TargetUpdate, through: nat, sid: Id)
    requires sid in w.sources
    ensures var w' := ApplyAll(w, Issued(PlanUpdateTarget(cfg, w, id, tid, input), through));
            && sid in w'.sources
            && (w.sources[sid].status == w'.sources[sid].status
                || (w'.sources[sid].status.Pending? && Sends(w, id, tid, PlanUpdateTarget(cfg, w, id, tid, input), input, through, sid)))
  {
    var plan := PlanUpdateTarget(cfg, w, id, tid, input);
    var issued := Issued(plan, through);
    if issued != [] {
      var update, pending := issued[0], UpdateSourceRow(id, MARK_PENDING);
      assert issued == [update] || issued == [update, pending];
      ApplyOne(w, update);
      ApplyTwo(w, update, pending);
      if Apply(w, update).Some? {
        ApplyOne(Apply(w, update).value, pending);
      }
    }
  }

  /** From the moment the result row exists: marking the source, then failing the result. */
  lemma MarkThenFailLeads(w: World, id: Id, rid: Id, fail: Write, sid: Id)
    requires sid in w.sources && id in w.sources && Waiting(w.sources[id].status)
    requires fail.FinishDryrun? && fail.status.Failed?
    ensures var mark := UpdateSourceRow(id, MarkRunning(w.sources[id].status, rid));
            forall ws | ws in {[mark], [mark, fail]} ::
              && sid in ApplyAll(w, ws).sources
              && (w.sources[sid].status == ApplyAll(w, ws).sources[sid].status
                  || (Waiting(w.sources[sid].status) && ApplyAll(w, ws).sources[sid].status.Pending?))
  {
    var mark := UpdateSourceRow(id, MarkRunning(w.sources[id].status, rid));
    ApplyOne(w, mark);
    ApplyTwo(w, mark, fail);
    if Apply(w, mark).Some? {
      ApplyOne(Apply(w, mark).value, fail);
    }
  }

  lemma TriggerLeads(w: World, id: Id, target: Option<Id>, rid: Id, job: Id, published: bool, through: nat, sid: Id)
    requires sid in w.sources
    ensures var w' := ApplyAll(w, Issued(PlanTriggerDryrun(w, id, target, rid, job, published), through));
            && sid in w'.sources
            && (w.sources[sid].status == w'.sources[sid].status
                || (Waiting(w.sources[sid].status) && w'.sources[sid].status.Pending?))
  {
    var issued := Issued(PlanTriggerDryrun(w, id, target, rid, job, published), through);
    if issued != [] {
      var insert := InsertDryrun(Dryrun(rid, id, target, job, DryrunStatus.Running, false));
      var fail := FinishDryrun(|w.dryruns|, DryrunStatus.Failed, false);
      var mark := UpdateSourceRow(id, MarkRunning(w.sources[id].status, rid));
      var w1 := w.(dryruns := w.dryruns + [insert.row]);
      assert issued == [insert] || issued == [insert] + [mark] || issued == [insert] + [mark, fail];
      assert Apply(w, insert) == Some(w1);
      ApplyAfter(w, insert, issued[1..]);
      MarkThenFailLeads(w1, id, rid, fail, sid);
    }
  }

  lemma CompleteLeads(cfg: Config, w: World, job: Id, status: DryrunStatus, through: nat, sid: Id)
    requires sid in w.sources
    ensures var w' := ApplyAll(w, Issued(PlanCompleteDryrun(cfg, w, job, status), through));
            && sid in w'.sources
            && (w.sources[sid].status == w'.sources[sid].status
                || (Waiting(w.sources[sid].status) && Waiting(w'.sources[sid].status)))
  {
    var i := IndexOfJob(w.dryruns, job);
    if i.Some? {
      var row := w.dryruns[i.value];
      if IsTerminalDryrunStatus(row.status) || row.completed {
        if row.target.Some? {
          ActivateTargetLeads(cfg, w, row.source, row.target.value, through, sid);
        }
      } else {
        ApplyOne(w, FinishDryrun(i.value, status, IsUsableDryrunStatus(status)));
      }
    }
  }

  lemma ModeLeads(w: World, id: Id, mode: CrawlMode, through: nat, sid: Id)
    requires sid in w.sources
    ensures var w' := ApplyAll(w, Issued(PlanUpdateCrawlMode(w, id, mode), through));
            sid in w'.sources && w.sources[sid].status == w'.sources[sid].status
  {
    var issued := Issued(PlanUpdateCrawlMode(w, id, mode), through);
    if issued != [] {
      ApplyOne(w, issued[0]);
      if |issued| == 1 {
        assert issued == [issued[0]];
      } else {
        assert issued == [issued[0], issued[1]];
        ApplyTwo(w, issued[0], issued[1]);
        if Apply(w, issued[0]).Some? {
          ApplyOne(Apply(w, issued[0]).value, issued[1]);
        }
      }
    }
  }

  lemma SeveralWritesLead(cfg: Config, w: World, op: Op, through: nat, sid: Id)
    requires sid in w.sources && SeveralWrites(op)
    ensures var w' := ApplyAll(w, Issued(PlanOf(cfg, w, op), through));
            sid in w'.sources && Leads(op, w.sources[sid].status, w'.sources[sid].status)
  {
    match op
    case OpUpdateTarget(id, tid, update) => UpdateTargetLeads(cfg, w, id, tid, update, through, sid);
    case OpActivateTarget(id, tid) => ActivateTargetLeads(cfg, w, id, tid, through, sid);
    case OpTriggerDryrun(id, target, rid, job, published) => TriggerLeads(w, id, target, rid, job, published, through, sid);
    case OpCompleteDryrun(job, status) => CompleteLeads(cfg, w, job, status, through, sid);
    case OpUpdateCrawlMode(id, mode) => ModeLeads(w, id, mode, through, sid);
  }

  lemma OneWriteStatus(w: World, write: Write, sid: Id)
    requires sid in w.sources
    ensures sid in ApplyAll(w, [write]).sources
    ensures ApplyAll(w, [write]).sources[sid].status in {w.sources[sid].status, NextStatus(w, write, sid)}
  {
    ApplyOne(w, write);
    if Apply(w, write).Some? {
      WriteSetsStatus(w, write, sid);
    }
  }

  /** A plan of at most one write moves the status as that write does, or not at all. */
  lemma ShortPlanStatus(w: World, plan: Plan, through: nat, sid: Id)
    requires sid in w.sources && (plan.Some? ==> |plan.value| <= 1)
    ensures var w' := ApplyAll(w, Issued(plan, through));
            && sid in w'.sources
            && (w'.sources[sid].status == w.sources[sid].status
                || (plan.Some? && plan.value != [] && w'.sources[sid].status == NextStatus(w, plan.value[0], sid)))
  {
    var issued := Issued(plan, through);
    if issued != [] {
      assert issued == [plan.value[0]];
      OneWriteStatus(w, plan.value[0], sid);
    }
  }

  /** One call changes a status only as its operation may. */
  lemma CallLeads(cfg: Config, w: World, call: Call, sid: Id)
    requires sid in w.sources
    ensures sid in Step(cfg, w, call).sources
    ensures Leads(call.op, w.sources[sid].status, Step(cfg, w, call).sources[sid].status)
  {
    if SeveralWrites(call.op) {
      SeveralWritesLead(cfg, w, call.op, call.through, sid);
    } else {
      var plan := PlanOf(cfg, w, call.op);
      if plan.Some? {
        OneWriteLeads(cfg, w, call.op, sid);
      }
      ShortPlanStatus(w, plan, call.through, sid);
    }
  }

  // ---------------------------------------------------------------- leaving ARCHIVED

  /** An accepted material update sends its source to PENDING whatever its status was. */
  lemma MaterialUpdateSends(cfg: Config, w: World, id: Id, tid: Id, input: TargetUpdate, through: nat)
    requires RowsOk(w) && Sends(w, id, tid, PlanUpdateTarget(cfg, w, id, tid, input), input, through, id)
    ensures var w' := ApplyAll(w, Issued(PlanUpdateTarget(cfg, w, id, tid, input), through));
            id in w'.sources && w'.sources[id].status.Pending?
  {
    var issued := Issued(PlanUpdateTarget(cfg, w, id, tid, input), through);
    var update := UpdateTargetRow(tid, TargetUpdatePatch(w.targets[tid], input));
    assert issued == [update, UpdateSourceRow(id, MARK_PENDING)];
    ApplyTwo(w, update, UpdateSourceRow(id, MARK_PENDING));
  }

  predicate Unarchives(cfg: Config, w: World, call: Call, sid: Id) {
    match call.op
    case OpUpdateTarget(id, tid, input) => Sends(w, id, tid, PlanOf(cfg, w, call.op), input, call.through, sid)
    case _ => false
  }

  /** ARCHIVED is left through a material target update, and through nothing else. */
  lemma ArchivedLeaves(cfg: Config, w: World, call: Call, sid: Id)
    requires RowsOk(w) && sid in w.sources && w.sources[sid].status.Archived?
    ensures sid in Step(cfg, w, call).sources
    ensures !Step(cfg, w, call).sources[sid].status.Archived? <==> Unarchives(cfg, w, call, sid)
  {
    CallLeads(cfg, w, call, sid);
    match call.op
    case OpUpdateTarget(id, tid, input) =>
      UpdateTargetLeads(cfg, w, id, tid, input, call.through, sid);
      if Unarchives(cfg, w, call, sid) {
        MaterialUpdateSends(cfg, w, id, tid, input, call.through);
      }
    case _ =>
  }

  // ---------------------------------------------------------------- whole runs

  /** Status of a source after a run; None before it is created. */
  function StatusAfter(cfg: Config, calls: seq<Call>, sid: Id): Option<SourceStatus> {
    var w := Run(cfg, EMPTY, calls);
    if sid in w.sources then Some(w.sources[sid].status) else None
  }

  lemma NewSourceIsPending(cfg: Config, w: World, call: Call, sid: Id)
    requires sid !in w.sources && sid in Step(cfg, w, call).sources
    ensures Step(cfg, w, call).sources[sid].status.Pending?
  {
    var issued := Issued(PlanOf(cfg, w, call.op), call.through);
    if call.op.OpCreateSource? {
      if issued != [] {
        assert issued == [issued[0]];
        ApplyOne(w, issued[0]);
      }
    } else {
      OtherPlansAddNoSource(cfg, w, call.op);
      WritesAddNoSource(w, issued);
    }
  }

  /** Where each status can come from, in one step of a run. */
  lemma StatusPredecessors(cfg: Config, calls: seq<Call>, sid: Id)
    requires calls != []
    ensures var before := StatusAfter(cfg, calls[..|calls| - 1], sid);
            var after := StatusAfter(cfg, calls, sid);
            && (after == Some(SourceStatus.Active) ==>
                  before in {Some(SourceStatus.Active), Some(SourceStatus.Ready), Some(SourceStatus.Paused)})
            && (after == Some(SourceStatus.Paused) ==> before in {Some(SourceStatus.Paused), Some(SourceStatus.Active)})
  {
    var w, call := Run(cfg, EMPTY, calls[..|calls| - 1]), calls[|calls| - 1];
    if sid in w.sources {
      CallLeads(cfg, w, call, sid);
    } else if sid in Step(cfg, w, call).sources {
      NewSourceIsPending(cfg, w, call, sid);
    }
  }

  /** A source that is ACTIVE or PAUSED was READY at some earlier point of the run. */
  lemma {:induction false} ActiveWasReady(cfg: Config, calls: seq<Call>, sid: Id)
    requires StatusAfter(cfg, calls, sid) in {Some(SourceStatus.Active), Some(SourceStatus.Paused)}
    ensures exists i :: 0 <= i < |calls| && StatusAfter(cfg, calls[..i], sid) == Some(SourceStatus.Ready)
  {
    if calls != [] {
      var n := |calls| - 1;
      StatusPredecessors(cfg, calls, sid);
      if StatusAfter(cfg, calls[..n], sid) != Some(SourceStatus.Ready) {
        ActiveWasReady(cfg, calls[..n], sid);
        var i :| 0 <= i < n && StatusAfter(cfg, calls[..n][..i], sid) == Some(SourceStatus.Ready);
        assert calls[..n][..i] == calls[..i];
      }
    }
  }

  /** No run ever brings a source to FAILED or COMPLETED. */
  lemma {:induction false} NeverFailedOrCompleted(cfg: Config, calls: seq<Call>, sid: Id)
    ensures StatusAfter(cfg, calls, sid) !in {Some(SourceStatus.Failed), Some(SourceStatus.Completed)}
  {
    if calls != [] {
      var n := |calls| - 1;
      var w, call := Run(cfg, EMPTY, calls[..n]), calls[n];
      NeverFailedOrCompleted(cfg, calls[..n], sid);
      if sid in w.sources {
        CallLeads(cfg, w, call, sid);
      } else if sid in Step(cfg, w, call).sources {
        NewSourceIsPending(cfg, w, call, sid);
      }
    }
  }

  // ---------------------------------------------------------------- settings frozen while ACTIVE

  predicate SameSettings(s: Source, s': Source) {
    s.config == s'.config && s.mappingRules == s'.mappingRules && s.interval == s'.interval
  }

  predicate LeavesSettings(write: Write, sid: Id) {
    write.UpdateSourceRow? && write.sid == sid ==>
      write.sourcePatch.config == "" && write.sourcePatch.mappingRules == "" && write.sourcePatch.interval.None?
  }

  lemma WriteKeepsSettings(w: World, write: Write, sid: Id)
    requires sid in w.sources && LeavesSettings(write, sid) && Apply(w, write).Some?
    ensures sid in Apply(w, write).value.sources && SameSettings(w.sources[sid], Apply(w, write).value.sources[sid])
  {
  }

  lemma {:induction false} WritesKeepSettings(w: World, writes: seq<Write>, sid: Id)
    requires sid in w.sources && forall i :: 0 <= i < |writes| ==> LeavesSettings(writes[i], sid)
    ensures sid in ApplyAll(w, writes).sources && SameSettings(w.sources[sid], ApplyAll(w, writes).sources[sid])
    decreases |writes|
  {
    if writes != [] && Apply(w, writes[0]).Some? {
      WriteKeepsSettings(w, writes[0], sid);
      WritesKeepSettings(Apply(w, writes[0]).value, writes[1..], sid);
    }
  }

  lemma PlansLeaveActiveSettings(cfg: Config, w: World, op: Op, sid: Id)
    requires sid in w.sources && w.sources[sid].status.Active?
    ensures var plan := PlanOf(cfg, w, op);
            plan.Some? ==> forall i :: 0 <= i < |plan.value| ==> LeavesSettings(plan.value[i], sid)
  {
  }

  lemma ActiveFreezesSettings(cfg: Config, w: World, call: Call, sid: Id)
    requires sid in w.sources && w.sources[sid].status.Active?
    ensures sid in Step(cfg, w, call).sources && SameSettings(w.sources[sid], Step(cfg, w, call).sources[sid])
  {
    PlansLeaveActiveSettings(cfg, w, call.op, sid);
    WritesKeepSettings(w, Issued(PlanOf(cfg, w, call.op), call.through), sid);
  }

  /** Along any stretch of calls that begins in `w` and finds the source ACTIVE before each of them,
      its config, mapping rules and interval stay what they were. */
  lemma {:induction false} ActiveStretchFreezesSettings(cfg: Config, w: World, calls: seq<Call>, sid: Id)
    requires sid in w.sources
    requires forall i :: 0 <= i < |calls| ==>
               sid in Run(cfg, w, calls[..i]).sources && Run(cfg, w, calls[..i]).sources[sid].status.Active?
    ensures sid in Run(cfg, w, calls).sources && SameSettings(w.sources[sid], Run(cfg, w, calls).sources[sid])
  {
    if calls != [] {
      var n := |calls| - 1;
      forall i | 0 <= i < n
        ensures sid in Run(cfg, w, calls[..n][..i]).sources && Run(cfg, w, calls[..n][..i]).sources[sid].status.Active?
      {
        assert calls[..n][..i] == calls[..i];
      }
      ActiveStretchFreezesSettings(cfg, w, calls[..n], sid);
      ActiveFreezesSettings(cfg, Run(cfg, w, calls[..n]), calls[n], sid);
    }
  }
}
