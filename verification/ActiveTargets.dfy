/** An ACTIVE crawl source always has an active target to crawl, unless a call strips it of its last one. */
module ActiveTargetTheorems {
  import opened Model
  import opened ControlPlane
  import opened Invariants

  ghost predicate HasActive(w: World, sid: Id) {
    exists tid :: tid in w.targets && ActiveListed(w, sid, tid)
  }

  predicate ActiveCrawl(s: Source) {
    s.status.Active? && s.category.Crawl?
  }

  ghost predicate Served(w: World) {
    forall sid :: sid in w.sources && ActiveCrawl(w.sources[sid]) ==> HasActive(w, sid)
  }

  /** The only listed active target of an ACTIVE crawl source. */
  ghost predicate LastActive(w: World, sid: Id, tid: Id) {
    && sid in w.sources && ActiveCrawl(w.sources[sid])
    && ActiveListed(w, sid, tid)
    && forall other :: other in w.targets && ActiveListed(w, sid, other) ==> other == tid
  }

  /** The calls that take the last active target away from an ACTIVE crawl source: a deletion, and a
      material target update that stops before its source is marked PENDING. */
  ghost predicate Strips(cfg: Config, w: World, call: Call) {
    && PlanOf(cfg, w, call.op).Some? && call.through >= 1
    && match call.op
       case OpDeleteTarget(sid, tid, _, _) => LastActive(w, sid, tid)
       case OpUpdateTarget(sid, tid, update) =>
         LastActive(w, sid, tid) && Material(w.targets[tid], update) && (call.through == 1 || !Live(w, sid))
       case _ => false
  }

  /** Writes that neither activate a source nor touch an active target. */
  predicate Gentle(write: Write) {
    match write
    case InsertSource(_, s) => !s.status.Active?
    case UpdateSourceRow(_, p) => p.status != Some(SourceStatus.Active)
    case MoveProject(_, _, to) => !to.Active?
    case UpdateTargetRow(_, p) => p == ENABLE
    case _ => true
  }

  lemma GentleWriteKeepsHasActive(w: World, write: Write, sid: Id)
    requires Gentle(write) && Apply(w, write).Some? && HasActive(w, sid)
    ensures HasActive(Apply(w, write).value, sid)
  {
    var tid :| tid in w.targets && ActiveListed(w, sid, tid);
    assert ActiveListed(Apply(w, write).value, sid, tid);
  }

  lemma GentleWriteActivatesNone(w: World, write: Write, sid: Id)
    requires Gentle(write) && Apply(w, write).Some?
    requires sid in Apply(w, write).value.sources && ActiveCrawl(Apply(w, write).value.sources[sid])
    ensures sid in w.sources && ActiveCrawl(w.sources[sid])
  {
  }

  lemma {:induction false} GentleWritesKeepServed(w: World, writes: seq<Write>)
    requires Served(w) && forall i :: 0 <= i < |writes| ==> Gentle(writes[i])
    ensures Served(ApplyAll(w, writes))
    decreases |writes|
  {
    if writes != [] && Apply(w, writes[0]).Some? {
      var w' := Apply(w, writes[0]).value;
      forall sid | sid in w'.sources && ActiveCrawl(w'.sources[sid]) ensures HasActive(w', sid) {
        GentleWriteActivatesNone(w, writes[0], sid);
        GentleWriteKeepsHasActive(w, writes[0], sid);
      }
      GentleWritesKeepServed(w', writes[1..]);
    }
  }

  /** What one write to one target row does: exactly disabling a last active target breaks the invariant. */
  lemma TargetWriteServed(w: World, sid: Id, tid: Id, p: TargetPatch)
    requires Served(w) && Owned(w, sid, tid) && Apply(w, UpdateTargetRow(tid, p)).Some?
    ensures var w' := Apply(w, UpdateTargetRow(tid, p)).value;
            Served(w') <==> !(LastActive(w, sid, tid) && !ActiveListed(w', sid, tid))
  {
    var w' := Apply(w, UpdateTargetRow(tid, p)).value;
    assert forall s, t :: t in w.targets && t != tid ==> ActiveListed(w', s, t) == ActiveListed(w, s, t);
    if LastActive(w, sid, tid) && !ActiveListed(w', sid, tid) {
      assert !HasActive(w', sid);
    } else {
      forall s | s in w'.sources && ActiveCrawl(w'.sources[s]) ensures HasActive(w', s) {
        var t :| t in w.targets && ActiveListed(w, s, t);
        if t == tid && !ActiveListed(w', s, t) {
          assert s == sid;
          var other :| other in w.targets && ActiveListed(w, sid, other) && other != tid;
          assert ActiveListed(w', s, other);
        } else {
          assert ActiveListed(w', s, t);
        }
      }
    }
  }

  lemma LastActiveIsAlone(w: World, sid: Id, tid: Id)
    ensures LastActive(w, sid, tid) ==> |ActiveTargets(w, sid)| == 1
  {
    if LastActive(w, sid, tid) {
      assert ActiveTargets(w, sid) == {tid};
    }
  }

  lemma DeactivateServed(cfg: Config, w: World, sid: Id, tid: Id, through: nat)
    requires Served(w)
    ensures Served(ApplyAll(w, Issued(PlanDeactivateTarget(w, sid, tid), through)))
  {
    var plan := PlanDeactivateTarget(w, sid, tid);
    var issued := Issued(plan, through);
    if plan.Some? && issued != [] {
      assert issued == [UpdateTargetRow(tid, DISABLE)];
      ApplyOne(w, issued[0]);
      if Apply(w, issued[0]).Some? {
        LastActiveIsAlone(w, sid, tid);
        TargetWriteServed(w, sid, tid, DISABLE);
      }
    }
  }

  lemma DeleteServed(cfg: Config, w: World, sid: Id, tid: Id, hidden: bool, text: string, through: nat)
    requires Served(w) && TargetsOk(w)
    ensures var plan := PlanDeleteTarget(w, sid, tid, hidden, text);
            Served(ApplyAll(w, Issued(plan, through))) <==> !(plan.Some? && through >= 1 && LastActive(w, sid, tid))
  {
    var plan := PlanDeleteTarget(w, sid, tid, hidden, text);
    var issued := Issued(plan, through);
    if plan.Some? && through >= 1 {
      var p := DISABLE.(meta := Some(FlushedMeta(w.targets[tid].meta, text)));
      assert issued == [UpdateTargetRow(tid, p)];
      ApplyOne(w, issued[0]);
      TargetWriteServed(w, sid, tid, p);
    }
  }

  lemma UpdateServed(cfg: Config, w: World, sid: Id, tid: Id, input: TargetUpdate, through: nat)
    requires Served(w) && RowsOk(w)
    ensures var plan := PlanUpdateTarget(cfg, w, sid, tid, input);
            Served(ApplyAll(w, Issued(plan, through))) <==>
            !(plan.Some? && through >= 1 && LastActive(w, sid, tid) && Material(w.targets[tid], input)
              && (through == 1 || !Live(w, sid)))
  {
    var plan := PlanUpdateTarget(cfg, w, sid, tid, input);
    var issued := Issued(plan, through);
    if plan.Some? && through >= 1 {
      var update := UpdateTargetRow(tid, TargetUpdatePatch(w.targets[tid], input));
      if Material(w.targets[tid], input) && Live(w, sid) && through >= 2 {
        assert issued == [update, UpdateSourceRow(sid, MARK_PENDING)];
        ApplyTwo(w, update, UpdateSourceRow(sid, MARK_PENDING));
        MarkPendingServes(w, Apply(w, update).value, sid, tid);
      } else {
        assert issued == [update];
        ApplyOne(w, update);
        TargetWriteServed(w, sid, tid, TargetUpdatePatch(w.targets[tid], input));
        if ActiveListed(w, sid, tid) {
          UpdateHides(w, sid, tid, input);
        }
      }
    }
  }

  /** The first write of an update unlists an active target exactly when the change is material. */
  lemma UpdateHides(w: World, sid: Id, tid: Id, input: TargetUpdate)
    requires ActiveListed(w, sid, tid) && Apply(w, UpdateTargetRow(tid, TargetUpdatePatch(w.targets[tid], input))).Some?
    ensures ActiveListed(Apply(w, UpdateTargetRow(tid, TargetUpdatePatch(w.targets[tid], input))).value, sid, tid)
            <==> !Material(w.targets[tid], input)
  {
  }

  /** Marking the source PENDING restores the invariant whatever happened to one of its targets. */
  lemma MarkPendingServes(w: World, w1: World, sid: Id, tid: Id)
    requires Served(w) && SourcesOk(w) && Live(w, sid) && Owned(w, sid, tid)
    requires w1.sources == w.sources && w1.targets.Keys == w.targets.Keys
    requires w1.targets[tid].source == sid
    requires forall other :: other in w.targets && other != tid ==> w1.targets[other] == w.targets[other]
    ensures var marked := Apply(w1, UpdateSourceRow(sid, MARK_PENDING));
            marked.Some? && Served(marked.value)
  {
    var w2 := Apply(w1, UpdateSourceRow(sid, MARK_PENDING)).value;
    forall s | s in w2.sources && ActiveCrawl(w2.sources[s]) ensures HasActive(w2, s) {
      assert s != sid && HasActive(w, s);
      var t :| t in w.targets && ActiveListed(w, s, t);
      assert ActiveListed(w2, s, t);
    }
  }

  /** Moving sources to ACTIVE is safe when each of them has an active target. */
  lemma ActivationServes(w: World, write: Write)
    requires Served(w) && Apply(w, write).Some?
    requires match write
             case UpdateSourceRow(sid, p) => sid in w.sources && w.sources[sid].category.Crawl? ==> HasActive(w, sid)
             case MoveProject(project, from, _) =>
               forall sid :: sid in w.sources && Moves(w, project, from, sid) && w.sources[sid].category.Crawl? ==> HasActive(w, sid)
             case _ => false
    ensures Served(Apply(w, write).value)
  {
    var w' := Apply(w, write).value;
    forall sid | sid in w'.sources && ActiveCrawl(w'.sources[sid]) ensures HasActive(w', sid) {
      assert HasActive(w, sid);
      var t :| t in w.targets && ActiveListed(w, sid, t);
      assert ActiveListed(w', sid, t);
    }
  }

  lemma ReadyHasActive(cfg: Config, w: World, sid: Id)
    requires sid in w.sources && TargetsReady(cfg, w, sid)
    ensures HasActive(w, sid)
  {
    var tid :| tid in ActiveTargets(w, sid);
    assert ActiveListed(w, sid, tid);
  }

  predicate Activates(op: Op) {
    op.OpActivateSource? || op.OpResumeSource? || op.OpProjectActivate? || op.OpProjectResume?
  }

  lemma ActivationCallServes(cfg: Config, w: World, call: Call)
    requires Served(w) && Activates(call.op)
    ensures Served(Step(cfg, w, call))
  {
    var plan := PlanOf(cfg, w, call.op);
    var issued := Issued(plan, call.through);
    if issued != [] && Apply(w, issued[0]).Some? {
      assert issued == [issued[0]];
      match issued[0] {
        case UpdateSourceRow(sid, _) =>
          if w.sources[sid].category.Crawl? {
            ReadyHasActive(cfg, w, sid);
          }
        case MoveProject(project, from, _) =>
          forall sid | sid in w.sources && Moves(w, project, from, sid) && w.sources[sid].category.Crawl?
            ensures HasActive(w, sid)
          {
            ReadyHasActive(cfg, w, sid);
          }
      }
      ApplyOne(w, issued[0]);
      ActivationServes(w, issued[0]);
    }
  }

  predicate EditsTarget(op: Op) {
    op.OpUpdateTarget? || op.OpDeactivateTarget? || op.OpDeleteTarget?
  }

  lemma OtherPlansAreGentle(cfg: Config, w: World, op: Op)
    requires !Activates(op) && !EditsTarget(op)
    ensures var plan := PlanOf(cfg, w, op);
            plan.Some? ==> forall i :: 0 <= i < |plan.value| ==> Gentle(plan.value[i])
  {
  }

  /** One call keeps the invariant exactly when it strips no source of its last active target. */
  lemma CallServes(cfg: Config, w: World, call: Call)
    requires Served(w) && RowsOk(w)
    ensures Served(Step(cfg, w, call)) <==> !Strips(cfg, w, call)
  {
    match call.op
    case OpUpdateTarget(sid, tid, update) => UpdateServed(cfg, w, sid, tid, update, call.through);
    case OpDeactivateTarget(sid, tid) => DeactivateServed(cfg, w, sid, tid, call.through);
    case OpDeleteTarget(sid, tid, hidden, text) => DeleteServed(cfg, w, sid, tid, hidden, text, call.through);
    case _ =>
      if Activates(call.op) {
        ActivationCallServes(cfg, w, call);
      } else {
        OtherPlansAreGentle(cfg, w, call.op);
        GentleWritesKeepServed(w, Issued(PlanOf(cfg, w, call.op), call.through));
      }
  }

  /** In every run from an empty database that never strips a source, every ACTIVE crawl source has
      an active target at every point. */
  lemma {:induction false} RunServes(cfg: Config, calls: seq<Call>)
    requires forall i :: 0 <= i < |calls| ==> !Strips(cfg, Run(cfg, EMPTY, calls[..i]), calls[i])
    ensures Served(Run(cfg, EMPTY, calls))
  {
    if calls != [] {
      var n := |calls| - 1;
      forall i | 0 <= i < n ensures !Strips(cfg, Run(cfg, EMPTY, calls[..n][..i]), calls[..n][i]) {
        assert calls[..n][..i] == calls[..i];
      }
      RunServes(cfg, calls[..n]);
      RunKeepsRowsOk(cfg, calls[..n]);
      CallServes(cfg, Run(cfg, EMPTY, calls[..n]), calls[n]);
    }
  }
}
