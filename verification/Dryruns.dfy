/** Dryrun results: one flight at a time, final once finished, and only for crawl sources. */
module DryrunTheorems {
  import opened Model
  import opened ControlPlane
  import opened Invariants

  predicate Finished(row: Dryrun) {
    IsTerminalDryrunStatus(row.status) || row.completed
  }

  /** Every row belongs to a target of an existing crawl source, jobs are distinct, and only the
      newest row of a target can be RUNNING. */
  ghost predicate FlightsOk(w: World) {
    && (forall i :: 0 <= i < |w.dryruns| ==> RowPlaced(w, w.dryruns[i]))
    && (forall i, j :: 0 <= i < j < |w.dryruns| ==> w.dryruns[i].job != w.dryruns[j].job)
    && (forall i, j :: 0 <= i < j < |w.dryruns| && w.dryruns[i].target == w.dryruns[j].target ==> !w.dryruns[i].status.Running?)
  }

  ghost predicate RowPlaced(w: World, row: Dryrun) {
    row.target.Some? && row.source in w.sources && w.sources[row.source].category.Crawl?
  }

  /** Results are only added, keep their identity, and are never rewritten once finished. */
  ghost predicate Settled(rows: seq<Dryrun>, rows': seq<Dryrun>) {
    && |rows| <= |rows'|
    && forall i :: 0 <= i < |rows| ==>
         && rows'[i] == rows[i].(status := rows'[i].status, completed := rows'[i].completed)
         && (Finished(rows[i]) ==> rows'[i] == rows[i])
  }

  // ---------------------------------------------------------------- the newest row

  lemma {:induction false} LatestExists(rows: seq<Dryrun>, tid: Id, i: nat) returns (last: nat)
    requires i < |rows| && rows[i].target == Some(tid)
    ensures i <= last < |rows| && rows[last].target == Some(tid) && LatestOf(rows, tid) == Some(rows[last])
  {
    if rows[|rows| - 1].target == Some(tid) {
      last := |rows| - 1;
    } else {
      last := LatestExists(rows[..|rows| - 1], tid, i);
    }
  }

  /** No result of a target runs exactly when its newest one does not. */
  lemma LatestDecidesRunning(w: World, tid: Id)
    requires FlightsOk(w)
    ensures DryrunRunning(w, tid) <==> exists i :: 0 <= i < |w.dryruns| && w.dryruns[i].target == Some(tid) && w.dryruns[i].status.Running?
  {
    if exists i :: 0 <= i < |w.dryruns| && w.dryruns[i].target == Some(tid) && w.dryruns[i].status.Running? {
      var i :| 0 <= i < |w.dryruns| && w.dryruns[i].target == Some(tid) && w.dryruns[i].status.Running?;
      var last := LatestExists(w.dryruns, tid, i);
    } else {
      LatestAmong(w.dryruns, tid);
    }
  }

  lemma {:induction false} LatestAmong(rows: seq<Dryrun>, tid: Id)
    ensures LatestOf(rows, tid).Some? ==>
              exists i :: 0 <= i < |rows| && rows[i].target == Some(tid) && LatestOf(rows, tid) == Some(rows[i])
  {
    if rows != [] && rows[|rows| - 1].target != Some(tid) {
      LatestAmong(rows[..|rows| - 1], tid);
    }
  }

  // ---------------------------------------------------------------- writes

  /** A new row starts no second flight of its target, reuses no job, and has its place. */
  ghost predicate Admissible(w: World, write: Write) {
    match write
    case InsertDryrun(row) =>
      && RowPlaced(w, row) && !DryrunRunning(w, row.target.value)
      && forall i :: 0 <= i < |w.dryruns| ==> w.dryruns[i].job != row.job
    case FinishDryrun(i, status, _) => IsTerminalDryrunStatus(status) && i < |w.dryruns| && !Finished(w.dryruns[i])
    case _ => true
  }

  lemma WriteKeepsRows(w: World, write: Write)
    requires Apply(w, write).Some? && !write.InsertDryrun? && !write.FinishDryrun?
    ensures Apply(w, write).value.dryruns == w.dryruns
  {
  }

  lemma WriteKeepsPlaces(w: World, write: Write, row: Dryrun)
    requires Apply(w, write).Some? && RowPlaced(w, row)
    ensures RowPlaced(Apply(w, write).value, row)
  {
  }

  lemma WriteKeepsFlights(w: World, write: Write)
    requires FlightsOk(w) && Admissible(w, write) && Apply(w, write).Some?
    ensures FlightsOk(Apply(w, write).value) && Settled(w.dryruns, Apply(w, write).value.dryruns)
  {
    var w' := Apply(w, write).value;
    forall i | 0 <= i < |w.dryruns| ensures RowPlaced(w', w.dryruns[i]) {
      WriteKeepsPlaces(w, write, w.dryruns[i]);
    }
    if write.InsertDryrun? {
      LatestDecidesRunning(w, write.row.target.value);
    } else if !write.FinishDryrun? {
      WriteKeepsRows(w, write);
    }
  }

  lemma {:induction false} WritesKeepFlights(w: World, writes: seq<Write>)
    requires FlightsOk(w)
    requires forall i :: 0 <= i < |writes| ==> !writes[i].InsertDryrun? && !writes[i].FinishDryrun?
    ensures FlightsOk(ApplyAll(w, writes)) && Settled(w.dryruns, ApplyAll(w, writes).dryruns)
    decreases |writes|
  {
    if writes != [] && Apply(w, writes[0]).Some? {
      WriteKeepsFlights(w, writes[0]);
      WritesKeepFlights(Apply(w, writes[0]).value, writes[1..]);
    }
  }

  // ---------------------------------------------------------------- calls and runs

  /** After the row is inserted: marking the source, then failing the row just inserted. */
  lemma TriggerTailKeeps(w: World, mark: Write, fail: Write)
    requires FlightsOk(w) && mark.UpdateSourceRow? && Admissible(w, fail) && fail.FinishDryrun?
    ensures forall ws | ws in {[], [mark], [mark, fail]} ::
              FlightsOk(ApplyAll(w, ws)) && Settled(w.dryruns, ApplyAll(w, ws).dryruns)
  {
    ApplyOne(w, mark);
    ApplyTwo(w, mark, fail);
    if Apply(w, mark).Some? {
      var w1 := Apply(w, mark).value;
      WriteKeepsFlights(w, mark);
      ApplyOne(w1, fail);
      if Apply(w1, fail).Some? {
        WriteKeepsFlights(w1, fail);
      }
    }
  }

  lemma TriggerKeeps(w: World, id: Id, target: Option<Id>, rid: Id, job: Id, published: bool, through: nat)
    requires FlightsOk(w)
    ensures var w' := ApplyAll(w, Issued(PlanTriggerDryrun(w, id, target, rid, job, published), through));
            FlightsOk(w') && Settled(w.dryruns, w'.dryruns)
  {
    var issued := Issued(PlanTriggerDryrun(w, id, target, rid, job, published), through);
    if issued != [] {
      var insert := InsertDryrun(Dryrun(rid, id, target, job, DryrunStatus.Running, false));
      var mark := UpdateSourceRow(id, MarkRunning(w.sources[id].status, rid));
      var fail := FinishDryrun(|w.dryruns|, DryrunStatus.Failed, false);
      assert issued == [insert] || issued == [insert] + [mark] || issued == [insert] + [mark, fail];
      WriteKeepsFlights(w, insert);
      var w1 := Apply(w, insert).value;
      ApplyAfter(w, insert, issued[1..]);
      TriggerTailKeeps(w1, mark, fail);
    }
  }

  lemma CompleteKeeps(cfg: Config, w: World, job: Id, status: DryrunStatus, through: nat)
    requires FlightsOk(w)
    ensures var w' := ApplyAll(w, Issued(PlanCompleteDryrun(cfg, w, job, status), through));
            FlightsOk(w') && Settled(w.dryruns, w'.dryruns)
  {
    var issued := Issued(PlanCompleteDryrun(cfg, w, job, status), through);
    if issued != [] && issued[0].FinishDryrun? {
      assert issued == [issued[0]];
      ApplyOne(w, issued[0]);
      if Apply(w, issued[0]).Some? {
        WriteKeepsFlights(w, issued[0]);
      }
    } else {
      WritesKeepFlights(w, issued);
    }
  }

  predicate Flies(op: Op) {
    op.OpTriggerDryrun? || op.OpCompleteDryrun?
  }

  lemma OtherPlansKeepRows(cfg: Config, w: World, op: Op)
    requires !Flies(op)
    ensures var plan := PlanOf(cfg, w, op);
            plan.Some? ==> forall i :: 0 <= i < |plan.value| ==> !plan.value[i].InsertDryrun? && !plan.value[i].FinishDryrun?
  {
  }

  lemma OtherCallKeepsFlights(cfg: Config, w: World, call: Call)
    requires FlightsOk(w) && !Flies(call.op)
    ensures FlightsOk(Step(cfg, w, call)) && Settled(w.dryruns, Step(cfg, w, call).dryruns)
  {
    OtherPlansKeepRows(cfg, w, call.op);
    WritesKeepFlights(w, Issued(PlanOf(cfg, w, call.op), call.through));
  }

  lemma TriggerCallKeeps(cfg: Config, w: World, call: Call)
    requires FlightsOk(w) && call.op.OpTriggerDryrun?
    ensures FlightsOk(Step(cfg, w, call)) && Settled(w.dryruns, Step(cfg, w, call).dryruns)
  {
    var OpTriggerDryrun(id, target, rid, job, published) := call.op;
    TriggerKeeps(w, id, target, rid, job, published, call.through);
  }

  lemma CompleteCallKeeps(cfg: Config, w: World, call: Call)
    requires FlightsOk(w) && call.op.OpCompleteDryrun?
    ensures FlightsOk(Step(cfg, w, call)) && Settled(w.dryruns, Step(cfg, w, call).dryruns)
  {
    var OpCompleteDryrun(job, status) := call.op;
    CompleteKeeps(cfg, w, job, status, call.through);
  }

  lemma CallKeepsFlights(cfg: Config, w: World, call: Call)
    requires FlightsOk(w)
    ensures FlightsOk(Step(cfg, w, call)) && Settled(w.dryruns, Step(cfg, w, call).dryruns)
  {
    if call.op.OpTriggerDryrun? {
      TriggerCallKeeps(cfg, w, call);
    } else if call.op.OpCompleteDryrun? {
      CompleteCallKeeps(cfg, w, call);
    } else {
      OtherCallKeepsFlights(cfg, w, call);
    }
  }

  /** Over every run: finished results are never rewritten. */
  lemma {:induction false} RunKeepsFlights(cfg: Config, w: World, calls: seq<Call>)
    requires FlightsOk(w)
    ensures FlightsOk(Run(cfg, w, calls)) && Settled(w.dryruns, Run(cfg, w, calls).dryruns)
  {
    if calls != [] {
      RunKeepsFlights(cfg, w, calls[..|calls| - 1]);
      CallKeepsFlights(cfg, Run(cfg, w, calls[..|calls| - 1]), calls[|calls| - 1]);
    }
  }

  /** In every run from an empty database at most one result of a target is RUNNING, that one is the
      target's newest, and passive sources have no result. */
  lemma OneFlight(cfg: Config, calls: seq<Call>, i: nat)
    requires i < |Run(cfg, EMPTY, calls).dryruns|
    ensures var w := Run(cfg, EMPTY, calls);
            var row := w.dryruns[i];
            && row.target.Some? && row.source in w.sources && w.sources[row.source].category.Crawl?
            && (row.status.Running? ==> LatestOf(w.dryruns, row.target.value) == Some(row))
            && forall j :: 0 <= j < |w.dryruns| && j != i && w.dryruns[j].target == row.target ==>
                 !(row.status.Running? && w.dryruns[j].status.Running?)
  {
    RunKeepsFlights(cfg, EMPTY, calls);
    var w := Run(cfg, EMPTY, calls);
    var last := LatestExists(w.dryruns, w.dryruns[i].target.value, i);
  }
}
