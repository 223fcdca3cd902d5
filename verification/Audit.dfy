/** The crawl-mode audit rows of a source replay its crawl mode. */
module AuditTheorems {
  import opened Model
  import opened ControlPlane
  import opened Invariants

  /** The rows lead from one mode to another: each starts from the mode the one before it ended in. */
  ghost predicate Chain(rows: seq<ModeChange>, from: Option<CrawlMode>, to: Option<CrawlMode>) {
    if rows == [] then from == to
    else to == Some(rows[|rows| - 1].toMode) && Chain(rows[..|rows| - 1], from, Some(rows[|rows| - 1].fromMode))
  }

  lemma {:induction false} ChainAppend(a: seq<ModeChange>, b: seq<ModeChange>,
                                       from: Option<CrawlMode>, mid: Option<CrawlMode>, to: Option<CrawlMode>)
    requires Chain(a, from, mid) && Chain(b, mid, to)
    ensures Chain(a + b, from, to)
  {
    if b == [] {
      assert a + b == a;
    } else {
      assert (a + b)[..|a + b| - 1] == a + b[..|b| - 1];
      ChainAppend(a, b[..|b| - 1], from, mid, Some(b[|b| - 1].fromMode));
    }
  }

  /** Consecutive rows of a chain meet, its first row starts at `from` and its last ends at `to`. */
  lemma {:induction false} ChainMeets(rows: seq<ModeChange>, from: Option<CrawlMode>, to: Option<CrawlMode>)
    requires Chain(rows, from, to) && rows != []
    ensures from == Some(rows[0].fromMode) && to == Some(rows[|rows| - 1].toMode)
    ensures forall i :: 0 < i < |rows| ==> rows[i].fromMode == rows[i - 1].toMode
  {
    var n := |rows| - 1;
    if n > 0 {
      ChainMeets(rows[..n], from, Some(rows[n].fromMode));
      assert rows[..n][n - 1] == rows[n - 1];
      forall i | 0 < i < |rows| ensures rows[i].fromMode == rows[i - 1].toMode {
        if i < n {
          assert rows[..n][i] == rows[i] && rows[..n][i - 1] == rows[i - 1];
        }
      }
    }
  }

  ghost predicate Audited(w: World, sid: Id) {
    sid in w.sources && sid in w.audit
  }

  /** From `w` to `w'` the source only gained audit rows, and they lead from its old mode to its new one. */
  ghost predicate Replays(w: World, w': World, sid: Id) {
    && Audited(w, sid) && Audited(w', sid)
    && exists rows :: w'.audit[sid] == w.audit[sid] + rows && Chain(rows, w.sources[sid].crawlMode, w'.sources[sid].crawlMode)
  }

  /** Without a new audit row the mode must not have moved. */
  lemma ReplaysUnchanged(w: World, w': World, sid: Id)
    requires Audited(w, sid) && Audited(w', sid) && w'.audit[sid] == w.audit[sid]
    ensures Replays(w, w', sid) <==> w'.sources[sid].crawlMode == w.sources[sid].crawlMode
  {
    assert w'.audit[sid] == w.audit[sid] + [];
    forall rows | w'.audit[sid] == w.audit[sid] + rows ensures rows == [] {
    }
  }

  lemma ReplaysOne(w: World, w': World, sid: Id, row: ModeChange)
    requires Audited(w, sid) && Audited(w', sid)
    requires w'.audit[sid] == w.audit[sid] + [row]
    requires w.sources[sid].crawlMode == Some(row.fromMode) && w'.sources[sid].crawlMode == Some(row.toMode)
    ensures Replays(w, w', sid)
  {
    assert [row][..0] == [];
    assert Chain([row], w.sources[sid].crawlMode, w'.sources[sid].crawlMode);
  }

  /** Writes that touch neither the mode nor the audit rows of a source. */
  predicate LeavesMode(write: Write, sid: Id) {
    match write
    case UpdateSourceRow(id, p) => id == sid ==> p.crawlMode.None?
    case FlipProject(_, _, _) => false
    case InsertChange(id, _) => id != sid
    case _ => true
  }

  predicate ChangesMode(op: Op) {
    op.OpUpdateCrawlMode? || op.OpProjectCrawlMode?
  }

  lemma WriteLeavesMode(w: World, write: Write, sid: Id)
    requires Audited(w, sid) && LeavesMode(write, sid) && Apply(w, write).Some?
    ensures var w' := Apply(w, write).value;
            && Audited(w', sid)
            && w'.audit[sid] == w.audit[sid] && w'.sources[sid].crawlMode == w.sources[sid].crawlMode
  {
  }

  lemma {:induction false} WritesLeaveMode(w: World, writes: seq<Write>, sid: Id)
    requires Audited(w, sid) && forall i :: 0 <= i < |writes| ==> LeavesMode(writes[i], sid)
    ensures var w' := ApplyAll(w, writes);
            && Audited(w', sid)
            && w'.audit[sid] == w.audit[sid] && w'.sources[sid].crawlMode == w.sources[sid].crawlMode
    decreases |writes|
  {
    if writes != [] && Apply(w, writes[0]).Some? {
      WriteLeavesMode(w, writes[0], sid);
      WritesLeaveMode(Apply(w, writes[0]).value, writes[1..], sid);
    }
  }

  lemma OtherPlansLeaveMode(cfg: Config, w: World, op: Op, sid: Id)
    requires !ChangesMode(op)
    ensures var plan := PlanOf(cfg, w, op);
            plan.Some? ==> forall i :: 0 <= i < |plan.value| ==> LeavesMode(plan.value[i], sid)
  {
  }

  lemma FlipReplays(w: World, project: Id, mode: CrawlMode, locked: set<Id>, sid: Id)
    requires Audited(w, sid)
    ensures Replays(w, Apply(w, FlipProject(project, mode, locked)).value, sid)
  {
    var w' := Apply(w, FlipProject(project, mode, locked)).value;
    if Flips(w, project, mode, locked, sid) {
      ReplaysOne(w, w', sid, ModeChange(w.sources[sid].crawlMode.value, mode));
    } else {
      ReplaysUnchanged(w, w', sid);
    }
  }

  /** An accepted mode change whose audit row is lost, when it changes something. */
  predicate LosesAudit(w: World, id: Id, mode: CrawlMode, through: nat, sid: Id) {
    id == sid && PlanUpdateCrawlMode(w, id, mode).Some? && through == 1 && w.sources[id].crawlMode != Some(mode)
  }

  lemma ModeUpdateWrites(w: World, id: Id, mode: CrawlMode)
    requires SourcesOk(w) && PlanUpdateCrawlMode(w, id, mode).Some?
    ensures var writes := PlanUpdateCrawlMode(w, id, mode).value;
            var updated := w.(sources := w.sources[id := w.sources[id].(crawlMode := Some(mode))]);
            && writes == [writes[0], writes[1]]
            && ApplyAll(w, [writes[0]]) == updated
            && ApplyAll(w, writes) ==
                 updated.(audit := w.audit[id := w.audit[id] + [ModeChange(w.sources[id].crawlMode.value, mode)]])
  {
    var writes := PlanUpdateCrawlMode(w, id, mode).value;
    ApplyOne(w, writes[0]);
    ApplyTwo(w, writes[0], writes[1]);
  }

  lemma ModeUpdateReplays(w: World, id: Id, mode: CrawlMode, through: nat, sid: Id)
    requires SourcesOk(w) && sid in w.sources
    ensures Replays(w, ApplyAll(w, Issued(PlanUpdateCrawlMode(w, id, mode), through)), sid)
            <==> !LosesAudit(w, id, mode, through, sid)
  {
    var plan := PlanUpdateCrawlMode(w, id, mode);
    var issued := Issued(plan, through);
    var w' := ApplyAll(w, issued);
    if issued == [] {
      ReplaysUnchanged(w, w', sid);
    } else {
      ModeUpdateWrites(w, id, mode);
      assert issued == if through == 1 then [plan.value[0]] else plan.value;
      if id == sid && through >= 2 {
        ReplaysOne(w, w', sid, ModeChange(w.sources[id].crawlMode.value, mode));
      } else {
        ReplaysUnchanged(w, w', sid);
      }
    }
  }

  predicate Loses(w: World, call: Call, sid: Id) {
    match call.op
    case OpUpdateCrawlMode(id, mode) => LosesAudit(w, id, mode, call.through, sid)
    case _ => false
  }

  lemma ProjectModeReplays(w: World, project: Id, mode: CrawlMode, locked: set<Id>, through: nat, sid: Id)
    requires Audited(w, sid)
    ensures Replays(w, ApplyAll(w, Issued(Some([FlipProject(project, mode, locked)]), through)), sid)
  {
    var flip := FlipProject(project, mode, locked);
    var issued := Issued(Some([flip]), through);
    if through == 0 {
      ReplaysUnchanged(w, w, sid);
    } else {
      assert issued == [flip];
      ApplyOne(w, flip);
      FlipReplays(w, project, mode, locked, sid);
    }
  }

  lemma OtherCallReplays(cfg: Config, w: World, call: Call, sid: Id)
    requires Audited(w, sid) && !ChangesMode(call.op)
    ensures Replays(w, Step(cfg, w, call), sid)
  {
    OtherPlansLeaveMode(cfg, w, call.op, sid);
    WritesLeaveMode(w, Issued(PlanOf(cfg, w, call.op), call.through), sid);
    ReplaysUnchanged(w, Step(cfg, w, call), sid);
  }

  /** One call extends the replay of a source exactly when it does not lose an audit row of it. */
  lemma CallReplays(cfg: Config, w: World, call: Call, sid: Id)
    requires SourcesOk(w) && sid in w.sources
    ensures Replays(w, Step(cfg, w, call), sid) <==> !Loses(w, call, sid)
  {
    match call.op
    case OpUpdateCrawlMode(id, mode) => ModeUpdateReplays(w, id, mode, call.through, sid);
    case OpProjectCrawlMode(project, mode, locked) => ProjectModeReplays(w, project, mode, locked, call.through, sid);
    case _ => OtherCallReplays(cfg, w, call, sid);
  }

  // ---------------------------------------------------------------- whole runs

  /** The crawl mode a source was created with. */
  ghost function CreationMode(cfg: Config, calls: seq<Call>, sid: Id): Option<CrawlMode>
    requires sid in Run(cfg, EMPTY, calls).sources
  {
    if calls != [] && sid in Run(cfg, EMPTY, calls[..|calls| - 1]).sources
    then CreationMode(cfg, calls[..|calls| - 1], sid)
    else Run(cfg, EMPTY, calls).sources[sid].crawlMode
  }

  lemma NewSourceHasNoRows(cfg: Config, w: World, call: Call, sid: Id)
    requires SourcesOk(w) && sid !in w.sources && Audited(Step(cfg, w, call), sid)
    ensures Step(cfg, w, call).audit[sid] == []
  {
    var issued := Issued(PlanOf(cfg, w, call.op), call.through);
    if call.op.OpCreateSource? {
      if issued != [] {
        assert issued == [issued[0]];
        ApplyOne(w, issued[0]);
      }
    } else {
      OtherPlansAddNoSource(cfg, w, call.op);
      WritesAddNoSource(w, issued);
    }
  }

  /** In every run that loses no audit row of a source, its rows form a chain from the mode it was
      created with to its current mode. */
  lemma {:induction false} AuditReplays(cfg: Config, calls: seq<Call>, sid: Id)
    requires sid in Run(cfg, EMPTY, calls).sources
    requires forall i :: 0 <= i < |calls| ==> !Loses(Run(cfg, EMPTY, calls[..i]), calls[i], sid)
    ensures Audited(Run(cfg, EMPTY, calls), sid)
    ensures Chain(Run(cfg, EMPTY, calls).audit[sid], CreationMode(cfg, calls, sid), Run(cfg, EMPTY, calls).sources[sid].crawlMode)
  {
    RunKeepsRowsOk(cfg, calls);
    if calls != [] {
      var n := |calls| - 1;
      var w, w' := Run(cfg, EMPTY, calls[..n]), Run(cfg, EMPTY, calls);
      RunKeepsRowsOk(cfg, calls[..n]);
      if sid in w.sources {
        forall i | 0 <= i < n ensures !Loses(Run(cfg, EMPTY, calls[..n][..i]), calls[..n][i], sid) {
          assert calls[..n][..i] == calls[..i];
        }
        AuditReplays(cfg, calls[..n], sid);
        CallReplays(cfg, w, calls[n], sid);
        var rows :| w'.audit[sid] == w.audit[sid] + rows && Chain(rows, w.sources[sid].crawlMode, w'.sources[sid].crawlMode);
        ChainAppend(w.audit[sid], rows, CreationMode(cfg, calls, sid), w.sources[sid].crawlMode, w'.sources[sid].crawlMode);
      } else {
        NewSourceHasNoRows(cfg, w, calls[n], sid);
      }
    }
  }
}
