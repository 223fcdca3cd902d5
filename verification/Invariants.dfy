/** Facts kept by every repository write, and so by every run of control-plane calls. */
module Invariants {
  import opened Model
  import opened Values
  import opened ControlPlane
  import opened Interval

  // ---------------------------------------------------------------- what no operation changes

  /** Rows never disappear, and neither the kind of a source nor the values of a target change. */
  ghost predicate SameKinds(w: World, w': World) {
    && (forall sid :: sid in w.sources ==> sid in w'.sources && SameSourceKind(w.sources[sid], w'.sources[sid]))
    && (forall tid :: tid in w.targets ==> tid in w'.targets && SameTargetKind(w.targets[tid], w'.targets[tid]))
  }

  predicate SameSourceKind(s: Source, s': Source) {
    s.sourceType == s'.sourceType && s.category == s'.category && s.project == s'.project
  }

  predicate SameTargetKind(t: Target, t': Target) {
    t.source == t'.source && t.targetType == t'.targetType && t.values == t'.values
  }

  /** The writes operations plan: they never set target values, and insert rows the checks of the
      creating operation have passed. */
  ghost predicate Planned(write: Write) {
    match write
    case UpdateTargetRow(_, p) => p.values.None?
    case InsertSource(_, s) => s.status.Pending?
    case InsertTarget(_, t) => t.values != [] && IsNormal(t.values, t.targetType.Keyword?) && !t.isActive
    case FinishDryrun(_, status, _) => IsTerminalDryrunStatus(status)
    case InsertDryrun(row) => row.status.Running? && !row.completed && row.target.Some?
    case _ => true
  }

  ghost predicate AllPlanned(writes: seq<Write>) {
    forall i :: 0 <= i < |writes| ==> Planned(writes[i])
  }

  predicate PlansDryrun(op: Op) {
    op.OpTriggerDryrun? || op.OpCompleteDryrun?
  }

  lemma CreationIsPlanned(cfg: Config, w: World, op: Op)
    requires op.OpCreateTarget?
    ensures PlanOf(cfg, w, op).Some? ==> AllPlanned(PlanOf(cfg, w, op).value)
  {
    NormalizedIsNormal(op.input.values, op.targetType.Keyword?);
  }

  lemma DryrunsArePlanned(cfg: Config, w: World, op: Op)
    requires PlansDryrun(op)
    ensures PlanOf(cfg, w, op).Some? ==> AllPlanned(PlanOf(cfg, w, op).value)
  {
  }

  lemma OthersArePlanned(cfg: Config, w: World, op: Op)
    requires !op.OpCreateTarget? && !PlansDryrun(op)
    ensures PlanOf(cfg, w, op).Some? ==> AllPlanned(PlanOf(cfg, w, op).value)
  {
  }

  lemma PlansArePlanned(cfg: Config, w: World, op: Op)
    ensures PlanOf(cfg, w, op).Some? ==> AllPlanned(PlanOf(cfg, w, op).value)
  {
    if op.OpCreateTarget? {
      CreationIsPlanned(cfg, w, op);
    } else if PlansDryrun(op) {
      DryrunsArePlanned(cfg, w, op);
    } else {
      OthersArePlanned(cfg, w, op);
    }
  }

  lemma WriteKeepsKinds(w: World, write: Write)
    requires Planned(write)
    ensures Apply(w, write).Some? ==> SameKinds(w, Apply(w, write).value)
  {
  }

  lemma {:induction false} WritesKeepKinds(w: World, writes: seq<Write>)
    requires AllPlanned(writes)
    ensures SameKinds(w, ApplyAll(w, writes))
    decreases |writes|
  {
    if writes != [] {
      WriteKeepsKinds(w, writes[0]);
      match Apply(w, writes[0])
      case None =>
      case Some(w') => WritesKeepKinds(w', writes[1..]);
    }
  }

  lemma {:induction false} RunKeepsKinds(cfg: Config, w: World, calls: seq<Call>)
    ensures SameKinds(w, Run(cfg, w, calls))
  {
    if calls != [] {
      var w1 := Run(cfg, w, calls[..|calls| - 1]);
      var call := calls[|calls| - 1];
      RunKeepsKinds(cfg, w, calls[..|calls| - 1]);
      PlansArePlanned(cfg, w1, call.op);
      WritesKeepKinds(w1, Issued(PlanOf(cfg, w1, call.op), call.through));
    }
  }

  // ---------------------------------------------------------------- only creation adds sources

  lemma {:induction false} WritesAddNoSource(w: World, writes: seq<Write>)
    requires forall i :: 0 <= i < |writes| ==> !writes[i].InsertSource?
    ensures ApplyAll(w, writes).sources.Keys == w.sources.Keys
    decreases |writes|
  {
    if writes != [] && Apply(w, writes[0]).Some? {
      OtherWriteAddsNoSource(w, writes[0]);
      WritesAddNoSource(Apply(w, writes[0]).value, writes[1..]);
    }
  }

  lemma OtherWriteAddsNoSource(w: World, write: Write)
    requires !write.InsertSource? && Apply(w, write).Some?
    ensures Apply(w, write).value.sources.Keys == w.sources.Keys
  {
  }

  lemma OtherPlansAddNoSource(cfg: Config, w: World, op: Op)
    requires !op.OpCreateSource?
    ensures var plan := PlanOf(cfg, w, op);
            plan.Some? ==> forall i :: 0 <= i < |plan.value| ==> !plan.value[i].InsertSource?
  {
  }

  // ---------------------------------------------------------------- well-formed rows

  ghost predicate TargetRowOk(w: World, t: Target) {
    && t.interval > 0
    && t.source in w.sources
    && t.values != [] && IsNormal(t.values, t.targetType.Keyword?)
  }

  ghost predicate SourcesOk(w: World) {
    && (forall sid :: sid in w.sources ==> SourceRowOk(w.sources[sid]))
    && w.audit.Keys == w.sources.Keys
  }

  ghost predicate TargetsOk(w: World) {
    forall tid :: tid in w.targets ==> TargetRowOk(w, w.targets[tid])
  }

  ghost predicate RowsOk(w: World) {
    SourcesOk(w) && TargetsOk(w)
  }

  lemma WriteKeepsSourcesOk(w: World, write: Write)
    requires SourcesOk(w)
    ensures Apply(w, write).Some? ==> SourcesOk(Apply(w, write).value)
  {
  }

  lemma WriteKeepsTargetsOk(w: World, write: Write)
    requires TargetsOk(w) && Planned(write)
    ensures Apply(w, write).Some? ==> TargetsOk(Apply(w, write).value)
  {
  }

  lemma {:induction false} WritesKeepRowsOk(w: World, writes: seq<Write>)
    requires RowsOk(w) && AllPlanned(writes)
    ensures RowsOk(ApplyAll(w, writes))
    decreases |writes|
  {
    if writes != [] {
      WriteKeepsSourcesOk(w, writes[0]);
      WriteKeepsTargetsOk(w, writes[0]);
      match Apply(w, writes[0])
      case None =>
      case Some(w') => WritesKeepRowsOk(w', writes[1..]);
    }
  }

  lemma {:induction false} RunKeepsRowsOk(cfg: Config, calls: seq<Call>)
    ensures RowsOk(Run(cfg, EMPTY, calls))
  {
    if calls != [] {
      var w1 := Run(cfg, EMPTY, calls[..|calls| - 1]);
      var call := calls[|calls| - 1];
      RunKeepsRowsOk(cfg, calls[..|calls| - 1]);
      PlansArePlanned(cfg, w1, call.op);
      WritesKeepRowsOk(w1, Issued(PlanOf(cfg, w1, call.op), call.through));
    }
  }

  /** In every reachable state a target of a crawl source has an effective interval: computing it takes
      no error branch, and gives between one minute and a day. */
  lemma ReachableIntervalIsDefined(cfg: Config, calls: seq<Call>, tid: Id)
    requires tid in Run(cfg, EMPTY, calls).targets
    ensures var w := Run(cfg, EMPTY, calls);
            var t := w.targets[tid];
            && t.source in w.sources
            && (w.sources[t.source].category.Crawl? ==>
                  && w.sources[t.source].crawlMode.Some? && t.interval > 0
                  && 1 <= EffectiveMinutes(w.sources[t.source].crawlMode.value, t.interval) <= 1440)
  {
    RunKeepsRowsOk(cfg, calls);
  }

  // ---------------------------------------------------------------- values given at creation

  /** Preparing a target's own stored values gives them back. */
  ghost predicate AcceptsItself(cfg: Config, t: Target) {
    Prepared(t.targetType, t.values, cfg.isUrl) == Some(t.values)
  }

  ghost predicate AllAcceptThemselves(cfg: Config, w: World) {
    forall tid :: tid in w.targets ==> AcceptsItself(cfg, w.targets[tid])
  }

  lemma OtherPlansInsertNoTarget(cfg: Config, w: World, op: Op)
    requires !op.OpCreateTarget?
    ensures var plan := PlanOf(cfg, w, op);
            plan.Some? ==> forall i :: 0 <= i < |plan.value| ==> !plan.value[i].InsertTarget?
  {
  }

  lemma CreationInsertsPrepared(cfg: Config, w: World, op: Op)
    requires op.OpCreateTarget?
    ensures var plan := PlanOf(cfg, w, op);
            plan.Some? ==> forall i :: 0 <= i < |plan.value| && plan.value[i].InsertTarget? ==> AcceptsItself(cfg, plan.value[i].target)
  {
    NormalizeIdempotent(op.input.values, op.targetType.Keyword?);
  }

  lemma PlansInsertPrepared(cfg: Config, w: World, op: Op)
    ensures var plan := PlanOf(cfg, w, op);
            plan.Some? ==> forall i :: 0 <= i < |plan.value| && plan.value[i].InsertTarget? ==> AcceptsItself(cfg, plan.value[i].target)
  {
    if op.OpCreateTarget? {
      CreationInsertsPrepared(cfg, w, op);
    } else {
      OtherPlansInsertNoTarget(cfg, w, op);
    }
  }

  lemma WriteKeepsAccepting(cfg: Config, w: World, write: Write)
    requires AllAcceptThemselves(cfg, w) && Planned(write)
    requires write.InsertTarget? ==> AcceptsItself(cfg, write.target)
    ensures Apply(w, write).Some? ==> AllAcceptThemselves(cfg, Apply(w, write).value)
  {
  }

  lemma {:induction false} WritesKeepAccepting(cfg: Config, w: World, writes: seq<Write>)
    requires AllAcceptThemselves(cfg, w) && AllPlanned(writes)
    requires forall i :: 0 <= i < |writes| && writes[i].InsertTarget? ==> AcceptsItself(cfg, writes[i].target)
    ensures AllAcceptThemselves(cfg, ApplyAll(w, writes))
    decreases |writes|
  {
    if writes != [] && Apply(w, writes[0]).Some? {
      WriteKeepsAccepting(cfg, w, writes[0]);
      WritesKeepAccepting(cfg, Apply(w, writes[0]).value, writes[1..]);
    }
  }

  lemma {:induction false} RunKeepsAccepting(cfg: Config, calls: seq<Call>)
    ensures AllAcceptThemselves(cfg, Run(cfg, EMPTY, calls))
  {
    if calls != [] {
      var w, call := Run(cfg, EMPTY, calls[..|calls| - 1]), calls[|calls| - 1];
      RunKeepsAccepting(cfg, calls[..|calls| - 1]);
      PlansArePlanned(cfg, w, call.op);
      PlansInsertPrepared(cfg, w, call.op);
      WritesKeepAccepting(cfg, w, Issued(PlanOf(cfg, w, call.op), call.through));
    }
  }

  /** In every reachable state a submitted value list is accepted exactly when preparing it gives the
      stored list; so the stored list itself always is, and every list that normalises to it. */
  lemma AcceptedValuesExactly(cfg: Config, calls: seq<Call>, tid: Id, values: seq<string>)
    requires tid in Run(cfg, EMPTY, calls).targets
    ensures var t := Run(cfg, EMPTY, calls).targets[tid];
            && (ValuesAccepted(cfg, t, Some(values)) <==> Prepared(t.targetType, values, cfg.isUrl) == Some(t.values))
            && ValuesAccepted(cfg, t, Some(t.values))
  {
    var t := Run(cfg, EMPTY, calls).targets[tid];
    RunKeepsRowsOk(cfg, calls);
    RunKeepsAccepting(cfg, calls);
    NormalizedIsNormal(values, t.targetType.Keyword?);
    SlicesEqualOnNormal(t.values, Normalized(values, t.targetType.Keyword?), t.targetType.Keyword?);
  }
}
