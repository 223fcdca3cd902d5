/** Three documented rules that the code does not follow, as it does decide them. */
module DocumentedRules {
  import opened Model
  import opened ControlPlane
  import opened Invariants
  import opened LifecycleTheorems

  /** Changing the config or the mapping rules leaves the status and the last dryrun result of every
      source as they were. */
  lemma ConfigUpdateKeepsVerdict(cfg: Config, w: World, call: Call, sid: Id)
    requires sid in w.sources && call.op.OpUpdateSource?
    ensures var w' := Step(cfg, w, call);
            && sid in w'.sources
            && w'.sources[sid].status == w.sources[sid].status
            && w'.sources[sid].dryrunLastResult == w.sources[sid].dryrunLastResult
  {
    var issued := Issued(PlanOf(cfg, w, call.op), call.through);
    if issued != [] {
      assert issued == [issued[0]];
      ApplyOne(w, issued[0]);
    }
  }

  /** A creation that leaves the category out changes nothing, although validation infers one. */
  lemma CategoryIsNotInferred(cfg: Config, w: World, id: Id, input: CreateInput, through: nat)
    requires input.category.None?
    ensures Step(cfg, w, Call(OpCreateSource(id, input, true), through)) == w
  {
  }

  /** A target created without an interval gets the column's default, whatever its source has. */
  lemma IntervalIsNotInherited(cfg: Config, w: World, tid: Id, sid: Id, targetType: TargetType, input: TargetInput, through: nat)
    requires tid !in w.targets && input.interval == 0
    ensures var w' := Step(cfg, w, Call(OpCreateTarget(tid, sid, targetType, input), through));
            tid in w'.targets ==> w'.targets[tid].interval == 11
  {
    var call := Call(OpCreateTarget(tid, sid, targetType, input), through);
    var issued := Issued(PlanOf(cfg, w, call.op), through);
    if issued != [] {
      assert issued == [issued[0]];
      ApplyOne(w, issued[0]);
    }
  }
}
