/** When specs built before a claim can be out of date after it. */
module StaleSpecs {
  import opened Model
  import opened Text
  import opened Values
  import opened Specs
  import opened ControlPlane
  import opened Invariants
  import opened Fanout
  import opened Runtime

  /** An ACTIVE crawl source and one of its active targets, in a service that requires no dryruns. */
  ghost predicate Staged(cfg: Config, w: World, sid: Id, tid: Id) {
    && RowsOk(w) && (forall a, b :: !cfg.required(a, b))
    && Live(w, sid) && w.sources[sid].status.Active? && w.sources[sid].category.Crawl?
    && w.sources[sid].interval.Some? && w.sources[sid].interval.value > 0
    && ActiveListed(w, sid, tid) && !DryrunRunning(w, tid)
  }

  function ContextOf(w: World, sid: Id, tid: Id): Context
    requires sid in w.sources && tid in w.targets
  {
    Context(sid, tid, w.sources[sid], w.targets[tid])
  }

  // ---------------------------------------------------------------- swapping the metadata

  function MetaUpdate(m: Meta): TargetUpdate {
    TargetUpdate(None, "", Some(m), None, None)
  }

  function Swap(sid: Id, tid: Id, m: Meta): seq<Call> {
    [Call(OpUpdateTarget(sid, tid, MetaUpdate(m)), 2), Call(OpActivateTarget(sid, tid), 2), Call(OpActivateSource(sid), 1)]
  }

  function Swapped(w: World, sid: Id, tid: Id, m: Meta, active: bool, status: SourceStatus, dryrun: DryrunStatus): World
    requires sid in w.sources && tid in w.targets
  {
    w.(targets := w.targets[tid := w.targets[tid].(meta := m, isActive := active)],
       sources := w.sources[sid := w.sources[sid].(status := status, dryrunStatus := dryrun)])
  }

  lemma AfterUpdate(cfg: Config, w: World, sid: Id, tid: Id, m: Meta)
    requires Staged(cfg, w, sid, tid) && m.Meta? && m != w.targets[tid].meta
    ensures ApplyAll(w, Issued(PlanUpdateTarget(cfg, w, sid, tid, MetaUpdate(m)), 2)) ==
            Swapped(w, sid, tid, m, false, SourceStatus.Pending, DryrunStatus.Pending)
  {
    var update := UpdateTargetRow(tid, TargetUpdatePatch(w.targets[tid], MetaUpdate(m)));
    assert Issued(PlanUpdateTarget(cfg, w, sid, tid, MetaUpdate(m)), 2) == [update, UpdateSourceRow(sid, MARK_PENDING)];
    ApplyTwo(w, update, UpdateSourceRow(sid, MARK_PENDING));
  }

  lemma AfterActivateTarget(cfg: Config, w: World, sid: Id, tid: Id, m: Meta)
    requires Staged(cfg, w, sid, tid)
    ensures var w1 := Swapped(w, sid, tid, m, false, SourceStatus.Pending, DryrunStatus.Pending);
            ApplyAll(w1, Issued(PlanActivateTarget(cfg, w1, sid, tid), 2)) ==
            Swapped(w, sid, tid, m, true, SourceStatus.Ready, DryrunStatus.NotRequired)
  {
    var w1 := Swapped(w, sid, tid, m, false, SourceStatus.Pending, DryrunStatus.Pending);
    var w2 := Swapped(w, sid, tid, m, true, SourceStatus.Ready, DryrunStatus.NotRequired);
    var enable, ready := UpdateTargetRow(tid, ENABLE), UpdateSourceRow(sid, MARK_READY);
    assert Issued(PlanActivateTarget(cfg, w1, sid, tid), 2) == [enable, ready];
    ApplyTwo(w1, enable, ready);
    var w' := Apply(Apply(w1, enable).value, ready).value;
    assert w'.targets == w2.targets && w'.sources == w2.sources;
  }

  lemma AfterActivateSource(cfg: Config, w: World, sid: Id, tid: Id, m: Meta)
    requires Staged(cfg, w, sid, tid) && m.Meta? && !m.flushed
    ensures var w2 := Swapped(w, sid, tid, m, true, SourceStatus.Ready, DryrunStatus.NotRequired);
            ApplyAll(w2, Issued(PlanActivateSource(cfg, w2, sid), 1)) ==
            Swapped(w, sid, tid, m, true, SourceStatus.Active, DryrunStatus.NotRequired)
  {
    var w2 := Swapped(w, sid, tid, m, true, SourceStatus.Ready, DryrunStatus.NotRequired);
    var w3 := Swapped(w, sid, tid, m, true, SourceStatus.Active, DryrunStatus.NotRequired);
    assert tid in ActiveTargets(w2, sid);
    var activate := UpdateSourceRow(sid, MoveTo(SourceStatus.Active));
    assert Issued(PlanActivateSource(cfg, w2, sid), 1) == [activate];
    ApplyOne(w2, activate);
    assert Apply(w2, activate).value.sources == w3.sources;
  }

  lemma RunThree(cfg: Config, w: World, a: Call, b: Call, c: Call, w1: World, w2: World, w3: World)
    requires Step(cfg, w, a) == w1 && Step(cfg, w1, b) == w2 && Step(cfg, w2, c) == w3
    ensures Run(cfg, w, [a, b, c]) == w3
  {
    assert [a, b, c][..2] == [a, b] && [a, b][..1] == [a] && [a][..0] == [];
    assert Run(cfg, w, [a]) == Step(cfg, Run(cfg, w, []), a);
    assert Run(cfg, w, [a, b]) == Step(cfg, Run(cfg, w, [a]), b);
  }

  lemma FirstStep(cfg: Config, w: World, sid: Id, tid: Id, m: Meta)
    requires Staged(cfg, w, sid, tid) && m.Meta? && m != w.targets[tid].meta
    ensures Step(cfg, w, Call(OpUpdateTarget(sid, tid, MetaUpdate(m)), 2)) ==
            Swapped(w, sid, tid, m, false, SourceStatus.Pending, DryrunStatus.Pending)
  {
    AfterUpdate(cfg, w, sid, tid, m);
  }

  lemma SecondStep(cfg: Config, w: World, sid: Id, tid: Id, m: Meta)
    requires Staged(cfg, w, sid, tid)
    ensures Step(cfg, Swapped(w, sid, tid, m, false, SourceStatus.Pending, DryrunStatus.Pending), Call(OpActivateTarget(sid, tid), 2)) ==
            Swapped(w, sid, tid, m, true, SourceStatus.Ready, DryrunStatus.NotRequired)
  {
    AfterActivateTarget(cfg, w, sid, tid, m);
  }

  lemma ThirdStep(cfg: Config, w: World, sid: Id, tid: Id, m: Meta)
    requires Staged(cfg, w, sid, tid) && m.Meta? && !m.flushed
    ensures Step(cfg, Swapped(w, sid, tid, m, true, SourceStatus.Ready, DryrunStatus.NotRequired), Call(OpActivateSource(sid), 1)) ==
            Swapped(w, sid, tid, m, true, SourceStatus.Active, DryrunStatus.NotRequired)
  {
    AfterActivateSource(cfg, w, sid, tid, m);
  }

  /** Three ordinary calls put any visible metadata in place of a target's and leave it as ready for
      the scheduler as before. */
  lemma SwapRuns(cfg: Config, w: World, sid: Id, tid: Id, m: Meta)
    requires Staged(cfg, w, sid, tid) && m.Meta? && !m.flushed && m != w.targets[tid].meta
    ensures Run(cfg, w, Swap(sid, tid, m)) == Swapped(w, sid, tid, m, true, SourceStatus.Active, DryrunStatus.NotRequired)
  {
    FirstStep(cfg, w, sid, tid, m);
    SecondStep(cfg, w, sid, tid, m);
    ThirdStep(cfg, w, sid, tid, m);
    RunThree(cfg, w, Swap(sid, tid, m)[0], Swap(sid, tid, m)[1], Swap(sid, tid, m)[2],
             Swapped(w, sid, tid, m, false, SourceStatus.Pending, DryrunStatus.Pending),
             Swapped(w, sid, tid, m, true, SourceStatus.Ready, DryrunStatus.NotRequired),
             Swapped(w, sid, tid, m, true, SourceStatus.Active, DryrunStatus.NotRequired));
  }

  // ---------------------------------------------------------------- exactly the keyword targets are safe

  /** Whatever ran, if the rows still pass the scheduled checks their specs are the given ones. */
  ghost predicate StaysCurrent(cfg: Config, url: UrlParser, w: World, sid: Id, tid: Id, specs: seq<Spec>, calls: seq<Call>) {
    var w' := Run(cfg, w, calls);
    sid in w'.sources && tid in w'.targets && Schedulable(ContextOf(w', sid, tid)) ==>
      Builds(url, w'.sources[sid].sourceType, w'.targets[tid], Specs(specs))
  }

  /** A metadata value naming one id, or user, everywhere. */
  function Naming(id: string): Meta {
    Meta(id, false, [], id, [], [], "", id, [id])
  }

  const A := "11111"
  const B := "22222"

  lemma NumericIsNormal(id: string)
    requires NumericId(id)
    ensures TrimSpace(id) == id && id != "" && Normalized([id], false) == [id]
  {
    TrimmedIsFixed(id);
    NormalIsFixed([id], false);
  }

  /** The metadata name that a profile or post spec carries. */
  function NameIn(spec: Spec): Option<Value> {
    if "page_id" in spec.params then Some(spec.params["page_id"])
    else if "sec_uid" in spec.params then Some(spec.params["sec_uid"])
    else if "parse_ids" in spec.params then Some(spec.params["parse_ids"])
    else None
  }

  lemma SpecNames(u: string, id: string, v: string)
    requires id != ""
    ensures NameIn(PageSpec(id, v)) == Some(Str(id)) && NameIn(ProfileSpec(u, id, v)) == Some(Str(id))
  {
  }

  lemma NamedAt(url: UrlParser, t: Target, id: string)
    requires NumericId(id) && t.meta == Naming(id) && t.values != []
    ensures PageIdAt(url, t, 0) == id && TrimSpace(SecUidAt(t, 0)) == id
  {
    NumericIsNormal(id);
  }

  lemma PageSpecsName(url: UrlParser, t: Target, id: string, specs: seq<Spec>)
    requires NumericId(id) && t.targetType.Profile? && t.values != [] && t.meta == Naming(id)
    ensures Builds(url, SourceType.Facebook, t, Specs(specs)) ==> specs != [] && NameIn(specs[0]) == Some(Str(id))
  {
    NamedAt(url, t, id);
    if Builds(url, SourceType.Facebook, t, Specs(specs)) {
      FirstPageSpec(url, t, specs);
      SpecNames("", id, TrimSpace(t.values[0]));
    }
  }

  lemma FirstPageSpec(url: UrlParser, t: Target, specs: seq<Spec>)
    requires t.targetType.Profile? && t.values != [] && Builds(url, SourceType.Facebook, t, Specs(specs))
    ensures specs != [] && specs[0] == PageSpec(PageIdAt(url, t, 0), TrimSpace(t.values[0]))
  {
  }

  lemma ProfileSpecsName(url: UrlParser, t: Target, id: string, specs: seq<Spec>)
    requires NumericId(id) && t.targetType.Profile? && t.values != [] && t.meta == Naming(id)
    ensures Builds(url, SourceType.TikTok, t, Specs(specs)) ==> specs != [] && NameIn(specs[0]) == Some(Str(id))
  {
    NamedAt(url, t, id);
    SpecNames(TrimSpace(UsernameAt(url, t, 0)), id, TrimSpace(t.values[0]));
  }

  lemma PostSpecsName(url: UrlParser, t: Target, id: string, specs: seq<Spec>)
    requires NumericId(id) && t.targetType.PostUrl?
    ensures Builds(url, SourceType.Facebook, t.(meta := Naming(id)), Specs(specs)) ==> specs != [] && NameIn(specs[0]) == Some(Strs([id]))
  {
    NumericIsNormal(id);
  }

  /** The specs of a profile or post target name what its metadata names. */
  lemma SpecsName(url: UrlParser, sourceType: SourceType, t: Target, id: string, specs: seq<Spec>)
    requires NumericId(id) && !t.targetType.Keyword? && t.values != []
    ensures Builds(url, sourceType, t.(meta := Naming(id)), Specs(specs)) ==>
              specs != [] && NameIn(specs[0]) == Some(if t.targetType.PostUrl? then Strs([id]) else Str(id))
  {
    if t.targetType.PostUrl? {
      if sourceType.Facebook? {
        PostSpecsName(url, t, id, specs);
      }
    } else if sourceType.Facebook? {
      PageSpecsName(url, t.(meta := Naming(id)), id, specs);
    } else if sourceType.TikTok? {
      ProfileSpecsName(url, t.(meta := Naming(id)), id, specs);
    }
  }

  lemma SpecsTellApart(url: UrlParser, sourceType: SourceType, t: Target, specs: seq<Spec>)
    requires !t.targetType.Keyword? && t.values != []
    ensures !Builds(url, sourceType, t.(meta := Naming(A)), Specs(specs)) || !Builds(url, sourceType, t.(meta := Naming(B)), Specs(specs))
  {
    assert A[0] != B[0] && [A][0] != [B][0];
    SpecsName(url, sourceType, t, A, specs);
    SpecsName(url, sourceType, t, B, specs);
  }

  lemma SwapEscapes(cfg: Config, url: UrlParser, w: World, sid: Id, tid: Id, specs: seq<Spec>, id: string)
    requires Staged(cfg, w, sid, tid)
    requires Builds(url, w.sources[sid].sourceType, w.targets[tid], Specs(specs))
    requires StaysCurrent(cfg, url, w, sid, tid, specs, Swap(sid, tid, Naming(id)))
    ensures Builds(url, w.sources[sid].sourceType, w.targets[tid].(meta := Naming(id)), Specs(specs))
  {
    var t := w.targets[tid];
    if t.meta == Naming(id) {
      assert t.(meta := Naming(id)) == t;
    } else {
      SwapRuns(cfg, w, sid, tid, Naming(id));
      var w' := Run(cfg, w, Swap(sid, tid, Naming(id)));
      assert w'.targets[tid] == t.(meta := Naming(id));
    }
  }

  lemma KeywordStays(cfg: Config, url: UrlParser, w: World, sid: Id, tid: Id, specs: seq<Spec>, calls: seq<Call>)
    requires sid in w.sources && tid in w.targets && w.targets[tid].targetType.Keyword?
    requires Builds(url, w.sources[sid].sourceType, w.targets[tid], Specs(specs))
    ensures StaysCurrent(cfg, url, w, sid, tid, specs, calls)
  {
    RunKeepsKinds(cfg, w, calls);
    KeywordSpecsAreStable(url, w.sources[sid].sourceType, w.targets[tid], Run(cfg, w, calls).targets[tid], Specs(specs));
  }

  lemma OthersEscape(cfg: Config, url: UrlParser, w: World, sid: Id, tid: Id, specs: seq<Spec>)
    requires Staged(cfg, w, sid, tid) && !w.targets[tid].targetType.Keyword?
    requires Builds(url, w.sources[sid].sourceType, w.targets[tid], Specs(specs))
    ensures exists id :: !StaysCurrent(cfg, url, w, sid, tid, specs, Swap(sid, tid, Naming(id)))
  {
    var sourceType, t := w.sources[sid].sourceType, w.targets[tid];
    SpecsTellApart(url, sourceType, t, specs);
    var id := if Builds(url, sourceType, t.(meta := Naming(A)), Specs(specs)) then B else A;
    if StaysCurrent(cfg, url, w, sid, tid, specs, Swap(sid, tid, Naming(id))) {
      SwapEscapes(cfg, url, w, sid, tid, specs, id);
    }
  }

  /** Specs built from listed rows stay right under every run of control-plane calls exactly for
      keyword targets. */
  lemma StaleSafeExactly(cfg: Config, url: UrlParser, w: World, sid: Id, tid: Id, specs: seq<Spec>)
    requires Staged(cfg, w, sid, tid)
    requires Builds(url, w.sources[sid].sourceType, w.targets[tid], Specs(specs))
    ensures (forall calls: seq<Call> :: StaysCurrent(cfg, url, w, sid, tid, specs, calls)) <==> w.targets[tid].targetType.Keyword?
  {
    if w.targets[tid].targetType.Keyword? {
      forall calls: seq<Call> ensures StaysCurrent(cfg, url, w, sid, tid, specs, calls) {
        KeywordStays(cfg, url, w, sid, tid, specs, calls);
      }
    } else {
      OthersEscape(cfg, url, w, sid, tid, specs);
    }
  }
}
