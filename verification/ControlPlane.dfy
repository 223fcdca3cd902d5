/** What each operation of the datasource and dryrun use cases writes to the stored rows
    (internal/datasource/usecase, internal/dryrun/usecase and their Postgres repositories).
    An operation reads the rows, decides, and issues a list of writes, each of them one statement
    or transaction. Any of its writes may fail, and then the operation stops there: a call
    is an operation together with the number of its writes that get through. */
module ControlPlane {
  import opened Model
  import opened Values
  import opened Text

  /** `required` is IsDryrunRequired, constantly false in the service and left arbitrary here (its
      first argument is None when the source row is gone); `isUrl` is Go's URL parser. */
  datatype Config = Config(required: (Option<SourceType>, TargetType) -> bool, isUrl: string -> bool)

  datatype World = World(sources: map<Id, Source>, targets: map<Id, Target>,
                         dryruns: seq<Dryrun>, audit: map<Id, seq<ModeChange>>)

  const EMPTY: World := World(map[], map[], [], map[])

  // ---------------------------------------------------------------- reads

  predicate Live(w: World, sid: Id) {
    sid in w.sources && !w.sources[sid].deleted
  }

  predicate Owned(w: World, sid: Id, tid: Id) {
    tid in w.targets && w.targets[tid].source == sid
  }

  /** Rows returned by ListTargets without a type filter. */
  predicate Listed(w: World, sid: Id, tid: Id) {
    Owned(w, sid, tid) && Visible(w.targets[tid])
  }

  predicate ActiveListed(w: World, sid: Id, tid: Id) {
    Listed(w, sid, tid) && w.targets[tid].isActive
  }

  /** The rows counted by CountActiveTargets. */
  function ActiveTargets(w: World, sid: Id): set<Id> {
    set tid | tid in w.targets && ActiveListed(w, sid, tid)
  }

  /** The most recently created dryrun result of a target. */
  function LatestOf(rows: seq<Dryrun>, tid: Id): Option<Dryrun> {
    if rows == [] then None
    else if rows[|rows| - 1].target == Some(tid) then Some(rows[|rows| - 1])
    else LatestOf(rows[..|rows| - 1], tid)
  }

  predicate DryrunRunning(w: World, tid: Id) {
    var latest := LatestOf(w.dryruns, tid);
    latest.Some? && latest.value.status.Running?
  }

  predicate AnyListedDryrunRunning(w: World, sid: Id) {
    exists tid :: tid in w.targets && Listed(w, sid, tid) && DryrunRunning(w, tid)
  }

  /** The position of the result that carries a job id. */
  function IndexOfJob(rows: seq<Dryrun>, job: Id): (i: Option<nat>)
    ensures i.Some? ==> i.value < |rows| && rows[i.value].job == job
  {
    if rows == [] then None
    else if rows[|rows| - 1].job == job then Some(|rows| - 1)
    else IndexOfJob(rows[..|rows| - 1], job)
  }

  // ---------------------------------------------------------------- row updates

  /** The CHECK constraints of `data_sources`. */
  predicate SourceRowOk(s: Source) {
    && (s.category.Crawl? <==> s.sourceType.TikTok? || s.sourceType.Facebook? || s.sourceType.YouTube?)
    && (s.category.Crawl? ==> s.crawlMode.Some?)
    && (s.sourceType.Webhook? && (s.status.Ready? || s.status.Active?) ==> s.webhookId != "" && s.webhookSecret != "")
    && (s.status.Completed? ==> s.sourceType.FileUpload?)
  }

  /** UpdateDataSourceOptions; an empty string or None leaves the column as it is. */
  datatype SourcePatch = SourcePatch(
    labels: Labels,
    status: Option<SourceStatus>, config: string, mappingRules: string,
    dryrunStatus: Option<DryrunStatus>, dryrunLastResult: Option<Id>,
    crawlMode: Option<CrawlMode>, interval: Option<int>)

  const NO_LABELS: Labels := Labels("", "", "")

  function Relabel(was: Labels, given: Labels): Labels {
    Labels(if given.name != "" then given.name else was.name,
           if given.description != "" then given.description else was.description,
           if given.accountRef != "" then given.accountRef else was.accountRef)
  }

  const NO_CHANGE: SourcePatch := SourcePatch(NO_LABELS, None, "", "", None, None, None, None)

  function ApplySource(s: Source, p: SourcePatch): Source {
    s.(labels := Relabel(s.labels, p.labels),
       status := if p.status.Some? then p.status.value else s.status,
       config := if p.config != "" then p.config else s.config,
       mappingRules := if p.mappingRules != "" then p.mappingRules else s.mappingRules,
       dryrunStatus := if p.dryrunStatus.Some? then p.dryrunStatus.value else s.dryrunStatus,
       dryrunLastResult := if p.dryrunLastResult.Some? then p.dryrunLastResult else s.dryrunLastResult,
       crawlMode := if p.crawlMode.Some? then p.crawlMode else s.crawlMode,
       interval := if p.interval.Some? then p.interval else s.interval)
  }

  /** UpdateTargetOptions; empty fields leave the column as it is. */
  datatype TargetPatch = TargetPatch(
    values: Option<seq<string>>, targetLabel: string, meta: Option<Meta>,
    isActive: Option<bool>, priority: Option<int>, interval: Option<int>)

  const ENABLE: TargetPatch := TargetPatch(None, "", None, Some(true), None, None)
  const DISABLE: TargetPatch := TargetPatch(None, "", None, Some(false), None, None)

  function ApplyTarget(t: Target, p: TargetPatch): Target {
    t.(values := if p.values.Some? then p.values.value else t.values,
       targetLabel := if p.targetLabel != "" then p.targetLabel else t.targetLabel,
       meta := if p.meta.Some? && p.meta.value.Meta? then p.meta.value else t.meta,
       isActive := if p.isActive.Some? then p.isActive.value else t.isActive,
       priority := if p.priority.Some? then p.priority.value else t.priority,
       interval := if p.interval.Some? then p.interval.value else t.interval)
  }

  // ---------------------------------------------------------------- repository writes

  datatype Write =
    | InsertSource(sid: Id, source: Source)
    | UpdateSourceRow(sid: Id, sourcePatch: SourcePatch)
    | ArchiveRow(sid: Id)
    | DeleteRow(sid: Id)
    | MoveProject(project: Id, fromStatus: SourceStatus, toStatus: SourceStatus)
    | FlipProject(project: Id, mode: CrawlMode, locked: set<Id>)
    | InsertChange(sid: Id, change: ModeChange)
    | InsertTarget(tid: Id, target: Target)
    | UpdateTargetRow(tid: Id, targetPatch: TargetPatch)
    | InsertDryrun(row: Dryrun)
    | FinishDryrun(index: nat, status: DryrunStatus, activate: bool)

  function PutSource(w: World, sid: Id, s: Source): Option<World> {
    if SourceRowOk(s) then Some(w.(sources := w.sources[sid := s])) else None
  }

  predicate InProject(w: World, project: Id, sid: Id) {
    Live(w, sid) && w.sources[sid].project == project
  }

  predicate Moves(w: World, project: Id, from: SourceStatus, sid: Id) {
    InProject(w, project, sid) && w.sources[sid].status == from
  }

  /** UpdateProjectDataSourcesLifecycle. */
  function Moved(w: World, project: Id, from: SourceStatus, to: SourceStatus): map<Id, Source> {
    map sid | sid in w.sources :: if Moves(w, project, from, sid) then w.sources[sid].(status := to) else w.sources[sid]
  }

  /** The sources whose crawl mode may change; the bulk update filters its rows the same way. */
  predicate ModeEligible(s: Source) {
    && s.category.Crawl?
    && (s.status.Ready? || s.status.Active? || s.status.Paused?)
    && s.crawlMode.Some? && s.interval.Some? && s.interval.value > 0
  }

  predicate Flips(w: World, project: Id, mode: CrawlMode, locked: set<Id>, sid: Id) {
    && InProject(w, project, sid) && ModeEligible(w.sources[sid])
    && w.sources[sid].crawlMode != Some(mode) && sid !in locked
  }

  function ReadyAfter(current: SourceStatus, result: DryrunStatus): Option<SourceStatus> {
    if !current.Pending? && !current.Ready? then None
    else if result.Failed? then Some(SourceStatus.Pending) else Some(SourceStatus.Ready)
  }

  /** The source columns CompleteResult and ApplyDryrunResult write. */
  function DryrunVerdict(current: SourceStatus, status: DryrunStatus, rid: Id): SourcePatch {
    NO_CHANGE.(dryrunStatus := Some(status), dryrunLastResult := Some(rid), status := ReadyAfter(current, status))
  }

  function Enabled(targets: map<Id, Target>, tid: Id): map<Id, Target> {
    if tid in targets then targets[tid := ApplyTarget(targets[tid], ENABLE)] else targets
  }

  /** The effect of one write; None when the database rejects it or finds no row. */
  function Apply(w: World, write: Write): Option<World> {
    match write
    case InsertSource(sid, s) =>
      if sid in w.sources || sid in w.audit || !SourceRowOk(s) then None
      else Some(w.(sources := w.sources[sid := s], audit := w.audit[sid := []]))
    case UpdateSourceRow(sid, p) =>
      if sid in w.sources then PutSource(w, sid, ApplySource(w.sources[sid], p)) else None
    case ArchiveRow(sid) =>
      if sid in w.sources then PutSource(w, sid, w.sources[sid].(status := SourceStatus.Archived)) else None
    case DeleteRow(sid) =>
      if sid in w.sources then PutSource(w, sid, w.sources[sid].(deleted := true)) else None
    case MoveProject(project, from, to) =>
      var sources := Moved(w, project, from, to);
      if forall sid :: sid in sources ==> SourceRowOk(sources[sid]) then Some(w.(sources := sources)) else None
    case FlipProject(project, mode, locked) =>
      Some(w.(
        sources := map sid | sid in w.sources ::
          if Flips(w, project, mode, locked, sid) then w.sources[sid].(crawlMode := Some(mode)) else w.sources[sid],
        audit := map sid | sid in w.audit ::
          if Flips(w, project, mode, locked, sid)
          then w.audit[sid] + [ModeChange(w.sources[sid].crawlMode.value, mode)] else w.audit[sid]))
    case InsertChange(sid, change) =>
      if sid in w.audit then Some(w.(audit := w.audit[sid := w.audit[sid] + [change]])) else None
    case InsertTarget(tid, t) =>
      if tid in w.targets || t.source !in w.sources || t.interval <= 0 then None else Some(w.(targets := w.targets[tid := t]))
    case UpdateTargetRow(tid, p) =>
      if tid in w.targets && ApplyTarget(w.targets[tid], p).interval > 0
      then Some(w.(targets := w.targets[tid := ApplyTarget(w.targets[tid], p)])) else None
    case InsertDryrun(row) =>
      Some(w.(dryruns := w.dryruns + [row]))
    case FinishDryrun(i, status, activate) =>
      if i >= |w.dryruns| || !Live(w, w.dryruns[i].source) then None
      else
        var row := w.dryruns[i];
        var s := ApplySource(w.sources[row.source], DryrunVerdict(w.sources[row.source].status, status, row.id));
        if !SourceRowOk(s) then None
        else Some(w.(
          sources := w.sources[row.source := s],
          dryruns := w.dryruns[i := row.(status := status, completed := true)],
          targets := if activate && row.target.Some? then Enabled(w.targets, row.target.value) else w.targets))
  }

  /** Writes are issued in order; the first one that fails ends the operation. */
  function ApplyAll(w: World, writes: seq<Write>): World
    decreases |writes|
  {
    if writes == [] then w
    else
      match Apply(w, writes[0])
      case None => w
      case Some(w') => ApplyAll(w', writes[1..])
  }

  lemma ApplyOne(w: World, a: Write)
    ensures ApplyAll(w, [a]) == if Apply(w, a).Some? then Apply(w, a).value else w
  {
    assert [a][1..] == [];
  }

  lemma ApplyAfter(w: World, a: Write, rest: seq<Write>)
    requires Apply(w, a).Some?
    ensures ApplyAll(w, [a] + rest) == ApplyAll(Apply(w, a).value, rest)
  {
    assert ([a] + rest)[1..] == rest;
  }

  lemma ApplyTwo(w: World, a: Write, b: Write)
    ensures Apply(w, a).Some? ==> ApplyAll(w, [a, b]) == ApplyAll(Apply(w, a).value, [b])
    ensures Apply(w, a).None? ==> ApplyAll(w, [a, b]) == w
    ensures Apply(w, a).Some? && Apply(Apply(w, a).value, b).Some? ==>
              ApplyAll(w, [a, b]) == Apply(Apply(w, a).value, b).value
  {
    assert [a, b][1..] == [b];
    if Apply(w, a).Some? {
      ApplyOne(Apply(w, a).value, b);
    }
  }

  // ---------------------------------------------------------------- data sources

  /** What an operation decides to write; None when it is refused. */
  type Plan = Option<seq<Write>>

  /** `project` is None when the id is blank. */
  datatype CreateInput = CreateInput(
    project: Option<Id>, labels: Labels, sourceType: SourceType, category: Option<Category>, crawlMode: Option<CrawlMode>, interval: int,
    config: string, mappingRules: string, webhookId: string, webhookSecret: string)

  function InferCategory(t: SourceType): Category {
    if t.FileUpload? || t.Webhook? then Passive else Crawl
  }

  predicate ValidCreateInput(input: CreateInput) {
    var category := if input.category.Some? then input.category.value else InferCategory(input.sourceType);
    && input.project.Some? && TrimSpace(input.labels.name) != ""
    && (category.Crawl? ==> input.crawlMode.Some? && input.interval > 0)
  }

  function NewSource(input: CreateInput, category: Category): Source
    requires input.project.Some?
  {
    Source(input.project.value, input.labels.(name := TrimSpace(input.labels.name)), input.sourceType, category, SourceStatus.Pending,
           Onboarding.NotRequired, DryrunStatus.NotRequired, None,
           input.crawlMode, if input.interval > 0 then Some(input.interval) else None,
           if input.config != "" then input.config else "{}", input.mappingRules,
           input.webhookId, input.webhookSecret, false)
  }

  /** The category is inferred for validation only: the row is inserted with the category as given,
      and the column accepts no blank. */
  function PlanCreateSource(id: Id, input: CreateInput, projectAvailable: bool): Plan {
    if !ValidCreateInput(input) || !projectAvailable || input.category.None? then None
    else Some([InsertSource(id, NewSource(input, input.category.value))])
  }

  datatype SourceUpdate = SourceUpdate(labels: Labels, config: string, mappingRules: string, interval: Option<int>)

  function PlanUpdateSource(w: World, sid: Id, input: SourceUpdate): Plan {
    if input.interval.Some? && input.interval.value <= 0 then None
    else if !Live(w, sid) || AnyListedDryrunRunning(w, sid) then None
    else
      var configChange := input.config != "" || input.mappingRules != "";
      if (configChange || input.interval.Some?) && w.sources[sid].status.Active? then None
      else
        var patch := NO_CHANGE.(labels := input.labels.(name := TrimSpace(input.labels.name)),
                                config := input.config, mappingRules := input.mappingRules, interval := input.interval,
                                dryrunStatus := if configChange then Some(DryrunStatus.NotRequired) else None);
        Some([UpdateSourceRow(sid, patch)])
  }

  function PlanArchiveSource(w: World, sid: Id): Plan {
    if !Live(w, sid) || AnyListedDryrunRunning(w, sid) then None
    else if w.sources[sid].status.Archived? then Some([])
    else Some([ArchiveRow(sid)])
  }

  function PlanDeleteSource(w: World, sid: Id): Plan {
    if !Live(w, sid) || AnyListedDryrunRunning(w, sid) || !w.sources[sid].status.Archived? then None
    else Some([DeleteRow(sid)])
  }

  // ---------------------------------------------------------------- lifecycle

  /** A required dryrun of an active target exists and has not failed. */
  predicate DryrunAcceptable(cfg: Config, w: World, sid: Id, tid: Id)
    requires sid in w.sources && tid in w.targets
  {
    cfg.required(Some(w.sources[sid].sourceType), w.targets[tid].targetType) ==>
      var latest := LatestOf(w.dryruns, tid);
      latest.Some? && !latest.value.status.Failed?
  }

  predicate TargetsReady(cfg: Config, w: World, sid: Id)
    requires sid in w.sources
  {
    && ActiveTargets(w, sid) != {}
    && forall tid :: tid in w.targets && ActiveListed(w, sid, tid) ==> DryrunAcceptable(cfg, w, sid, tid)
  }

  /** `ensureRuntimePrerequisites`. */
  predicate RuntimePrerequisites(cfg: Config, w: World, sid: Id)
    requires sid in w.sources
  {
    var s := w.sources[sid];
    match s.category
    case Crawl => s.crawlMode.Some? && s.interval.Some? && s.interval.value > 0 && TargetsReady(cfg, w, sid)
    case Passive => s.sourceType.Webhook? && s.webhookId != "" && s.webhookSecret != ""
  }

  function MoveTo(status: SourceStatus): SourcePatch {
    NO_CHANGE.(status := Some(status))
  }

  function PlanActivateSource(cfg: Config, w: World, sid: Id): Plan {
    if !Live(w, sid) || !w.sources[sid].status.Ready? || !RuntimePrerequisites(cfg, w, sid) then None
    else Some([UpdateSourceRow(sid, MoveTo(SourceStatus.Active))])
  }

  function PlanPauseSource(w: World, sid: Id): Plan {
    if !Live(w, sid) || !w.sources[sid].status.Active? then None
    else Some([UpdateSourceRow(sid, MoveTo(SourceStatus.Paused))])
  }

  function PlanResumeSource(cfg: Config, w: World, sid: Id): Plan {
    if !Live(w, sid) || !w.sources[sid].status.Paused? || !RuntimePrerequisites(cfg, w, sid) then None
    else Some([UpdateSourceRow(sid, MoveTo(SourceStatus.Active))])
  }

  function PlanUpdateCrawlMode(w: World, sid: Id, mode: CrawlMode): Plan {
    if !Live(w, sid) || !ModeEligible(w.sources[sid]) then None
    else Some([UpdateSourceRow(sid, NO_CHANGE.(crawlMode := Some(mode))),
               InsertChange(sid, ModeChange(w.sources[sid].crawlMode.value, mode))])
  }

  // ---------------------------------------------------------------- project scope

  datatype Command = Activate | Resume

  /** `isStatusAllowedForCommand`. */
  predicate AllowedFor(status: SourceStatus, command: Command) {
    match command
    case Resume => status.Paused? || status.Active?
    case Activate => status.Ready? || status.Active?
  }

  /** A source that readiness counts as eligible. */
  predicate Eligible(cfg: Config, w: World, sid: Id, command: Command)
    requires sid in w.sources
  {
    var s := w.sources[sid];
    && AllowedFor(s.status, command)
    && match s.category
       case Passive => s.onboarding.Confirmed?
       case Crawl => TargetsReady(cfg, w, sid)
  }

  /** A crawl source that blocks the whole project. */
  predicate Blocking(cfg: Config, w: World, sid: Id, command: Command)
    requires sid in w.sources
  {
    w.sources[sid].category.Crawl? && AllowedFor(w.sources[sid].status, command) && !Eligible(cfg, w, sid, command)
  }

  /** What activation readiness decides. */
  predicate CanProceed(cfg: Config, w: World, project: Id, command: Command) {
    && (exists sid :: sid in w.sources && InProject(w, project, sid) && Eligible(cfg, w, sid, command))
    && (forall sid :: sid in w.sources && InProject(w, project, sid) ==> !Blocking(cfg, w, sid, command))
  }

  function PlanProjectActivate(cfg: Config, w: World, project: Id): Plan {
    if CanProceed(cfg, w, project, Activate)
    then Some([MoveProject(project, SourceStatus.Ready, SourceStatus.Active)]) else None
  }

  function PlanProjectPause(project: Id): Plan {
    Some([MoveProject(project, SourceStatus.Active, SourceStatus.Paused)])
  }

  function PlanProjectResume(cfg: Config, w: World, project: Id): Plan {
    if CanProceed(cfg, w, project, Resume)
    then Some([MoveProject(project, SourceStatus.Paused, SourceStatus.Active)]) else None
  }

  // ---------------------------------------------------------------- crawl targets

  const DB_DEFAULT_INTERVAL := 11

  datatype TargetInput = TargetInput(values: seq<string>, targetLabel: string, meta: Meta, priority: int, interval: int)

  function PlanCreateTarget(cfg: Config, w: World, tid: Id, sid: Id, targetType: TargetType, input: TargetInput): Plan {
    if input.interval < 0 || !Live(w, sid) then None
    else if w.sources[sid].status.Archived? || !w.sources[sid].category.Crawl? then None
    else
      match Prepared(targetType, input.values, cfg.isUrl)
      case None => None
      case Some(prepared) =>
        Some([InsertTarget(tid, Target(sid, targetType, prepared, input.targetLabel, input.meta, false, input.priority,
                                       if input.interval > 0 then input.interval else DB_DEFAULT_INTERVAL))])
  }

  datatype TargetUpdate = TargetUpdate(
    values: Option<seq<string>>, targetLabel: string, meta: Option<Meta>, priority: Option<int>, interval: Option<int>)

  /** `hasMaterialTargetChange`: the value list is compared with itself, so only the interval and
      the platform metadata count. */
  predicate Material(t: Target, input: TargetUpdate) {
    || (input.interval.Some? && input.interval.value != t.interval)
    || (input.meta.Some? && input.meta.value != t.meta)
  }

  predicate ValuesAccepted(cfg: Config, t: Target, values: Option<seq<string>>) {
    values.Some? ==>
      var prepared := Prepared(t.targetType, values.value, cfg.isUrl);
      prepared.Some? && SlicesEqual(t.values, prepared.value)
  }

  function TargetUpdatePatch(t: Target, input: TargetUpdate): TargetPatch {
    TargetPatch(None, input.targetLabel, input.meta,
                if Material(t, input) && t.isActive then Some(false) else None,
                input.priority, input.interval)
  }

  const MARK_PENDING: SourcePatch :=
    NO_CHANGE.(status := Some(SourceStatus.Pending), dryrunStatus := Some(DryrunStatus.Pending))

  /** A material change sends the source back to PENDING, from any status. */
  function PlanUpdateTarget(cfg: Config, w: World, sid: Id, tid: Id, input: TargetUpdate): Plan {
    if input.interval.Some? && input.interval.value <= 0 then None
    else if !Owned(w, sid, tid) || DryrunRunning(w, tid) then None
    else if !ValuesAccepted(cfg, w.targets[tid], input.values) then None
    else
      var update := UpdateTargetRow(tid, TargetUpdatePatch(w.targets[tid], input));
      if Material(w.targets[tid], input) && Live(w, sid)
      then Some([update, UpdateSourceRow(sid, MARK_PENDING)]) else Some([update])
  }

  function LiveSourceType(w: World, sid: Id): Option<SourceType> {
    if Live(w, sid) then Some(w.sources[sid].sourceType) else None
  }

  const MARK_READY: SourcePatch :=
    NO_CHANGE.(status := Some(SourceStatus.Ready), dryrunStatus := Some(DryrunStatus.NotRequired))

  function PlanActivateTarget(cfg: Config, w: World, sid: Id, tid: Id): Plan {
    if !Owned(w, sid, tid) then None
    else
      var needed := cfg.required(LiveSourceType(w, sid), w.targets[tid].targetType);
      var latest := LatestOf(w.dryruns, tid);
      if needed && DryrunRunning(w, tid) then None
      else if w.targets[tid].isActive then Some([])
      else if needed && !(latest.Some? && IsUsableDryrunStatus(latest.value.status)) then None
      else if !needed && Live(w, sid) && w.sources[sid].status.Pending?
      then Some([UpdateTargetRow(tid, ENABLE), UpdateSourceRow(sid, MARK_READY)])
      else Some([UpdateTargetRow(tid, ENABLE)])
  }

  function PlanDeactivateTarget(w: World, sid: Id, tid: Id): Plan {
    if !Owned(w, sid, tid) || DryrunRunning(w, tid) then None
    else if !w.targets[tid].isActive then Some([])
    else if !Live(w, sid) then None
    else if w.sources[sid].status.Active? && |ActiveTargets(w, sid)| <= 1 then None
    else Some([UpdateTargetRow(tid, DISABLE)])
  }

  /** `targetFlushedPlatformMeta`. */
  function FlushedMeta(m: Meta, text: string): Meta {
    match m
    case NoMeta => Meta(text, true, [], "", [], [], "", "", [])
    case Meta(_, _, _, _, _, _, _, _, _) => m.(text := text, flushed := true)
  }

  /** Deleting flushes the row; unlike deactivation it does not look at the source. */
  function PlanDeleteTarget(w: World, sid: Id, tid: Id, analyticsHidden: bool, text: string): Plan {
    if !Owned(w, sid, tid) || DryrunRunning(w, tid) || !analyticsHidden then None
    else Some([UpdateTargetRow(tid, DISABLE.(meta := Some(FlushedMeta(w.targets[tid].meta, text))))])
  }

  // ---------------------------------------------------------------- dryruns

  /** Trimmed non-blank ids remain. */
  predicate HasParseIds(m: Meta) {
    m.Meta? && exists i :: 0 <= i < |m.parseIds| && TrimSpace(m.parseIds[i]) != ""
  }

  /** The source/target combinations `buildDispatchSpec` of the dryrun module has a mapping for. */
  predicate DryrunMapped(s: Source, target: Option<Target>) {
    && s.category.Crawl? && target.Some?
    && match target.value.targetType
       case Keyword => !s.sourceType.FileUpload? && !s.sourceType.Webhook? && Normalized(target.value.values, false) != []
       case PostUrl => s.sourceType.Facebook? && HasParseIds(target.value.meta)
       case Profile => false
  }

  /** `Trigger`'s checks on the target argument. */
  predicate DryrunTargetOk(w: World, sid: Id, tid: Option<Id>)
    requires sid in w.sources
  {
    if w.sources[sid].category.Crawl?
    then tid.Some? && Owned(w, sid, tid.value) && !DryrunRunning(w, tid.value)
    else tid.None?
  }

  /** MarkDryrunRunning of the datasource use case. */
  function MarkRunning(status: SourceStatus, rid: Id): SourcePatch {
    NO_CHANGE.(dryrunStatus := Some(DryrunStatus.Running), dryrunLastResult := Some(rid),
               status := if status.Pending? || status.Ready? then Some(SourceStatus.Pending) else None)
  }

  /** `rid` and `job` are fresh UUIDs. When publishing fails the new result is finished as FAILED. */
  function PlanTriggerDryrun(w: World, sid: Id, tid: Option<Id>, rid: Id, job: Id, published: bool): Plan {
    if !Live(w, sid) || !(w.sources[sid].status.Pending? || w.sources[sid].status.Ready?) then None
    else if !DryrunTargetOk(w, sid, tid) then None
    else if !DryrunMapped(w.sources[sid], if tid.Some? then Some(w.targets[tid.value]) else None) then None
    else if exists i :: 0 <= i < |w.dryruns| && (w.dryruns[i].id == rid || w.dryruns[i].job == job) then None
    else
      var begin := [InsertDryrun(Dryrun(rid, sid, tid, job, DryrunStatus.Running, false)),
                    UpdateSourceRow(sid, MarkRunning(w.sources[sid].status, rid))];
      if published then Some(begin) else Some(begin + [FinishDryrun(|w.dryruns|, DryrunStatus.Failed, false)])
  }

  /** The dryrun completion handler; `status` is what the artifact was judged to be. A completion of
      a finished result only re-activates its target. */
  function PlanCompleteDryrun(cfg: Config, w: World, job: Id, status: DryrunStatus): Plan {
    match IndexOfJob(w.dryruns, job)
    case None => None
    case Some(i) =>
      var row := w.dryruns[i];
      if IsTerminalDryrunStatus(row.status) || row.completed then
        if IsUsableDryrunStatus(row.status) && row.target.Some?
        then PlanActivateTarget(cfg, w, row.source, row.target.value)
        else Some([])
      else if !IsTerminalDryrunStatus(status) then None
      else Some([FinishDryrun(i, status, IsUsableDryrunStatus(status))])
  }

  function PlanApplyDryrunResult(w: World, sid: Id, status: DryrunStatus, rid: Id): Plan {
    if !Live(w, sid) then None
    else Some([UpdateSourceRow(sid, DryrunVerdict(w.sources[sid].status, status, rid))])
  }

  // ---------------------------------------------------------------- operations and runs

  datatype Op =
    | OpCreateSource(id: Id, create: CreateInput, projectAvailable: bool)
    | OpUpdateSource(id: Id, edit: SourceUpdate)
    | OpArchiveSource(id: Id)
    | OpDeleteSource(id: Id)
    | OpActivateSource(id: Id)
    | OpPauseSource(id: Id)
    | OpResumeSource(id: Id)
    | OpUpdateCrawlMode(id: Id, mode: CrawlMode)
    | OpProjectActivate(project: Id)
    | OpProjectPause(project: Id)
    | OpProjectResume(project: Id)
    | OpProjectCrawlMode(project: Id, mode: CrawlMode, locked: set<Id>)
    | OpCreateTarget(tid: Id, id: Id, targetType: TargetType, input: TargetInput)
    | OpUpdateTarget(id: Id, tid: Id, update: TargetUpdate)
    | OpActivateTarget(id: Id, tid: Id)
    | OpDeactivateTarget(id: Id, tid: Id)
    | OpDeleteTarget(id: Id, tid: Id, analyticsHidden: bool, text: string)
    | OpTriggerDryrun(id: Id, dryrunTarget: Option<Id>, rid: Id, job: Id, published: bool)
    | OpCompleteDryrun(job: Id, status: DryrunStatus)
    | OpApplyDryrunResult(id: Id, status: DryrunStatus, rid: Id)

  function PlanOf(cfg: Config, w: World, op: Op): Plan {
    match op
    case OpCreateSource(id, input, ok) => PlanCreateSource(id, input, ok)
    case OpUpdateSource(id, edit) => PlanUpdateSource(w, id, edit)
    case OpArchiveSource(id) => PlanArchiveSource(w, id)
    case OpDeleteSource(id) => PlanDeleteSource(w, id)
    case OpActivateSource(id) => PlanActivateSource(cfg, w, id)
    case OpPauseSource(id) => PlanPauseSource(w, id)
    case OpResumeSource(id) => PlanResumeSource(cfg, w, id)
    case OpUpdateCrawlMode(id, mode) => PlanUpdateCrawlMode(w, id, mode)
    case OpProjectActivate(p) => PlanProjectActivate(cfg, w, p)
    case OpProjectPause(p) => PlanProjectPause(p)
    case OpProjectResume(p) => PlanProjectResume(cfg, w, p)
    case OpProjectCrawlMode(p, mode, locked) => Some([FlipProject(p, mode, locked)])
    case OpCreateTarget(tid, id, targetType, input) => PlanCreateTarget(cfg, w, tid, id, targetType, input)
    case OpUpdateTarget(id, tid, update) => PlanUpdateTarget(cfg, w, id, tid, update)
    case OpActivateTarget(id, tid) => PlanActivateTarget(cfg, w, id, tid)
    case OpDeactivateTarget(id, tid) => PlanDeactivateTarget(w, id, tid)
    case OpDeleteTarget(id, tid, hidden, text) => PlanDeleteTarget(w, id, tid, hidden, text)
    case OpTriggerDryrun(id, tid, rid, job, published) => PlanTriggerDryrun(w, id, tid, rid, job, published)
    case OpCompleteDryrun(job, status) => PlanCompleteDryrun(cfg, w, job, status)
    case OpApplyDryrunResult(id, status, rid) => PlanApplyDryrunResult(w, id, status, rid)
  }

  /** One call of an operation: at most `through` of its writes reach the database. */
  datatype Call = Call(op: Op, through: nat)

  /** The writes of a call. */
  function Issued(plan: Plan, through: nat): seq<Write> {
    if plan.None? then []
    else if through <= |plan.value| then plan.value[..through]
    else plan.value
  }

  function Step(cfg: Config, w: World, call: Call): World {
    ApplyAll(w, Issued(PlanOf(cfg, w, call.op), call.through))
  }

  /** The rows after a run of calls. */
  function Run(cfg: Config, w: World, calls: seq<Call>): World {
    if calls == [] then w else Step(cfg, Run(cfg, w, calls[..|calls| - 1]), calls[|calls| - 1])
  }

  lemma {:induction false} RunAppend(cfg: Config, w: World, a: seq<Call>, b: seq<Call>)
    ensures Run(cfg, w, a + b) == Run(cfg, Run(cfg, w, a), b)
  {
    if b == [] {
      assert a + b == a;
    } else {
      assert (a + b)[..|a + b| - 1] == a + b[..|b| - 1];
      RunAppend(cfg, w, a, b[..|b| - 1]);
    }
  }
}
