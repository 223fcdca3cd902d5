/** The crawl runtime: dispatching one target, and the scheduler tick
    (internal/execution/usecase/usecase.go and cron.go). Every call that leaves the use case is one
    atomic step. Before each of them other operations of the service may change the rows, and any of
    them may fail; a failed write may have been stored. */
module Runtime {
  import opened Model
  import opened Values
  import opened Interval
  import opened ControlPlane
  import opened Invariants
  import Repository
  import opened Specs
  import opened Fanout

  const MINUTE := 60

  /** `validateDispatchContext`. */
  predicate Dispatchable(ctx: Context) {
    && ctx.source.category.Crawl? && !ctx.source.status.Archived?
    && ctx.target.isActive && ctx.source.crawlMode.Some?
  }

  /** `validateScheduledDispatchContext`, up to the project's own state. */
  predicate Schedulable(ctx: Context) {
    Dispatchable(ctx) && ctx.source.status.Active?
  }

  /** What a manual dispatch asks of its rows: a crawl source with a mode, not archived, and an active target. */
  predicate FitByHand(ctx: Context) {
    && ctx.target.isActive
    && ctx.source.category == Crawl && ctx.source.status != SourceStatus.Archived && ctx.source.crawlMode != None
  }

  predicate SameKind(a: Context, b: Context) {
    && a.sid == b.sid && a.tid == b.tid
    && SameSourceKind(a.source, b.source) && SameTargetKind(a.target, b.target)
  }

  function SpecsOf(attempts: seq<Attempt>): seq<Spec> {
    seq(|attempts|, i requires 0 <= i < |attempts| => attempts[i].spec)
  }

  // ---------------------------------------------------------------- the world over time

  lemma KindsTransitive(a: World, b: World, c: World)
    requires SameKinds(a, b) && SameKinds(b, c)
    ensures SameKinds(a, c)
  {
  }

  // ---------------------------------------------------------------- outputs

  datatype DispatchError = NotAllowed | DispatchFailed | NotFound | BadSpecs(error: SpecError)

  datatype TaskOutput = TaskOutput(task: Id, queue: Queue, action: Action, keyword: string, status: JobStatus)

  datatype DispatchOutput = DispatchOutput(
    job: Option<Id>, status: JobStatus, taskCount: nat, publishedCount: nat, failedCount: nat, tasks: seq<TaskOutput>)

  const NO_OUTPUT := DispatchOutput(None, JobStatus.Pending, 0, 0, 0, [])

  datatype TickOutput = TickOutput(
    dueCount: nat, claimedCount: nat, dispatchedCount: nat, skippedRaceCount: nat, failedCount: nat)

  function TaskOf(a: Attempt): TaskOutput {
    TaskOutput(a.task, a.spec.queue, a.spec.action, a.spec.keyword,
               if a.outcome.Published? then JobStatus.Running else JobStatus.Failed)
  }

  // ---------------------------------------------------------------- what a tick promises

  datatype Verdict = Dispatched | Skipped | Failed

  function VerdictAfter(after: AfterClaim): Verdict {
    if !after.Dispatched? then Verdict.Skipped
    else if Succeeded(after.dispatch) then Verdict.Dispatched
    else if Conflicted(after.dispatch) then Verdict.Skipped
    else Verdict.Failed
  }

  ghost predicate FollowedUp(listed: Context, after: AfterClaim, released: bool, before: seq<Event>, log: seq<Event>) {
    log == before + AfterTrace(listed.sid, listed.tid, after) + ReleaseTrace(listed, after, released)
  }

  lemma Regroup<T>(a: seq<T>, b: seq<T>, c: seq<T>, d: seq<T>)
    ensures a + b + c + d == a + (b + c) + d
  {
    assert a + b + c == a + (b + c);
  }

  lemma FollowsUp(listed: Context, d: Dispatch, released: bool, log0: seq<Event>, log1: seq<Event>, log2: seq<Event>)
    requires log1 == log0 + [Reread(listed.sid, listed.tid, Some(d.ctx)), ProjectCheck(d.ctx.source.project, true)]
    requires log2 == log1 + DispatchTrace(d) + ReleaseTrace(listed, AfterClaim.Dispatched(d), released)
    ensures FollowedUp(listed, AfterClaim.Dispatched(d), released, log0, log2)
  {
    var head := [Reread(listed.sid, listed.tid, Some(d.ctx)), ProjectCheck(d.ctx.source.project, true)];
    Regroup(log0, head, DispatchTrace(d), ReleaseTrace(listed, AfterClaim.Dispatched(d), released));
  }

  lemma DropsStale(listed: Context, ctx: Context, check: Option<bool>, released: bool, log0: seq<Event>, log1: seq<Event>, log2: seq<Event>)
    requires log1 == log0 + [Reread(listed.sid, listed.tid, Some(ctx))] + CheckTrace(ctx, check)
    requires log2 == log1 + [Release(listed.sid, listed.tid, released)]
    ensures FollowedUp(listed, Stale(ctx, check), released, log0, log2)
  {
    Regroup(log0, [Reread(listed.sid, listed.tid, Some(ctx))], CheckTrace(ctx, check), [Release(listed.sid, listed.tid, released)]);
  }

  /** A stale context is one that fails the scheduled checks; a dispatch works from a context of the
      same kind that passed them, with the specs built from the listed rows. */
  ghost predicate AfterOk(listed: Context, specs: seq<Spec>, after: AfterClaim, from: nat, upto: nat) {
    match after
    case RereadFailed => true
    case Stale(ctx, check) => SameKind(listed, ctx) && check != Some(true) && (check.Some? <==> Schedulable(ctx))
    case Dispatched(d) =>
      SameKind(listed, d.ctx) && Schedulable(d.ctx) && DispatchOk(d, d.ctx, specs, from, upto)
  }

  function VerdictOf(t: Turn): Verdict {
    match t
    case Rejected(_, _) => Verdict.Failed
    case Unclaimed(_, _, _, _, claim) => if claim.Lost? then Verdict.Skipped else Verdict.Failed
    case Claimed(_, _, _, _, after, _) => VerdictAfter(after)
  }

  /** The claim asked for: due now, and next after the effective interval. */
  predicate Scheduled(now: int, listed: Context, at: int, until: int) {
    && Schedulable(listed) && listed.target.interval > 0
    && at == now && until == now + MINUTE * EffectiveMinutes(listed.source.crawlMode.value, listed.target.interval)
  }

  /** The column lets a claim at this time through. */
  predicate DueAt(column: Option<int>, at: int) {
    column.Some? ==> column.value <= at
  }

  ghost predicate HasSpecs(url: UrlParser, listed: Context) {
    exists specs :: specs != [] && Builds(url, listed.source.sourceType, listed.target, Specs(specs))
  }

  lemma SpecsAreThere(url: UrlParser, listed: Context, specs: seq<Spec>)
    requires specs != [] && Builds(url, listed.source.sourceType, listed.target, Specs(specs))
    ensures HasSpecs(url, listed)
  {
  }

  ghost predicate TurnOk(url: UrlParser, now: int, listed: Context, t: Turn, from: nat, upto: nat) {
    && t.listed == listed
    && match t
       case Rejected(_, check) =>
         Rejects(url, listed, check)
       case Unclaimed(_, at, until, seen, claim) =>
         && Scheduled(now, listed, at, until) && !claim.Won? && (StoredClaim(claim) ==> DueAt(seen, at))
         && HasSpecs(url, listed)
       case Claimed(_, at, until, seen, after, _) =>
         && Scheduled(now, listed, at, until) && DueAt(seen, at)
         && exists specs :: specs != [] && Builds(url, listed.source.sourceType, listed.target, Specs(specs))
                            && AfterOk(listed, specs, after, from, upto)
  }

  /** The listed rows fail a check, have no interval, or no specs can be built from them. */
  ghost predicate Rejects(url: UrlParser, listed: Context, check: Option<bool>) {
    && (check.Some? <==> Schedulable(listed))
    && (check == Some(true) ==> listed.target.interval <= 0 || exists e :: Builds(url, listed.source.sourceType, listed.target, Refused(e)))
  }

  lemma RejectedOk(url: UrlParser, now: int, listed: Context, check: Option<bool>, from: nat, upto: nat)
    requires Rejects(url, listed, check)
    ensures TurnOk(url, now, listed, Rejected(listed, check), from, upto)
  {
  }

  lemma UnclaimedOk(url: UrlParser, now: int, t: Turn, specs: seq<Spec>, from: nat, upto: nat)
    requires t.Unclaimed? && Scheduled(now, t.listed, t.at, t.next) && !t.claim.Won? && (StoredClaim(t.claim) ==> DueAt(t.seen, t.at))
    requires specs != [] && Builds(url, t.listed.source.sourceType, t.listed.target, Specs(specs))
    ensures TurnOk(url, now, t.listed, t, from, upto)
  {
  }

  lemma ClaimedOk(url: UrlParser, now: int, t: Turn, specs: seq<Spec>, from: nat, upto: nat)
    requires t.Claimed? && Scheduled(now, t.listed, t.at, t.next) && DueAt(t.seen, t.at)
    requires specs != [] && Builds(url, t.listed.source.sourceType, t.listed.target, Specs(specs))
    requires AfterOk(t.listed, specs, t.after, from, upto)
    ensures TurnOk(url, now, t.listed, t, from, upto)
  {
  }

  /** Each turn of a tick is right, and its job and task ids were drawn during the tick. */
  ghost predicate TurnsOk(url: UrlParser, now: int, turns: seq<Turn>, from: nat, upto: nat) {
    forall i :: 0 <= i < |turns| ==> TurnOk(url, now, turns[i].listed, turns[i], from, upto)
  }

  lemma DispatchWidens(d: Dispatch, ctx: Context, specs: seq<Spec>, from: nat, upto: nat, from': nat, upto': nat)
    requires DispatchOk(d, ctx, specs, from, upto) && from' <= from && upto <= upto'
    ensures DispatchOk(d, ctx, specs, from', upto')
  {
  }

  lemma TurnWidens(url: UrlParser, now: int, listed: Context, t: Turn, from: nat, upto: nat, from': nat, upto': nat)
    requires TurnOk(url, now, listed, t, from, upto) && from' <= from && upto <= upto'
    ensures TurnOk(url, now, listed, t, from', upto')
  {
    if t.Claimed? && t.after.Dispatched? {
      var specs :| specs != [] && Builds(url, listed.source.sourceType, listed.target, Specs(specs)) && AfterOk(listed, specs, t.after, from, upto);
      DispatchWidens(t.after.dispatch, t.after.dispatch.ctx, specs, from, upto, from', upto');
      assert AfterOk(listed, specs, t.after, from', upto');
    } else if t.Claimed? {
      var specs :| specs != [] && Builds(url, listed.source.sourceType, listed.target, Specs(specs)) && AfterOk(listed, specs, t.after, from, upto);
      assert AfterOk(listed, specs, t.after, from', upto');
    }
  }

  lemma TurnsOkAdds(url: UrlParser, now: int, turns: seq<Turn>, t: Turn, from: nat, mid: nat, upto: nat)
    requires TurnsOk(url, now, turns, from, mid) && TurnOk(url, now, t.listed, t, mid, upto) && from <= mid <= upto
    ensures TurnsOk(url, now, turns + [t], from, upto)
  {
    forall i | 0 <= i < |turns + [t]| ensures TurnOk(url, now, (turns + [t])[i].listed, (turns + [t])[i], from, upto) {
      if i < |turns| {
        TurnWidens(url, now, turns[i].listed, turns[i], from, mid, from, upto);
      } else {
        TurnWidens(url, now, t.listed, t, mid, upto, from, upto);
      }
    }
  }

  /** The counters of a tick. */
  function Counts(turns: seq<Turn>): TickOutput {
    if turns == [] then TickOutput(0, 0, 0, 0, 0)
    else
      var c, t := Counts(turns[..|turns| - 1]), turns[|turns| - 1];
      CountTurn(c.(dueCount := c.dueCount + 1), t.Claimed?, VerdictOf(t))
  }

  ghost predicate Turned(t: Turn, before: seq<Event>, after: seq<Event>) {
    after == before + TurnTrace(t)
  }

  lemma TurnsUnclaimed(t: Turn, log0: seq<Event>, log2: seq<Event>)
    requires t.Unclaimed?
    requires log2 == log0 + [ProjectCheck(t.listed.source.project, true)] + [Claim(t.listed.sid, t.listed.tid, t.at, t.next, t.claim)]
    ensures Turned(t, log0, log2)
  {
    assert [ProjectCheck(t.listed.source.project, true)] + [Claim(t.listed.sid, t.listed.tid, t.at, t.next, t.claim)]
        == TurnTrace(t);
  }

  lemma TurnsClaimed(t: Turn, log0: seq<Event>, log2: seq<Event>, log3: seq<Event>)
    requires t.Claimed?
    requires log2 == log0 + [ProjectCheck(t.listed.source.project, true), Claim(t.listed.sid, t.listed.tid, t.at, t.next, Won)]
    requires FollowedUp(t.listed, t.after, t.released, log2, log3)
    ensures Turned(t, log0, log3)
  {
    var head := [ProjectCheck(t.listed.source.project, true), Claim(t.listed.sid, t.listed.tid, t.at, t.next, Won)];
    var middle, tail := AfterTrace(t.listed.sid, t.listed.tid, t.after), ReleaseTrace(t.listed, t.after, t.released);
    Regroup(log0, head, middle, tail);
    assert log0 + (head + middle) + tail == log0 + (head + middle + tail);
  }

  ghost predicate Ticked(turns: seq<Turn>, before: seq<Event>, after: seq<Event>) {
    after == before + TurnsTrace(turns)
  }

  lemma TickedAdds(turns: seq<Turn>, t: Turn, log0: seq<Event>, log1: seq<Event>, log2: seq<Event>)
    requires Ticked(turns, log0, log1) && Turned(t, log1, log2)
    ensures Ticked(turns + [t], log0, log2)
  {
    TurnsTraceAdds(turns, t);
    Regroup(log0, TurnsTrace(turns), TurnTrace(t), []);
    assert log2 == log0 + TurnsTrace(turns) + TurnTrace(t) + [];
  }

  /** The counters after the first `n` turns; the due count is set beforehand. */
  ghost predicate Counted(out: TickOutput, n: nat, turns: seq<Turn>) {
    out.(dueCount := n) == Counts(turns)
  }

  /** The counters that one turn increments. */
  function CountTurn(c: TickOutput, claimed: bool, verdict: Verdict): TickOutput {
    TickOutput(c.dueCount,
               if claimed then c.claimedCount + 1 else c.claimedCount,
               if verdict.Dispatched? then c.dispatchedCount + 1 else c.dispatchedCount,
               if verdict.Skipped? then c.skippedRaceCount + 1 else c.skippedRaceCount,
               if verdict.Failed? then c.failedCount + 1 else c.failedCount)
  }

  lemma CountsAdd(out: TickOutput, n: nat, turns: seq<Turn>, t: Turn)
    requires Counted(out, n, turns)
    ensures Counted(CountTurn(out, t.Claimed?, VerdictOf(t)), n + 1, turns + [t])
  {
    assert (turns + [t])[..|turns|] == turns;
  }

  class Service {
    const cfg: Config
    const url: UrlParser
    var rows: World
    /** The rows as they were when the current tick or dispatch began. */
    ghost var origin: World
    var next: map<Id, int>
    var log: seq<Event>
    var nextId: nat

    constructor (cfg: Config, url: UrlParser, rows: World)
      ensures this.cfg == cfg && this.rows == rows && log == []
    {
      this.cfg, this.url, this.rows, origin, next, log, nextId := cfg, url, rows, rows, map[], [], 0;
    }

    ghost predicate Valid()
      reads this`rows, this`origin
    {
      SameKinds(origin, rows)
    }

    /** The rows of a context are those the tick started from. */
    ghost predicate StoredAtStart(ctx: Context)
      reads this`origin
    {
      && ctx.sid in origin.sources && ctx.tid in origin.targets
      && ctx.source == origin.sources[ctx.sid] && ctx.target == origin.targets[ctx.tid]
    }

    /** Rows read later are of the same kind as those the tick started from. */
    ghost predicate KindKept(ctx: Context)
      reads this`origin
    {
      && (ctx.sid in origin.sources ==> SameSourceKind(origin.sources[ctx.sid], ctx.source))
      && (ctx.tid in origin.targets ==> SameTargetKind(origin.targets[ctx.tid], ctx.target))
    }

    // -------------------------------------------------------------- steps

    /** Other operations and other instances of the runtime. */
    method OthersAct()
      requires Valid()
      modifies this`rows, this`next
      ensures Valid()
    {
      var calls: seq<Call> := *;
      RunKeepsKinds(cfg, rows, calls);
      KindsTransitive(origin, rows, Run(cfg, rows, calls));
      rows, next := Run(cfg, rows, calls), *;
    }

    method CheckProject(project: Id) returns (allowed: bool)
      requires Valid()
      modifies this`rows, this`next, this`log
      ensures Valid()
      ensures log == old(log) + [ProjectCheck(project, allowed)]
    {
      OthersAct();
      allowed := *;
      log := log + [ProjectCheck(project, allowed)];
    }

    /** `GetDispatchContext`: the two rows as stored at this moment. */
    method GetDispatchContext(sid: Id, tid: Id) returns (found: Option<Context>)
      requires Valid()
      modifies this`rows, this`next, this`log
      ensures Valid()
      ensures found.Some? ==>
                && sid in rows.sources && Owned(rows, sid, tid)
                && found.value == Context(sid, tid, rows.sources[sid], rows.targets[tid])
                && KindKept(found.value)
      ensures log == old(log) + [Reread(sid, tid, found)]
    {
      OthersAct();
      var broken: bool := *;
      found := if broken || sid !in rows.sources || !Owned(rows, sid, tid) then None
               else Some(Context(sid, tid, rows.sources[sid], rows.targets[tid]));
      log := log + [Reread(sid, tid, found)];
    }

    /** The column `next_crawl_at` of a target. */
    function Column(tid: Id): Option<int>
      reads this`next
    {
      if tid in next then Some(next[tid]) else None
    }

    /** The rows that the claiming UPDATE accepts: an active target of an ACTIVE crawl source. */
    predicate ClaimableRows(sid: Id, tid: Id)
      reads this`rows
    {
      && Owned(rows, sid, tid) && rows.targets[tid].isActive
      && sid in rows.sources && rows.sources[sid].status.Active? && rows.sources[sid].category.Crawl?
    }

    /** A target that the listing query selects. */
    predicate IsDue(tid: Id, now: int)
      reads this`rows, this`next
    {
      tid in rows.targets && ClaimableRows(rows.targets[tid].source, tid) && DueAt(Column(tid), now)
    }

    /** A claim is stored only on claimable rows that are due, and then moves the column; `seen` is the
        column it found. */
    method ClaimTarget(sid: Id, tid: Id, at: int, until: int) returns (claim: ClaimOutcome, ghost seen: Option<int>)
      requires Valid()
      modifies this`rows, this`next, this`log
      ensures Valid()
      ensures StoredClaim(claim) ==> ClaimableRows(sid, tid) && DueAt(seen, at) && Column(tid) == Some(until)
      ensures StoredClaim(claim) ==>
                && tid in rows.targets && rows.targets[tid].source == sid && rows.targets[tid].isActive
                && sid in rows.sources && rows.sources[sid].status == SourceStatus.Active && rows.sources[sid].category == Crawl
                && (seen.Some? ==> seen.value <= at)
      ensures !StoredClaim(claim) ==> Column(tid) == seen
      ensures claim.Lost? ==> !ClaimableRows(sid, tid) || !DueAt(seen, at)
      ensures log == old(log) + [Claim(sid, tid, at, until, claim)]
    {
      OthersAct();
      seen := Column(tid);
      var broken: bool, stored: bool := *, *;
      var won := ClaimableRows(sid, tid) && DueAt(Column(tid), at) && (!broken || stored);
      if won {
        next := next[tid := until];
      }
      claim := if broken then Errored(won) else if won then Won else Lost;
      log := log + [Claim(sid, tid, at, until, claim)];
    }

    method ReleaseClaimTarget(sid: Id, tid: Id) returns (released: bool)
      requires Valid()
      modifies this`rows, this`next, this`log
      ensures Valid() && (released ==> Column(tid) == None)
      ensures log == old(log) + [Release(sid, tid, released)]
    {
      OthersAct();
      released := *;
      if released {
        next := next - {tid};
      }
      log := log + [Release(sid, tid, released)];
    }

    /** `CreateScheduledJob`; the conflict is a RUNNING job of the same target. */
    method CreateScheduledJob(ctx: Context) returns (job: Id, created: JobOutcome)
      requires Valid()
      modifies this`rows, this`next, this`log, this`nextId
      ensures Valid()
      ensures job == old(nextId) && nextId == old(nextId) + 1
      ensures log == old(log) + [CreateJob(job, ctx, created)]
    {
      OthersAct();
      job, created := nextId, *;
      log, nextId := log + [CreateJob(job, ctx, created)], nextId + 1;
    }

    method CreateExternalTask(task: Id, job: Id, spec: Spec) returns (ok: bool)
      requires Valid()
      modifies this`rows, this`next, this`log
      ensures Valid()
      ensures log == old(log) + [CreateTask(task, job, spec, ok)]
    {
      OthersAct();
      ok := *;
      log := log + [CreateTask(task, job, spec, ok)];
    }

    /** A publish that reports success was delivered; one that reports an error may have been. */
    method PublishDispatch(task: Id, spec: Spec) returns (delivered: bool, ok: bool)
      requires Valid()
      modifies this`rows, this`next, this`log
      ensures Valid() && (ok ==> delivered)
      ensures log == old(log) + [Publish(task, spec, delivered, ok)]
    {
      OthersAct();
      delivered, ok := *, *;
      ok := ok && delivered;
      log := log + [Publish(task, spec, delivered, ok)];
    }

    method MarkExternalTaskPublished(task: Id) returns (ok: bool)
      requires Valid()
      modifies this`rows, this`next, this`log
      ensures Valid()
      ensures log == old(log) + [MarkPublished(task, ok)]
    {
      OthersAct();
      ok := *;
      log := log + [MarkPublished(task, ok)];
    }

    method MarkExternalTaskFailed(task: Id) returns (ok: bool)
      requires Valid()
      modifies this`rows, this`next, this`log
      ensures Valid()
      ensures log == old(log) + [MarkFailed(task, ok)]
    {
      OthersAct();
      ok := *;
      log := log + [MarkFailed(task, ok)];
    }

    method FinalizeScheduledJob(job: Id, status: JobStatus, summary: Summary) returns (ok: bool)
      requires Valid()
      modifies this`rows, this`next, this`log
      ensures Valid()
      ensures log == old(log) + [Finalize(job, status, summary, ok)]
    {
      OthersAct();
      ok := *;
      log := log + [Finalize(job, status, summary, ok)];
    }

    // -------------------------------------------------------------- fan-out

    /** `dispatchOneSpec`. */
    method DispatchOneSpec(ctx: Context, job: Id, spec: Spec) returns (task: TaskOutput, message: Option<string>, ghost a: Attempt)
      requires Valid()
      modifies this`rows, this`next, this`log, this`nextId
      ensures Valid()
      ensures log == old(log) + AttemptTrace(job, a)
      ensures a.spec == spec && a.task == old(nextId) && nextId == old(nextId) + 1
      ensures task == TaskOf(a)
      ensures message == if a.outcome.Published? then None else Some(a.outcome.message)
    {
      var id := nextId;
      nextId := nextId + 1;
      var failed := TaskOutput(id, spec.queue, spec.action, spec.keyword, JobStatus.Failed);
      // The payload cannot be encoded, or the project has no usable domain type.
      var prepared: bool, text: string := *, *;
      if !prepared {
        return failed, Some(text), Attempt(id, spec, NotCreated(false, text));
      }
      var created := CreateExternalTask(id, job, spec);
      if !created {
        return failed, Some(text), Attempt(id, spec, NotCreated(true, text));
      }
      var delivered, published := PublishDispatch(id, spec);
      if !published {
        var marked := MarkExternalTaskFailed(id);
        return failed, Some(text), Attempt(id, spec, PublishFailed(delivered, marked, text));
      }
      var recorded := MarkExternalTaskPublished(id);
      if !recorded {
        var marked := MarkExternalTaskFailed(id);
        return failed, Some(text), Attempt(id, spec, MarkLost(marked, text));
      }
      return failed.(status := JobStatus.Running), None, Attempt(id, spec, Published);
    }

    /** `summarizeDispatchFailures`. */
    method SummarizeDispatchFailures(messages: seq<string>, taskCount: nat) returns (s: Summary)
      ensures s == SummaryOf(messages, taskCount)
    {
      var unique := NormalizeTargetValues(messages, true);
      s := if unique == [] then NothingPublished(taskCount) else Failures(|messages|, unique);
    }

    /** The loop of `dispatchPrepared`. */
    method FanOut(ctx: Context, job: Id, specs: seq<Spec>)
      returns (tasks: seq<TaskOutput>, published: nat, failures: seq<string>, ghost attempts: seq<Attempt>)
      requires Valid()
      modifies this`rows, this`next, this`log, this`nextId
      ensures Valid()
      ensures Fanned(specs, attempts, tasks, published, failures, old(nextId), nextId) && Traced(job, attempts, old(log), log)
    {
      tasks, published, failures, attempts := [], 0, [], [];
      for i := 0 to |specs|
        invariant Valid()
        invariant Fanned(specs[..i], attempts, tasks, published, failures, old(nextId), nextId) && Traced(job, attempts, old(log), log)
      {
        ghost var log1 := log;
        var task, message, a := DispatchOneSpec(ctx, job, specs[i]);
        TracedAdds(job, attempts, a, old(log), log1, log);
        FannedAdds(specs, i, attempts, tasks, published, failures, old(nextId), a);
        tasks, attempts := tasks + [task], attempts + [a];
        if message.Some? {
          failures := failures + [message.value];
          continue;
        }
        published := published + 1;
      }
      assert specs[..|specs|] == specs;
    }

    /** The final switch of `dispatchPrepared`. */
    method Conclude(job: Id, tasks: seq<TaskOutput>, published: nat, failures: seq<string>, ghost attempts: seq<Attempt>)
      returns (out: DispatchOutput, error: Option<DispatchError>, ghost finalized: bool)
      requires Valid()
      requires published == PublishedCount(attempts) && failures == Messages(attempts) && |tasks| == |attempts|
      modifies this`rows, this`next, this`log
      ensures Valid()
      ensures log == old(log) + FinalTrace(job, attempts, finalized)
      ensures error == if published > 0 && (failures == [] || finalized) then None else Some(DispatchFailed)
      ensures out == if published > 0 && failures != [] && !finalized then NO_OUTPUT
                     else DispatchOutput(Some(job), FinalStatus(attempts), |tasks|, published, |failures|, tasks)
    {
      out := DispatchOutput(Some(job), JobStatus.Running, |tasks|, published, |failures|, tasks);
      if published == 0 {
        var summary := SummarizeDispatchFailures(failures, out.taskCount);
        finalized := FinalizeScheduledJob(job, JobStatus.Failed, summary);
        return out.(status := JobStatus.Failed), Some(DispatchFailed), finalized;
      }
      if |failures| > 0 {
        var summary := SummarizeDispatchFailures(failures, out.taskCount);
        var recorded := FinalizeScheduledJob(job, JobStatus.Partial, summary);
        if !recorded {
          return NO_OUTPUT, Some(DispatchFailed), false;
        }
        return out.(status := JobStatus.Partial), None, true;
      }
      return out, None, true;
    }

    /** `dispatchPrepared`. The output is populated when the call succeeds and when nothing was published. */
    method DispatchPrepared(ctx: Context, specs: seq<Spec>)
      returns (out: DispatchOutput, error: Option<DispatchError>, ghost d: Dispatch)
      requires Valid()
      modifies this`rows, this`next, this`log, this`nextId
      ensures Valid() && old(nextId) <= nextId
      ensures specs == [] ==> log == old(log) && error == Some(DispatchError.NotAllowed)
      ensures specs != [] ==> Did(d, old(log), log) && DispatchOk(d, ctx, specs, old(nextId), nextId)
      ensures specs != [] ==> error == ErrorOf(d)
      ensures specs != [] && Populated(d) ==> Reports(out, d)
    {
      if specs == [] {
        return NO_OUTPUT, Some(DispatchError.NotAllowed), NoJob(0, ctx, Conflict);
      }
      var job, created := CreateScheduledJob(ctx);
      if !created.Created? {
        return NO_OUTPUT, Some(if created.Conflict? then DispatchError.NotAllowed else DispatchFailed), NoJob(job, ctx, created);
      }
      var tasks, published, failures, attempts := FanOut(ctx, job, specs);
      ghost var log2 := log;
      ghost var finalized: bool;
      out, error, finalized := Conclude(job, tasks, published, failures, attempts);
      d := FannedOut(job, ctx, attempts, finalized);
      FannedReports(job, ctx, specs, attempts, tasks, published, failures, finalized, job + 1, nextId);
      DidAll(job, ctx, attempts, finalized, old(log), log2, log);
    }

    // -------------------------------------------------------------- entry points

    /** `DispatchTarget`, the manual dispatch; it does not ask for an ACTIVE source. */
    method DispatchTarget(sid: Id, tid: Id) returns (out: DispatchOutput, error: Option<DispatchError>, ghost d: Option<Dispatch>)
      requires Valid()
      modifies this`rows, this`next, this`log, this`nextId
      ensures Valid()
      ensures d.None? ==>
                exists found :: && log == old(log) + [Reread(sid, tid, found)]
                                && match found
                                   case None => error == Some(NotFound)
                                   case Some(ctx) => if FitByHand(ctx) then error.Some? && error.value.BadSpecs? else error == Some(DispatchError.NotAllowed)
      ensures d.Some? ==>
                && FitByHand(d.value.ctx) && d.value.ctx.sid == sid && d.value.ctx.tid == tid
                && Did(d.value, old(log) + [Reread(sid, tid, Some(d.value.ctx))], log)
                && error == ErrorOf(d.value) && (Populated(d.value) ==> Reports(out, d.value))
    {
      var found := GetDispatchContext(sid, tid);
      if found.None? {
        return NO_OUTPUT, Some(NotFound), None;
      }
      if !Dispatchable(found.value) {
        return NO_OUTPUT, Some(DispatchError.NotAllowed), None;
      }
      var built := BuildDispatchSpecs(url, found.value.source.sourceType, found.value.target);
      if built.Refused? {
        return NO_OUTPUT, Some(BadSpecs(built.error)), None;
      }
      ghost var dispatch: Dispatch;
      out, error, dispatch := DispatchPrepared(found.value, built.specs);
      return out, error, Some(dispatch);
    }

    /** `validateScheduledDispatchContext`. */
    method ValidateScheduled(ctx: Context) returns (ok: bool, ghost check: Option<bool>)
      requires Valid()
      modifies this`rows, this`next, this`log
      ensures Valid()
      ensures log == old(log) + CheckTrace(ctx, check)
      ensures (check.Some? <==> Schedulable(ctx)) && (ok <==> check == Some(true))
    {
      if !Dispatchable(ctx) {
        return false, None;
      }
      if !ctx.source.status.Active? {
        return false, None;
      }
      ok := CheckProject(ctx.source.project);
      check := Some(ok);
    }

    /** The dispatch of a claimed target, and the release when it failed. */
    method DispatchChecked(listed: Context, ctx: Context, specs: seq<Spec>)
      returns (verdict: Verdict, ghost d: Dispatch, ghost released: bool)
      requires Valid() && specs != []
      modifies this`rows, this`next, this`log, this`nextId
      ensures Valid() && old(nextId) <= nextId
      ensures DispatchOk(d, ctx, specs, old(nextId), nextId)
      ensures log == old(log) + DispatchTrace(d) + ReleaseTrace(listed, AfterClaim.Dispatched(d), released)
      ensures verdict == VerdictAfter(AfterClaim.Dispatched(d))
    {
      var out, error;
      out, error, d := DispatchPrepared(ctx, specs);
      released := false;
      if error.None? {
        return Verdict.Dispatched, d, released;
      }
      if error.value.NotAllowed? {
        return Verdict.Skipped, d, released;
      }
      released := ReleaseClaimTarget(listed.sid, listed.tid);
      return Verdict.Failed, d, released;
    }

    /** After the claim: re-read, check again and dispatch; the claim is given back unless something
        was published or another job of the target is running. */
    method DispatchClaimed(listed: Context, specs: seq<Spec>) returns (verdict: Verdict, ghost after: AfterClaim, ghost released: bool)
      requires Valid() && specs != [] && StoredAtStart(listed)
      modifies this`rows, this`next, this`log, this`nextId
      ensures Valid() && old(nextId) <= nextId
      ensures FollowedUp(listed, after, released, old(log), log)
      ensures AfterOk(listed, specs, after, old(nextId), nextId) && verdict == VerdictAfter(after)
    {
      released := false;
      var current := GetDispatchContext(listed.sid, listed.tid);
      if current.None? {
        released := ReleaseClaimTarget(listed.sid, listed.tid);
        return Verdict.Skipped, RereadFailed, released;
      }
      var ok, check := ValidateScheduled(current.value);
      ghost var log1 := log;
      if !ok {
        released := ReleaseClaimTarget(listed.sid, listed.tid);
        DropsStale(listed, current.value, check, released, old(log), log1, log);
        return Verdict.Skipped, Stale(current.value, check), released;
      }
      ghost var d := NoJob(0, listed, Conflict);
      verdict, d, released := DispatchChecked(listed, current.value, specs);
      FollowsUp(listed, d, released, old(log), log1, log);
      after := AfterClaim.Dispatched(d);
    }

    // -------------------------------------------------------------- the scheduler tick

    /** `ListDueTargets`: rows due at `now`, at most `limit` of them. Their fair order is left open. */
    method ListDueTargets(now: int, limit: nat) returns (due: Option<seq<Context>>)
      modifies this`rows, this`next, this`origin
      ensures Valid()
      ensures due.Some? ==> |due.value| <= limit && forall i :: 0 <= i < |due.value| ==> StoredAtStart(due.value[i])
      ensures due.Some? ==> forall i, j :: 0 <= i < j < |due.value| ==> due.value[i].tid != due.value[j].tid
      ensures due.Some? ==> forall i :: 0 <= i < |due.value| ==> ClaimableRows(due.value[i].sid, due.value[i].tid) && DueAt(Column(due.value[i].tid), now)
      ensures due.Some? && |due.value| < limit ==> forall tid :: IsDue(tid, now) ==> exists i :: 0 <= i < |due.value| && due.value[i].tid == tid
    {
      origin := rows;
      OthersAct();
      origin := rows;
      var broken: bool := *;
      if broken {
        return None;
      }
      var ids := Repository.Enumerate(set tid | tid in rows.targets && IsDue(tid, now));
      var listed: seq<Context> := [];
      for i := 0 to if |ids| <= limit then |ids| else limit
        invariant |listed| == i
        invariant forall j :: 0 <= j < i ==> StoredAtStart(listed[j]) && listed[j].tid == ids[j]
        invariant forall j :: 0 <= j < i ==> ClaimableRows(listed[j].sid, listed[j].tid) && DueAt(Column(listed[j].tid), now)
      {
        assert ids[i] in ids;
        var sid := rows.targets[ids[i]].source;
        listed := listed + [Context(sid, ids[i], rows.sources[sid], rows.targets[ids[i]])];
      }
      assert forall tid :: IsDue(tid, now) ==> tid in ids;
      return Some(listed);
    }

    /** The checks on a listed target, its specs and its effective interval. */
    method PrepareDue(listed: Context) returns (specs: Option<seq<Spec>>, minutes: int, ghost check: Option<bool>)
      requires Valid()
      modifies this`rows, this`next, this`log
      ensures Valid() && log == old(log) + CheckTrace(listed, check)
      ensures specs.None? ==> Rejects(url, listed, check)
      ensures specs.Some? ==>
                && check == Some(true) && Schedulable(listed) && listed.target.interval > 0
                && minutes == EffectiveMinutes(listed.source.crawlMode.value, listed.target.interval)
                && specs.value != [] && Builds(url, listed.source.sourceType, listed.target, Specs(specs.value))
    {
      var ok;
      ok, check := ValidateScheduled(listed);
      if !ok {
        return None, 0, check;
      }
      var built := BuildDispatchSpecs(url, listed.source.sourceType, listed.target);
      var interval := ComputeEffectiveInterval(listed.source.crawlMode, listed.target.interval);
      if built.Refused? || interval.None? {
        return None, 0, check;
      }
      return Some(built.specs), interval.value, check;
    }

    /** One turn of the loop of `DispatchDueTargets`. */
    method HandleDueTarget(listed: Context, now: int) returns (claimed: bool, verdict: Verdict, ghost t: Turn)
      requires Valid() && StoredAtStart(listed)
      modifies this`rows, this`next, this`log, this`nextId
      ensures Valid() && old(nextId) <= nextId
      ensures Turned(t, old(log), log)
      ensures TurnOk(url, now, listed, t, old(nextId), nextId)
      ensures claimed == t.Claimed? && verdict == VerdictOf(t)
    {
      var ready, minutes, check := PrepareDue(listed);
      if ready.None? {
        RejectedOk(url, now, listed, check, old(nextId), nextId);
        return false, Verdict.Failed, Rejected(listed, check);
      }
      var specs, until := ready.value, now + minutes * MINUTE;
      ghost var log1 := log;
      var claim, seen := ClaimTarget(listed.sid, listed.tid, now, until);
      if !claim.Won? {
        t := Unclaimed(listed, now, until, seen, claim);
        UnclaimedOk(url, now, t, specs, old(nextId), nextId);
        TurnsUnclaimed(t, old(log), log);
        return false, if claim.Lost? then Verdict.Skipped else Verdict.Failed, t;
      }
      ghost var log2, after, released := log, RereadFailed, false;
      claimed := true;
      verdict, after, released := DispatchClaimed(listed, specs);
      t := Claimed(listed, now, until, seen, after, released);
      ClaimedOk(url, now, t, specs, old(nextId), nextId);
      TurnsClaimed(t, old(log), log2, log);
    }

    /** `DispatchDueTargets`. */
    method DispatchDueTargets(now: int, requestedLimit: int) returns (r: Option<TickOutput>, ghost turns: seq<Turn>)
      modifies this
      ensures r.None? ==> log == old(log) && turns == []
      ensures log == old(log) + TurnsTrace(turns)
      ensures TurnsOk(url, now, turns, old(nextId), nextId)
      ensures forall i, j :: 0 <= i < j < |turns| ==> turns[i].listed.tid != turns[j].listed.tid
      ensures r.Some? ==> r.value == Counts(turns) && r.value.dueCount <= if requestedLimit <= 0 then 1 else requestedLimit
    {
      turns := [];
      var limit := if requestedLimit <= 0 then 1 else requestedLimit;
      var due := ListDueTargets(now, limit);
      if due.None? {
        return None, [];
      }
      var out := TickOutput(|due.value|, 0, 0, 0, 0);
      for i := 0 to |due.value|
        invariant Valid() && out.dueCount == |due.value|
        invariant forall j :: 0 <= j < |due.value| ==> StoredAtStart(due.value[j])
        invariant Ticked(turns, old(log), log) && TurnsOk(url, now, turns, old(nextId), nextId) && old(nextId) <= nextId
        invariant |turns| == i && Counted(out, i, turns)
        invariant forall j :: 0 <= j < i ==> turns[j].listed == due.value[j]
      {
        ghost var log1, id1 := log, nextId;
        var claimed, verdict, t := HandleDueTarget(due.value[i], now);
        TickedAdds(turns, t, old(log), log1, log);
        TurnsOkAdds(url, now, turns, t, old(nextId), id1, nextId);
        CountsAdd(out, i, turns, t);
        turns := turns + [t];
        out := CountTurn(out, claimed, verdict);
      }
      r := Some(out);
    }
  }

  // ---------------------------------------------------------------- what a dispatch promises

  ghost predicate Did(d: Dispatch, before: seq<Event>, after: seq<Event>) {
    after == before + DispatchTrace(d)
  }

  lemma DidAll(job: Id, ctx: Context, attempts: seq<Attempt>, finalized: bool, log0: seq<Event>, log2: seq<Event>, log3: seq<Event>)
    requires Traced(job, attempts, log0 + [CreateJob(job, ctx, Created)], log2)
    requires log3 == log2 + FinalTrace(job, attempts, finalized)
    ensures Did(FannedOut(job, ctx, attempts, finalized), log0, log3)
  {
  }

  function ErrorOf(d: Dispatch): Option<DispatchError> {
    if Succeeded(d) then None else if Conflicted(d) then Some(DispatchError.NotAllowed) else Some(DispatchFailed)
  }

  /** The call succeeded, or nothing was published. */
  predicate Populated(d: Dispatch) {
    d.FannedOut? && (Succeeded(d) || PublishedCount(d.attempts) == 0)
  }

  /** A dispatch from `ctx` tries every spec once, in order, under fresh task ids. */
  ghost predicate DispatchOk(d: Dispatch, ctx: Context, specs: seq<Spec>, from: nat, upto: nat) {
    && d.ctx == ctx && from <= d.job < upto
    && (d.NoJob? ==> !d.refused.Created?)
    && (d.FannedOut? ==> SpecsOf(d.attempts) == specs && Fresh(d.attempts, d.job + 1, upto))
  }

  /** A populated output counts what the fan-out did. */
  ghost predicate Reports(out: DispatchOutput, d: Dispatch)
    requires d.FannedOut?
  {
    && out.job == Some(d.job)
    && out.taskCount == |out.tasks| == |d.attempts|
    && out.publishedCount == PublishedCount(d.attempts)
    && out.publishedCount + out.failedCount == out.taskCount
    && (forall i :: 0 <= i < |out.tasks| ==> out.tasks[i] == TaskOf(d.attempts[i]))
    && (out.status.Failed? <==> out.publishedCount == 0)
    && (out.status.Partial? <==> out.publishedCount > 0 && out.failedCount > 0)
    && (out.status.Running? <==> out.publishedCount > 0 && out.failedCount == 0)
  }

  lemma FannedReports(job: Id, ctx: Context, specs: seq<Spec>, attempts: seq<Attempt>, tasks: seq<TaskOutput>, published: nat,
                      failures: seq<string>, finalized: bool, from: nat, upto: nat)
    requires Fanned(specs, attempts, tasks, published, failures, from, upto)
    ensures SpecsOf(attempts) == specs && Fresh(attempts, from, upto)
    ensures Reports(DispatchOutput(Some(job), FinalStatus(attempts), |tasks|, published, |failures|, tasks),
                    FannedOut(job, ctx, attempts, finalized))
  {
  }

  ghost predicate Traced(job: Id, attempts: seq<Attempt>, before: seq<Event>, after: seq<Event>) {
    after == before + Trace(job, attempts)
  }

  lemma TracedAdds(job: Id, attempts: seq<Attempt>, a: Attempt, log0: seq<Event>, log1: seq<Event>, log2: seq<Event>)
    requires Traced(job, attempts, log0, log1) && log2 == log1 + AttemptTrace(job, a)
    ensures Traced(job, attempts + [a], log0, log2)
  {
    assert (attempts + [a])[..|attempts|] == attempts;
  }

  /** What the fan-out loop has gathered after some specs. */
  ghost predicate Fanned(specs: seq<Spec>, attempts: seq<Attempt>, tasks: seq<TaskOutput>, published: nat, failures: seq<string>,
                         from: nat, upto: nat)
  {
    && |attempts| == |specs| == |tasks| && from <= upto && Fresh(attempts, from, upto)
    && (forall i :: 0 <= i < |specs| ==> attempts[i].spec == specs[i] && tasks[i] == TaskOf(attempts[i]))
    && published == PublishedCount(attempts) && failures == Messages(attempts)
  }

  lemma FannedAdds(specs: seq<Spec>, i: nat, attempts: seq<Attempt>, tasks: seq<TaskOutput>, published: nat, failures: seq<string>,
                   from: nat, a: Attempt)
    requires i < |specs| && a.spec == specs[i]
    requires Fanned(specs[..i], attempts, tasks, published, failures, from, a.task)
    ensures Fanned(specs[..i + 1], attempts + [a], tasks + [TaskOf(a)],
                   if a.outcome.Published? then published + 1 else published,
                   if a.outcome.Published? then failures else failures + [a.outcome.message], from, a.task + 1)
  {
    assert (attempts + [a])[..|attempts|] == attempts;
    assert forall j :: 0 <= j < i ==> specs[..i + 1][j] == specs[..i][j];
  }
}
