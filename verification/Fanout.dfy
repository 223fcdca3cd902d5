/** What one dispatch does to the outside world: the calls it makes, in order, and what came of each
    (internal/execution/usecase/usecase.go). */
module Fanout {
  import opened Model
  import opened Values
  import opened Specs

  /** The rows a dispatch works from. */
  datatype Context = Context(sid: Id, tid: Id, source: Source, target: Target)

  datatype ClaimOutcome = Won | Lost | Errored(stored: bool)
  datatype JobOutcome = Created | Conflict | Broken(inserted: bool)
  datatype Summary = NothingPublished(taskCount: nat) | Failures(count: nat, messages: seq<string>)

  /** Calls to the repository, the project service and the publisher. A call that reports an error may
      have taken effect all the same. */
  datatype Event =
    | ProjectCheck(project: Id, allowed: bool)
    | Claim(sid: Id, tid: Id, at: int, next: int, claim: ClaimOutcome)
    | Release(sid: Id, tid: Id, released: bool)
    | Reread(sid: Id, tid: Id, found: Option<Context>)
    | CreateJob(job: Id, ctx: Context, created: JobOutcome)
    | CreateTask(task: Id, job: Id, spec: Spec, ok: bool)
    | Publish(task: Id, spec: Spec, delivered: bool, ok: bool)
    | MarkPublished(task: Id, ok: bool)
    | MarkFailed(task: Id, ok: bool)
    | Finalize(job: Id, status: JobStatus, summary: Summary, ok: bool)

  // ---------------------------------------------------------------- one spec

  datatype Outcome =
    | NotCreated(attempted: bool, message: string)
    | PublishFailed(delivered: bool, marked: bool, message: string)
    | MarkLost(marked: bool, message: string)
    | Published

  datatype Attempt = Attempt(task: Id, spec: Spec, outcome: Outcome)

  function AttemptTrace(job: Id, a: Attempt): seq<Event> {
    match a.outcome
    case NotCreated(attempted, _) => if attempted then [CreateTask(a.task, job, a.spec, false)] else []
    case PublishFailed(delivered, marked, _) =>
      [CreateTask(a.task, job, a.spec, true), Publish(a.task, a.spec, delivered, false), MarkFailed(a.task, marked)]
    case MarkLost(marked, _) =>
      [CreateTask(a.task, job, a.spec, true), Publish(a.task, a.spec, true, true), MarkPublished(a.task, false), MarkFailed(a.task, marked)]
    case Published =>
      [CreateTask(a.task, job, a.spec, true), Publish(a.task, a.spec, true, true), MarkPublished(a.task, true)]
  }

  function Trace(job: Id, attempts: seq<Attempt>): seq<Event> {
    if attempts == [] then []
    else Trace(job, attempts[..|attempts| - 1]) + AttemptTrace(job, attempts[|attempts| - 1])
  }

  function PublishedCount(attempts: seq<Attempt>): nat {
    if attempts == [] then 0
    else PublishedCount(attempts[..|attempts| - 1]) + if attempts[|attempts| - 1].outcome.Published? then 1 else 0
  }

  /** The error texts of the attempts that failed. */
  function Messages(attempts: seq<Attempt>): (r: seq<string>)
    ensures |r| == |attempts| - PublishedCount(attempts)
  {
    if attempts == [] then []
    else
      var kept := Messages(attempts[..|attempts| - 1]);
      var last := attempts[|attempts| - 1].outcome;
      if last.Published? then kept else kept + [last.message]
  }

  /** Task ids are fresh: each is newer than the ones before it. */
  ghost predicate Fresh(attempts: seq<Attempt>, from: nat, upto: nat) {
    attempts != [] ==>
      var last := attempts[|attempts| - 1].task;
      from <= last < upto && Fresh(attempts[..|attempts| - 1], from, last)
  }

  lemma {:induction false} FreshIsDistinct(attempts: seq<Attempt>, from: nat, upto: nat)
    requires Fresh(attempts, from, upto)
    ensures forall i :: 0 <= i < |attempts| ==> from <= attempts[i].task < upto
    ensures forall i, j :: 0 <= i < j < |attempts| ==> attempts[i].task < attempts[j].task
  {
    if attempts != [] {
      var n := |attempts| - 1;
      FreshIsDistinct(attempts[..n], from, attempts[n].task);
      assert forall i :: 0 <= i < n ==> attempts[..n][i] == attempts[i];
    }
  }

  // ---------------------------------------------------------------- the discipline of a trace

  /** Every publish follows the successful creation of its task's row, with the same spec. */
  ghost predicate PublishesFollowCreates(log: seq<Event>) {
    forall i :: 0 <= i < |log| && log[i].Publish? ==> CreatedBefore(log, i, log[i].task, log[i].spec)
  }

  ghost predicate CreatedBefore(log: seq<Event>, i: nat, task: Id, spec: Spec) {
    exists k :: 0 <= k < i && k < |log| && log[k].CreateTask? && log[k].ok && log[k].task == task && log[k].spec == spec
  }

  /** Every created row is later marked published, or marking it failed is attempted. */
  ghost predicate CreatesAreSettled(log: seq<Event>) {
    forall i :: 0 <= i < |log| && log[i].CreateTask? && log[i].ok ==> SettledAfter(log, i, log[i].task)
  }

  ghost predicate SettledAfter(log: seq<Event>, i: nat, task: Id) {
    exists k :: i < k < |log| &&
      ((log[k].MarkPublished? && log[k].task == task && log[k].ok) || (log[k].MarkFailed? && log[k].task == task))
  }

  ghost predicate Disciplined(log: seq<Event>) {
    PublishesFollowCreates(log) && CreatesAreSettled(log)
  }

  /** The publish rule speaks about every prefix of a trace. */
  lemma PrefixesToo(log: seq<Event>, n: nat)
    requires PublishesFollowCreates(log) && n <= |log|
    ensures PublishesFollowCreates(log[..n])
  {
    forall i | 0 <= i < n && log[..n][i].Publish? ensures CreatedBefore(log[..n], i, log[..n][i].task, log[..n][i].spec) {
      var k :| 0 <= k < i && log[k].CreateTask? && log[k].ok && log[k].task == log[i].task && log[k].spec == log[i].spec;
      assert log[..n][k] == log[k];
    }
  }

  lemma DisciplinedAppend(a: seq<Event>, b: seq<Event>)
    requires Disciplined(a) && Disciplined(b)
    ensures Disciplined(a + b)
  {
    var log := a + b;
    forall i | 0 <= i < |log| && log[i].Publish? ensures CreatedBefore(log, i, log[i].task, log[i].spec) {
      if i < |a| {
        var k :| 0 <= k < i && a[k].CreateTask? && a[k].ok && a[k].task == log[i].task && a[k].spec == log[i].spec;
        assert log[k] == a[k];
      } else {
        assert b[i - |a|].Publish?;
        var k :| 0 <= k < i - |a| && b[k].CreateTask? && b[k].ok && b[k].task == log[i].task && b[k].spec == log[i].spec;
        assert log[|a| + k] == b[k];
      }
    }
    forall i | 0 <= i < |log| && log[i].CreateTask? && log[i].ok ensures SettledAfter(log, i, log[i].task) {
      if i < |a| {
        assert SettledAfter(a, i, a[i].task);
        var k :| i < k < |a| && ((a[k].MarkPublished? && a[k].task == a[i].task && a[k].ok) || (a[k].MarkFailed? && a[k].task == a[i].task));
        assert log[k] == a[k];
      } else {
        var i' := i - |a|;
        assert SettledAfter(b, i', b[i'].task);
        var k :| i' < k < |b| && ((b[k].MarkPublished? && b[k].task == b[i'].task && b[k].ok) || (b[k].MarkFailed? && b[k].task == b[i'].task));
        assert log[|a| + k] == b[k];
      }
    }
  }

  /** Events that are neither a task creation nor a publish. */
  lemma OthersAreDisciplined(log: seq<Event>)
    requires forall i :: 0 <= i < |log| ==> !log[i].CreateTask? && !log[i].Publish?
    ensures Disciplined(log)
  {
  }

  lemma AttemptIsDisciplined(job: Id, a: Attempt)
    ensures Disciplined(AttemptTrace(job, a))
  {
    var t := AttemptTrace(job, a);
    if |t| >= 3 {
      assert t[0].CreateTask? && t[0].ok && t[1].Publish? && t[0].spec == t[1].spec;
      assert CreatedBefore(t, 1, a.task, a.spec);
      assert t[|t| - 1].MarkFailed? || (t[2].MarkPublished? && t[2].ok);
      assert SettledAfter(t, 0, a.task);
    }
  }

  lemma {:induction false} TraceIsDisciplined(job: Id, attempts: seq<Attempt>)
    ensures Disciplined(Trace(job, attempts))
  {
    if attempts != [] {
      var n := |attempts| - 1;
      TraceIsDisciplined(job, attempts[..n]);
      AttemptIsDisciplined(job, attempts[n]);
      DisciplinedAppend(Trace(job, attempts[..n]), AttemptTrace(job, attempts[n]));
    }
  }

  // ---------------------------------------------------------------- counting

  function Delivered(log: seq<Event>): nat {
    if log == [] then 0
    else Delivered(log[..|log| - 1]) + if log[|log| - 1].Publish? && log[|log| - 1].delivered then 1 else 0
  }

  lemma {:induction false} DeliveredAppend(a: seq<Event>, b: seq<Event>)
    ensures Delivered(a + b) == Delivered(a) + Delivered(b)
  {
    if b == [] {
      assert a + b == a;
    } else {
      assert (a + b)[..|a + b| - 1] == a + b[..|b| - 1];
      DeliveredAppend(a, b[..|b| - 1]);
    }
  }

  lemma AttemptDelivers(job: Id, a: Attempt)
    ensures Delivered(AttemptTrace(job, a)) <= 1
    ensures a.outcome.Published? || a.outcome.MarkLost? ==> Delivered(AttemptTrace(job, a)) == 1
  {
    var t := AttemptTrace(job, a);
    if |t| >= 3 {
      assert t[..2] == [t[0]] + [t[1]];
      assert Delivered([t[0]]) == 0;
      DeliveredAppend([t[0]], [t[1]]);
      assert t == t[..2] + t[2..];
      DeliveredAppend(t[..2], t[2..]);
      assert Delivered(t[2..]) == 0 by {
        assert t[2..] == [t[2]] || t[2..] == [t[2]] + [t[3]];
        if |t| == 4 {
          DeliveredAppend([t[2]], [t[3]]);
        }
      }
    }
  }

  /** The messages actually delivered lie between the published count and the number of specs. */
  lemma {:induction false} TraceDelivers(job: Id, attempts: seq<Attempt>)
    ensures PublishedCount(attempts) <= Delivered(Trace(job, attempts)) <= |attempts|
  {
    if attempts != [] {
      var n := |attempts| - 1;
      TraceDelivers(job, attempts[..n]);
      AttemptDelivers(job, attempts[n]);
      DeliveredAppend(Trace(job, attempts[..n]), AttemptTrace(job, attempts[n]));
    }
  }

  // ---------------------------------------------------------------- one dispatch

  /** A whole dispatch: creating the job, the fan-out, and the final status of the job. */
  datatype Dispatch =
    | NoJob(job: Id, ctx: Context, refused: JobOutcome)
    | FannedOut(job: Id, ctx: Context, attempts: seq<Attempt>, finalized: bool)

  function FinalStatus(attempts: seq<Attempt>): JobStatus {
    if PublishedCount(attempts) == 0 then JobStatus.Failed
    else if PublishedCount(attempts) < |attempts| then JobStatus.Partial
    else JobStatus.Running
  }

  /** `summarizeDispatchFailures`. */
  function SummaryOf(messages: seq<string>, taskCount: nat): Summary {
    var unique := Normalized(messages, true);
    if unique == [] then NothingPublished(taskCount) else Failures(|messages|, unique)
  }

  function FinalTrace(job: Id, attempts: seq<Attempt>, finalized: bool): seq<Event> {
    if FinalStatus(attempts).Running? then []
    else [Finalize(job, FinalStatus(attempts), SummaryOf(Messages(attempts), |attempts|), finalized)]
  }

  function DispatchTrace(d: Dispatch): seq<Event> {
    match d
    case NoJob(job, ctx, refused) => [CreateJob(job, ctx, refused)]
    case FannedOut(job, ctx, attempts, finalized) =>
      [CreateJob(job, ctx, Created)] + Trace(job, attempts) + FinalTrace(job, attempts, finalized)
  }

  lemma DispatchIsDisciplined(d: Dispatch)
    ensures Disciplined(DispatchTrace(d))
  {
    match d
    case NoJob(job, ctx, refused) => OthersAreDisciplined(DispatchTrace(d));
    case FannedOut(job, ctx, attempts, finalized) =>
      var first, middle := [CreateJob(job, ctx, Created)], Trace(job, attempts);
      var rest := FinalTrace(job, attempts, finalized);
      TraceIsDisciplined(job, attempts);
      OthersAreDisciplined(first);
      OthersAreDisciplined(rest);
      DisciplinedAppend(first, middle);
      DisciplinedAppend(first + middle, rest);
  }

  // ---------------------------------------------------------------- creations that report an error

  function TaskNamed(e: Event): Option<Id> {
    match e
    case CreateTask(task, _, _, _) => Some(task)
    case Publish(task, _, _, _) => Some(task)
    case MarkPublished(task, _) => Some(task)
    case MarkFailed(task, _) => Some(task)
    case _ => None
  }

  /** Every call about a task comes from an attempt whose id lies in the range. */
  ghost predicate TasksIn(log: seq<Event>, from: nat, upto: nat) {
    forall i :: 0 <= i < |log| && TaskNamed(log[i]).Some? ==> from <= TaskNamed(log[i]).value < upto
  }

  /** No other call of the log is about the task of its event `i`. */
  ghost predicate Alone(log: seq<Event>, i: nat) {
    i < |log| && forall k :: 0 <= k < |log| && k != i ==> TaskNamed(log[k]) != TaskNamed(log[i])
  }

  /** A creation that reports an error, whether it stored a row or not, is the only call about its task. */
  ghost predicate FailedCreatesAreAlone(log: seq<Event>) {
    forall i :: 0 <= i < |log| && log[i].CreateTask? && !log[i].ok ==> Alone(log, i)
  }

  lemma AloneAppend(a: seq<Event>, b: seq<Event>, from: nat, mid: nat, upto: nat)
    requires FailedCreatesAreAlone(a) && FailedCreatesAreAlone(b) && TasksIn(a, from, mid) && TasksIn(b, mid, upto) && from <= mid <= upto
    ensures FailedCreatesAreAlone(a + b) && TasksIn(a + b, from, upto)
  {
    var log := a + b;
    forall i, k | 0 <= i < |log| && log[i].CreateTask? && !log[i].ok && 0 <= k < |log| && k != i ensures TaskNamed(log[k]) != TaskNamed(log[i]) {
      if i < |a| {
        assert Alone(a, i);
        assert k >= |a| ==> log[k] == b[k - |a|];
      } else {
        assert Alone(b, i - |a|);
        assert k >= |a| ==> log[k] == b[k - |a|];
      }
    }
  }

  lemma {:induction false} TraceFailedCreatesAreAlone(job: Id, attempts: seq<Attempt>, from: nat, upto: nat)
    requires Fresh(attempts, from, upto) && from <= upto
    ensures FailedCreatesAreAlone(Trace(job, attempts)) && TasksIn(Trace(job, attempts), from, upto)
  {
    if attempts != [] {
      var n := |attempts| - 1;
      TraceFailedCreatesAreAlone(job, attempts[..n], from, attempts[n].task);
      AloneAppend(Trace(job, attempts[..n]), AttemptTrace(job, attempts[n]), from, attempts[n].task, upto);
    }
  }

  lemma DispatchFailedCreatesAreAlone(d: Dispatch, from: nat, upto: nat)
    requires d.FannedOut? && Fresh(d.attempts, from, upto) && from <= upto
    ensures FailedCreatesAreAlone(DispatchTrace(d))
  {
    var first, middle := [CreateJob(d.job, d.ctx, Created)], Trace(d.job, d.attempts);
    var rest := FinalTrace(d.job, d.attempts, d.finalized);
    TraceFailedCreatesAreAlone(d.job, d.attempts, from, upto);
    AloneAppend(first, middle, from, from, upto);
    AloneAppend(first + middle, rest, from, upto, upto);
  }

  lemma AloneIsUnsettled(log: seq<Event>, i: nat)
    requires Alone(log, i) && log[i].CreateTask?
    ensures !SettledAfter(log, i, log[i].task)
  {
  }

  /** In a dispatch a row is settled exactly when its creation reported success: one that was stored under
      an error is never published, nor marked at all. */
  lemma SettledExactly(d: Dispatch, from: nat, upto: nat, i: nat)
    requires d.FannedOut? && Fresh(d.attempts, from, upto) && from <= upto
    requires i < |DispatchTrace(d)| && DispatchTrace(d)[i].CreateTask?
    ensures SettledAfter(DispatchTrace(d), i, DispatchTrace(d)[i].task) <==> DispatchTrace(d)[i].ok
    ensures !DispatchTrace(d)[i].ok ==> Alone(DispatchTrace(d), i)
  {
    DispatchFailedCreatesAreAlone(d, from, upto);
    DispatchIsDisciplined(d);
    if !DispatchTrace(d)[i].ok {
      AloneIsUnsettled(DispatchTrace(d), i);
    }
  }

  /** For a whole dispatch as well: deliveries lie between the published count and the number of specs. */
  lemma DispatchDelivers(d: Dispatch)
    requires d.FannedOut?
    ensures PublishedCount(d.attempts) <= Delivered(DispatchTrace(d)) <= |d.attempts|
  {
    var head, middle, last := [CreateJob(d.job, d.ctx, Created)], Trace(d.job, d.attempts), FinalTrace(d.job, d.attempts, d.finalized);
    TraceDelivers(d.job, d.attempts);
    DeliveredAppend(head, middle);
    DeliveredAppend(head + middle, last);
    assert head[..0] == [] && (last != [] ==> last[..0] == []);
  }

  // ---------------------------------------------------------------- one due target of a tick

  /** What happens to a claim after it was won. */
  datatype AfterClaim =
    | RereadFailed
    | Stale(ctx: Context, check: Option<bool>)
    | Dispatched(dispatch: Dispatch)

  /** `seen` is the column `next_crawl_at` as the claiming statement found it. */
  datatype Turn =
    | Rejected(listed: Context, precheck: Option<bool>)
    | Unclaimed(listed: Context, at: int, next: int, seen: Option<int>, claim: ClaimOutcome)
    | Claimed(listed: Context, at: int, next: int, seen: Option<int>, after: AfterClaim, released: bool)

  /** The claim reached the row, whatever its caller was told. */
  predicate StoredClaim(claim: ClaimOutcome) {
    claim.Won? || (claim.Errored? && claim.stored)
  }

  /** The dispatch succeeded: something was published, and a partial result was recorded. */
  predicate Succeeded(d: Dispatch) {
    d.FannedOut? && PublishedCount(d.attempts) > 0 && (FinalStatus(d.attempts).Running? || d.finalized)
  }

  predicate Conflicted(d: Dispatch) {
    d.NoJob? && d.refused.Conflict?
  }

  /** Whether the use case gives the claim back. */
  predicate Releases(after: AfterClaim) {
    after.Dispatched? ==> !Succeeded(after.dispatch) && !Conflicted(after.dispatch)
  }

  function CheckTrace(ctx: Context, check: Option<bool>): seq<Event> {
    if check.Some? then [ProjectCheck(ctx.source.project, check.value)] else []
  }

  function AfterTrace(sid: Id, tid: Id, after: AfterClaim): seq<Event> {
    match after
    case RereadFailed => [Reread(sid, tid, None)]
    case Stale(ctx, check) => [Reread(sid, tid, Some(ctx))] + CheckTrace(ctx, check)
    case Dispatched(d) => [Reread(sid, tid, Some(d.ctx)), ProjectCheck(d.ctx.source.project, true)] + DispatchTrace(d)
  }

  function TurnTrace(t: Turn): seq<Event> {
    match t
    case Rejected(listed, precheck) => CheckTrace(listed, precheck)
    case Unclaimed(listed, at, next, _, claim) =>
      [ProjectCheck(listed.source.project, true), Claim(listed.sid, listed.tid, at, next, claim)]
    case Claimed(listed, at, next, _, after, released) =>
      [ProjectCheck(listed.source.project, true), Claim(listed.sid, listed.tid, at, next, Won)]
      + AfterTrace(listed.sid, listed.tid, after) + ReleaseTrace(listed, after, released)
  }

  function ReleaseTrace(listed: Context, after: AfterClaim, released: bool): seq<Event> {
    if Releases(after) then [Release(listed.sid, listed.tid, released)] else []
  }

  function TurnsTrace(turns: seq<Turn>): seq<Event> {
    if turns == [] then []
    else TurnsTrace(turns[..|turns| - 1]) + TurnTrace(turns[|turns| - 1])
  }

  lemma TurnsTraceAdds(turns: seq<Turn>, t: Turn)
    ensures TurnsTrace(turns + [t]) == TurnsTrace(turns) + TurnTrace(t)
  {
    assert (turns + [t])[..|turns|] == turns;
  }

  lemma AfterIsDisciplined(sid: Id, tid: Id, after: AfterClaim)
    ensures Disciplined(AfterTrace(sid, tid, after))
  {
    if after.Dispatched? {
      var d := after.dispatch;
      var head := [Reread(sid, tid, Some(d.ctx)), ProjectCheck(d.ctx.source.project, true)];
      OthersAreDisciplined(head);
      DispatchIsDisciplined(d);
      DisciplinedAppend(head, DispatchTrace(d));
    } else {
      OthersAreDisciplined(AfterTrace(sid, tid, after));
    }
  }

  lemma TurnIsDisciplined(t: Turn)
    ensures Disciplined(TurnTrace(t))
  {
    match t
    case Rejected(_, _) => OthersAreDisciplined(TurnTrace(t));
    case Unclaimed(_, _, _, _, _) => OthersAreDisciplined(TurnTrace(t));
    case Claimed(listed, at, next, _, after, released) =>
      var head := [ProjectCheck(listed.source.project, true), Claim(listed.sid, listed.tid, at, next, Won)];
      var middle := AfterTrace(listed.sid, listed.tid, after);
      var tail := ReleaseTrace(listed, after, released);
      OthersAreDisciplined(head);
      AfterIsDisciplined(listed.sid, listed.tid, after);
      OthersAreDisciplined(tail);
      DisciplinedAppend(head, middle);
      DisciplinedAppend(head + middle, tail);
  }

  /** A whole tick obeys the publish discipline. */
  lemma {:induction false} TurnsAreDisciplined(turns: seq<Turn>)
    ensures Disciplined(TurnsTrace(turns))
  {
    if turns != [] {
      var n := |turns| - 1;
      TurnsAreDisciplined(turns[..n]);
      TurnIsDisciplined(turns[n]);
      DisciplinedAppend(TurnsTrace(turns[..n]), TurnTrace(turns[n]));
    }
  }
}
