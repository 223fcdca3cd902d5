/** What a scheduler turn did can be told from the calls it made, and each call from the ones before it. */
module TurnLaws {
  import opened Model
  import opened Text
  import Values
  import opened Interval
  import opened Specs
  import opened Fanout
  import opened Runtime
  import opened TickTheorems

  // ---------------------------------------------------------------- each call and its neighbours

  predicate Follows(log: seq<Event>, i: nat, e: Event) {
    i + 1 < |log| && log[i + 1] == e
  }

  /** A stored row is published next; a publish is marked at once by its own outcome, and a lost mark
      fails its task. */
  ghost predicate Answered(log: seq<Event>, i: nat)
    requires i < |log|
  {
    match log[i]
    case CreateTask(task, _, spec, ok) => ok ==> exists delivered, sent :: Follows(log, i, Publish(task, spec, delivered, sent))
    case Publish(task, _, _, ok) =>
      if ok then exists marked :: Follows(log, i, MarkPublished(task, marked))
      else exists marked :: Follows(log, i, MarkFailed(task, marked))
    case MarkPublished(task, ok) => !ok ==> exists marked :: Follows(log, i, MarkFailed(task, marked))
    case _ => true
  }

  /** And nothing is published, marked or failed but for that reason. */
  ghost predicate Caused(log: seq<Event>, i: nat)
    requires i < |log|
  {
    match log[i]
    case Publish(task, spec, _, _) => i > 0 && exists job :: log[i - 1] == CreateTask(task, job, spec, true)
    case MarkPublished(task, _) => i > 0 && exists spec :: log[i - 1] == Publish(task, spec, true, true)
    case MarkFailed(task, _) =>
      i > 0 && (log[i - 1] == MarkPublished(task, false) || exists spec, delivered :: log[i - 1] == Publish(task, spec, delivered, false))
    case _ => true
  }

  ghost predicate Ordered(log: seq<Event>) {
    forall i :: 0 <= i < |log| ==> Answered(log, i) && Caused(log, i)
  }

  lemma AnsweredInside(a: seq<Event>, b: seq<Event>, i: nat)
    requires i < |a| && Answered(a, i)
    ensures Answered(a + b, i)
  {
    var log := a + b;
    assert log[i] == a[i];
    assert forall e :: Follows(a, i, e) ==> Follows(log, i, e);
  }

  lemma AnsweredBehind(a: seq<Event>, b: seq<Event>, i: nat)
    requires i < |b| && Answered(b, i)
    ensures Answered(a + b, |a| + i)
  {
    var log := a + b;
    assert log[|a| + i] == b[i];
    assert forall e :: Follows(b, i, e) ==> Follows(log, |a| + i, e);
  }

  lemma OrderedAppend(a: seq<Event>, b: seq<Event>)
    requires Ordered(a) && Ordered(b)
    ensures Ordered(a + b)
  {
    var log := a + b;
    forall i | 0 <= i < |log| ensures Answered(log, i) && Caused(log, i) {
      if i < |a| {
        AnsweredInside(a, b, i);
        assert Caused(a, i);
        assert i > 0 ==> log[i - 1] == a[i - 1];
      } else {
        AnsweredBehind(a, b, i - |a|);
        assert Caused(b, i - |a|);
        assert i > |a| ==> log[i - 1] == b[i - 1 - |a|];
      }
    }
  }

  lemma OthersAreOrdered(log: seq<Event>)
    requires forall i :: 0 <= i < |log| ==> TaskNamed(log[i]).None?
    ensures Ordered(log)
  {
  }

  lemma AttemptIsOrdered(job: Id, a: Attempt)
    ensures Ordered(AttemptTrace(job, a))
  {
    var t := AttemptTrace(job, a);
    if |t| >= 3 {
      assert Follows(t, 0, t[1]) && Follows(t, 1, t[2]);
      assert t[0] == CreateTask(a.task, job, a.spec, true);
      if |t| == 4 {
        assert Follows(t, 2, t[3]);
      }
    }
  }

  lemma {:induction false} TraceIsOrdered(job: Id, attempts: seq<Attempt>)
    ensures Ordered(Trace(job, attempts))
  {
    if attempts != [] {
      var n := |attempts| - 1;
      TraceIsOrdered(job, attempts[..n]);
      AttemptIsOrdered(job, attempts[n]);
      OrderedAppend(Trace(job, attempts[..n]), AttemptTrace(job, attempts[n]));
    }
  }

  /** In every dispatch the calls about a task come one right after the other, each answering the one before. */
  lemma DispatchIsOrdered(d: Dispatch)
    ensures Ordered(DispatchTrace(d))
  {
    match d
    case NoJob(job, ctx, refused) => OthersAreOrdered(DispatchTrace(d));
    case FannedOut(job, ctx, attempts, finalized) =>
      var first, middle := [CreateJob(job, ctx, Created)], Trace(job, attempts);
      var rest := FinalTrace(job, attempts, finalized);
      TraceIsOrdered(job, attempts);
      OthersAreOrdered(first);
      OthersAreOrdered(rest);
      OrderedAppend(first, middle);
      OrderedAppend(first + middle, rest);
  }

  // ---------------------------------------------------------------- the final status of a job

  /** An error text, trimmed, of an attempt that failed. */
  predicate Complaint(attempts: seq<Attempt>, text: string) {
    exists i :: 0 <= i < |attempts| && !attempts[i].outcome.Published? && TrimSpace(attempts[i].outcome.message) == text
  }

  lemma {:induction false} MessagesAre(attempts: seq<Attempt>, text: string)
    ensures Values.Occurs(Messages(attempts), text) <==> Complaint(attempts, text)
  {
    if attempts != [] {
      var n := |attempts| - 1;
      var kept, last := Messages(attempts[..n]), attempts[n].outcome;
      MessagesAre(attempts[..n], text);
      ComplaintSplits(attempts, n, text);
      if !last.Published? {
        assert (kept + [last.message])[..|kept|] == kept;
        Values.OccursSplits(kept + [last.message], |kept|, text);
      }
    }
  }

  lemma ComplaintSplits(attempts: seq<Attempt>, n: nat, text: string)
    requires n + 1 == |attempts|
    ensures Complaint(attempts, text) <==>
            Complaint(attempts[..n], text) || (!attempts[n].outcome.Published? && TrimSpace(attempts[n].outcome.message) == text)
  {
    if i :| 0 <= i < n && !attempts[..n][i].outcome.Published? && TrimSpace(attempts[..n][i].outcome.message) == text {
      assert !attempts[i].outcome.Published? && TrimSpace(attempts[i].outcome.message) == text;
    }
    if i :| 0 <= i < |attempts| && !attempts[i].outcome.Published? && TrimSpace(attempts[i].outcome.message) == text {
      assert i < n ==> !attempts[..n][i].outcome.Published? && TrimSpace(attempts[..n][i].outcome.message) == text;
    }
  }

  /** The summary counts the attempts that failed and names each of their texts once; without any text it
      says how many tasks there were. */
  ghost predicate Summarises(s: Summary, attempts: seq<Attempt>) {
    match s
    case NothingPublished(n) => n == |attempts| && forall text :: Complaint(attempts, text) ==> text == ""
    case Failures(count, messages) =>
      && count == |set i | 0 <= i < |attempts| && !attempts[i].outcome.Published?|
      && Values.Distinct(messages) && messages != []
      && forall text :: text in messages <==> text != "" && Complaint(attempts, text)
  }

  lemma {:induction false} FailedCount(attempts: seq<Attempt>)
    ensures |set i | 0 <= i < |attempts| && !attempts[i].outcome.Published?| == |attempts| - PublishedCount(attempts)
  {
    if attempts != [] {
      var n := |attempts| - 1;
      FailedCount(attempts[..n]);
      var before := set i | 0 <= i < n && !attempts[..n][i].outcome.Published?;
      var all := set i | 0 <= i < |attempts| && !attempts[i].outcome.Published?;
      assert all == if attempts[n].outcome.Published? then before else before + {n};
    }
  }

  lemma SummaryIs(attempts: seq<Attempt>)
    ensures Summarises(SummaryOf(Messages(attempts), |attempts|), attempts)
  {
    var messages := Messages(attempts);
    var unique := Values.Normalized(messages, true);
    Values.NormalizedDistinct(messages);
    FailedCount(attempts);
    forall text ensures text in unique <==> text != "" && Complaint(attempts, text) {
      Values.NormalizedMembers(messages, true, text);
      MessagesAre(attempts, text);
    }
  }

  lemma {:induction false} TraceHasNoFinal(job: Id, attempts: seq<Attempt>)
    ensures forall i :: 0 <= i < |Trace(job, attempts)| ==> !Trace(job, attempts)[i].Finalize? && !Trace(job, attempts)[i].CreateJob?
    ensures forall i :: 0 <= i < |Trace(job, attempts)| && Trace(job, attempts)[i].CreateTask? ==> Trace(job, attempts)[i].job == job
  {
    if attempts != [] {
      TraceHasNoFinal(job, attempts[..|attempts| - 1]);
    }
  }

  lemma FinalTraceIs(job: Id, attempts: seq<Attempt>, finalized: bool)
    ensures FinalTrace(job, attempts, finalized) ==
            if attempts != [] && PublishedCount(attempts) == |attempts| then []
            else [Finalize(job, if PublishedCount(attempts) == 0 then JobStatus.Failed else JobStatus.Partial,
                           SummaryOf(Messages(attempts), |attempts|), finalized)]
  {
    PublishedAtMost(attempts);
  }

  lemma {:induction false} AllPublished(attempts: seq<Attempt>)
    ensures PublishedCount(attempts) == |attempts| <==> forall i :: 0 <= i < |attempts| ==> attempts[i].outcome.Published?
  {
    if attempts != [] {
      var n := |attempts| - 1;
      AllPublished(attempts[..n]);
      PublishedAtMost(attempts[..n]);
      assert forall i :: 0 <= i < n ==> attempts[..n][i] == attempts[i];
    }
  }

  /** The job of a dispatch is finalised exactly when some attempt was not published, by the last call:
      as FAILED when none was, as PARTIAL otherwise, with the summary of the failed ones. */
  lemma FinalizesExactly(d: Dispatch)
    requires d.FannedOut? && d.attempts != []
    ensures var log := DispatchTrace(d);
            && (log[|log| - 1].Finalize? <==> exists i :: 0 <= i < |d.attempts| && !d.attempts[i].outcome.Published?)
            && forall i :: 0 <= i < |log| && log[i].Finalize? ==>
                 && i == |log| - 1 && log[i].job == d.job && log[i].ok == d.finalized
                 && log[i].status == (if Occurs(log, Marked) then JobStatus.Partial else JobStatus.Failed)
                 && Summarises(log[i].summary, d.attempts)
  {
    var log, middle := DispatchTrace(d), Trace(d.job, d.attempts);
    FinalTraceIs(d.job, d.attempts, d.finalized);
    AllPublished(d.attempts);
    SummaryIs(d.attempts);
    TraceHasNoFinal(d.job, d.attempts);
    DispatchCounts(d, Marked);
    CountMeans(log, Marked);
    DispatchParts(d);
  }

  lemma DispatchParts(d: Dispatch)
    requires d.FannedOut? && d.attempts != []
    ensures var log, middle, last := DispatchTrace(d), Trace(d.job, d.attempts), FinalTrace(d.job, d.attempts, d.finalized);
            && |log| == 1 + |middle| + |last| && log[0] == CreateJob(d.job, d.ctx, Created)
            && (forall i :: 1 <= i <= |middle| ==> log[i] == middle[i - 1])
            && (last != [] ==> log[|log| - 1] == last[0])
  {
  }

  /** The job and the tasks of a dispatch are its own. */
  lemma DispatchNamesItsJob(d: Dispatch)
    requires d.FannedOut? && d.attempts != []
    ensures var log := DispatchTrace(d);
            && log != [] && log[0] == CreateJob(d.job, d.ctx, Created)
            && forall i :: 1 <= i < |log| ==> !log[i].CreateJob? && (log[i].CreateTask? || log[i].Finalize? ==> log[i].job == d.job)
  {
    TraceHasNoFinal(d.job, d.attempts);
    FinalTraceIs(d.job, d.attempts, d.finalized);
    DispatchParts(d);
  }

  // ---------------------------------------------------------------- claims

  /** An ACTIVE crawl source with a mode, and an active target. */
  predicate Fit(ctx: Context) {
    && ctx.source.category == Crawl && ctx.source.status == SourceStatus.Active && ctx.source.crawlMode != None
    && ctx.target.isActive
  }

  /** A claim is made second, after the project check, for the listed rows, at the time of the tick, until
      the effective interval after it. */
  ghost predicate ClaimOf(log: seq<Event>, listed: Context, now: int) {
    && |log| >= 2 && log[0] == ProjectCheck(listed.source.project, true)
    && log[1].Claim? && log[1].sid == listed.sid && log[1].tid == listed.tid && log[1].at == now
    && Fit(listed) && listed.target.interval > 0
    && log[1].next == now + 60 * EffectiveMinutes(listed.source.crawlMode.value, listed.target.interval)
  }

  lemma FitMeans(ctx: Context)
    ensures Schedulable(ctx) <==> Fit(ctx)
  {
  }

  /** A turn claims its target exactly when the listed rows are fit, the project check was passed, the
      interval is positive and specs can be built; and then in this way. */
  lemma ClaimsExactly(url: UrlParser, now: int, t: Turn, from: nat, upto: nat)
    requires TurnOk(url, now, t.listed, t, from, upto)
    ensures var log := TurnTrace(t);
            && (ClaimOf(log, t.listed, now) <==>
                  && Fit(t.listed) && t.listed.target.interval > 0 && HasSpecs(url, t.listed)
                  && |log| > 0 && log[0] == ProjectCheck(t.listed.source.project, true))
            && (!ClaimOf(log, t.listed, now) ==> forall i :: 0 <= i < |log| ==> log[i].ProjectCheck?)
  {
    FitMeans(t.listed);
    match t
    case Rejected(listed, check) =>
      if check == Some(true) && listed.target.interval > 0 {
        RefusedHasNone(url, listed);
      }
    case Unclaimed(listed, _, _, _, _) =>
    case Claimed(listed, _, _, _, after, _) =>
      var specs :| specs != [] && Builds(url, listed.source.sourceType, listed.target, Specs(specs)) && AfterOk(listed, specs, after, from, upto);
      SpecsAreThere(url, listed, specs);
  }

  lemma RefusedHasNone(url: UrlParser, listed: Context)
    requires exists e :: Builds(url, listed.source.sourceType, listed.target, Refused(e))
    ensures !HasSpecs(url, listed)
  {
    var e :| Builds(url, listed.source.sourceType, listed.target, Refused(e));
    if HasSpecs(url, listed) {
      var specs :| specs != [] && Builds(url, listed.source.sourceType, listed.target, Specs(specs));
      BuildsIsDetermined(url, listed.source.sourceType, listed.target, Refused(e), Specs(specs));
    }
  }

  /** After a won claim the rows are read again; a job is created exactly when they are fit and their
      project is still allowed. */
  lemma JobsExactly(url: UrlParser, now: int, t: Turn, from: nat, upto: nat)
    requires TurnOk(url, now, t.listed, t, from, upto) && Occurs(TurnTrace(t), WonClaim)
    ensures var log := TurnTrace(t);
            && |log| > 2 && log[2].Reread? && log[2].sid == t.listed.sid && log[2].tid == t.listed.tid
            && (Occurs(log, AnyJob) <==>
                  && log[2].found.Some? && Fit(log[2].found.value)
                  && |log| > 3 && log[3] == ProjectCheck(log[2].found.value.source.project, true))
  {
    TurnOccurs(t, WonClaim);
    TurnOccurs(t, AnyJob);
    var log := TurnTrace(t);
    match t.after
    case RereadFailed => assert log[2] == AfterTrace(t.listed.sid, t.listed.tid, t.after)[0];
    case Stale(ctx, check) =>
      FitMeans(ctx);
      StaleParts(t);
    case Dispatched(d) =>
      FitMeans(d.ctx);
      JobAtFour(t);
  }

  lemma StaleParts(t: Turn)
    requires t.Claimed? && t.after.Stale?
    ensures var log, ctx := TurnTrace(t), t.after.ctx;
            && |log| > 3 && log[2] == Reread(t.listed.sid, t.listed.tid, Some(ctx))
            && (log[3] == ProjectCheck(ctx.source.project, true) <==> t.after.check == Some(true))
  {
    var log, after := TurnTrace(t), AfterTrace(t.listed.sid, t.listed.tid, t.after);
    assert log[2] == after[0];
    assert |after| > 1 ==> log[3] == after[1];
  }

  // ---------------------------------------------------------------- releases

  /** A won claim is given back exactly when no other job was in the way and either no task was marked
      published or a partial result could not be recorded. */
  lemma ReleasedExactly(url: UrlParser, now: int, t: Turn, from: nat, upto: nat)
    requires TurnOk(url, now, t.listed, t, from, upto)
    ensures var log := TurnTrace(t);
            Occurs(log, AnyRelease) <==>
            Occurs(log, WonClaim) && !Occurs(log, Conflicting) && (!Occurs(log, Marked) || Occurs(log, LostPartial))
  {
    TurnOccurs(t, WonClaim);
    TurnOccurs(t, AnyRelease);
    TurnOccurs(t, Conflicting);
    TurnOccurs(t, Marked);
    TurnOccurs(t, LostPartial);
    if t.Claimed? && t.after.Dispatched? && t.after.dispatch.FannedOut? {
      PublishedAtMost(t.after.dispatch.attempts);
    }
  }

  /** It is given back once, last of all, and for the target that was claimed. */
  lemma ReleaseIsLast(t: Turn)
    requires t.Claimed? && (t.after.Dispatched? && t.after.dispatch.NoJob? ==> !t.after.dispatch.refused.Created?)
    ensures var log := TurnTrace(t);
            forall i :: 0 <= i < |log| && log[i].Release? ==> i == |log| - 1 && log[i].sid == log[1].sid && log[i].tid == log[1].tid
  {
    var log := TurnTrace(t);
    var middle, tail := AfterTrace(t.listed.sid, t.listed.tid, t.after), ReleaseTrace(t.listed, t.after, t.released);
    AfterCounts(t.listed.sid, t.listed.tid, t.after, AnyRelease);
    if t.after.Dispatched? {
      DispatchCounts(t.after.dispatch, AnyRelease);
    }
    CountMeans(middle, AnyRelease);
    forall i | 0 <= i < |middle| ensures !middle[i].Release? {
      assert !Is(middle[i], AnyRelease);
    }
    assert forall i :: 2 <= i < 2 + |middle| ==> log[i] == middle[i - 2];
    assert |tail| <= 1 && |log| == 2 + |middle| + |tail|;
    assert tail != [] ==> log[|log| - 1] == tail[0];
  }

  // ---------------------------------------------------------------- verdicts and counters

  /** How a turn counts: dispatched when its claim is kept without a conflict; skipped when another
      instance won the claim, when the rows had changed, and on a conflict; failed otherwise. */
  predicate EndsAs(log: seq<Event>, verdict: Verdict) {
    var dispatched := Occurs(log, WonClaim) && !Occurs(log, AnyRelease) && !Occurs(log, Conflicting);
    var skipped := Occurs(log, LostClaim) || (Occurs(log, WonClaim) && (!Occurs(log, AnyJob) || Occurs(log, Conflicting)));
    match verdict
    case Dispatched => dispatched
    case Skipped => skipped
    case Failed => !dispatched && !skipped
  }

  lemma VerdictExactly(url: UrlParser, now: int, t: Turn, from: nat, upto: nat, verdict: Verdict)
    requires TurnOk(url, now, t.listed, t, from, upto)
    ensures VerdictOf(t) == verdict <==> EndsAs(TurnTrace(t), verdict)
  {
    TurnOccurs(t, WonClaim);
    TurnOccurs(t, LostClaim);
    TurnOccurs(t, AnyRelease);
    TurnOccurs(t, Conflicting);
    TurnOccurs(t, AnyJob);
  }

  /** The turns of a tick that end in a given way. */
  function Ending(turns: seq<Turn>, verdict: Verdict): nat {
    if turns == [] then 0
    else Ending(turns[..|turns| - 1], verdict) + if EndsAs(TurnTrace(turns[|turns| - 1]), verdict) then 1 else 0
  }

  /** Each counter of a tick is the number of turns that end as it says. */
  lemma {:induction false} CountersAreEndings(url: UrlParser, now: int, turns: seq<Turn>, from: nat, upto: nat)
    requires TurnsOk(url, now, turns, from, upto)
    ensures var c := Counts(turns);
            && c.dispatchedCount == Ending(turns, Verdict.Dispatched)
            && c.skippedRaceCount == Ending(turns, Skipped)
            && c.failedCount == Ending(turns, Verdict.Failed)
  {
    if turns != [] {
      var n := |turns| - 1;
      CountersAreEndings(url, now, turns[..n], from, upto);
      assert TurnOk(url, now, turns[n].listed, turns[n], from, upto);
      VerdictExactly(url, now, turns[n], from, upto, Verdict.Dispatched);
      VerdictExactly(url, now, turns[n], from, upto, Skipped);
      VerdictExactly(url, now, turns[n], from, upto, Verdict.Failed);
    }
  }

  // ---------------------------------------------------------------- what the caller of a dispatch is told

  /** A dispatch succeeds exactly when some task was marked published and a partial result, if any, was
      recorded; it is not allowed exactly when the target has a running job. */
  lemma ErrorExactly(d: Dispatch)
    requires d.NoJob? ==> !d.refused.Created?
    ensures var log := DispatchTrace(d);
            && (ErrorOf(d).None? <==> Occurs(log, Marked) && !Occurs(log, LostPartial))
            && (ErrorOf(d) == Some(DispatchError.NotAllowed) <==> Occurs(log, Conflicting))
            && (ErrorOf(d).Some? ==> ErrorOf(d).value.NotAllowed? || ErrorOf(d).value.DispatchFailed?)
  {
    var log := DispatchTrace(d);
    DispatchCounts(d, Marked);
    DispatchCounts(d, LostPartial);
    DispatchCounts(d, Conflicting);
    CountMeans(log, Marked);
    CountMeans(log, LostPartial);
    CountMeans(log, Conflicting);
    if d.FannedOut? {
      PublishedAtMost(d.attempts);
    }
  }

  /** A populated output lists one task for each spec, in order, RUNNING exactly when it was marked published. */
  lemma ReportedTasks(out: DispatchOutput, d: Dispatch, upto: nat, i: nat)
    requires d.FannedOut? && Reports(out, d) && i < |out.tasks| && Fresh(d.attempts, d.job + 1, upto)
    ensures var task, spec := out.tasks[i], d.attempts[i].spec;
            && task.task == d.attempts[i].task && task.queue == spec.queue && task.action == spec.action && task.keyword == spec.keyword
            && task.status in {JobStatus.Running, JobStatus.Failed}
            && (task.status.Running? <==> MarkPublished(task.task, true) in DispatchTrace(d))
  {
    MarkedExactly(d.job, d.attempts, d.job + 1, upto, i);
    FinalTraceIs(d.job, d.attempts, d.finalized);
  }

  lemma {:induction false} TraceTasksIn(job: Id, attempts: seq<Attempt>, from: nat, upto: nat)
    requires Fresh(attempts, from, upto)
    ensures TasksIn(Trace(job, attempts), from, upto)
  {
    if attempts != [] {
      TraceTasksIn(job, attempts[..|attempts| - 1], from, attempts[|attempts| - 1].task);
    }
  }

  lemma {:induction false} MarkedExactly(job: Id, attempts: seq<Attempt>, from: nat, upto: nat, i: nat)
    requires Fresh(attempts, from, upto) && i < |attempts|
    ensures MarkPublished(attempts[i].task, true) in Trace(job, attempts) <==> attempts[i].outcome.Published?
  {
    var n, mark := |attempts| - 1, MarkPublished(attempts[i].task, true);
    var before, last := Trace(job, attempts[..n]), AttemptTrace(job, attempts[n]);
    FreshIsDistinct(attempts, from, upto);
    TraceTasksIn(job, attempts[..n], from, attempts[n].task);
    if i < n {
      MarkedExactly(job, attempts[..n], from, attempts[n].task, i);
      assert forall k :: 0 <= k < |last| ==> TaskNamed(last[k]) == Some(attempts[n].task);
    } else {
      assert forall k :: 0 <= k < |before| ==> TaskNamed(before[k]) != Some(attempts[n].task);
      assert attempts[n].outcome.Published? ==> last[2] == mark;
    }
  }
}
