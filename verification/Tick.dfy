/** What every tick of the scheduler guarantees, read off the trace of its calls. */
module TickTheorems {
  import opened Model
  import opened Values
  import opened Text
  import opened Specs
  import opened Fanout
  import opened Runtime
  import opened Invariants

  // ---------------------------------------------------------------- kinds of events

  datatype Kind = WonClaim | LostClaim | AnyRelease | Conflicting | AnyJob | OkPublish | Marked | LostPartial

  predicate Is(e: Event, k: Kind) {
    match k
    case WonClaim => e.Claim? && e.claim.Won?
    case LostClaim => e.Claim? && e.claim.Lost?
    case AnyRelease => e.Release?
    case Conflicting => e.CreateJob? && e.created.Conflict?
    case AnyJob => e.CreateJob?
    case OkPublish => e.Publish? && e.ok
    case Marked => e.MarkPublished? && e.ok
    case LostPartial => e.Finalize? && e.status.Partial? && !e.ok
  }

  function CountOf(log: seq<Event>, k: Kind): nat {
    if log == [] then 0 else CountOf(log[..|log| - 1], k) + if Is(log[|log| - 1], k) then 1 else 0
  }

  lemma {:induction false} CountAppend(a: seq<Event>, b: seq<Event>, k: Kind)
    ensures CountOf(a + b, k) == CountOf(a, k) + CountOf(b, k)
  {
    if b == [] {
      assert a + b == a;
    } else {
      assert (a + b)[..|a + b| - 1] == a + b[..|b| - 1];
      CountAppend(a, b[..|b| - 1], k);
    }
  }

  /** A kind of event occurs exactly when it is counted. */
  lemma {:induction false} CountMeans(log: seq<Event>, k: Kind)
    ensures CountOf(log, k) > 0 <==> exists i :: 0 <= i < |log| && Is(log[i], k)
  {
    if log != [] {
      var n := |log| - 1;
      CountMeans(log[..n], k);
      assert forall i :: 0 <= i < n ==> log[..n][i] == log[i];
    }
  }

  lemma CountOne(e: Event, k: Kind)
    ensures CountOf([e], k) == if Is(e, k) then 1 else 0
  {
    assert [e][..0] == [];
  }

  lemma CountTwo(d: Event, e: Event, k: Kind)
    ensures CountOf([d, e], k) == (if Is(d, k) then 1 else 0) + if Is(e, k) then 1 else 0
  {
    assert [d, e] == [d] + [e];
    CountOne(d, k);
    CountOne(e, k);
    CountAppend([d], [e], k);
  }

  /** Some publish of the attempt reported success. */
  predicate Sent(a: Attempt) {
    a.outcome.Published? || a.outcome.MarkLost?
  }

  lemma AttemptCounts(job: Id, a: Attempt, k: Kind)
    ensures CountOf(AttemptTrace(job, a), k) ==
            if (k.OkPublish? && Sent(a)) || (k.Marked? && a.outcome.Published?) then 1 else 0
  {
    var t := AttemptTrace(job, a);
    if |t| == 1 {
      CountOne(t[0], k);
    } else if |t| == 3 {
      assert t == [t[0], t[1]] + [t[2]];
      CountTwo(t[0], t[1], k);
      CountOne(t[2], k);
      CountAppend([t[0], t[1]], [t[2]], k);
    } else if |t| == 4 {
      assert t == [t[0], t[1]] + [t[2], t[3]];
      CountTwo(t[0], t[1], k);
      CountTwo(t[2], t[3], k);
      CountAppend([t[0], t[1]], [t[2], t[3]], k);
    }
  }

  lemma {:induction false} TraceCounts(job: Id, attempts: seq<Attempt>, k: Kind)
    ensures !k.OkPublish? && !k.Marked? ==> CountOf(Trace(job, attempts), k) == 0
    ensures k.Marked? ==> CountOf(Trace(job, attempts), k) == PublishedCount(attempts)
    ensures k.OkPublish? ==> (CountOf(Trace(job, attempts), k) > 0 <==> exists i :: 0 <= i < |attempts| && Sent(attempts[i]))
  {
    if attempts != [] {
      var n := |attempts| - 1;
      TraceCounts(job, attempts[..n], k);
      AttemptCounts(job, attempts[n], k);
      CountAppend(Trace(job, attempts[..n]), AttemptTrace(job, attempts[n]), k);
      assert forall i :: 0 <= i < n ==> attempts[..n][i] == attempts[i];
    }
  }

  lemma {:induction false} PublishedIsSent(attempts: seq<Attempt>)
    ensures PublishedCount(attempts) > 0 <==> exists i :: 0 <= i < |attempts| && attempts[i].outcome.Published?
  {
    if attempts != [] {
      var n := |attempts| - 1;
      PublishedIsSent(attempts[..n]);
      assert forall i :: 0 <= i < n ==> attempts[..n][i] == attempts[i];
    }
  }

  /** Whether some publish of a dispatch reported success. */
  predicate AnySent(d: Dispatch) {
    d.FannedOut? && exists i :: 0 <= i < |d.attempts| && Sent(d.attempts[i])
  }

  /** A partial result of a dispatch could not be recorded. */
  predicate PartialLost(d: Dispatch) {
    d.FannedOut? && 0 < PublishedCount(d.attempts) < |d.attempts| && !d.finalized
  }

  lemma DispatchCounts(d: Dispatch, k: Kind)
    requires d.NoJob? ==> !d.refused.Created?
    ensures match k
            case WonClaim => CountOf(DispatchTrace(d), k) == 0
            case LostClaim => CountOf(DispatchTrace(d), k) == 0
            case AnyRelease => CountOf(DispatchTrace(d), k) == 0
            case Conflicting => CountOf(DispatchTrace(d), k) == if Conflicted(d) then 1 else 0
            case AnyJob => CountOf(DispatchTrace(d), k) == 1
            case OkPublish => CountOf(DispatchTrace(d), k) > 0 <==> AnySent(d)
            case Marked => CountOf(DispatchTrace(d), k) == if d.FannedOut? then PublishedCount(d.attempts) else 0
            case LostPartial => CountOf(DispatchTrace(d), k) == if PartialLost(d) then 1 else 0
  {
    match d
    case NoJob(job, ctx, refused) => CountOne(CreateJob(job, ctx, refused), k);
    case FannedOut(job, ctx, attempts, finalized) =>
      var head, last := [CreateJob(job, ctx, Created)], FinalTrace(job, attempts, finalized);
      CountOne(head[0], k);
      TraceCounts(job, attempts, k);
      if last != [] {
        CountOne(last[0], k);
      }
      CountAppend(head, Trace(job, attempts), k);
      CountAppend(head + Trace(job, attempts), last, k);
  }

  lemma CheckCounts(ctx: Context, check: Option<bool>, k: Kind)
    ensures CountOf(CheckTrace(ctx, check), k) == 0
  {
    if check.Some? {
      CountOne(ProjectCheck(ctx.source.project, check.value), k);
    }
  }

  lemma AfterCounts(sid: Id, tid: Id, after: AfterClaim, k: Kind)
    requires after.Dispatched? && after.dispatch.NoJob? ==> !after.dispatch.refused.Created?
    ensures CountOf(AfterTrace(sid, tid, after), k) == if after.Dispatched? then CountOf(DispatchTrace(after.dispatch), k) else 0
  {
    match after
    case RereadFailed => CountOne(Reread(sid, tid, None), k);
    case Stale(ctx, check) =>
      CountOne(Reread(sid, tid, Some(ctx)), k);
      CheckCounts(ctx, check, k);
      CountAppend([Reread(sid, tid, Some(ctx))], CheckTrace(ctx, check), k);
    case Dispatched(d) =>
      CountTwo(Reread(sid, tid, Some(d.ctx)), ProjectCheck(d.ctx.source.project, true), k);
      CountAppend([Reread(sid, tid, Some(d.ctx)), ProjectCheck(d.ctx.source.project, true)], DispatchTrace(d), k);
  }

  lemma ReleaseCounts(listed: Context, after: AfterClaim, released: bool, k: Kind)
    ensures CountOf(ReleaseTrace(listed, after, released), k) == if k.AnyRelease? && Releases(after) then 1 else 0
  {
    if Releases(after) {
      CountOne(Release(listed.sid, listed.tid, released), k);
    }
  }

  lemma ClaimedCounts(t: Turn, k: Kind)
    requires t.Claimed?
    requires t.after.Dispatched? && t.after.dispatch.NoJob? ==> !t.after.dispatch.refused.Created?
    ensures CountOf(TurnTrace(t), k) ==
              (if k.WonClaim? then 1 else 0)
              + (if t.after.Dispatched? then CountOf(DispatchTrace(t.after.dispatch), k) else 0)
              + if k.AnyRelease? && Releases(t.after) then 1 else 0
  {
    var head := [ProjectCheck(t.listed.source.project, true), Claim(t.listed.sid, t.listed.tid, t.at, t.next, Won)];
    var middle, tail := AfterTrace(t.listed.sid, t.listed.tid, t.after), ReleaseTrace(t.listed, t.after, t.released);
    CountTwo(head[0], head[1], k);
    AfterCounts(t.listed.sid, t.listed.tid, t.after, k);
    ReleaseCounts(t.listed, t.after, t.released, k);
    CountAppend(head, middle, k);
    CountAppend(head + middle, tail, k);
  }

  lemma UnclaimedCounts(t: Turn, k: Kind)
    requires !t.Claimed? && (t.Unclaimed? ==> !t.claim.Won?)
    ensures CountOf(TurnTrace(t), k) == if k.LostClaim? && t.Unclaimed? && t.claim.Lost? then 1 else 0
  {
    match t
    case Rejected(listed, check) => CheckCounts(listed, check, k);
    case Unclaimed(listed, at, until, _, claim) =>
      CountTwo(ProjectCheck(listed.source.project, true), Claim(listed.sid, listed.tid, at, until, claim), k);
  }

  // ---------------------------------------------------------------- the fate of a claim

  predicate Occurs(log: seq<Event>, k: Kind) {
    exists i :: 0 <= i < |log| && Is(log[i], k)
  }

  predicate KeptPublished(log: seq<Event>) {
    !Occurs(log, AnyRelease) && Occurs(log, OkPublish)
  }

  predicate KeptByConflict(log: seq<Event>) {
    !Occurs(log, AnyRelease) && Occurs(log, Conflicting)
  }

  /** What the record of a turn says occurs in its trace. */
  lemma TurnOccurs(t: Turn, k: Kind)
    requires t.Unclaimed? ==> !t.claim.Won?
    requires t.Claimed? && t.after.Dispatched? && t.after.dispatch.NoJob? ==> !t.after.dispatch.refused.Created?
    ensures Occurs(TurnTrace(t), k) <==>
            if k.LostClaim? then t.Unclaimed? && t.claim.Lost? else
            && t.Claimed?
            && match k
               case WonClaim => true
               case LostClaim => false
               case AnyRelease => Releases(t.after)
               case Conflicting => t.after.Dispatched? && Conflicted(t.after.dispatch)
               case AnyJob => t.after.Dispatched?
               case OkPublish => t.after.Dispatched? && AnySent(t.after.dispatch)
               case Marked => t.after.Dispatched? && t.after.dispatch.FannedOut? && PublishedCount(t.after.dispatch.attempts) > 0
               case LostPartial => t.after.Dispatched? && PartialLost(t.after.dispatch)
  {
    CountMeans(TurnTrace(t), k);
    if t.Claimed? {
      ClaimedCounts(t, k);
      if t.after.Dispatched? {
        DispatchCounts(t.after.dispatch, k);
      }
    } else {
      UnclaimedCounts(t, k);
    }
  }

  /** A claim that is won ends in exactly one of three ways: kept with a message published, kept
      because another job of the target is running, or a release attempted. Without a won claim the
      turn creates and publishes nothing. */
  lemma ClaimFate(url: UrlParser, now: int, t: Turn, from: nat, upto: nat)
    requires TurnOk(url, now, t.listed, t, from, upto)
    ensures var log := TurnTrace(t);
            && (Occurs(log, WonClaim) ==> KeptPublished(log) || KeptByConflict(log) || Occurs(log, AnyRelease))
            && !(KeptPublished(log) && KeptByConflict(log))
            && (Occurs(log, Conflicting) ==> !Occurs(log, AnyRelease))
            && (Occurs(log, Marked) && !Occurs(log, LostPartial) ==> KeptPublished(log))
            && (!Occurs(log, WonClaim) ==> !Occurs(log, AnyRelease) && !Occurs(log, AnyJob) && !Occurs(log, OkPublish))
  {
    TurnOccurs(t, WonClaim);
    TurnOccurs(t, AnyRelease);
    TurnOccurs(t, Conflicting);
    TurnOccurs(t, AnyJob);
    TurnOccurs(t, OkPublish);
    TurnOccurs(t, Marked);
    TurnOccurs(t, LostPartial);
    if t.Claimed? && t.after.Dispatched? && t.after.dispatch.FannedOut? {
      PublishedIsSent(t.after.dispatch.attempts);
      PublishedAtMost(t.after.dispatch.attempts);
    }
  }

  /** A claim can be given back although a message went out, and the next tick then repeats it: exactly
      when no sent task could be marked published, or a partial result could not be recorded. */
  lemma ReleasedAlthoughSent(url: UrlParser, now: int, t: Turn, from: nat, upto: nat)
    requires TurnOk(url, now, t.listed, t, from, upto)
    ensures Occurs(TurnTrace(t), AnyRelease) && Occurs(TurnTrace(t), OkPublish) <==>
            && t.Claimed? && t.after.Dispatched? && t.after.dispatch.FannedOut?
            && var attempts := t.after.dispatch.attempts;
               if PublishedCount(attempts) == 0 then exists i :: 0 <= i < |attempts| && attempts[i].outcome.MarkLost?
               else PublishedCount(attempts) < |attempts| && !t.after.dispatch.finalized
  {
    TurnOccurs(t, AnyRelease);
    TurnOccurs(t, OkPublish);
    if t.Claimed? && t.after.Dispatched? && t.after.dispatch.FannedOut? {
      PublishedIsSent(t.after.dispatch.attempts);
      PublishedAtMost(t.after.dispatch.attempts);
    }
  }

  /** A turn at `now` whose dispatch made these attempts. */
  function TurnFor(now: int, seen: Option<int>, attempts: seq<Attempt>, finalized: bool, listed: Context): Turn {
    Claimed(listed, now, now + 660, seen, AfterClaim.Dispatched(FannedOut(0, listed, attempts, finalized)), true)
  }

  /** One that could not record its final status. */
  function SentTurn(attempts: seq<Attempt>, listed: Context): Turn {
    TurnFor(0, None, attempts, false, listed)
  }

  function KeywordContext(values: seq<string>): Context {
    Context(1, 2,
            Source(0, Labels("n", "", ""), SourceType.Facebook, Crawl, SourceStatus.Active, Onboarding.NotRequired, DryrunStatus.NotRequired,
                   None, Some(Normal), Some(11), "{}", "", "", "", false),
            Target(1, Keyword, values, "", NoMeta, true, 0, 11))
  }

  lemma {:induction false} KeywordTurnIsOk(url: UrlParser, now: int, seen: Option<int>, finalized: bool, values: seq<string>, attempts: seq<Attempt>)
    requires DueAt(seen, now)
    requires values != [] && IsNormal(values, false) && |attempts| == |values| && Fresh(attempts, 1, |values| + 1)
    requires forall i :: 0 <= i < |values| ==> attempts[i].spec == KeywordSpec(SourceType.Facebook, values[i])
    ensures TurnOk(url, now, KeywordContext(values), TurnFor(now, seen, attempts, finalized, KeywordContext(values)), 0, |values| + 1)
  {
    var listed, specs := KeywordContext(values), SpecsOf(attempts);
    NormalIsFixed(values, false);
    assert Builds(url, SourceType.Facebook, listed.target, Specs(specs));
    assert AfterOk(listed, specs, AfterClaim.Dispatched(FannedOut(0, listed, attempts, finalized)), 0, |values| + 1);
  }

  /** A turn whose claim is given back although a publish succeeded, with this many tasks published. */
  ghost predicate SentAndReleased(url: UrlParser, t: Turn, upto: nat, published: nat) {
    && TurnOk(url, 0, t.listed, t, 0, upto)
    && Occurs(TurnTrace(t), AnyRelease) && Occurs(TurnTrace(t), OkPublish)
    && t.Claimed? && t.after.Dispatched? && t.after.dispatch.FannedOut?
    && PublishedCount(t.after.dispatch.attempts) == published
  }

  /** It does occur when no task is marked published. */
  lemma {:induction false} UnmarkedTurnIsReleased(url: UrlParser)
    ensures exists t: Turn :: SentAndReleased(url, t, 2, 0)
  {
    TrimmedIsFixed("v");
    var attempts := [Attempt(1, KeywordSpec(SourceType.Facebook, "v"), MarkLost(true, "e"))];
    assert attempts[..0] == [];
    assert Fresh(attempts, 1, 2) && PublishedCount(attempts) == 0;
    KeywordTurnIsOk(url, 0, None, false, ["v"], attempts);
    var t := SentTurn(attempts, KeywordContext(["v"]));
    assert attempts[0].outcome.MarkLost?;
    ReleasedAlthoughSent(url, 0, t, 0, 2);
    assert SentAndReleased(url, t, 2, 0);
  }

  /** And when a partial result is not recorded. */
  lemma {:induction false} UnrecordedTurnIsReleased(url: UrlParser)
    ensures exists t: Turn :: SentAndReleased(url, t, 3, 1)
  {
    TrimmedIsFixed("v");
    TrimmedIsFixed("w");
    var attempts := [Attempt(1, KeywordSpec(SourceType.Facebook, "v"), Published), Attempt(2, KeywordSpec(SourceType.Facebook, "w"), NotCreated(false, "e"))];
    assert attempts[..1] == [attempts[0]] && [attempts[0]][..0] == [];
    assert PublishedCount([attempts[0]]) == 1 && Fresh([attempts[0]], 1, 2);
    assert PublishedCount(attempts) == 1 && Fresh(attempts, 1, 3);
    KeywordTurnIsOk(url, 0, None, false, ["v", "w"], attempts);
    var t := SentTurn(attempts, KeywordContext(["v", "w"]));
    ReleasedAlthoughSent(url, 0, t, 0, 3);
    assert SentAndReleased(url, t, 3, 1);
  }

  lemma {:induction false} PublishedAtMost(attempts: seq<Attempt>)
    ensures PublishedCount(attempts) <= |attempts|
  {
    if attempts != [] {
      PublishedAtMost(attempts[..|attempts| - 1]);
    }
  }

  // ---------------------------------------------------------------- counters

  /** The counters of a tick partition the due targets, and the claimed count is the number of claims won. */
  lemma {:induction false} CountersAgree(url: UrlParser, now: int, turns: seq<Turn>, from: nat, upto: nat)
    requires TurnsOk(url, now, turns, from, upto)
    ensures var c := Counts(turns);
            && c.dueCount == |turns| == c.dispatchedCount + c.skippedRaceCount + c.failedCount
            && c.claimedCount == CountOf(TurnsTrace(turns), WonClaim)
            && c.dispatchedCount <= c.claimedCount
            && CountOf(TurnsTrace(turns), AnyRelease) <= c.claimedCount - c.dispatchedCount
  {
    if turns != [] {
      var n := |turns| - 1;
      var t := turns[n];
      CountersAgree(url, now, turns[..n], from, upto);
      assert TurnOk(url, now, t.listed, t, from, upto);
      TurnCounters(url, now, t, from, upto);
      CountAppend(TurnsTrace(turns[..n]), TurnTrace(t), WonClaim);
      CountAppend(TurnsTrace(turns[..n]), TurnTrace(t), AnyRelease);
    }
  }

  lemma TurnCounters(url: UrlParser, now: int, t: Turn, from: nat, upto: nat)
    requires TurnOk(url, now, t.listed, t, from, upto)
    ensures CountOf(TurnTrace(t), WonClaim) == if t.Claimed? then 1 else 0
    ensures CountOf(TurnTrace(t), AnyRelease) <= if t.Claimed? && !VerdictOf(t).Dispatched? then 1 else 0
    ensures VerdictOf(t).Dispatched? ==> t.Claimed?
  {
    if t.Claimed? {
      ClaimedCounts(t, WonClaim);
      ClaimedCounts(t, AnyRelease);
      if t.after.Dispatched? {
        DispatchCounts(t.after.dispatch, WonClaim);
        DispatchCounts(t.after.dispatch, AnyRelease);
      }
    } else {
      UnclaimedCounts(t, WonClaim);
      UnclaimedCounts(t, AnyRelease);
    }
  }

  // ---------------------------------------------------------------- jobs come from checked contexts

  /** A job created from checked rows: they were re-read after the claim was won and then passed all
      checks, of an ACTIVE crawl source, an active target and an ACTIVE project. */
  ghost predicate JobChecked(log: seq<Event>, i: nat, at: int, until: int)
    requires i < |log| && log[i].CreateJob?
  {
    var ctx := log[i].ctx;
    && i >= 3
    && log[i - 3] == Claim(ctx.sid, ctx.tid, at, until, Won)
    && log[i - 2] == Reread(ctx.sid, ctx.tid, Some(ctx))
    && log[i - 1] == ProjectCheck(ctx.source.project, true)
    && ctx.source.status.Active? && ctx.source.category.Crawl? && ctx.target.isActive
  }

  /** The job of a turn comes after its claim, its second read and its second check. */
  lemma JobAtFour(t: Turn)
    requires t.Claimed? && t.after.Dispatched?
    ensures var log, d := TurnTrace(t), t.after.dispatch;
            && |log| > 4 && log[4].CreateJob? && log[4].ctx == d.ctx
            && log[1] == Claim(t.listed.sid, t.listed.tid, t.at, t.next, Won)
            && log[2] == Reread(t.listed.sid, t.listed.tid, Some(d.ctx))
            && log[3] == ProjectCheck(d.ctx.source.project, true)
  {
    FirstJob(t.after.dispatch);
    assert AfterTrace(t.listed.sid, t.listed.tid, t.after)[2] == DispatchTrace(t.after.dispatch)[0];
  }

  /** Every job is created from rows checked after the claim. */
  lemma JobsAreChecked(url: UrlParser, now: int, t: Turn, from: nat, upto: nat)
    requires TurnOk(url, now, t.listed, t, from, upto)
    ensures forall i :: 0 <= i < |TurnTrace(t)| && TurnTrace(t)[i].CreateJob? ==> JobChecked(TurnTrace(t), i, t.at, t.next)
  {
    TurnJobsAreChecked(t);
  }

  lemma TurnJobsAreChecked(t: Turn)
    requires t.Unclaimed? ==> !t.claim.Won?
    requires t.Claimed? && t.after.Dispatched? ==>
               var d := t.after.dispatch;
               && d.ctx.sid == t.listed.sid && d.ctx.tid == t.listed.tid && Schedulable(d.ctx)
               && (d.NoJob? ==> !d.refused.Created?)
    ensures forall i :: 0 <= i < |TurnTrace(t)| && TurnTrace(t)[i].CreateJob? ==> t.Claimed? && JobChecked(TurnTrace(t), i, t.at, t.next)
  {
    var log := TurnTrace(t);
    if t.Claimed? && t.after.Dispatched? {
      ClaimedCounts(t, AnyJob);
      DispatchCounts(t.after.dispatch, AnyJob);
      JobAtFour(t);
      OnlyJob(log, 4);
    } else {
      TurnOccurs(t, AnyJob);
      assert forall i :: 0 <= i < |log| && log[i].CreateJob? ==> Is(log[i], AnyJob);
    }
  }

  lemma OnlyJob(log: seq<Event>, k: nat)
    requires k < |log| && log[k].CreateJob? && CountOf(log, AnyJob) == 1
    ensures forall i :: 0 <= i < |log| && log[i].CreateJob? ==> i == k
  {
    forall i | 0 <= i < |log| && log[i].CreateJob? ensures i == k {
      if i < k {
        TwoJobs(log, i, k);
      } else if k < i {
        TwoJobs(log, k, i);
      }
    }
  }

  lemma FirstJob(d: Dispatch)
    ensures DispatchTrace(d) != [] && DispatchTrace(d)[0].CreateJob? && DispatchTrace(d)[0].ctx == d.ctx
  {
  }

  lemma {:induction false} TwoJobs(log: seq<Event>, i: nat, j: nat)
    requires i < j < |log| && log[i].CreateJob? && log[j].CreateJob?
    ensures CountOf(log, AnyJob) >= 2
  {
    var a, b := log[..j], log[j..];
    assert log == a + b;
    CountAppend(a, b, AnyJob);
    CountMeans(a, AnyJob);
    CountMeans(b, AnyJob);
    assert Is(a[i], AnyJob) && Is(b[0], AnyJob);
  }

  // ---------------------------------------------------------------- stale specs

  /** The specs were built from the rows listed before the claim. For a keyword target they are the
      specs of the rows re-read after it, whatever ran in between. */
  lemma KeywordSpecsAreCurrent(url: UrlParser, now: int, t: Turn, from: nat, upto: nat)
    requires TurnOk(url, now, t.listed, t, from, upto)
    requires t.Claimed? && t.after.Dispatched? && t.after.dispatch.FannedOut? && t.listed.target.targetType.Keyword?
    ensures var d := t.after.dispatch;
            && d.attempts != []
            && Builds(url, d.ctx.source.sourceType, d.ctx.target, Specs(SpecsOf(d.attempts)))
  {
    var d := t.after.dispatch;
    var specs :| specs != [] && Builds(url, t.listed.source.sourceType, t.listed.target, Specs(specs)) && AfterOk(t.listed, specs, t.after, from, upto);
    KeywordSpecsAreStable(url, t.listed.source.sourceType, t.listed.target, d.ctx.target, Specs(specs));
  }
}
