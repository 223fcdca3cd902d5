/** How often one target is crawled: the history of its `next_crawl_at` column under any number of
    scheduler instances (internal/execution/repository/postgre/due_targets.go and cancel.go). */
module RateBound {
  import opened Model
  import opened Text
  import opened Values
  import opened Specs
  import opened Interval
  import opened Fanout
  import opened Runtime
  import TickTheorems

  /** Writes of the column. `turn` tells apart the turns that claim; `kept` says that the turn never
      gives its claim back. A runtime cancellation clears the column whoever holds the claim, and an
      update of the target row writes back the column as it was read before. */
  datatype Step =
    | Take(turn: nat, at: int, until: int, kept: bool)
    | GiveBack(turn: nat)
    | Cancel
    | Rewrite(column: Option<int>)

  /** What a step leaves in the column; None is SQL NULL. */
  function Written(s: Step): Option<int> {
    match s
    case Take(_, _, until, _) => Some(until)
    case GiveBack(_) => None
    case Cancel => None
    case Rewrite(column) => column
  }

  /** The column after a history. */
  function Column(h: seq<Step>): Option<int> {
    if h == [] then None else Written(h[|h| - 1])
  }

  /** A claim leaves the time it asks for, an update what it had read, and everything else NULL. */
  lemma ColumnIs(h: seq<Step>, s: Step)
    ensures Column(h + [s]) == if s.Take? then Some(s.until) else if s.Rewrite? then s.column else None
  {
  }

  /** A claim succeeds only when the target is due, asks for at least a minute, and time does not run
      backwards; only a turn that claimed gives back, and only a claim it does not keep; a rewritten
      column was there at some time. */
  ghost predicate CanFollow(h: seq<Step>, s: Step) {
    match s
    case Take(turn, at, until, _) =>
      && (Column(h).Some? ==> Column(h).value <= at)
      && at + MINUTE <= until
      && (forall i :: 0 <= i < |h| && h[i].Take? ==> h[i].at <= at && h[i].turn != turn)
    case GiveBack(turn) => exists i :: 0 <= i < |h| && h[i].Take? && h[i].turn == turn && !h[i].kept
    case Cancel => true
    case Rewrite(column) => exists k :: 0 <= k <= |h| && Column(h[..k]) == column
  }

  ghost predicate Possible(h: seq<Step>) {
    h != [] ==> Possible(h[..|h| - 1]) && CanFollow(h[..|h| - 1], h[|h| - 1])
  }

  /** Position of the newest claim. */
  function Newest(h: seq<Step>): (i: Option<nat>)
    ensures i.Some? ==> i.value < |h| && h[i.value].Take? && forall j :: i.value < j < |h| ==> !h[j].Take?
    ensures i.None? ==> forall j :: 0 <= j < |h| ==> !h[j].Take?
  {
    if h == [] then None
    else if h[|h| - 1].Take? then Some(|h| - 1)
    else Newest(h[..|h| - 1])
  }

  ghost predicate NewestIsKept(h: seq<Step>) {
    Newest(h).Some? && h[Newest(h).value].kept
  }

  /** The column is NULL, or earlier than what the newest claim stored. */
  ghost predicate Early(column: Option<int>, h: seq<Step>)
    requires Newest(h).Some?
  {
    column.None? || column.value < h[Newest(h).value].until
  }

  /** A step other than a claim that writes NULL or an earlier time over a kept newest claim: a late
      give-back of another turn, a cancellation, or a stale rewrite. */
  ghost predicate Disturbs(h: seq<Step>, s: Step) {
    !s.Take? && NewestIsKept(h) && Early(Written(s), h)
  }

  ghost predicate DisturbsAt(h: seq<Step>, k: nat)
    requires k < |h|
  {
    Disturbs(h[..k], h[k])
  }

  ghost predicate UndisturbedBetween(h: seq<Step>, i: int, j: int) {
    forall k: nat :: i < k < j && k < |h| ==> !DisturbsAt(h, k)
  }

  /** Every claim after a kept one waits for the interval in force at the kept one. */
  ghost predicate Spaced(h: seq<Step>) {
    forall i, j :: 0 <= i < j < |h| && h[i].Take? && h[i].kept && h[j].Take? ==> h[i].until <= h[j].at
  }

  // ---------------------------------------------------------------- the bound

  /** A turn claims once: what it gives back is the claim it made. */
  lemma {:induction false} GiveBackIsNotKept(h: seq<Step>, k: nat, i: nat)
    requires Possible(h) && k < |h| && h[k].GiveBack? && i < |h| && h[i].Take?
    ensures h[i].turn == h[k].turn ==> !h[i].kept
  {
    var n := |h| - 1;
    if k < n && i < n {
      GiveBackIsNotKept(h[..n], k, i);
    } else if k == n {
      var i' :| 0 <= i' < n && h[..n][i'].Take? && h[..n][i'].turn == h[k].turn && !h[..n][i'].kept;
      if i' != i {
        OneClaimPerTurn(h, if i < i' then i else i', if i < i' then i' else i);
      }
    } else {
      GivesBackEarlier(h[..n], k);
      var i' :| 0 <= i' < n && h[..n][i'].Take? && h[..n][i'].turn == h[k].turn;
      OneClaimPerTurn(h, i', i);
    }
  }

  lemma {:induction false} GivesBackEarlier(h: seq<Step>, k: nat)
    requires Possible(h) && k < |h| && h[k].GiveBack?
    ensures exists i :: 0 <= i < |h| && h[i].Take? && h[i].turn == h[k].turn
  {
    var n := |h| - 1;
    if k < n {
      GivesBackEarlier(h[..n], k);
      var i :| 0 <= i < n && h[..n][i].Take? && h[..n][i].turn == h[k].turn;
      assert h[i].Take?;
    } else {
      var i :| 0 <= i < n && h[..n][i].Take? && h[..n][i].turn == h[k].turn;
      assert h[i].Take?;
    }
  }

  lemma {:induction false} OneClaimPerTurn(h: seq<Step>, i: nat, j: nat)
    requires Possible(h) && i < j < |h| && h[i].Take? && h[j].Take?
    ensures h[i].turn != h[j].turn && h[i].at <= h[j].at
  {
    var n := |h| - 1;
    if j < n {
      OneClaimPerTurn(h[..n], i, j);
    } else {
      assert h[..n][i].Take?;
    }
  }

  /** A kept newest claim that nothing has disturbed still has the column to itself. */
  lemma {:induction false} UndisturbedClaimHolds(h: seq<Step>)
    requires NewestIsKept(h) && UndisturbedBetween(h, Newest(h).value, |h|)
    ensures !Early(Column(h), h)
  {
    var n := |h| - 1;
    if !h[n].Take? {
      assert !DisturbsAt(h, n);
    }
  }

  lemma UndisturbedPrefix(h: seq<Step>, n: nat, i: int, j: int)
    requires n <= |h| && j <= n && UndisturbedBetween(h, i, j)
    ensures UndisturbedBetween(h[..n], i, j)
  {
    forall k: nat | i < k < j && k < n ensures !DisturbsAt(h[..n], k) {
      assert h[..n][..k] == h[..k] && !DisturbsAt(h, k);
    }
  }

  /** In every possible history a claim waits for the interval of an earlier kept claim, unless a step
      between the two disturbs a kept claim. */
  lemma {:induction false} SpacedUnlessDisturbed(h: seq<Step>, i: nat, j: nat)
    requires Possible(h) && i < j < |h| && h[i].Take? && h[i].kept && h[j].Take? && UndisturbedBetween(h, i, j)
    ensures h[i].until <= h[j].at
  {
    var n := |h| - 1;
    var p := h[..n];
    assert p[i] == h[i];
    if j < n {
      UndisturbedPrefix(h, n, i, j);
      SpacedUnlessDisturbed(p, i, j);
    } else {
      UndisturbedPrefix(h, n, i, n);
      var c := Newest(p).value;
      if i == c {
        UndisturbedClaimHolds(p);
      } else {
        UndisturbedPrefix(h, n, i, c);
        SpacedUnlessDisturbed(p, i, c);
        assert p[c] == h[c];
      }
    }
  }

  /** Kept claims are spaced by the interval in force at the earlier one in every possible history
      without a disturbance. */
  lemma KeptClaimsAreSpaced(h: seq<Step>)
    requires Possible(h) && UndisturbedBetween(h, -1, |h|)
    ensures Spaced(h)
  {
    forall i, j | 0 <= i < j < |h| && h[i].Take? && h[i].kept && h[j].Take? ensures h[i].until <= h[j].at {
      SpacedUnlessDisturbed(h, i, j);
    }
  }

  /** The bound hangs on the column alone: with a kept claim as the newest, every claim that can come
      next respects it exactly when the column is not earlier than what that claim stored. */
  lemma NextClaimIsSpacedExactly(h: seq<Step>)
    requires Possible(h) && Spaced(h) && NewestIsKept(h)
    ensures (forall c: Step :: c.Take? && CanFollow(h, c) ==> Spaced(h + [c])) <==> !Early(Column(h), h)
  {
    var i := Newest(h).value;
    var kept := h[i];
    TakesAreOrdered(h);
    PossibleStep(h, i);
    if Early(Column(h), h) {
      var at := if Column(h).Some? && Column(h).value > kept.at then Column(h).value else kept.at;
      var c := Take(FreshTurn(h), at, at + MINUTE, false);
      assert CanFollow(h, c);
      assert (h + [c])[i] == kept && (h + [c])[|h|] == c;
      assert !Spaced(h + [c]);
    } else {
      forall c: Step | c.Take? && CanFollow(h, c) ensures Spaced(h + [c]) {
        var h' := h + [c];
        forall a, b | 0 <= a < b < |h'| && h'[a].Take? && h'[a].kept && h'[b].Take? ensures h'[a].until <= h'[b].at {
          if b == |h| && a != i {
            assert h[a].until <= h[i].at;
          }
        }
      }
    }
  }

  /** So the disturbances are exactly the steps that let an early claim through: after an undisturbed
      history whose newest claim is kept, a step other than a claim keeps every next claim spaced
      exactly when it does not disturb. */
  lemma DisturbancesExactly(h: seq<Step>, s: Step)
    requires Possible(h) && UndisturbedBetween(h, -1, |h|) && NewestIsKept(h)
    requires CanFollow(h, s) && !s.Take?
    ensures (forall c: Step :: c.Take? && CanFollow(h + [s], c) ==> Spaced(h + [s] + [c])) <==> !Disturbs(h, s)
  {
    var h1 := h + [s];
    assert h1[..|h|] == h;
    KeptClaimsAreSpaced(h);
    assert Newest(h1) == Newest(h);
    NextClaimIsSpacedExactly(h1);
  }

  lemma {:induction false} PossibleStep(h: seq<Step>, i: nat)
    requires Possible(h) && i < |h| && h[i].Take?
    ensures h[i].at + MINUTE <= h[i].until
  {
    if i < |h| - 1 {
      PossibleStep(h[..|h| - 1], i);
    }
  }

  lemma {:induction false} TakesAreOrdered(h: seq<Step>)
    requires Possible(h)
    ensures forall i, j :: 0 <= i < j < |h| && h[i].Take? && h[j].Take? ==> h[i].at <= h[j].at
  {
    forall i, j | 0 <= i < j < |h| && h[i].Take? && h[j].Take? ensures h[i].at <= h[j].at {
      OneClaimPerTurn(h, i, j);
    }
  }

  function FreshTurn(h: seq<Step>): (turn: nat)
    ensures forall i :: 0 <= i < |h| && h[i].Take? ==> h[i].turn < turn
  {
    if h == [] then 0
    else
      var before := FreshTurn(h[..|h| - 1]);
      assert forall i :: 0 <= i < |h| - 1 ==> h[..|h| - 1][i] == h[i];
      if h[|h| - 1].Take? && h[|h| - 1].turn >= before then h[|h| - 1].turn + 1 else before
  }

  /** A late give-back of an older claim breaks the bound: three instances, of which the first fails
      after the second has claimed. */
  lemma LateGiveBackBreaksTheBound()
    ensures exists h: seq<Step> :: Possible(h) && !Spaced(h) && forall i :: 0 <= i < |h| ==> !h[i].Cancel?
  {
    var h := [Take(1, 0, 300, false), Take(2, 300, 600, true), GiveBack(1), Take(3, 301, 601, true)];
    assert h[..3][..2][..1] == [h[0]] && h[..3][..2] == [h[0], h[1]] && h[..3] == [h[0], h[1], h[2]];
    assert Possible([h[0]]) by {
      assert [h[0]][..0] == [];
    }
    assert CanFollow([h[0]], h[1]);
    assert Possible([h[0], h[1]]) by {
      assert [h[0], h[1]][..1] == [h[0]];
    }
    assert [h[0], h[1]][0].Take? && CanFollow([h[0], h[1]], h[2]);
    assert Possible([h[0], h[1], h[2]]) by {
      assert [h[0], h[1], h[2]][..2] == [h[0], h[1]];
    }
    assert CanFollow([h[0], h[1], h[2]], h[3]);
    assert Possible(h);
    assert h[1].until > h[3].at;
  }

  /** One instance is enough: a cancellation, as a project pause issues it, lets the next claim of the
      resumed project come early. */
  lemma CancellationBreaksTheBound()
    ensures exists h: seq<Step> :: Possible(h) && !Spaced(h) && forall i :: 0 <= i < |h| ==> h[i].Take? || h[i].Cancel?
  {
    var h := [Take(1, 0, 300, true), Cancel, Take(2, 60, 360, true)];
    EarlyAgain(h[0], Cancel, h[2]);
    assert h == [h[0], Cancel, h[2]];
  }

  /** So does an update of the target row that had read the column before the claim. */
  lemma StaleRewriteBreaksTheBound()
    ensures exists h: seq<Step> :: Possible(h) && !Spaced(h) && forall i :: 0 <= i < |h| ==> h[i].Take? || h[i].Rewrite?
  {
    var h := [Take(1, 0, 300, true), Rewrite(None), Take(2, 60, 360, true)];
    assert Column([h[0]][..0]) == None;
    EarlyAgain(h[0], Rewrite(None), h[2]);
    assert h == [h[0], Rewrite(None), h[2]];
  }

  lemma EarlyAgain(a: Step, s: Step, b: Step)
    requires a == Take(1, 0, 300, true) && b == Take(2, 60, 360, true) && !s.Take? && Written(s) == None && CanFollow([a], s)
    ensures Possible([a, s, b]) && !Spaced([a, s, b])
  {
    assert [a][..0] == [] && [a, s][..1] == [a] && [a, s, b][..2] == [a, s];
    assert Possible([a]) && Possible([a, s]);
    assert CanFollow([a, s], b);
    assert [a, s, b][0].until > [a, s, b][2].at;
  }

  // ---------------------------------------------------------------- claims in a window

  /** The kept claims in a stretch of a history that fall into a window of time. */
  function KeptWithin(h: seq<Step>, lo: nat, hi: nat, from: int, minutes: nat): set<nat>
    requires hi <= |h|
  {
    set i: nat | lo <= i < hi && h[i].Take? && h[i].kept && from <= h[i].at <= from + MINUTE * minutes
  }

  /** The disturbances among the first steps of a history. */
  ghost function Disturbances(h: seq<Step>, n: nat): nat
    requires n <= |h|
  {
    if n == 0 then 0 else Disturbances(h, n - 1) + if DisturbsAt(h, n - 1) then 1 else 0
  }

  lemma {:induction false} DisturbancesGrow(h: seq<Step>, i: nat, j: nat)
    requires i <= j <= |h|
    ensures Disturbances(h, i) <= Disturbances(h, j)
    ensures Disturbances(h, i) == Disturbances(h, j) ==> UndisturbedBetween(h, i - 1, j)
  {
    if i < j {
      DisturbancesGrow(h, i, j - 1);
    }
  }

  lemma {:induction false} InjectiveImage(s: set<nat>, f: map<nat, int>, n: nat)
    requires s <= f.Keys && (forall i :: i in s ==> 0 <= f[i] < n)
    requires forall i, j :: i in s && j in s && i != j ==> f[i] != f[j]
    ensures |s| <= n
  {
    if n == 0 {
      assert s == {};
    } else if exists i :: i in s && f[i] == n - 1 {
      var i :| i in s && f[i] == n - 1;
      InjectiveImage(s - {i}, f, n - 1);
    } else {
      InjectiveImage(s, f, n - 1);
    }
  }

  /** A stretch of any possible history holds at most W + 1 kept claims in a window of W minutes, and
      one more for each disturbance in the stretch. */
  lemma WindowBound(h: seq<Step>, lo: nat, hi: nat, from: int, minutes: nat)
    requires Possible(h) && lo <= hi <= |h|
    ensures |KeptWithin(h, lo, hi, from, minutes)| <= minutes + 1 + Disturbances(h, hi) - Disturbances(h, lo)
  {
    var kept := KeptWithin(h, lo, hi, from, minutes);
    var base := Disturbances(h, lo);
    DisturbancesGrow(h, lo, hi);
    var slot := map i | i in kept :: (h[i].at - from) / MINUTE + (Disturbances(h, i) - base);
    forall i | i in kept ensures 0 <= slot[i] < minutes + 1 + Disturbances(h, hi) - base {
      DisturbancesGrow(h, lo, i);
      DisturbancesGrow(h, i, hi);
    }
    forall i, j | i in kept && j in kept && i < j ensures slot[i] < slot[j] {
      SlotsGrow(h, i, j);
    }
    InjectiveImage(kept, slot, minutes + 1 + Disturbances(h, hi) - base);
  }

  lemma SlotsGrow(h: seq<Step>, i: nat, j: nat)
    requires Possible(h) && i < j < |h| && h[i].Take? && h[i].kept && h[j].Take?
    ensures h[i].at <= h[j].at && Disturbances(h, i) <= Disturbances(h, j)
    ensures h[i].at + MINUTE <= h[j].at || Disturbances(h, i) < Disturbances(h, j)
  {
    OneClaimPerTurn(h, i, j);
    PossibleStep(h, i);
    DisturbancesGrow(h, i, j);
    if Disturbances(h, i) == Disturbances(h, j) {
      SpacedUnlessDisturbed(h, i, j);
    }
  }

  // ---------------------------------------------------------------- the scheduler's own claims

  /** What a turn of the scheduler does to the column of its target. A claim that was stored although
      its caller was told of an error is never given back; a release that reports an error may or may
      not have reached the column, so `reached` is free. */
  function StepsOf(t: Turn, turn: nat, reached: bool): seq<Step> {
    match t
    case Rejected(_, _) => []
    case Unclaimed(_, at, until, _, claim) => if StoredClaim(claim) then [Take(turn, at, until, true)] else []
    case Claimed(_, at, until, _, after, _) => ClaimSteps(Take(turn, at, until, !Releases(after)), Releases(after) && reached)
  }

  function ClaimSteps(take: Step, givesBack: bool): seq<Step>
    requires take.Take?
  {
    if givesBack then [take] + [GiveBack(take.turn)] else [take]
  }

  /** The disturbances of a history come from outside the scheduler's turns. */
  ghost predicate ForeignOnly(h: seq<Step>) {
    forall k: nat :: k < |h| && DisturbsAt(h, k) ==> h[k].Cancel? || h[k].Rewrite?
  }

  lemma Extends(h: seq<Step>, s: Step)
    requires Possible(h) && ForeignOnly(h) && CanFollow(h, s)
    requires s.GiveBack? ==> Newest(h).Some? && !h[Newest(h).value].kept
    ensures Possible(h + [s]) && ForeignOnly(h + [s])
  {
    var h' := h + [s];
    assert h'[..|h|] == h;
    forall k: nat | k < |h'| && DisturbsAt(h', k) ensures h'[k].Cancel? || h'[k].Rewrite? {
      assert h'[..k] == h[..k];
      if k < |h| {
        assert DisturbsAt(h, k);
      } else {
        assert h[..k] == h;
      }
    }
  }

  lemma TurnIsSpaced(url: UrlParser, now: int, t: Turn, from: nat, upto: nat)
    requires TurnOk(url, now, t.listed, t, from, upto) && !t.Rejected?
    ensures t.at == now && t.at + MINUTE <= t.next
  {
    IntervalOrder(t.listed.source.crawlMode.value, t.listed.target.interval, t.listed.target.interval);
  }

  lemma ClaimFollows(h: seq<Step>, take: Step, givesBack: bool)
    requires Possible(h) && ForeignOnly(h) && take.Take? && CanFollow(h, take) && (givesBack ==> !take.kept)
    ensures Possible(h + ClaimSteps(take, givesBack)) && ForeignOnly(h + ClaimSteps(take, givesBack))
  {
    var h1 := h + [take];
    Extends(h, take);
    if givesBack {
      assert h1[|h|] == take && CanFollow(h1, GiveBack(take.turn));
      Extends(h1, GiveBack(take.turn));
      assert h + ClaimSteps(take, givesBack) == h1 + [GiveBack(take.turn)];
    }
  }

  /** A scheduler turn that finds the column as the history left it continues the history, and disturbs
      no claim. */
  lemma TurnsFollow(url: UrlParser, now: int, t: Turn, from: nat, upto: nat, h: seq<Step>, turn: nat, reached: bool)
    requires TurnOk(url, now, t.listed, t, from, upto)
    requires Possible(h) && ForeignOnly(h)
    requires !t.Rejected? ==> t.seen == Column(h)
    requires forall i :: 0 <= i < |h| && h[i].Take? ==> h[i].at <= now && h[i].turn != turn
    ensures Possible(h + StepsOf(t, turn, reached)) && ForeignOnly(h + StepsOf(t, turn, reached))
  {
    if StepsOf(t, turn, reached) == [] {
      assert h + [] == h;
    } else {
      TurnIsSpaced(url, now, t, from, upto);
      if t.Claimed? {
        ClaimFollows(h, Take(turn, t.at, t.next, !Releases(t.after)), Releases(t.after) && reached);
      } else {
        ClaimFollows(h, Take(turn, t.at, t.next, true), false);
      }
    }
  }

  // ---------------------------------------------------------------- runs of one instance

  /** What writes the column while one scheduler instance runs: turns of its ticks, where `now` is the
      time of the tick; cancellations of the runtime, which clear the columns of some targets; and
      updates of a target row. */
  datatype Ran =
    | Turned(t: Turn, now: int, reached: bool)
    | Cancelled(tids: set<Id>)
    | Rewritten(tid: Id, column: Option<int>)

  function StepsFor(r: Ran, n: nat, tid: Id): seq<Step> {
    match r
    case Turned(t, _, reached) => if t.listed.tid == tid then StepsOf(t, n, reached) else []
    case Cancelled(tids) => if tid in tids then [Cancel] else []
    case Rewritten(other, column) => if other == tid then [Rewrite(column)] else []
  }

  /** The history of one target. */
  function HistoryOf(ran: seq<Ran>, tid: Id): seq<Step> {
    if ran == [] then []
    else HistoryOf(ran[..|ran| - 1], tid) + StepsFor(ran[|ran| - 1], |ran| - 1, tid)
  }

  ghost predicate TurnedOk(url: UrlParser, t: Turn, now: int) {
    exists from, upto :: TurnOk(url, now, t.listed, t, from, upto)
  }

  /** Ticks whose time does not run backwards and that do not overlap: each claim finds the column as
      the writes before it left it. An update writes back a column it may have read long before. */
  ghost predicate OneInstance(url: UrlParser, ran: seq<Ran>, tid: Id) {
    ran != [] ==>
      var n := |ran| - 1;
      var h := HistoryOf(ran[..n], tid);
      && OneInstance(url, ran[..n], tid)
      && match ran[n]
         case Turned(t, now, _) =>
           && TurnedOk(url, t, now)
           && (forall i :: 0 <= i < n && ran[i].Turned? ==> ran[i].now <= now)
           && (t.listed.tid == tid && !t.Rejected? ==> t.seen == Column(h))
         case Cancelled(_) => true
         case Rewritten(other, column) => other == tid ==> CanFollow(h, Rewrite(column))
  }

  /** The claims of a history come from its own turns, at the times of their ticks. */
  ghost predicate FromTurns(h: seq<Step>, ran: seq<Ran>) {
    forall i :: 0 <= i < |h| && h[i].Take? ==> h[i].turn < |ran| && ran[h[i].turn].Turned? && h[i].at == ran[h[i].turn].now
  }

  lemma StepsFromTurns(url: UrlParser, t: Turn, now: int, n: nat, reached: bool, k: nat)
    requires TurnedOk(url, t, now) && k < |StepsOf(t, n, reached)| && StepsOf(t, n, reached)[k].Take?
    ensures StepsOf(t, n, reached)[k].turn == n && StepsOf(t, n, reached)[k].at == now
  {
    var from, upto :| TurnOk(url, now, t.listed, t, from, upto);
    TurnIsSpaced(url, now, t, from, upto);
  }

  lemma FromTurnsAdds(url: UrlParser, ran: seq<Ran>, h: seq<Step>, tid: Id)
    requires ran != [] && FromTurns(h, ran[..|ran| - 1])
    requires ran[|ran| - 1].Turned? ==> TurnedOk(url, ran[|ran| - 1].t, ran[|ran| - 1].now)
    ensures FromTurns(h + StepsFor(ran[|ran| - 1], |ran| - 1, tid), ran)
  {
    var n := |ran| - 1;
    var steps := StepsFor(ran[n], n, tid);
    forall i | 0 <= i < |h + steps| && (h + steps)[i].Take?
      ensures (h + steps)[i].turn < |ran| && ran[(h + steps)[i].turn].Turned? && (h + steps)[i].at == ran[(h + steps)[i].turn].now
    {
      if i < |h| {
        assert ran[..n][h[i].turn] == ran[h[i].turn];
      } else {
        StepsFromTurns(url, ran[n].t, ran[n].now, n, ran[n].reached, i - |h|);
      }
    }
  }

  lemma TurnExtends(url: UrlParser, ran: seq<Ran>, h: seq<Step>, t: Turn, now: int, reached: bool)
    requires ran != [] && Possible(h) && ForeignOnly(h) && FromTurns(h, ran[..|ran| - 1])
    requires TurnedOk(url, t, now) && (!t.Rejected? ==> t.seen == Column(h))
    requires forall i :: 0 <= i < |ran| - 1 && ran[i].Turned? ==> ran[i].now <= now
    ensures Possible(h + StepsOf(t, |ran| - 1, reached)) && ForeignOnly(h + StepsOf(t, |ran| - 1, reached))
  {
    var n := |ran| - 1;
    var from, upto :| TurnOk(url, now, t.listed, t, from, upto);
    forall i | 0 <= i < |h| && h[i].Take? ensures h[i].at <= now && h[i].turn != n {
      assert ran[..n][h[i].turn] == ran[h[i].turn];
    }
    TurnsFollow(url, now, t, from, upto, h, n, reached);
  }

  lemma {:induction false} OneInstancePossible(url: UrlParser, ran: seq<Ran>, tid: Id)
    requires OneInstance(url, ran, tid)
    ensures var h := HistoryOf(ran, tid);
            Possible(h) && ForeignOnly(h) && FromTurns(h, ran)
  {
    if ran != [] {
      var n := |ran| - 1;
      var h, r := HistoryOf(ran[..n], tid), ran[n];
      OneInstancePossible(url, ran[..n], tid);
      FromTurnsAdds(url, ran, h, tid);
      assert h + [] == h;
      match r
      case Turned(t, now, reached) =>
        if t.listed.tid == tid {
          TurnExtends(url, ran, h, t, now, reached);
        }
      case Cancelled(tids) =>
        if tid in tids {
          Extends(h, Cancel);
        }
      case Rewritten(other, column) =>
        if other == tid {
          Extends(h, Rewrite(column));
        }
    }
  }

  /** In every run of one instance a kept claim and a later claim of a target are spaced by the interval
      in force at the earlier one unless a cancellation or a stale rewrite disturbs a kept claim between
      them; and a window of W minutes holds at most W + 1 kept claims, and one more for each of those. */
  lemma OneInstanceIsBounded(url: UrlParser, ran: seq<Ran>, tid: Id)
    requires OneInstance(url, ran, tid)
    ensures var h := HistoryOf(ran, tid);
            && (forall i: nat, j: nat :: i < j < |h| && h[i].Take? && h[i].kept && h[j].Take? && UndisturbedBetween(h, i, j) ==> h[i].until <= h[j].at)
            && (forall k: nat :: k < |h| && DisturbsAt(h, k) ==> h[k].Cancel? || h[k].Rewrite?)
            && (forall lo: nat, hi: nat, from, minutes: nat :: lo <= hi <= |h| ==>
                  |KeptWithin(h, lo, hi, from, minutes)| <= minutes + 1 + Disturbances(h, hi) - Disturbances(h, lo))
  {
    var h := HistoryOf(ran, tid);
    OneInstancePossible(url, ran, tid);
    forall i: nat, j: nat | i < j < |h| && h[i].Take? && h[i].kept && h[j].Take? && UndisturbedBetween(h, i, j) ensures h[i].until <= h[j].at {
      SpacedUnlessDisturbed(h, i, j);
    }
    forall lo: nat, hi: nat, from, minutes: nat | lo <= hi <= |h|
      ensures |KeptWithin(h, lo, hi, from, minutes)| <= minutes + 1 + Disturbances(h, hi) - Disturbances(h, lo)
    {
      WindowBound(h, lo, hi, from, minutes);
    }
  }

  /** Without cancellations and updates of the target's row, the bound holds as it stands. */
  lemma QuietInstanceIsBounded(url: UrlParser, ran: seq<Ran>, tid: Id, from: int, minutes: nat)
    requires OneInstance(url, ran, tid) && forall i :: 0 <= i < |ran| ==> ran[i].Turned?
    ensures var h := HistoryOf(ran, tid);
            Spaced(h) && |KeptWithin(h, 0, |h|, from, minutes)| <= minutes + 1
  {
    var h := HistoryOf(ran, tid);
    OneInstancePossible(url, ran, tid);
    QuietHistory(ran, tid);
    QuietIsUndisturbed(h, |h|);
    KeptClaimsAreSpaced(h);
    WindowBound(h, 0, |h|, from, minutes);
  }

  lemma {:induction false} QuietHistory(ran: seq<Ran>, tid: Id)
    requires forall i :: 0 <= i < |ran| ==> ran[i].Turned?
    ensures forall k :: 0 <= k < |HistoryOf(ran, tid)| ==> !HistoryOf(ran, tid)[k].Cancel? && !HistoryOf(ran, tid)[k].Rewrite?
  {
    if ran != [] {
      QuietHistory(ran[..|ran| - 1], tid);
    }
  }

  lemma {:induction false} QuietIsUndisturbed(h: seq<Step>, n: nat)
    requires n <= |h| && ForeignOnly(h) && forall k :: 0 <= k < |h| ==> !h[k].Cancel? && !h[k].Rewrite?
    ensures UndisturbedBetween(h, -1, |h|) && Disturbances(h, n) == 0
  {
    if n > 0 {
      QuietIsUndisturbed(h, n - 1);
    }
  }

  /** A turn that claims at `now`, publishes its one message and keeps the claim. */
  function KeptTurn(now: int): Turn {
    TickTheorems.TurnFor(now, None, [Attempt(1, KeywordSpec(SourceType.Facebook, "v"), Published)], true, TickTheorems.KeywordContext(["v"]))
  }

  lemma {:induction false} KeptTurnIsOk(url: UrlParser, now: int)
    ensures TurnedOk(url, KeptTurn(now), now)
  {
    var attempts := [Attempt(1, KeywordSpec(SourceType.Facebook, "v"), Published)];
    TrimmedIsFixed("v");
    assert attempts[..0] == [] && Fresh(attempts, 1, 2);
    TickTheorems.KeywordTurnIsOk(url, now, None, true, ["v"], attempts);
    assert TurnOk(url, now, KeptTurn(now).listed, KeptTurn(now), 0, 2);
  }

  lemma KeptTurnSteps(now: int, n: nat)
    ensures StepsFor(Turned(KeptTurn(now), now, true), n, 2) == [Take(n, now, now + 660, true)]
  {
    var attempts := [Attempt(1, KeywordSpec(SourceType.Facebook, "v"), Published)];
    assert attempts[..0] == [] && PublishedCount(attempts) == 1;
  }

  lemma RunOfThree(a: Ran, b: Ran, c: Ran, tid: Id)
    ensures HistoryOf([a], tid) == StepsFor(a, 0, tid)
    ensures HistoryOf([a, b], tid) == StepsFor(a, 0, tid) + StepsFor(b, 1, tid)
    ensures HistoryOf([a, b, c], tid) == StepsFor(a, 0, tid) + StepsFor(b, 1, tid) + StepsFor(c, 2, tid)
  {
    assert [a][..0] == [] && [a, b][..1] == [a] && [a, b, c][..2] == [a, b];
    assert HistoryOf([], tid) == [];
  }

  lemma ThreeAreOneInstance(url: UrlParser, a: Ran, b: Ran, c: Ran, tid: Id)
    requires a.Turned? && b.Cancelled? && c.Turned? && a.now <= c.now && tid in b.tids
    requires TurnedOk(url, a.t, a.now) && TurnedOk(url, c.t, c.now)
    requires a.t.Claimed? && a.t.seen == None && c.t.Claimed? && c.t.seen == None
    ensures OneInstance(url, [a, b, c], tid)
  {
    RunOfThree(a, b, c, tid);
    assert [a][..0] == [] && [a, b][..1] == [a] && [a, b, c][..2] == [a, b];
    assert Column([]) == None && Column(HistoryOf([a, b], tid)) == None;
    assert OneInstance(url, [a], tid);
    assert OneInstance(url, [a, b], tid);
  }

  lemma EarlyAfterPause(a: Ran, b: Ran, c: Ran)
    requires StepsFor(a, 0, 2) == [Take(0, 0, 660, true)] && StepsFor(b, 1, 2) == [Cancel] && StepsFor(c, 2, 2) == [Take(2, 60, 720, true)]
    ensures !Spaced(HistoryOf([a, b, c], 2))
  {
    RunOfThree(a, b, c, 2);
    assert HistoryOf([a, b, c], 2) == [Take(0, 0, 660, true), Cancel, Take(2, 60, 720, true)];
    NotSpaced(HistoryOf([a, b, c], 2));
  }

  /** A run of one instance without updates of the target's row that breaks the bound. */
  ghost predicate BreaksByPause(url: UrlParser, ran: seq<Ran>) {
    && OneInstance(url, ran, 2) && !Spaced(HistoryOf(ran, 2))
    && forall i :: 0 <= i < |ran| ==> ran[i].Turned? || ran[i].Cancelled?
  }

  /** One instance, a project paused after a kept claim and resumed: the claim at minute one does not
      wait for minute eleven. */
  lemma {:induction false} PauseAndResumeBreakTheBound(url: UrlParser)
    ensures exists ran: seq<Ran> :: BreaksByPause(url, ran)
  {
    var a, b, c := Turned(KeptTurn(0), 0, true), Ran.Cancelled({2}), Turned(KeptTurn(60), 60, true);
    KeptTurnIsOk(url, 0);
    KeptTurnIsOk(url, 60);
    ThreeAreOneInstance(url, a, b, c, 2);
    KeptTurnSteps(0, 0);
    KeptTurnSteps(60, 2);
    EarlyAfterPause(a, b, c);
    assert BreaksByPause(url, [a, b, c]);
  }

  lemma NotSpaced(h: seq<Step>)
    requires |h| == 3 && h[0] == Take(0, 0, 660, true) && h[2] == Take(2, 60, 720, true)
    ensures !Spaced(h)
  {
    assert h[0].until > h[2].at;
  }
}
