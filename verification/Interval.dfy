/** Effective crawl interval (internal/execution/usecase/helpers.go, internal/execution/types.go).
    The multiplication by the mode multiplier is taken over the reals. */
module Interval {
  import opened Model

  const NORMAL_MODE_MULTIPLIER := 1.0
  const CRISIS_MODE_MULTIPLIER := 0.2
  const SLEEP_MODE_MULTIPLIER := 5.0
  const DEFAULT_MIN_INTERVAL_MINUTE := 1
  const DEFAULT_MAX_INTERVAL_MINUTE := 1440

  function ModeMultiplier(mode: CrawlMode): real {
    match mode
    case Normal => NORMAL_MODE_MULTIPLIER
    case Crisis => CRISIS_MODE_MULTIPLIER
    case Sleep => SLEEP_MODE_MULTIPLIER
  }

  /** `math.Round`: to the nearest integer, halves away from zero. */
  function Round(x: real): int {
    if x >= 0.0 then (x + 0.5).Floor else -((0.5 - x).Floor)
  }

  function Clamp(minutes: int): int {
    if minutes < DEFAULT_MIN_INTERVAL_MINUTE then DEFAULT_MIN_INTERVAL_MINUTE
    else if minutes > DEFAULT_MAX_INTERVAL_MINUTE then DEFAULT_MAX_INTERVAL_MINUTE
    else minutes
  }

  /** The interval in whole-number arithmetic, independent of rounding. */
  function EffectiveMinutes(mode: CrawlMode, minutes: int): int {
    match mode
    case Normal => Clamp(minutes)
    case Crisis => Clamp((minutes + 2) / 5)
    case Sleep => Clamp(5 * minutes)
  }

  /** `computeEffectiveInterval`: None on its error branches, otherwise the interval in minutes. */
  method ComputeEffectiveInterval(mode: Option<CrawlMode>, minutes: int) returns (r: Option<int>)
    ensures r.Some? <==> mode.Some? && minutes > 0
    ensures r.Some? ==> r.value == EffectiveMinutes(mode.value, minutes)
  {
    if mode.None? {
      return None;
    }
    if minutes <= 0 {
      return None;
    }
    var effectiveMinutes := Round(minutes as real * ModeMultiplier(mode.value));
    RoundedProduct(mode.value, minutes);
    if effectiveMinutes < DEFAULT_MIN_INTERVAL_MINUTE {
      effectiveMinutes := DEFAULT_MIN_INTERVAL_MINUTE;
    }
    if effectiveMinutes > DEFAULT_MAX_INTERVAL_MINUTE {
      effectiveMinutes := DEFAULT_MAX_INTERVAL_MINUTE;
    }
    return Some(effectiveMinutes);
  }

  lemma FloorIs(x: real, n: int)
    requires n as real <= x < (n + 1) as real
    ensures x.Floor == n
  {
  }

  /** Rounding a positive fifth has a whole-number form. */
  lemma CrisisRounding(minutes: int)
    requires minutes > 0
    ensures Round(minutes as real * CRISIS_MODE_MULTIPLIER) == (minutes + 2) / 5
  {
    var q, r := minutes / 5, minutes % 5;
    var x := minutes as real * CRISIS_MODE_MULTIPLIER;
    assert minutes == 5 * q + r;
    assert x == q as real + r as real * 0.2;
    if r <= 2 {
      FloorIs(x + 0.5, q);
      assert (minutes + 2) / 5 == q;
    } else {
      FloorIs(x + 0.5, q + 1);
      assert (minutes + 2) / 5 == q + 1;
    }
  }

  /** Rounding a fifth of a whole number never meets a tie, so the rounding direction is irrelevant. */
  lemma CrisisNeverTies(minutes: int, n: int)
    ensures minutes as real * CRISIS_MODE_MULTIPLIER != n as real + 0.5
  {
  }

  lemma RoundedProduct(mode: CrawlMode, minutes: int)
    requires minutes > 0
    ensures Clamp(Round(minutes as real * ModeMultiplier(mode))) == EffectiveMinutes(mode, minutes)
  {
    match mode
    case Normal => FloorIs(minutes as real + 0.5, minutes);
    case Crisis => CrisisRounding(minutes);
    case Sleep =>
      assert minutes as real * SLEEP_MODE_MULTIPLIER == (5 * minutes) as real;
      FloorIs((5 * minutes) as real + 0.5, 5 * minutes);
  }

  /** A longer target interval never crawls more often, and CRISIS <= NORMAL <= SLEEP. */
  lemma IntervalOrder(mode: CrawlMode, m: int, n: int)
    requires 0 < m <= n
    ensures 1 <= EffectiveMinutes(mode, m) <= EffectiveMinutes(mode, n) <= 1440
    ensures EffectiveMinutes(Crisis, m) <= EffectiveMinutes(Normal, m) <= EffectiveMinutes(Sleep, m)
  {
  }

  /** NORMAL keeps the interval, SLEEP takes five times it and CRISIS the nearest number to a fifth, as long
      as a minute and a day allow. */
  lemma IntervalIs(m: int)
    requires m > 0
    ensures EffectiveMinutes(Normal, m) == if m <= 1440 then m else 1440
    ensures EffectiveMinutes(Sleep, m) == if m <= 288 then m + m + m + m + m else 1440
    ensures var fifth := EffectiveMinutes(Crisis, m);
            if m < 3 then fifth == 1 else if m >= 7200 then fifth == 1440 else -2 <= 5 * fifth - m <= 2
  {
  }

  // ---------------------------------------------------------------- floating point

  /** Bound on the relative error of one float64 rounding, with room to spare. */
  const ULP: real := 1.0 / 4503599627370496.0

  /** The largest value of the 32-bit interval column. */
  const MAX_INTERVAL := 2147483647

  ghost predicate Close(x: real, exact: real) {
    exact - exact * ULP <= x <= exact + exact * ULP
  }

  /** A float64 multiplier and a float64 product: each close to what it stands for. */
  ghost predicate FloatProduct(mode: CrawlMode, minutes: int, product: real) {
    exists multiplier: real :: Close(multiplier, ModeMultiplier(mode)) && Close(product, minutes as real * multiplier)
  }

  lemma CloseScales(x: real, exact: real, m: real)
    requires Close(x, exact) && m >= 0.0
    ensures Close(m * x, m * exact)
  {
    assert m * (x - (exact - exact * ULP)) >= 0.0;
    assert m * (exact + exact * ULP - x) >= 0.0;
  }

  /** Two roundings of a value up to five times the column's largest leave it less than a tenth off. */
  lemma TwoRoundings(exact: real, rough: real, product: real)
    requires 0.0 <= exact <= 10737418235.0 && Close(rough, exact) && Close(product, rough)
    ensures exact - 0.1 < product < exact + 0.1
  {
    assert 0.0 <= exact * ULP <= 10737418235.0 * ULP;
    assert 10737418235.0 * ULP < 0.01;
    assert 0.0 <= rough <= 20000000000.0;
    assert 0.0 <= rough * ULP <= 20000000000.0 * ULP;
    assert 20000000000.0 * ULP < 0.01;
  }

  lemma CloseProductIsNear(m: real, ideal: real, multiplier: real, product: real)
    requires m >= 0.0 && 0.0 <= m * ideal <= 10737418235.0
    requires Close(multiplier, ideal) && Close(product, m * multiplier)
    ensures m * ideal - 0.1 < product < m * ideal + 0.1
  {
    CloseScales(multiplier, ideal, m);
    TwoRoundings(m * ideal, m * multiplier, product);
  }

  lemma ProductIsBounded(mode: CrawlMode, minutes: int)
    requires 0 < minutes <= MAX_INTERVAL
    ensures 0.0 <= minutes as real * ModeMultiplier(mode) <= 10737418235.0
  {
    match mode
    case Normal => assert minutes as real * 1.0 == minutes as real;
    case Crisis => assert minutes as real * 0.2 <= minutes as real;
    case Sleep => assert minutes as real * 5.0 <= 10737418235.0;
  }

  /** On the whole range of the column the computed product is less than a tenth off. */
  lemma ProductIsNear(mode: CrawlMode, minutes: int, product: real)
    requires 0 < minutes <= MAX_INTERVAL && FloatProduct(mode, minutes, product)
    ensures var exact := minutes as real * ModeMultiplier(mode);
            exact - 0.1 < product < exact + 0.1
  {
    var multiplier: real :| Close(multiplier, ModeMultiplier(mode)) && Close(product, minutes as real * multiplier);
    var m, ideal := minutes as real, ModeMultiplier(mode);
    ProductIsBounded(mode, minutes);
    CloseProductIsNear(m, ideal, multiplier, product);
  }

  /** A value less than a tenth off a product rounds as the product does: a product with a fifth is
      never nearer than that to a tie. */
  lemma NearRounds(mode: CrawlMode, minutes: int, x: real)
    requires minutes > 0
    requires minutes as real * ModeMultiplier(mode) - 0.1 < x < minutes as real * ModeMultiplier(mode) + 0.1
    ensures Round(x) == Round(minutes as real * ModeMultiplier(mode))
  {
    var exact := minutes as real * ModeMultiplier(mode);
    match mode
    case Normal =>
      FloorIs(exact + 0.5, minutes);
      FloorIs(x + 0.5, minutes);
    case Sleep =>
      assert exact == (5 * minutes) as real;
      FloorIs(exact + 0.5, 5 * minutes);
      FloorIs(x + 0.5, 5 * minutes);
    case Crisis =>
      var q, r := minutes / 5, minutes % 5;
      assert minutes == 5 * q + r && exact == q as real + r as real * 0.2;
      if r <= 2 {
        FloorIs(exact + 0.5, q);
        FloorIs(x + 0.5, q);
      } else {
        FloorIs(exact + 0.5, q + 1);
        FloorIs(x + 0.5, q + 1);
      }
  }

  /** So float64 arithmetic gives the whole-number form on the whole range of the column. */
  lemma FloatGivesEffectiveMinutes(mode: CrawlMode, minutes: int, product: real)
    requires 0 < minutes <= MAX_INTERVAL && FloatProduct(mode, minutes, product)
    ensures Clamp(Round(product)) == EffectiveMinutes(mode, minutes)
  {
    ProductIsNear(mode, minutes, product);
    NearRounds(mode, minutes, product);
    RoundedProduct(mode, minutes);
  }
}
