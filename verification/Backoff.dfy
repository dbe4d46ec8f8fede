/**
 Retry backoff: the configuration bounds, one step of the jittered exponential backoff in
 64-bit durations, and the exact schedule and total waiting time that repeated steps give.
 */
module Backoff {
  import opened Values

  /** time.Duration: a signed 64-bit count of nanoseconds. Every operation on it is checked for overflow. */
  newtype Duration = x: int | -0x8000_0000_0000_0000 <= x < 0x8000_0000_0000_0000

  const MINIMUM_RETRY_BACKOFF: Duration := 100_000_000       // 100ms
  const DEFAULT_MAX_RETRY_BACKOFF: Duration := 15_000_000_000 // 15s

  datatype Config = Config(minRetryBackoff: Duration, maxRetryBackoff: Duration) {
    /** The bounds the backoff needs; weaker than what validation grants. */
    ghost predicate Ordered() {
      0 < minRetryBackoff <= maxRetryBackoff
    }
  }

  const DEFAULT_CONFIG := Config(MINIMUM_RETRY_BACKOFF, DEFAULT_MAX_RETRY_BACKOFF)

  datatype ConfigError = MinimumTooSmall | MaximumNotPositive | MinimumExceedsMaximum

  function Validate(c: Config): Option<ConfigError> {
    if c.minRetryBackoff < MINIMUM_RETRY_BACKOFF then Some(MinimumTooSmall)
    else if c.maxRetryBackoff <= 0 then Some(MaximumNotPositive)
    else if c.minRetryBackoff > c.maxRetryBackoff then Some(MinimumExceedsMaximum)
    else None
  }

  /** The configuration openWormhole runs with: defaults only when both bounds are unset. */
  function EffectiveConfig(c: Config): Result<Config, ConfigError> {
    var chosen := if c.minRetryBackoff == 0 && c.maxRetryBackoff == 0 then DEFAULT_CONFIG else c;
    match Validate(chosen)
    case Some(e) => Err(e)
    case None => Ok(chosen)
  }

  /**
   A configuration is accepted exactly when both bounds are unset or 100ms <= min <= max;
   an accepted one always establishes what the backoff needs, and accepting it again
   changes nothing.
   */
  lemma EffectiveConfigIsOrdered(c: Config)
    ensures EffectiveConfig(c).Ok? <==>
            (c.minRetryBackoff == c.maxRetryBackoff == 0 || 100_000_000 <= c.minRetryBackoff <= c.maxRetryBackoff)
    ensures EffectiveConfig(c).Ok? ==>
              var used := EffectiveConfig(c).value;
              && used.Ordered()
              && used.minRetryBackoff >= MINIMUM_RETRY_BACKOFF
              && EffectiveConfig(used) == Ok(used)
    ensures c.maxRetryBackoff == 0 && c.minRetryBackoff >= MINIMUM_RETRY_BACKOFF ==>
              EffectiveConfig(c) == Err(MaximumNotPositive)
  {
    assert Validate(DEFAULT_CONFIG) == None;
  }

  /** Which complaint a rejected configuration gets: the first of the three that applies. */
  lemma ConfigErrorIff(c: Config)
    ensures EffectiveConfig(c) == Err(MinimumTooSmall) <==>
            c.minRetryBackoff < 100_000_000 && !(c.minRetryBackoff == c.maxRetryBackoff == 0)
    ensures EffectiveConfig(c) == Err(MaximumNotPositive) <==>
            c.minRetryBackoff >= 100_000_000 && c.maxRetryBackoff <= 0
    ensures EffectiveConfig(c) == Err(MinimumExceedsMaximum) <==>
            c.minRetryBackoff >= 100_000_000 && c.minRetryBackoff > c.maxRetryBackoff > 0
  {
    assert Validate(DEFAULT_CONFIG) == None;
  }

  /** The two flags, each with the value it was given by the command line, the environment or a file. */
  datatype Flags = Flags(minRetryBackoff: Option<Duration>, maxRetryBackoff: Option<Duration>)

  function OrDefault(given: Option<Duration>, default: Duration): Duration {
    if given.Some? then given.value else default
  }

  /** A flag that was not given has its own default. */
  function FlagConfig(flags: Flags): Config {
    Config(OrDefault(flags.minRetryBackoff, DEFAULT_CONFIG.minRetryBackoff),
           OrDefault(flags.maxRetryBackoff, DEFAULT_CONFIG.maxRetryBackoff))
  }

  /**
   What the flags amount to. Without flags the defaults are used; a minimum alone is
   accepted exactly between 100ms and 15s, and a maximum alone exactly from 100ms on. Two
   explicit zeros mean the defaults; an explicit zero for one flag is never accepted otherwise.
   */
  lemma FlagsAreAcceptedIff(flags: Flags)
    ensures EffectiveConfig(FlagConfig(flags)).Ok? <==>
            || flags == Flags(Some(0), Some(0))
            || match flags
               case Flags(None, None) => true
               case Flags(Some(minimum), None) => 100_000_000 <= minimum <= 15_000_000_000
               case Flags(None, Some(maximum)) => 100_000_000 <= maximum
               case Flags(Some(minimum), Some(maximum)) => 100_000_000 <= minimum <= maximum
    ensures EffectiveConfig(FlagConfig(flags)).Ok? ==>
              EffectiveConfig(FlagConfig(flags)).value ==
              if flags == Flags(Some(0), Some(0)) then DEFAULT_CONFIG else FlagConfig(flags)
  {
    EffectiveConfigIsOrdered(FlagConfig(flags));
  }

  // ---------- One step ----------

  /** Doubling that saturates at the bounds, on unbounded integers. */
  function Grown(previous: int, minimum: int, maximum: int): int {
    Min(maximum, Max(minimum, if previous > 0 then 2 * previous else minimum))
  }

  function Clamped(jitter: real): real {
    if jitter < 0.0 then 0.0 else if jitter > 1.0 then 1.0 else jitter
  }

  /** Go's conversion of a float to an integer truncates toward zero. */
  function Truncated(r: real): int {
    if r >= 0.0 then r.Floor else -((-r).Floor)
  }

  function Part(whole: real, share: real): real {
    whole * share
  }

  /** The part of a backoff that a jitter value in [0, 1] takes off: at most a tenth. */
  function Cut(backoff: int, jitterValue: real): int {
    Truncated(Part(backoff as real * 0.1, 1.0 - jitterValue))
  }

  /** The delay drawn for a backoff: the cut is taken off, then the bounds are applied. */
  function Jittered(backoff: int, minimum: int, maximum: int, jitter: real): int {
    Min(maximum, Max(minimum, backoff - Cut(backoff, Clamped(jitter))))
  }

  lemma PartBounds(x: real, p: real, q: real)
    requires 0.0 <= q <= p <= 1.0
    ensures x >= 0.0 ==> 0.0 <= Part(x, q) <= Part(x, p) <= x
    ensures x <= 0.0 ==> x <= Part(x, p) <= Part(x, q) <= 0.0
  {
  }

  lemma TruncatedPart(n: int, a: real, b: real)
    requires n >= 0 ==> 0.0 <= b <= a <= n as real * 0.1
    requires n <= 0 ==> n as real * 0.1 <= a <= b <= 0.0
    ensures n >= 0 ==> 0 <= Truncated(b) <= Truncated(a) && 10 * Truncated(a) <= n
    ensures n <= 0 ==> Truncated(a) <= Truncated(b) <= 0 && n <= 10 * Truncated(a)
  {
  }

  /** The cut has the sign of the backoff, is at most a tenth of it, and shrinks as jitter grows. */
  lemma CutBounds(backoff: int, jitter: real, more: real)
    requires 0.0 <= jitter <= more <= 1.0
    ensures backoff >= 0 ==> 0 <= Cut(backoff, more) <= Cut(backoff, jitter) && 10 * Cut(backoff, jitter) <= backoff
    ensures backoff <= 0 ==> Cut(backoff, jitter) <= Cut(backoff, more) <= 0 && backoff <= 10 * Cut(backoff, jitter)
  {
    var tenth := backoff as real * 0.1;
    PartBounds(tenth, 1.0 - jitter, 1.0 - more);
    TruncatedPart(backoff, Part(tenth, 1.0 - jitter), Part(tenth, 1.0 - more));
  }

  /** The cut in full: the tenth's share that the jitter leaves, rounded down; at no jitter, a tenth rounded down. */
  lemma CutIsShareOfTenth(backoff: int, jitter: real)
    requires backoff >= 0 && 0.0 <= jitter <= 1.0
    ensures Cut(backoff, jitter) as real <= backoff as real / 10.0 * (1.0 - jitter) < Cut(backoff, jitter) as real + 1.0
    ensures jitter == 0.0 ==> Cut(backoff, jitter) == backoff / 10
  {
    var part := Part(backoff as real * 0.1, 1.0 - jitter);
    assert part >= 0.0 && Cut(backoff, jitter) == part.Floor;
    assert part == backoff as real / 10.0 * (1.0 - jitter);
    if jitter == 0.0 {
      assert part == backoff as real / 10.0;
    }
  }

  lemma FullJitterCutsNothing(backoff: int)
    ensures Cut(backoff, 1.0) == 0
  {
    assert Part(backoff as real * 0.1, 0.0) == 0.0;
  }

  /**
   nextRetryDelay. No step overflows on any 64-bit input, the guard
   "previous > maximum - previous" decides 2 * previous > maximum, and the jitter has no
   influence on the backoff that is fed back.
   */
  method NextRetryDelay(previous: Duration, minimum: Duration, maximum: Duration, jitter: real)
    returns (backoff: Duration, delay: Duration)
    ensures backoff as int == Grown(previous as int, minimum as int, maximum as int)
    ensures delay as int == Jittered(backoff as int, minimum as int, maximum as int, jitter)
    ensures 0 < minimum <= maximum ==> minimum <= delay <= backoff <= maximum && 9 * backoff as int <= 10 * delay as int
  {
    backoff := minimum;
    if previous > 0 {
      if previous >= maximum || previous > maximum - previous {
        backoff := maximum;
      } else {
        backoff := previous * 2;
      }
    }
    if backoff < minimum {
      backoff := minimum;
    }
    if backoff > maximum {
      backoff := maximum;
    }

    var jitterValue := jitter;
    if jitterValue < 0.0 {
      jitterValue := 0.0;
    } else if jitterValue > 1.0 {
      jitterValue := 1.0;
    }

    CutBounds(backoff as int, jitterValue, jitterValue);
    delay := backoff - Cut(backoff as int, jitterValue) as Duration;
    delay := if delay < minimum then minimum else delay;
    delay := if delay > maximum then maximum else delay;
  }

  /**
   Bounds on one delay. A delay never exceeds its backoff nor falls below nine tenths of
   it or below the minimum; at full jitter it is the backoff itself, and more jitter never
   shortens it.
   */
  lemma JitteredBounds(backoff: int, minimum: int, maximum: int, jitter: real, more: real)
    requires 0 < minimum <= backoff <= maximum && jitter <= more
    ensures Max(minimum, (9 * backoff + 9) / 10) <= Jittered(backoff, minimum, maximum, jitter) <= backoff
    ensures jitter >= 1.0 ==> Jittered(backoff, minimum, maximum, jitter) == backoff
    ensures jitter <= 0.0 ==> Jittered(backoff, minimum, maximum, jitter) == Max(minimum, backoff - backoff / 10)
    ensures Jittered(backoff, minimum, maximum, jitter) <= Jittered(backoff, minimum, maximum, more)
  {
    CutBounds(backoff, Clamped(jitter), Clamped(more));
    CutIsShareOfTenth(backoff, 0.0);
    FullJitterCutsNothing(backoff);
  }

  // ---------- The schedule ----------

  /** The k-th backoff (from 0) when each step is fed the one before, starting from 0. */
  function BackoffAt(c: Config, k: nat): int {
    Grown(if k == 0 then 0 else BackoffAt(c, k - 1), c.minRetryBackoff as int, c.maxRetryBackoff as int)
  }

  /** m * 2^k */
  function Doubled(m: int, k: nat): int {
    if k == 0 then m else 2 * Doubled(m, k - 1)
  }

  lemma {:induction false} DoubledGrows(m: int, i: nat, k: nat)
    requires m > 0 && i <= k
    ensures 0 < m <= Doubled(m, i) <= Doubled(m, k)
    decreases k
  {
    if i < k {
      DoubledGrows(m, i, k - 1);
    } else if k > 0 {
      DoubledGrows(m, k - 1, k - 1);
    }
  }

  /** Closed form: the k-th backoff is min(max, min * 2^k). */
  lemma {:induction false} BackoffClosedForm(c: Config, k: nat)
    requires c.Ordered()
    ensures BackoffAt(c, k) == Min(c.maxRetryBackoff as int, Doubled(c.minRetryBackoff as int, k))
    ensures c.minRetryBackoff as int <= BackoffAt(c, k) <= c.maxRetryBackoff as int
  {
    DoubledGrows(c.minRetryBackoff as int, 0, k);
    if k > 0 {
      BackoffClosedForm(c, k - 1);
    }
  }

  function Sum(s: seq<Duration>): int {
    if s == [] then 0 else Sum(s[..|s| - 1]) + s[|s| - 1] as int
  }

  /** Total of the first n backoffs. */
  function BackoffSum(c: Config, n: nat): int {
    if n == 0 then 0 else BackoffSum(c, n - 1) + BackoffAt(c, n - 1)
  }

  /** n times x, by repeated addition. */
  function Times(n: nat, x: int): int {
    if n == 0 then 0 else Times(n - 1, x) + x
  }

  lemma {:induction false} TimesIsProduct(n: nat, x: int)
    ensures Times(n, x) == n * x
  {
    if n > 0 {
      TimesIsProduct(n - 1, x);
    }
  }

  /** The delay at each index: the k-th backoff, jittered by the k-th draw alone. */
  ghost function Schedule(c: Config, jitter: nat -> real): nat -> int {
    (k: nat) => Jittered(BackoffAt(c, k), c.minRetryBackoff as int, c.maxRetryBackoff as int, jitter(k))
  }

  ghost predicate Follows(sleeps: seq<Duration>, schedule: nat -> int) {
    forall k: nat | k < |sleeps| :: sleeps[k] as int == schedule(k)
  }

  /** Two runs agree on their k-th sleep whenever they draw the same k-th jitter, whatever was drawn before. */
  lemma JitterHistoryIsIrrelevant(one: seq<Duration>, two: seq<Duration>, c: Config,
                                  j1: nat -> real, j2: nat -> real, k: nat)
    requires Follows(one, Schedule(c, j1)) && Follows(two, Schedule(c, j2))
    requires k < |one| && k < |two| && j1(k) == j2(k)
    ensures one[k] == two[k]
  {
    assert Schedule(c, j1)(k) == Schedule(c, j2)(k);
  }

  lemma FollowsExtended(sleeps: seq<Duration>, delay: Duration, schedule: nat -> int)
    requires Follows(sleeps, schedule) && delay as int == schedule(|sleeps|)
    ensures Follows(sleeps + [delay], schedule)
  {
  }

  /**
   Total waiting time. Whatever the jitter, the first n sleeps take between nine tenths of
   the backoff total and the backoff total, never less than n times the minimum, and the
   first sleep is exactly the minimum.
   */
  lemma {:induction false} TotalWait(sleeps: seq<Duration>, c: Config, jitter: nat -> real)
    requires c.Ordered() && Follows(sleeps, Schedule(c, jitter))
    ensures 9 * BackoffSum(c, |sleeps|) <= 10 * Sum(sleeps)
    ensures Sum(sleeps) <= BackoffSum(c, |sleeps|)
    ensures Times(|sleeps|, c.minRetryBackoff as int) <= Sum(sleeps)
    ensures sleeps != [] ==> sleeps[0] == c.minRetryBackoff
  {
    if sleeps != [] {
      var n := |sleeps| - 1;
      TotalWait(sleeps[..n], c, jitter);
      BackoffClosedForm(c, n);
      JitteredBounds(BackoffAt(c, n), c.minRetryBackoff as int, c.maxRetryBackoff as int, jitter(n), jitter(n));
    }
  }

  lemma {:induction false} TimesIsMonotonic(n: nat, x: int, y: int)
    requires x <= y
    ensures Times(n, x) <= Times(n, y)
  {
    if n > 0 {
      TimesIsMonotonic(n - 1, x, y);
    }
  }

  /** With a configuration openWormhole accepted, n retries wait at least n times 100ms. */
  lemma AcceptedConfigWait(given: Config, sleeps: seq<Duration>, jitter: nat -> real)
    requires EffectiveConfig(given).Ok? && Follows(sleeps, Schedule(EffectiveConfig(given).value, jitter))
    ensures Sum(sleeps) >= Times(|sleeps|, 100_000_000)
  {
    var c := EffectiveConfig(given).value;
    EffectiveConfigIsOrdered(given);
    TotalWait(sleeps, c, jitter);
    TimesIsMonotonic(|sleeps|, 100_000_000, c.minRetryBackoff as int);
  }

  /** Until a backoff passes the maximum, the first n of them add up to min * (2^n - 1). */
  lemma {:induction false} BackoffSumBeforeSaturation(c: Config, n: nat)
    requires c.Ordered()
    requires n == 0 || Doubled(c.minRetryBackoff as int, n - 1) <= c.maxRetryBackoff as int
    ensures BackoffSum(c, n) == Doubled(c.minRetryBackoff as int, n) - c.minRetryBackoff as int
  {
    if n > 0 {
      if n > 1 {
        DoubledGrows(c.minRetryBackoff as int, n - 2, n - 1);
      }
      BackoffSumBeforeSaturation(c, n - 1);
      BackoffClosedForm(c, n - 1);
    }
  }

  /**
   The backoff total in full: min * (2^m - 1) for the m backoffs before the maximum is
   reached, then one maximum for each further one.
   */
  lemma {:induction false} BackoffSumClosedForm(c: Config, m: nat, n: nat)
    requires c.Ordered() && m <= n
    requires m == 0 || Doubled(c.minRetryBackoff as int, m - 1) <= c.maxRetryBackoff as int
    requires m < n ==> Doubled(c.minRetryBackoff as int, m) >= c.maxRetryBackoff as int
    ensures BackoffSum(c, n) ==
            Doubled(c.minRetryBackoff as int, m) - c.minRetryBackoff as int + Times(n - m, c.maxRetryBackoff as int)
    decreases n
  {
    if n == m {
      BackoffSumBeforeSaturation(c, n);
    } else {
      BackoffSumClosedForm(c, m, n - 1);
      BackoffClosedForm(c, n - 1);
      DoubledGrows(c.minRetryBackoff as int, m, n - 1);
    }
  }
}
