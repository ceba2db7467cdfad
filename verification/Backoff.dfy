/** Retry scheduling (worker.go, `New`, `fullJitter` and `parseRetryAfter`). */
module Backoff {
  import opened Prelude
  import opened Text

  const NANOS_PER_SECOND: int64 := 1_000_000_000
  const MAX_DURATION: int64 := 0x7FFF_FFFF_FFFF_FFFF
  const DEFAULT_BASE_RETRY: int64 := NANOS_PER_SECOND
  const DEFAULT_MAX_RETRY: int64 := 5 * 60 * NANOS_PER_SECOND
  const DEFAULT_RETRY_AFTER_CAP: int64 := 60 * 60 * NANOS_PER_SECOND
  const DEFAULT_OPERATOR_RETRY_LIMIT: int := 6
  const MINIMUM_RETRY_DELAY: int64 := 1_000_000

  datatype Options = Options(baseRetry: int64, maxRetry: int64, retryAfterCap: int64, operatorRetryLimit: int)

  /** The normalisation `New` applies to the scheduling options. */
  function Normalized(o: Options): (r: Options)
    ensures 0 < r.baseRetry <= r.maxRetry && r.retryAfterCap > 0 && r.operatorRetryLimit > 0
    ensures 0 < o.baseRetry <= o.maxRetry && o.retryAfterCap > 0 && o.operatorRetryLimit > 0 ==> r == o
  {
    var base := if o.baseRetry <= 0 then DEFAULT_BASE_RETRY else o.baseRetry;
    var max := if o.maxRetry <= 0 then DEFAULT_MAX_RETRY else o.maxRetry;
    Options(if base > max then max else base, max,
            if o.retryAfterCap <= 0 then DEFAULT_RETRY_AFTER_CAP else o.retryAfterCap,
            if o.operatorRetryLimit <= 0 then DEFAULT_OPERATOR_RETRY_LIMIT else o.operatorRetryLimit)
  }

  function Pow2(n: nat): nat {
    if n == 0 then 1 else 2 * Pow2(n - 1)
  }

  /**
   The doubled delay in closed form. One doubling short of an odd maximum the
   delay already counts as the maximum, hence the parity term.
   */
  function Ceiling(base: int, max: int, attempts: nat): int {
    var doubled := base * Pow2(attempts);
    if attempts > 0 && doubled + max % 2 >= max then max else doubled
  }

  lemma {:induction false} ScaledMonotone(base: int, m: nat, n: nat)
    requires base > 0 && m <= n
    ensures base <= base * Pow2(m) <= base * Pow2(n)
    decreases n, m
  {
    if m < n {
      ScaledMonotone(base, m, n - 1);
      DoubledAgain(base, n - 1);
    } else if n > 0 {
      ScaledMonotone(base, n - 1, n - 1);
      DoubledAgain(base, n - 1);
    }
  }

  lemma DoubledAgain(base: int, n: nat)
    ensures base * Pow2(n + 1) == 2 * (base * Pow2(n))
  {
  }

  /** The doubling loop; it stops at the maximum before a doubling could overflow. */
  method DoubledDelay(attempts: nat, base: int64, max: int64) returns (delay: int64)
    requires 0 < base <= max
    ensures delay as int == Ceiling(base as int, max as int, attempts)
    ensures base <= delay <= max
  {
    delay := base;
    var i := 0;
    while i < attempts
      invariant 0 <= i <= attempts
      invariant delay as int == base as int * Pow2(i)
      invariant i > 0 ==> delay as int + max as int % 2 < max as int
      invariant base <= delay <= max
    {
      if delay >= max / 2 {
        DoubledAgain(base as int, i);
        ScaledMonotone(base as int, i + 1, attempts);
        delay := max;
        break;
      }
      DoubledAgain(base as int, i);
      delay := delay * 2;
      i := i + 1;
    }
    if delay > max { delay := max; }
  }

  /** More attempts never shorten the delay. */
  lemma CeilingIsMonotone(base: int, max: int, m: nat, n: nat)
    requires 0 < base <= max && m <= n
    ensures Ceiling(base, max, m) <= Ceiling(base, max, n)
  {
    ScaledMonotone(base, m, n);
  }

  /** It is `min(max, base * 2^attempts)`, exactly for an even maximum, else up to one nanosecond more. */
  lemma CeilingIsCappedDoubling(base: int, max: int, attempts: nat)
    requires 0 < base <= max
    ensures var ideal := Min(max, base * Pow2(attempts));
      && ideal <= Ceiling(base, max, attempts) <= ideal + 1
      && (max % 2 == 0 ==> Ceiling(base, max, attempts) == ideal)
      && (Ceiling(base, max, attempts) == ideal + 1 <==> attempts > 0 && base * Pow2(attempts) == max - 1)
  {
    if attempts > 0 { DoubledAgain(base, attempts - 1); }
  }

  /**
   The delay a Retry-After value asks for, 0 if it asks for none that counts.
   `httpDate` is what `http.ParseTime` makes of the trimmed value.
   */
  function ParseRetryAfter(value: string, now: Time, httpDate: Option<Time>): (delay: int64)
    ensures delay >= 0
  {
    var trimmed := TrimSpace(value);
    if trimmed == "" then 0
    else match ParseInt64(trimmed)
      case Some(seconds) =>
        if seconds <= 0 || seconds > MAX_DURATION / NANOS_PER_SECOND then 0 else seconds * NANOS_PER_SECOND
      case None =>
        if httpDate.None? || httpDate.value <= now then 0
        else Min(httpDate.value - now, MAX_INT64) as int64
  }

  lemma {:induction false} DigitsAreNotTrimmed(s: string)
    requires AllDigits(s)
    ensures TrimSpace(s) == s
  {
  }

  /**
   delay-seconds of section 10.2.3 of RFC 9110 is a string of digits: it is
   honoured to the second from 1 to 9223372036 and ignored otherwise.
   */
  lemma DelaySecondsAreHonoured(digits: string, now: Time)
    requires digits != "" && AllDigits(digits)
    ensures var n := DigitsValue(digits);
      ParseRetryAfter(digits, now, None) as int == if 1 <= n <= 9223372036 then n * 1_000_000_000 else 0
  {
    DigitsAreNotTrimmed(digits);
  }

  /** The same with white space around it. */
  lemma PaddedDelayIsHonoured(before: string, digits: string, after: string, now: Time)
    requires digits != "" && AllDigits(digits) && AllSpace(before) && AllSpace(after)
    ensures var n := DigitsValue(digits);
      ParseRetryAfter(before + digits + after, now, None) as int == if 1 <= n <= 9223372036 then n * 1_000_000_000 else 0
  {
    assert IsDigit(digits[0]) && IsDigit(digits[|digits| - 1]);
    TrimPadded(before, digits, after);
    DigitsAreNotTrimmed(digits);
    DelaySecondsAreHonoured(digits, now);
    hide TrimSpace, DigitsValue, ParseInt64;
  }

  /** A blank value asks for nothing. */
  lemma BlankAsksForNothing(value: string, now: Time, httpDate: Option<Time>)
    requires AllSpace(value)
    ensures ParseRetryAfter(value, now, httpDate) == 0
  {
    TrimBlank(value);
    hide TrimSpace;
  }

  /** Nor does a number that is not positive or too large, nor what is neither number nor date. */
  lemma OthersAskForNothing(value: string, now: Time, httpDate: Option<Time>)
    requires match ParseInt64(TrimSpace(value)) case Some(n) => n <= 0 || n > 9223372036 case None => httpDate.None?
    ensures ParseRetryAfter(value, now, httpDate) == 0
  {
    hide TrimSpace, ParseInt64;
  }

  /** A date, which is no number, asks to wait until then; one that has passed asks for nothing. */
  lemma DateIsHonoured(value: string, now: Time, date: Time)
    requires !AllSpace(value) && ParseInt64(TrimSpace(value)).None?
    ensures ParseRetryAfter(value, now, Some(date)) as int == Min(Max(date - now, 0), MAX_INT64)
  {
    var before, after := TrimSpaceSplits(value);
    assert TrimSpace(value) == "" ==> value == before + after;
    hide TrimSpace, ParseInt64;
  }

  /** `fullJitter`; `jitter` scales a delay by the random factor. */
  method FullJitter(attempts: nat, now: Time, retryAfter: string, httpDate: Option<Time>, config: Options, jitter: int64 -> int64)
    returns (at: Time)
    requires config == Normalized(config)
    requires forall d: int64 :: d >= 0 ==> 0 <= jitter(d) <= d
    ensures at == RetryAt(attempts, now, retryAfter, httpDate, config, jitter)
  {
    var delay := DoubledDelay(attempts, config.baseRetry, config.maxRetry);
    delay := jitter(delay);
    var retryDelay := ParseRetryAfter(retryAfter, now, httpDate);
    if retryDelay > config.retryAfterCap { retryDelay := config.retryAfterCap; }
    if retryDelay > delay { delay := retryDelay; }
    if delay < MINIMUM_RETRY_DELAY { delay := MINIMUM_RETRY_DELAY; }
    at := now + delay as int;
  }

  lemma CeilingInRange(base: int, max: int, attempts: nat)
    requires 0 < base <= max
    ensures base <= Ceiling(base, max, attempts) <= max
  {
    CeilingIsCappedDoubling(base, max, attempts);
    ScaledMonotone(base, 0, attempts);
  }

  /** The persisted retry time: the longest of the jittered delay, the capped Retry-After and the minimum. */
  function RetryAt(attempts: nat, now: Time, retryAfter: string, httpDate: Option<Time>, config: Options, jitter: int64 -> int64): Time
    requires config == Normalized(config)
  {
    CeilingInRange(config.baseRetry as int, config.maxRetry as int, attempts);
    var jittered := jitter(Ceiling(config.baseRetry as int, config.maxRetry as int, attempts) as int64) as int;
    var asked := Min(ParseRetryAfter(retryAfter, now, httpDate) as int, config.retryAfterCap as int);
    now + Max(Max(jittered, asked), MINIMUM_RETRY_DELAY as int)
  }

  /** A retry never spins, never undercuts an honoured Retry-After, and never stalls the head for long. */
  lemma RetryTimeIsBounded(attempts: nat, now: Time, retryAfter: string, httpDate: Option<Time>, config: Options, jitter: int64 -> int64)
    requires config == Normalized(config)
    requires forall d: int64 :: d >= 0 ==> 0 <= jitter(d) <= d
    ensures var at := RetryAt(attempts, now, retryAfter, httpDate, config, jitter);
      && at >= now + MINIMUM_RETRY_DELAY as int
      && at >= now + Min(ParseRetryAfter(retryAfter, now, httpDate) as int, config.retryAfterCap as int)
      && at <= now + Max(Max(config.maxRetry as int, config.retryAfterCap as int), MINIMUM_RETRY_DELAY as int)
  {
    CeilingInRange(config.baseRetry as int, config.maxRetry as int, attempts);
  }
}
