/** Properties of the retry delays and of the verdict on an attempt. */
module RetrySchedule {
  import opened Wrappers
  import opened Decimals
  import opened Tables
  import opened Transactions
  import opened Retry

  /** retry_delays_seconds and retry_jitter_ratio as configured. */
  const DELAYS: seq<nat> := [30, 120, 600, 3600, 21600]
  const JITTER: real := 0.2

  predicate Sample(x: real) {
    0.0 <= x < 1.0
  }

  lemma Shrinks(whole: real, sample: real)
    requires whole >= 0.0 && Sample(sample)
    ensures 0.0 <= whole * sample <= whole
  {
    assert whole - whole * sample == whole * (1.0 - sample);
  }

  lemma ProductNonNegative(a: real, b: real)
    requires a >= 0.0 && b >= 0.0
    ensures a * b >= 0.0
  {
  }

  lemma FloorMonotone(a: real, b: real)
    requires a <= b
    ensures a.Floor <= b.Floor
  {
  }

  function JitterCap(base: nat, ratio: real): int {
    (base as real * ratio).Floor
  }

  /** The jitter is between nothing and the full share. */
  lemma JitterBounds(base: nat, ratio: real, sample: real)
    requires ratio >= 0.0 && Sample(sample)
    ensures 0 <= Jitter(base, ratio, sample) <= JitterCap(base, ratio)
  {
    var whole := base as real * ratio;
    ProductNonNegative(base as real, ratio);
    Shrinks(whole, sample);
    FloorMonotone(0.0, whole * sample);
    FloorMonotone(whole * sample, whole);
    assert base as real * ratio * sample == whole * sample;
  }

  /** Any schedule, any jitter draw: at least the base delay, at most base plus the jitter share. */
  lemma DelayBounds(n: nat, delays: seq<nat>, ratio: real, retryAfter: Option<nat>, sample: real)
    requires |delays| > 0 && ratio >= 0.0 && Sample(sample)
    ensures
      var base := BaseDelay(n, delays);
      var cap := base + JitterCap(base, ratio);
      var delay := RetryDelay(n, delays, ratio, retryAfter, sample);
      && base <= delay
      && (retryAfter.None? ==> delay <= cap)
      && (retryAfter.Some? ==> Min(retryAfter.value, RETRY_AFTER_CAP) <= delay <= Max(cap, RETRY_AFTER_CAP))
      && (retryAfter.Some? ==> delay == Min(retryAfter.value, RETRY_AFTER_CAP) || delay <= cap)
  {
    JitterBounds(BaseDelay(n, delays), ratio, sample);
  }

  /** The configured delay after failed attempt n lies in a window of its own. */
  lemma ConfiguredWindow(n: nat, sample: real)
    requires 1 <= n && Sample(sample)
    ensures
      var delay := RetryDelay(n, DELAYS, JITTER, None, sample);
      && (n == 1 ==> 30 <= delay <= 36)
      && (n == 2 ==> 120 <= delay <= 144)
      && (n == 3 ==> 600 <= delay <= 720)
      && (n == 4 ==> 3600 <= delay <= 4320)
      && (n >= 5 ==> 21600 <= delay <= 25920)
  {
    DelayBounds(n, DELAYS, JITTER, None, sample);
  }

  /** Whatever the receiver asks for, the configured delay stays between its base and 25920 seconds. */
  lemma ConfiguredDelayBounds(n: nat, retryAfter: Option<nat>, sample: real)
    requires 1 <= n && Sample(sample)
    ensures BaseDelay(n, DELAYS) <= RetryDelay(n, DELAYS, JITTER, retryAfter, sample) <= 25920
    ensures retryAfter.Some? ==>
              Min(retryAfter.value, 21600) <= RetryDelay(n, DELAYS, JITTER, retryAfter, sample)
  {
    DelayBounds(n, DELAYS, JITTER, retryAfter, sample);
    assert BaseDelay(n, DELAYS) <= 21600;
    assert (BaseDelay(n, DELAYS) as real * JITTER) <= 4320.0;
  }

  /** Without Retry-After every delay is longer than the one before, whatever is drawn. */
  lemma DelaysIncrease(m: nat, n: nat, first: real, second: real)
    requires 1 <= m < n <= 5 && Sample(first) && Sample(second)
    ensures RetryDelay(m, DELAYS, JITTER, None, first) < RetryDelay(n, DELAYS, JITTER, None, second)
  {
    ConfiguredWindow(m, first);
    ConfiguredWindow(n, second);
  }

  function TotalDelay(samples: seq<real>): int {
    if samples == [] then 0
    else TotalDelay(samples[..|samples| - 1])
         + RetryDelay(|samples|, DELAYS, JITTER, None, samples[|samples| - 1])
  }

  /** Six ordinary failures schedule five delays, 25950 to 31140 seconds in all. */
  lemma SixFailures(samples: seq<real>)
    requires |samples| == 5 && forall i :: 0 <= i < 5 ==> Sample(samples[i])
    ensures 25950 <= TotalDelay(samples) <= 31140
  {
    assert samples[..4][..3] == samples[..3] && samples[..3][..2] == samples[..2] && samples[..2][..1] == samples[..1];
    forall n: nat | 1 <= n <= 5
      ensures TotalDelay(samples[..n])
           == TotalDelay(samples[..n - 1]) + RetryDelay(n, DELAYS, JITTER, None, samples[n - 1])
    {
      assert samples[..n][..n - 1] == samples[..n - 1];
    }
    assert samples[..5] == samples;
    ConfiguredWindow(1, samples[0]);
    ConfiguredWindow(2, samples[1]);
    ConfiguredWindow(3, samples[2]);
    ConfiguredWindow(4, samples[3]);
    ConfiguredWindow(5, samples[4]);
  }

  // --- Retry-After ------------------------------------------------------------------------------------

  function Zeros(k: nat): string {
    if k == 0 then "" else Zeros(k - 1) + "0"
  }

  lemma {:induction false} LeadingZeros(k: nat, s: string)
    requires AllDigits(s)
    ensures AllDigits(Zeros(k) + s) && DecimalValue(Zeros(k) + s) == DecimalValue(s)
    decreases k, |s|
  {
    if s != "" {
      LeadingZeros(k, s[..|s| - 1]);
      assert (Zeros(k) + s)[..|Zeros(k) + s| - 1] == Zeros(k) + s[..|s| - 1];
    } else if k > 0 {
      LeadingZeros(k - 1, s);
      assert (Zeros(k) + s)[..k - 1] == Zeros(k - 1) + s && |Zeros(k)| == k by {
        ZerosLength(k);
        ZerosLength(k - 1);
      }
    } else {
      assert Zeros(0) + s == s;
    }
  }

  lemma {:induction false} ZerosLength(k: nat)
    ensures |Zeros(k)| == k
  {
    if k > 0 {
      ZerosLength(k - 1);
    }
  }

  lemma DigitBack(c: char)
    requires IsDigit(c)
    ensures Digit(DigitValue(c)) == c && DigitValue(c) < 10
  {
  }

  lemma AppendDigit(m: nat, c: char)
    requires IsDigit(c)
    ensures m > 0 ==> Decimal(m) + [c] == Decimal(10 * m + DigitValue(c))
    ensures m == 0 ==> Decimal(m) + [c] == "0" + Decimal(DigitValue(c))
  {
    DigitBack(c);
  }

  /** Every text of digits is a number's notation after some leading zeros. */
  lemma {:induction false} DigitsAreNumerals(s: string) returns (k: nat, n: nat)
    requires s != "" && AllDigits(s)
    ensures s == Zeros(k) + Decimal(n)
  {
    var init, c := s[..|s| - 1], s[|s| - 1];
    assert s == init + [c];
    DigitBack(c);
    if init == "" {
      k, n := 0, DigitValue(c);
    } else {
      var i, m := DigitsAreNumerals(init);
      AppendDigit(m, c);
      assert s == Zeros(i) + (Decimal(m) + [c]);
      k, n := if m == 0 then i + 1 else i, 10 * m + DigitValue(c);
      assert Zeros(i + 1) + Decimal(DigitValue(c)) == Zeros(i) + ("0" + Decimal(DigitValue(c)));
    }
  }

  /**
   A delay in seconds is taken as written, with or without leading zeros, and capped at six hours. By
   DigitsAreNumerals this is every text of digits.
   */
  lemma RetryAfterSeconds(zeros: nat, n: nat, date: Option<int>, now: int)
    ensures ParseRetryAfter(Some(Zeros(zeros) + Decimal(n)), date, now) == Some(Min(n, RETRY_AFTER_CAP))
  {
    DecimalRoundTrip(n);
    LeadingZeros(zeros, Decimal(n));
  }

  /** A missing, empty or unreadable header asks for nothing. */
  lemma RetryAfterMissing(text: string, date: Option<int>, now: int)
    ensures ParseRetryAfter(None, date, now) == None && ParseRetryAfter(Some(""), date, now) == None
    ensures text != "" && !AllDigits(text) ==> ParseRetryAfter(Some(text), None, now) == None
  {
  }

  /** A date in the past asks for no delay, one in the future for the whole seconds until then. */
  lemma RetryAfterDate(text: string, at: int, now: int)
    requires text != "" && !AllDigits(text)
    ensures
      var r := ParseRetryAfter(Some(text), Some(at), now);
      && r.Some?
      && (at <= now ==> r.value == 0)
      && (at >= now ==> r.value * MICROS <= at - now)
      && (at >= now && r.value < RETRY_AFTER_CAP ==> at - now < (r.value + 1) * MICROS)
  {
  }
}
