/**
 The process-local token buckets (src/webhook_platform/shared/infrastructure/rate_limit.py). Tokens,
 rates and clock readings are reals.
 */
module RateLimit {
  import opened Wrappers

  datatype Bucket = Bucket(tokens: real, updatedAt: real)

  function Lesser(a: real, b: real): real {
    if a <= b then a else b
  }

  function Greater(a: real, b: real): real {
    if a >= b then a else b
  }

  /** Tokens in the bucket of a key at time `now`; a new key starts with a full bucket. */
  function Level(buckets: map<string, Bucket>, key: string, rate: real, capacity: nat, now: real): real {
    if key in buckets
    then Lesser(capacity as real, buckets[key].tokens + Greater(0.0, now - buckets[key].updatedAt) * rate)
    else capacity as real
  }

  /** ceil(x) */
  function Ceiling(x: real): int {
    -((-x).Floor)
  }

  class InMemoryRateLimiter {
    var buckets: map<string, Bucket>

    constructor ()
      ensures buckets == map[]
    {
      buckets := map[];
    }

    /** Take one token or say how many seconds to wait. */
    method Require(key: string, rate: real, capacity: nat, now: real) returns (r: Result<Unit, int>)
      requires rate > 0.0
      modifies this
      ensures buckets == After(old(buckets), Call(key, rate, capacity, now))
      ensures r.Ok? <==> Admits(old(buckets), Call(key, rate, capacity, now))
      ensures r.Err? ==> r.error == RetryAfter(Level(old(buckets), key, rate, capacity, now), rate)
    {
      var bucket := if key in buckets then buckets[key] else Bucket(capacity as real, now);
      var elapsed := Greater(0.0, now - bucket.updatedAt);
      bucket := bucket.(tokens := Lesser(capacity as real, bucket.tokens + elapsed * rate), updatedAt := now);
      if bucket.tokens >= 1.0 {
        bucket := bucket.(tokens := bucket.tokens - 1.0);
        buckets := buckets[key := bucket];
        return Ok(Unit);
      }
      buckets := buckets[key := bucket];
      var wait := Ceiling((1.0 - bucket.tokens) / rate);
      return Err(if wait < 1 then 1 else wait);
    }
  }

  datatype Call = Call(key: string, rate: real, capacity: nat, now: real)

  predicate Admits(buckets: map<string, Bucket>, c: Call) {
    Level(buckets, c.key, c.rate, c.capacity, c.now) >= 1.0
  }

  function After(buckets: map<string, Bucket>, c: Call): map<string, Bucket> {
    var level := Level(buckets, c.key, c.rate, c.capacity, c.now);
    buckets[c.key := Bucket(if level >= 1.0 then level - 1.0 else level, c.now)]
  }

  function RetryAfter(level: real, rate: real): int
    requires rate > 0.0
  {
    var wait := Ceiling((1.0 - level) / rate);
    if wait < 1 then 1 else wait
  }

  // --- Sequences of calls ---------------------------------------------------------------------------

  /** The buckets after the first n calls. */
  function Buckets(start: map<string, Bucket>, calls: seq<Call>, n: nat): map<string, Bucket>
    requires n <= |calls|
  {
    if n == 0 then start else After(Buckets(start, calls, n - 1), calls[n - 1])
  }

  /** Calls on `key` among calls[i..j] that were admitted. */
  function Admitted(start: map<string, Bucket>, calls: seq<Call>, key: string, i: nat, j: nat): nat
    requires i <= j <= |calls|
  {
    if i == j then 0
    else
      var here := calls[j - 1].key == key && Admits(Buckets(start, calls, j - 1), calls[j - 1]);
      Admitted(start, calls, key, i, j - 1) + (if here then 1 else 0)
  }

  /** Clock readings never go back, and `key` always comes with the same rate and capacity. */
  ghost predicate Regular(calls: seq<Call>, key: string, rate: real, capacity: nat) {
    && (forall i, j :: 0 <= i <= j < |calls| ==> calls[i].now <= calls[j].now)
    && (forall i :: 0 <= i < |calls| && calls[i].key == key ==>
          calls[i].rate == rate && calls[i].capacity == capacity)
  }

  /** The bucket of `key` (if any) holds between nothing and its capacity and is not from the future. */
  predicate BucketOk(buckets: map<string, Bucket>, key: string, capacity: nat, now: real) {
    key in buckets ==> 0.0 <= buckets[key].tokens <= capacity as real && buckets[key].updatedAt <= now
  }

  lemma Accrues(rate: real, elapsed: real)
    requires rate > 0.0 && elapsed >= 0.0
    ensures elapsed * rate >= 0.0
  {
  }

  lemma LevelBounds(buckets: map<string, Bucket>, key: string, rate: real, capacity: nat, now: real)
    requires rate > 0.0 && BucketOk(buckets, key, capacity, now)
    ensures 0.0 <= Level(buckets, key, rate, capacity, now) <= capacity as real
  {
    if key in buckets {
      Accrues(rate, now - buckets[key].updatedAt);
    }
  }

  /** A bucket gains at most rate tokens per second. */
  lemma LevelGrowth(buckets: map<string, Bucket>, key: string, rate: real, capacity: nat, now: real, later: real)
    requires rate > 0.0 && now <= later && BucketOk(buckets, key, capacity, now)
    ensures Level(buckets, key, rate, capacity, later)
         <= Level(buckets, key, rate, capacity, now) + rate * (later - now)
  {
    Accrues(rate, later - now);
    if key in buckets {
      var u := buckets[key].updatedAt;
      assert (later - u) * rate == (now - u) * rate + rate * (later - now);
    }
  }

  /** One call: what the key's bucket holds afterwards. */
  lemma AfterCall(buckets: map<string, Bucket>, c: Call)
    requires c.rate > 0.0 && BucketOk(buckets, c.key, c.capacity, c.now)
    ensures BucketOk(After(buckets, c), c.key, c.capacity, c.now)
    ensures Level(After(buckets, c), c.key, c.rate, c.capacity, c.now)
         == Level(buckets, c.key, c.rate, c.capacity, c.now) - if Admits(buckets, c) then 1.0 else 0.0
  {
    LevelBounds(buckets, c.key, c.rate, c.capacity, c.now);
  }

  lemma {:induction false} BucketsOk(
    start: map<string, Bucket>, calls: seq<Call>, key: string, rate: real, capacity: nat, n: nat)
    requires rate > 0.0 && Regular(calls, key, rate, capacity) && n < |calls|
    requires BucketOk(start, key, capacity, calls[0].now)
    ensures BucketOk(Buckets(start, calls, n), key, capacity, calls[n].now)
  {
    if n > 0 {
      BucketsOk(start, calls, key, rate, capacity, n - 1);
      if calls[n - 1].key == key {
        AfterCall(Buckets(start, calls, n - 1), calls[n - 1]);
      }
    }
  }

  lemma Telescopes(rate: real, a: real, b: real, c: real)
    ensures rate * (c - a) == rate * (b - a) + rate * (c - b)
  {
  }

  predicate AdmitsOn(buckets: map<string, Bucket>, c: Call, key: string) {
    c.key == key && Admits(buckets, c)
  }

  /** What one call on any key does to the bucket of `key` since time `since`. */
  lemma OneCall(buckets: map<string, Bucket>, c: Call, key: string, rate: real, capacity: nat, since: real)
    requires rate > 0.0 && since <= c.now && BucketOk(buckets, key, capacity, since)
    requires c.key == key ==> c.rate == rate && c.capacity == capacity
    ensures (if AdmitsOn(buckets, c, key) then 1.0 else 0.0) + Level(After(buckets, c), key, rate, capacity, c.now)
         <= Level(buckets, key, rate, capacity, since) + rate * (c.now - since)
  {
    LevelGrowth(buckets, key, rate, capacity, since, c.now);
    if c.key == key {
      AfterCall(buckets, c);
    } else {
      KeysAreIndependent(buckets, c, key, rate, capacity, c.now);
    }
  }

  lemma AdmittedStep(start: map<string, Bucket>, calls: seq<Call>, key: string, i: nat, j: nat)
    requires i < j <= |calls|
    ensures Admitted(start, calls, key, i, j) as real
         == Admitted(start, calls, key, i, j - 1) as real
            + if AdmitsOn(Buckets(start, calls, j - 1), calls[j - 1], key) then 1.0 else 0.0
  {
  }

  /** Admissions among calls[i..j] plus what is then left are within capacity plus what has accrued. */
  ghost predicate WithinBudget(
    start: map<string, Bucket>, calls: seq<Call>, key: string, rate: real, capacity: nat, i: nat, j: nat)
    requires i < j <= |calls|
  {
    Admitted(start, calls, key, i, j) as real + Level(Buckets(start, calls, j), key, rate, capacity, calls[j - 1].now)
    <= capacity as real + rate * (calls[j - 1].now - calls[i].now)
  }

  lemma FirstCallWithinBudget(
    start: map<string, Bucket>, calls: seq<Call>, key: string, rate: real, capacity: nat, i: nat)
    requires rate > 0.0 && Regular(calls, key, rate, capacity) && i < |calls|
    requires BucketOk(start, key, capacity, calls[0].now)
    ensures WithinBudget(start, calls, key, rate, capacity, i, i + 1)
  {
    var before := Buckets(start, calls, i);
    AdmittedStep(start, calls, key, i, i + 1);
    BucketsOk(start, calls, key, rate, capacity, i);
    LevelBounds(before, key, rate, capacity, calls[i].now);
    OneCall(before, calls[i], key, rate, capacity, calls[i].now);
  }

  lemma Adds(a0: real, l0: real, a1: real, l1: real, cost: real, cap: real, g0: real, g: real, g1: real)
    requires a0 + l0 <= cap + g0 && a1 == a0 + cost && cost + l1 <= l0 + g && g1 == g0 + g
    ensures a1 + l1 <= cap + g1
  {
  }

  lemma NextCallWithinBudget(
    start: map<string, Bucket>, calls: seq<Call>, key: string, rate: real, capacity: nat, i: nat, j: nat)
    requires rate > 0.0 && i < j - 1 < |calls|
    requires calls[j - 2].now <= calls[j - 1].now
    requires calls[j - 1].key == key ==> calls[j - 1].rate == rate && calls[j - 1].capacity == capacity
    requires BucketOk(Buckets(start, calls, j - 1), key, capacity, calls[j - 2].now)
    requires WithinBudget(start, calls, key, rate, capacity, i, j - 1)
    ensures WithinBudget(start, calls, key, rate, capacity, i, j)
  {
    var before, c := Buckets(start, calls, j - 1), calls[j - 1];
    var since := calls[j - 2].now;
    AdmittedStep(start, calls, key, i, j);
    OneCall(before, c, key, rate, capacity, since);
    Telescopes(rate, calls[i].now, since, c.now);
    Adds(Admitted(start, calls, key, i, j - 1) as real, Level(before, key, rate, capacity, since),
         Admitted(start, calls, key, i, j) as real, Level(After(before, c), key, rate, capacity, c.now),
         if AdmitsOn(before, c, key) then 1.0 else 0.0, capacity as real,
         rate * (since - calls[i].now), rate * (c.now - since), rate * (c.now - calls[i].now));
  }

  lemma {:induction false} Budget(
    start: map<string, Bucket>, calls: seq<Call>, key: string, rate: real, capacity: nat, i: nat, j: nat)
    requires rate > 0.0 && Regular(calls, key, rate, capacity) && i < j <= |calls|
    requires BucketOk(start, key, capacity, calls[0].now)
    ensures WithinBudget(start, calls, key, rate, capacity, i, j)
    decreases j
  {
    if i == j - 1 {
      FirstCallWithinBudget(start, calls, key, rate, capacity, i);
    } else {
      Budget(start, calls, key, rate, capacity, i, j - 1);
      LevelAtLastCall(start, calls, key, rate, capacity, j - 1);
      NextCallWithinBudget(start, calls, key, rate, capacity, i, j);
    }
  }

  lemma LevelAtLastCall(start: map<string, Bucket>, calls: seq<Call>, key: string, rate: real, capacity: nat, n: nat)
    requires rate > 0.0 && Regular(calls, key, rate, capacity) && 0 < n <= |calls|
    requires BucketOk(start, key, capacity, calls[0].now)
    ensures BucketOk(Buckets(start, calls, n), key, capacity, calls[n - 1].now)
  {
    BucketsOk(start, calls, key, rate, capacity, n - 1);
    if calls[n - 1].key == key {
      AfterCall(Buckets(start, calls, n - 1), calls[n - 1]);
    }
  }

  /**
   In any stretch of calls i..j-1 of any call sequence, whatever calls on other keys are in between, at
   most capacity + rate * (elapsed time) calls on a key are admitted.
   */
  lemma WindowBound(
    start: map<string, Bucket>, calls: seq<Call>, key: string, rate: real, capacity: nat, i: nat, j: nat)
    requires rate > 0.0 && Regular(calls, key, rate, capacity) && i < j <= |calls|
    requires BucketOk(start, key, capacity, calls[0].now)
    ensures Admitted(start, calls, key, i, j) as real
         <= capacity as real + rate * (calls[j - 1].now - calls[i].now)
  {
    Budget(start, calls, key, rate, capacity, i, j);
    LevelAtLastCall(start, calls, key, rate, capacity, j);
    LevelBounds(Buckets(start, calls, j), key, rate, capacity, calls[j - 1].now);
  }

  /** A burst up to the capacity goes through: a full bucket admits `capacity` calls at one instant. */
  lemma {:induction false} FullBurst(
    start: map<string, Bucket>, calls: seq<Call>, key: string, rate: real, capacity: nat, n: nat)
    requires rate > 0.0 && n <= |calls| && n <= capacity
    requires key !in start
    requires forall i :: 0 <= i < |calls| ==> calls[i] == Call(key, rate, capacity, calls[0].now)
    ensures Admitted(start, calls, key, 0, n) == n
    ensures n > 0 ==> Buckets(start, calls, n).Keys == start.Keys + {key}
    ensures n > 0 ==> Buckets(start, calls, n)[key] == Bucket((capacity - n) as real, calls[0].now)
  {
    if n > 0 {
      FullBurst(start, calls, key, rate, capacity, n - 1);
    }
  }

  /** A call changes no bucket but its own. */
  lemma KeysAreIndependent(buckets: map<string, Bucket>, c: Call, key: string, rate: real, capacity: nat, now: real)
    requires key != c.key
    ensures Level(After(buckets, c), key, rate, capacity, now) == Level(buckets, key, rate, capacity, now)
  {
  }

  // --- Waiting after a rejection ----------------------------------------------------------------------

  lemma CeilingBounds(x: real)
    ensures x <= Ceiling(x) as real < x + 1.0
  {
  }

  /** Waiting the returned number of seconds is enough, if the key is not used meanwhile. */
  lemma RetryAfterSuffices(buckets: map<string, Bucket>, c: Call, later: real)
    requires c.rate > 0.0 && c.capacity >= 1 && BucketOk(buckets, c.key, c.capacity, c.now) && !Admits(buckets, c)
    requires
      later >= c.now + RetryAfter(Level(buckets, c.key, c.rate, c.capacity, c.now), c.rate) as real
    ensures Admits(After(buckets, c), c.(now := later))
  {
    var level := Level(buckets, c.key, c.rate, c.capacity, c.now);
    var need := (1.0 - level) / c.rate;
    LevelBounds(buckets, c.key, c.rate, c.capacity, c.now);
    CeilingBounds(need);
    assert later - c.now >= need;
    EnoughAccrues(level, c.rate, later - c.now);
  }

  lemma EnoughAccrues(level: real, rate: real, waited: real)
    requires rate > 0.0 && waited >= (1.0 - level) / rate
    ensures level + waited * rate >= 1.0
  {
    assert (1.0 - level) / rate * rate == 1.0 - level;
    var slack := waited - (1.0 - level) / rate;
    assert slack * rate >= 0.0;
    assert waited * rate == (1.0 - level) / rate * rate + slack * rate;
  }

  /** It is not longer than necessary: a whole second less would be rejected again. */
  lemma RetryAfterIsTight(buckets: map<string, Bucket>, c: Call, later: real)
    requires c.rate > 0.0 && BucketOk(buckets, c.key, c.capacity, c.now) && !Admits(buckets, c)
    requires
      c.now <= later <= c.now + (RetryAfter(Level(buckets, c.key, c.rate, c.capacity, c.now), c.rate) - 1) as real
    ensures !Admits(After(buckets, c), c.(now := later))
  {
    var level := Level(buckets, c.key, c.rate, c.capacity, c.now);
    var need := (1.0 - level) / c.rate;
    LevelBounds(buckets, c.key, c.rate, c.capacity, c.now);
    CeilingBounds(need);
    if Ceiling(need) >= 1 {
      NotEnoughAccrues(level, c.rate, later - c.now);
    }
  }

  lemma NotEnoughAccrues(level: real, rate: real, waited: real)
    requires rate > 0.0 && waited < (1.0 - level) / rate
    ensures level + waited * rate < 1.0
  {
    assert (1.0 - level) / rate * rate == 1.0 - level;
    var gap := (1.0 - level) / rate - waited;
    assert gap * rate > 0.0;
    assert waited * rate == (1.0 - level) / rate * rate - gap * rate;
  }
}
