/**
 What each transaction does to the rows it touches, in the numbers and states of the service: status codes,
 seconds, counters. These statements do not use the functions that module Transactions is made of.
 */
module Outcomes {
  import opened Wrappers
  import opened Tables
  import opened Transactions
  import opened RetrySchedule
  import Retry

  const MICROSECONDS: int := 1_000_000

  // --- Worker -----------------------------------------------------------------------------------------------

  /**
   `q` is what an answer makes of a delivery on its n-th attempt: 2xx succeeds; 408, 425, 429, 5xx and beyond,
   network and HTTP errors are tried again while attempts remain; everything else is dead-lettered.
   */
  predicate Settles(maxAttempts: nat, n: nat, resp: Response, q: DeliveryStatus) {
    && (q == Succeeded <==> resp.status.Some? && 200 <= resp.status.value <= 299)
    && (q == RetryScheduled <==>
          && !(resp.status.Some? && 200 <= resp.status.value <= 299)
          && n < maxAttempts
          && (resp.error == Some(NetworkError) || resp.error == Some(HttpError)
              || (resp.status.Some?
                  && (resp.status.value == 408 || resp.status.value == 425 || resp.status.value == 429
                      || resp.status.value >= 500))))
    && (q == Succeeded || q == RetryScheduled || q == DeadLettered)
  }

  /** The attempt of this claim is still open. */
  predicate OpenClaim(t: Tables, c: Claimed) {
    && c.attempt.delivery in t.deliveries && c.endpoint in t.endpoints
    && c.attempt in t.attempts && t.attempts[c.attempt].outcome == Started
  }

  lemma AnswerSettles(t: Tables, s: Settings, now: Time, c: Claimed, resp: Response, sample: real)
    requires ValidSettings(s) && OpenClaim(t, c)
    ensures
      var d, u := c.attempt.delivery, Finalize(t, s, now, c, resp, sample);
      d in u.deliveries && Settles(s.maxAttempts, t.deliveries[d].attemptCount, resp, u.deliveries[d].status)
  {
  }

  /** Finalizing an open attempt settles its delivery, records the answer and frees one slot, nothing else. */
  lemma FinalizeOutcome(t: Tables, s: Settings, now: Time, c: Claimed, resp: Response, sample: real)
    requires ValidSettings(s) && OpenClaim(t, c)
    ensures
      var d := c.attempt.delivery;
      var r, u := t.deliveries[d], Finalize(t, s, now, c, resp, sample);
      && d in u.deliveries && Settles(s.maxAttempts, r.attemptCount, resp, u.deliveries[d].status)
      && u.deliveries == t.deliveries[d := r.(
           status := u.deliveries[d].status, leaseUntil := None, nextAttemptAt := u.deliveries[d].nextAttemptAt)]
      && (u.deliveries[d].status != RetryScheduled ==> u.deliveries[d].nextAttemptAt == r.nextAttemptAt)
      && u == t.(deliveries := u.deliveries, attempts := u.attempts, endpoints := u.endpoints)
    ensures
      var d := c.attempt.delivery;
      var u, b := Finalize(t, s, now, c, resp, sample), t.attempts[c.attempt];
      var q := u.deliveries[d].status;
      u.attempts == t.attempts[c.attempt := Attempt(
        b.startedAt, Some(now), if q == Succeeded then Success else Failed, Some(q == RetryScheduled),
        resp.status, resp.error, b.preview || resp.preview)]
    ensures
      var u, ep := Finalize(t, s, now, c, resp, sample), t.endpoints[c.endpoint];
      u.endpoints == t.endpoints[c.endpoint := ep.(
        activeCount := if ep.activeCount >= 1 then ep.activeCount - 1 else 0)]
  {
  }

  /** The entry of the schedule for the n-th failure; the last one serves for all later failures. */
  function Scheduled(n: nat, delays: seq<nat>): nat
    requires n >= 1 && |delays| > 0
  {
    if n <= |delays| then delays[n - 1] else delays[|delays| - 1]
  }

  function WithJitter(base: nat, ratio: real): int {
    base + (base as real * ratio).Floor
  }

  function Drawn(base: nat, ratio: real, sample: real): int {
    base + (base as real * ratio * sample).Floor
  }

  /**
   A retry is due after its scheduled delay and the drawn share of jitter, or when the receiver asked for it
   if that is later; the receiver's wish counts for at most six hours.
   */
  lemma RetryOutcome(t: Tables, s: Settings, now: Time, c: Claimed, resp: Response, sample: real)
    requires ValidSettings(s) && Sample(sample) && OpenClaim(t, c)
    requires t.deliveries[c.attempt.delivery].attemptCount >= 1
    requires Finalize(t, s, now, c, resp, sample).deliveries[c.attempt.delivery].status == RetryScheduled
    ensures
      var base := Scheduled(t.deliveries[c.attempt.delivery].attemptCount, s.retryDelays);
      var drawn, latest := Drawn(base, s.jitterRatio, sample), WithJitter(base, s.jitterRatio);
      var due := Finalize(t, s, now, c, resp, sample).deliveries[c.attempt.delivery].nextAttemptAt;
      && base <= drawn <= latest
      && (resp.retryAfter.None? ==> due == Some(now + drawn * 1_000_000))
      && (resp.retryAfter.Some? ==>
            var asked := if resp.retryAfter.value <= 21600 then resp.retryAfter.value else 21600;
            due == Some(now + (if asked > drawn then asked else drawn) * 1_000_000))
  {
    DueAfter(t, s, now, c, resp, sample);
    DelayInSeconds(t.deliveries[c.attempt.delivery].attemptCount, s, resp.retryAfter, sample);
  }

  lemma DelayInSeconds(n: nat, s: Settings, retryAfter: Option<nat>, sample: real)
    requires ValidSettings(s) && Sample(sample) && n >= 1
    ensures
      var base := Scheduled(n, s.retryDelays);
      var drawn, latest := Drawn(base, s.jitterRatio, sample), WithJitter(base, s.jitterRatio);
      var delay := Retry.RetryDelay(n, s.retryDelays, s.jitterRatio, retryAfter, sample);
      && base <= drawn <= latest
      && (retryAfter.None? ==> delay == drawn)
      && (retryAfter.Some? ==>
            var asked := if retryAfter.value <= 21600 then retryAfter.value else 21600;
            delay == if asked > drawn then asked else drawn)
  {
    assert Retry.BaseDelay(n, s.retryDelays) == Scheduled(n, s.retryDelays);
    DelayBounds(n, s.retryDelays, s.jitterRatio, None, sample);
  }

  lemma DueAfter(t: Tables, s: Settings, now: Time, c: Claimed, resp: Response, sample: real)
    requires ValidSettings(s) && OpenClaim(t, c)
    requires Finalize(t, s, now, c, resp, sample).deliveries[c.attempt.delivery].status == RetryScheduled
    ensures
      var n := t.deliveries[c.attempt.delivery].attemptCount;
      Finalize(t, s, now, c, resp, sample).deliveries[c.attempt.delivery].nextAttemptAt
      == Some(now + Retry.RetryDelay(n, s.retryDelays, s.jitterRatio, resp.retryAfter, sample) * 1_000_000)
  {
  }

  /** A claim of a queued delivery, by the state of its endpoint, its event and the secret. */
  lemma ClaimOutcome(t: Tables, s: Settings, now: Time, d: nat, secretOk: bool)
    requires d in t.deliveries && t.deliveries[d].status == Queued
    ensures
      var r, u := t.deliveries[d], Claim(t, s, now, d, secretOk);
      var accepts := r.endpoint in t.endpoints && t.endpoints[r.endpoint].status == Active
                     && t.endpoints[r.endpoint].enabled;
      && (!accepts ==> u == t.(deliveries := t.deliveries[d := r.(status := Cancelled)]))
      && (accepts && t.endpoints[r.endpoint].activeCount >= 3 ==>
            u == t.(deliveries := t.deliveries[d :=
              r.(status := RetryScheduled, nextAttemptAt := Some(now + MICROSECONDS))]))
      && (accepts && t.endpoints[r.endpoint].activeCount < 3 && r.event !in t.events ==>
            u == t.(deliveries := t.deliveries[d := r.(status := DeadLettered)]))
    ensures
      var r, u := t.deliveries[d], Claim(t, s, now, d, secretOk);
      var ready := r.endpoint in t.endpoints && t.endpoints[r.endpoint].status == Active
                   && t.endpoints[r.endpoint].enabled && t.endpoints[r.endpoint].activeCount < 3
                   && r.event in t.events;
      var k := AttemptKey(d, r.attemptCount + 1);
      && (ready && !secretOk ==>
            u == t.(deliveries := t.deliveries[d := r.(status := DeadLettered, attemptCount := r.attemptCount + 1)],
                    attempts := t.attempts[k := Attempt(
                      now, Some(now), Failed, Some(false), None, Some(SecretUnavailable), false)]))
      && (ready && secretOk ==>
            var ep := t.endpoints[r.endpoint];
            u == t.(deliveries := t.deliveries[d := r.(
                      status := Delivering, attemptCount := r.attemptCount + 1,
                      leaseUntil := Some(now + s.leaseSeconds * MICROSECONDS))],
                    attempts := t.attempts[k := Attempt(now, None, Started, None, None, None, false)],
                    endpoints := t.endpoints[r.endpoint := ep.(activeCount := ep.activeCount + 1)]))
  {
  }

  // --- Scheduler --------------------------------------------------------------------------------------------

  /** A due delivery of the batch is queued and gets a command that may be published at once. */
  lemma ScheduleOutcome(t: Tables, now: Time, limit: nat, locked: set<nat>, batch: seq<nat>)
    requires Batch(t, DueRows(t, now), limit, locked, batch)
    ensures
      var u := ScheduleDue(t, now, batch);
      && u == t.(deliveries := u.deliveries, outbox := u.outbox) && u.deliveries.Keys == t.deliveries.Keys
      && (forall d :: d in t.deliveries && d !in batch ==> u.deliveries[d] == t.deliveries[d])
      && (forall d :: d in batch ==>
            && d in t.deliveries && t.deliveries[d].status == RetryScheduled
            && t.deliveries[d].nextAttemptAt.Some? && t.deliveries[d].nextAttemptAt.value <= now
            && u.deliveries[d] == t.deliveries[d].(status := Queued, nextAttemptAt := None))
      && |u.outbox| == |t.outbox| + |batch| && u.outbox[..|t.outbox|] == t.outbox
      && (forall i :: 0 <= i < |batch| ==>
            u.outbox[|t.outbox| + i] == OutboxRow(batch[i], false, now, None, 0, false))
    ensures |batch| < limit ==>
              (forall d :: d in t.deliveries && d !in locked && t.deliveries[d].status == RetryScheduled
                           && t.deliveries[d].nextAttemptAt.Some? && t.deliveries[d].nextAttemptAt.value <= now ==>
                 d in batch)
  {
  }

  /** A lease of the batch has run out; its delivery is due again at once, or dead after its last attempt. */
  lemma ReconcileOutcome(t: Tables, s: Settings, now: Time, limit: nat, locked: set<nat>, batch: seq<nat>)
    requires Batch(t, StaleRows(t, now), limit, locked, batch)
    ensures
      var u := Reconcile(t, s, now, batch);
      && u == t.(deliveries := u.deliveries, attempts := u.attempts, endpoints := u.endpoints)
      && u.deliveries.Keys == t.deliveries.Keys
      && (forall d :: d in t.deliveries && d !in batch ==> u.deliveries[d] == t.deliveries[d])
      && (forall d :: d in batch ==>
            && d in t.deliveries && t.deliveries[d].status == Delivering
            && t.deliveries[d].leaseUntil.Some? && t.deliveries[d].leaseUntil.value < now
            && u.deliveries[d] ==
                 if t.deliveries[d].attemptCount < s.maxAttempts
                 then t.deliveries[d].(status := RetryScheduled, leaseUntil := None, nextAttemptAt := Some(now))
                 else t.deliveries[d].(status := DeadLettered, leaseUntil := None))
    ensures |batch| < limit ==>
              (forall d :: d in t.deliveries && d !in locked && t.deliveries[d].status == Delivering
                           && t.deliveries[d].leaseUntil.Some? && t.deliveries[d].leaseUntil.value < now ==>
                 d in batch)
  {
  }

  /** Its last started attempt is closed as unknown; whether another follows is recorded with it. */
  lemma LostOutcome(t: Tables, s: Settings, now: Time, batch: seq<nat>, k: AttemptKey)
    requires k in t.attempts && k.delivery in t.deliveries
    ensures
      var u := Reconcile(t, s, now, batch);
      var last := k.delivery in batch && t.attempts[k].outcome == Started
                  && forall j :: j in t.attempts && j.delivery == k.delivery && t.attempts[j].outcome == Started ==>
                       j.number <= k.number;
      && k in u.attempts
      && u.attempts[k] ==
           if last then t.attempts[k].(outcome := Unknown, endedAt := Some(now), error := Some(StaleLease),
                                       retry := Some(t.deliveries[k.delivery].attemptCount < s.maxAttempts))
           else t.attempts[k]
  {
  }
}
