/**
 One function per database transaction of the delivery pipeline. Each says, at once and for all rows,
 what the tables hold after the commit; module Stores proves that the service's statement-by-statement
 code computes it. Answers of SELECT ... SKIP LOCKED queries are parameters, constrained by predicates.
 */
module Transactions {
  import opened Wrappers
  import opened Tables
  import Retry

  // --- Ingest -----------------------------------------------------------------------------------

  datatype Request = Request(key: IngestKey, eventType: string, fingerprint: seq<int>)

  /** Endpoints that receive an event: active, enabled, not deleted, subscribed to its type. */
  predicate Receives(ep: Endpoint, org: OrgId, eventType: string) {
    ep.org == org && ep.status == Active && ep.enabled && ep.deletedAt.None? && eventType in ep.eventTypes
  }

  function Matching(t: Tables, org: OrgId, eventType: string): set<nat> {
    set e | e in t.endpoints && Receives(t.endpoints[e], org, eventType)
  }

  /** A duplicate-free listing of a set: what a SELECT without ORDER BY returns. */
  ghost predicate Lists<T(!new)>(xs: seq<T>, s: set<T>) {
    && (forall i, j :: 0 <= i < j < |xs| ==> xs[i] != xs[j])
    && (forall x :: x in xs <==> x in s)
  }

  ghost predicate EventFor(t: Tables, key: IngestKey, e: nat) {
    e in t.events && t.events[e].key == key
  }

  ghost predicate Ingested(t: Tables, key: IngestKey) {
    exists e :: EventFor(t, key, e)
  }

  function Unfinished(t: Tables, org: OrgId): set<nat> {
    set d | d in t.deliveries && t.deliveries[d].org == org && !Terminal(t.deliveries[d].status)
  }

  function ProjectedBacklog(t: Tables, org: OrgId, eventType: string): nat {
    |Unfinished(t, org)| + |Matching(t, org, eventType)|
  }

  function NewDelivery(org: OrgId, event: nat, endpoint: nat, now: Time): Delivery {
    Delivery(org, event, endpoint, Queued, 0, None, None, None, None, now)
  }

  function Command(d: nat, now: Time): OutboxRow {
    OutboxRow(d, false, now, None, 0, false)
  }

  predicate Within(lo: nat, i: nat, n: nat) {
    lo <= i < lo + n
  }

  /** Numbers lo .. lo + n - 1. */
  function Block(lo: nat, n: nat): set<nat> {
    set i: nat | lo <= i < lo + n && Within(lo, i, n)
  }

  /** One queued delivery for each listed endpoint, numbered from `lo` in list order. */
  function FreshRows(lo: nat, org: OrgId, event: nat, eps: seq<nat>, now: Time): map<nat, Delivery> {
    map d | d in Block(lo, |eps|) :: NewDelivery(org, event, eps[d - lo], now)
  }

  /** The committed effect of create_event_graph for a key that has no event. */
  function InsertEvent(t: Tables, req: Request, eps: seq<nat>, now: Time): Tables {
    var org := req.key.org;
    t.(events := t.events[t.nextEvent := Event(req.key, req.eventType, req.fingerprint, now)],
       nextEvent := t.nextEvent + 1,
       deliveries := t.deliveries + FreshRows(t.nextDelivery, org, t.nextEvent, eps, now),
       nextDelivery := t.nextDelivery + |eps|,
       outbox := t.outbox + seq(|eps|, i requires 0 <= i < |eps| => Command(t.nextDelivery + i, now)))
  }

  // --- Outbox -----------------------------------------------------------------------------------

  predicate Claimable(row: OutboxRow, now: Time) {
    && !row.published
    && row.availableAt <= now
    && (row.leaseUntil.None? || row.leaseUntil.value < now)
  }

  /** Distinct unpublished due rows, oldest first, none skipped unless locked or over the limit. */
  ghost predicate OutboxBatch(t: Tables, now: Time, limit: nat, locked: set<nat>, rows: seq<nat>) {
    && (forall i, j :: 0 <= i < j < |rows| ==> rows[i] != rows[j])
    && (forall r :: r in rows ==> r < |t.outbox| && Claimable(t.outbox[r], now) && r !in locked)
    && (forall i, j :: 0 <= i < j < |rows| ==> Earlier(t, rows[i], rows[j]))
    && |rows| <= limit
    && (forall r :: 0 <= r < |t.outbox| && Claimable(t.outbox[r], now) && r !in locked && r !in rows ==>
          |rows| == limit && forall q :: q in rows ==> Earlier(t, q, r))
  }

  ghost predicate Earlier(t: Tables, a: nat, b: nat)
  {
    a < |t.outbox| && b < |t.outbox| &&
    (t.outbox[a].availableAt < t.outbox[b].availableAt
     || (t.outbox[a].availableAt == t.outbox[b].availableAt && a < b))
  }

  function Leased(row: OutboxRow, until: Time): OutboxRow {
    row.(leaseUntil := Some(until), publishAttempts := row.publishAttempts + 1)
  }

  function ClaimOutbox(t: Tables, rows: seq<nat>, until: Time): Tables {
    t.(outbox := seq(|t.outbox|, r requires 0 <= r < |t.outbox| =>
         if r in rows then Leased(t.outbox[r], until) else t.outbox[r]))
  }

  function FinishedRow(row: OutboxRow, published: bool): OutboxRow {
    if row.published then row
    else row.(published := published, leaseUntil := None, failed := !published)
  }

  function FinishOutbox(t: Tables, r: nat, published: bool): Tables {
    if r < |t.outbox| then t.(outbox := t.outbox[r := FinishedRow(t.outbox[r], published)]) else t
  }

  // --- Worker -----------------------------------------------------------------------------------

  /** What a worker carries from its claim to its finalize. */
  datatype Claimed = Claimed(attempt: AttemptKey, endpoint: nat)

  predicate Accepting(t: Tables, e: nat) {
    e in t.endpoints && t.endpoints[e].status == Active && t.endpoints[e].enabled
  }

  /** A new attempt row; `secretOk` false records the attempt that found no usable signing secret. */
  function OpenedAttempt(now: Time, secretOk: bool): Attempt {
    if secretOk then Attempt(now, None, Started, None, None, None, false)
    else Attempt(now, Some(now), Failed, Some(false), None, Some(SecretUnavailable), false)
  }

  predicate StartsAttempt(t: Tables, d: nat, secretOk: bool) {
    && d in t.deliveries
    && t.deliveries[d].status == Queued
    && OpensAttempt(t, t.deliveries[d])
    && secretOk
  }

  /** The claim gets as far as recording an attempt. */
  predicate OpensAttempt(t: Tables, r: Delivery) {
    && Accepting(t, r.endpoint)
    && t.endpoints[r.endpoint].activeCount < ENDPOINT_SLOTS
    && r.event in t.events
  }

  /** The row of a queued delivery after its claim. */
  function ClaimedRow(t: Tables, s: Settings, now: Time, r: Delivery, secretOk: bool): Delivery {
    if !Accepting(t, r.endpoint) then r.(status := Cancelled)
    else if t.endpoints[r.endpoint].activeCount >= ENDPOINT_SLOTS then
      r.(status := RetryScheduled, nextAttemptAt := Some(now + SECOND))
    else if r.event !in t.events then r.(status := DeadLettered)
    else if !secretOk then r.(status := DeadLettered, attemptCount := r.attemptCount + 1)
    else
      r.(status := Delivering, attemptCount := r.attemptCount + 1,
         leaseUntil := Some(now + s.leaseSeconds * SECOND))
  }

  function Claim(t: Tables, s: Settings, now: Time, d: nat, secretOk: bool): Tables {
    if d !in t.deliveries || t.deliveries[d].status != Queued then t
    else
      var r := t.deliveries[d];
      t.(deliveries := t.deliveries[d := ClaimedRow(t, s, now, r, secretOk)],
         attempts := if !OpensAttempt(t, r) then t.attempts
                     else t.attempts[AttemptKey(d, r.attemptCount + 1) := OpenedAttempt(now, secretOk)],
         endpoints := if !OpensAttempt(t, r) || !secretOk then t.endpoints
                      else
                        t.endpoints[r.endpoint := t.endpoints[r.endpoint].(
                          activeCount := t.endpoints[r.endpoint].activeCount + 1)])
  }

  /** What came back from the HTTP call. */
  datatype Response = Response(
    status: Option<int>, error: Option<ErrorCode>, preview: bool, retryAfter: Option<nat>)

  datatype Verdict = Delivered | Retried | Dropped

  function Judge(s: Settings, attemptCount: nat, resp: Response): Verdict {
    if Retry.IsSuccess(resp.status) then Delivered
    else if Retry.IsRetryable(resp.status, resp.error in {Some(NetworkError), Some(HttpError)})
            && attemptCount < s.maxAttempts then Retried
    else Dropped
  }

  function VerdictStatus(v: Verdict): DeliveryStatus {
    match v case Delivered => Succeeded case Retried => RetryScheduled case Dropped => DeadLettered
  }

  function Finalize(t: Tables, s: Settings, now: Time, c: Claimed, resp: Response, sample: real): Tables
    requires ValidSettings(s)
  {
    var d := c.attempt.delivery;
    if d !in t.deliveries || c.endpoint !in t.endpoints || c.attempt !in t.attempts
       || t.attempts[c.attempt].outcome != Started then t
    else
      var r := t.deliveries[d];
      var v := Judge(s, r.attemptCount, resp);
      var delay := Retry.RetryDelay(r.attemptCount, s.retryDelays, s.jitterRatio, resp.retryAfter, sample);
      var ep := t.endpoints[c.endpoint];
      var a := t.attempts[c.attempt];
      t.(attempts := t.attempts[c.attempt :=
           a.(endedAt := Some(now), responseStatus := resp.status, error := resp.error,
              preview := a.preview || resp.preview,
              outcome := if v == Delivered then Success else Failed, retry := Some(v == Retried))],
         deliveries := t.deliveries[d :=
           r.(status := VerdictStatus(v), leaseUntil := None,
              nextAttemptAt := if v == Retried then Some(now + delay * SECOND) else r.nextAttemptAt)],
         endpoints := t.endpoints[c.endpoint := ep.(activeCount := Retry.Max(0, ep.activeCount - 1))])
  }

  // --- Scheduler --------------------------------------------------------------------------------

  predicate Due(r: Delivery, now: Time) {
    r.status == RetryScheduled && r.nextAttemptAt.Some? && r.nextAttemptAt.value <= now
  }

  predicate Stale(r: Delivery, now: Time) {
    r.status == Delivering && r.leaseUntil.Some? && r.leaseUntil.value < now
  }

  /** Distinct rows that satisfy the query, at most `limit`, and all unlocked ones when fewer. */
  ghost predicate Batch(t: Tables, wanted: set<nat>, limit: nat, locked: set<nat>, batch: seq<nat>) {
    && (forall i, j :: 0 <= i < j < |batch| ==> batch[i] != batch[j])
    && (forall d :: d in batch ==> d in wanted && d !in locked)
    && |batch| <= limit
    && (|batch| < limit ==> forall d :: d in wanted && d !in locked ==> d in batch)
  }

  function DueRows(t: Tables, now: Time): set<nat> {
    set d | d in t.deliveries && Due(t.deliveries[d], now)
  }

  function StaleRows(t: Tables, now: Time): set<nat> {
    set d | d in t.deliveries && Stale(t.deliveries[d], now)
  }

  function ScheduleDue(t: Tables, now: Time, batch: seq<nat>): Tables {
    t.(deliveries := map d | d in t.deliveries ::
         if d in batch then t.deliveries[d].(status := Queued, nextAttemptAt := None) else t.deliveries[d],
       outbox := t.outbox + seq(|batch|, i requires 0 <= i < |batch| => Command(batch[i], now)))
  }

  /** The started attempt with the greatest number, which the reconciler's ordered query finds. */
  predicate NewestStarted(attempts: map<AttemptKey, Attempt>, k: AttemptKey) {
    && k in attempts && attempts[k].outcome == Started
    && forall j :: j in attempts && j.delivery == k.delivery && attempts[j].outcome == Started ==>
         j.number <= k.number
  }

  function Reconciled(r: Delivery, s: Settings, now: Time): Delivery {
    if r.attemptCount < s.maxAttempts
    then r.(leaseUntil := None, status := RetryScheduled, nextAttemptAt := Some(now))
    else r.(leaseUntil := None, status := DeadLettered)
  }

  function LostAttempt(a: Attempt, retry: bool, now: Time): Attempt {
    a.(outcome := Unknown, endedAt := Some(now), error := Some(StaleLease), retry := Some(retry))
  }

  function InEndpoint(t: Tables, batch: seq<nat>, e: nat): set<nat> {
    set d | d in batch && d in t.deliveries && t.deliveries[d].endpoint == e
  }

  /** All stale leases of the batch are taken back at once; an endpoint regains one slot for each. */
  function Reconcile(t: Tables, s: Settings, now: Time, batch: seq<nat>): Tables {
    t.(deliveries := map d | d in t.deliveries ::
         if d in batch then Reconciled(t.deliveries[d], s, now) else t.deliveries[d],
       attempts := map k | k in t.attempts ::
         if k.delivery in batch && k.delivery in t.deliveries && NewestStarted(t.attempts, k)
         then LostAttempt(t.attempts[k], t.deliveries[k.delivery].attemptCount < s.maxAttempts, now)
         else t.attempts[k],
       endpoints := map e | e in t.endpoints ::
         if InEndpoint(t, batch, e) == {} then t.endpoints[e]
         else t.endpoints[e].(activeCount :=
                Retry.Max(0, t.endpoints[e].activeCount - |InEndpoint(t, batch, e)|)))
  }

  // --- Endpoints --------------------------------------------------------------------------------

  function Audit(t: Tables, now: Time): Tables {
    t.(audits := t.audits[t.nextAudit := now], nextAudit := t.nextAudit + 1)
  }

  function CreateEndpoint(t: Tables, e: nat, org: OrgId, url: string, types: set<string>, now: Time): Tables
  {
    Audit(t.(endpoints := t.endpoints[e :=
      Endpoint(org, url, PendingVerification, true, 0, None, None, types)]), now)
  }

  function CancelWaiting(t: Tables, org: OrgId, e: nat): Tables {
    t.(deliveries := map d | d in t.deliveries ::
         if t.deliveries[d].org == org && t.deliveries[d].endpoint == e && Waiting(t.deliveries[d].status)
         then t.deliveries[d].(status := Cancelled, leaseUntil := None, nextAttemptAt := None)
         else t.deliveries[d])
  }

  datatype Changes = Changes(url: Option<string>, enabled: Option<bool>, eventTypes: Option<set<string>>)

  function Relocated(ep: Endpoint, url: Option<string>): Endpoint {
    if url.Some? && url.value != ep.url then ep.(url := url.value, status := PendingVerification) else ep
  }

  function Switched(ep: Endpoint, enabled: Option<bool>): Endpoint {
    if enabled.None? then ep
    else if !enabled.value && ep.status == Active then ep.(enabled := false, status := Disabled)
    else if enabled.value && ep.status == Disabled then ep.(enabled := true, status := Active)
    else ep.(enabled := enabled.value)
  }

  function Subscribed(ep: Endpoint, types: Option<set<string>>): Endpoint {
    if types.Some? then ep.(eventTypes := types.value) else ep
  }

  predicate Manageable(t: Tables, org: OrgId, e: nat) {
    e in t.endpoints && t.endpoints[e].org == org && t.endpoints[e].deletedAt.None?
  }

  function UpdateEndpoint(t: Tables, org: OrgId, e: nat, c: Changes, now: Time): Tables {
    if !Manageable(t, org, e) then t
    else
      var moved := Relocated(t.endpoints[e], c.url);
      var t1 := if c.enabled == Some(false) && moved.status == Active then CancelWaiting(t, org, e) else t;
      Audit(t1.(endpoints := t.endpoints[e := Subscribed(Switched(moved, c.enabled), c.eventTypes)]), now)
  }

  /** First transaction of verify: store the hash of a fresh challenge. */
  function BeginVerify(t: Tables, org: OrgId, e: nat, c: Challenge): Tables {
    if !Manageable(t, org, e) then t
    else t.(endpoints := t.endpoints[e := t.endpoints[e].(challenge := Some(c))])
  }

  /**
   What a verify request carries from its first transaction to its second. Its session keeps the endpoint
   object of the first, with the challenge it stored (`own`) and the status it read (`loaded`): the second
   SELECT locks the row but does not refresh the object.
   */
  datatype Verification = Verification(org: OrgId, e: nat, own: Challenge, loaded: EndpointStatus)

  /** The row after the session's changes are written: a status loaded as active is no change. */
  function Verified(ep: Endpoint, loaded: EndpointStatus): Endpoint {
    if loaded == Active then ep.(challenge := None) else ep.(challenge := None, status := Active)
  }

  /** Second transaction of verify, after the receiver gave the right answer. */
  function CommitVerify(t: Tables, v: Verification, now: Time): Tables {
    if v.e !in t.endpoints || t.endpoints[v.e].org != v.org || v.own.expiresAt <= now then t
    else Audit(t.(endpoints := t.endpoints[v.e := Verified(t.endpoints[v.e], v.loaded)]), now)
  }

  function DeleteEndpoint(t: Tables, org: OrgId, e: nat, now: Time): Tables {
    if !Manageable(t, org, e) then t
    else
      var ep := t.endpoints[e].(deletedAt := Some(now), status := Deleted, enabled := false);
      Audit(CancelWaiting(t, org, e).(endpoints := t.endpoints[e := ep]), now)
  }

  // --- Replay -----------------------------------------------------------------------------------

  ghost predicate ReplayFor(t: Tables, org: OrgId, source: nat, key: string, d: nat) {
    && d in t.deliveries && t.deliveries[d].org == org
    && t.deliveries[d].replayOf == Some(source) && t.deliveries[d].replayKey == Some(key)
  }

  ghost predicate Replayed(t: Tables, org: OrgId, source: nat, key: string) {
    exists d :: ReplayFor(t, org, source, key, d)
  }

  predicate Replayable(t: Tables, org: OrgId, source: nat) {
    source in t.deliveries && t.deliveries[source].org == org && Terminal(t.deliveries[source].status)
  }

  /** The committed effect of create_replay and its audit row, for a key not used on this source. */
  function InsertReplay(t: Tables, source: nat, key: string, now: Time): Tables
    requires source in t.deliveries
  {
    var r := t.deliveries[source];
    var copy := NewDelivery(r.org, r.event, r.endpoint, now).(replayOf := Some(source), replayKey := Some(key));
    Audit(t.(deliveries := t.deliveries[t.nextDelivery := copy], nextDelivery := t.nextDelivery + 1,
             outbox := t.outbox + [Command(t.nextDelivery, now)]), now)
  }

  // --- Retention --------------------------------------------------------------------------------

  predicate ExpiredPreview(a: Attempt, cutoff: Time) {
    a.endedAt.Some? && a.endedAt.value < cutoff && a.preview
  }

  predicate ExpiredDelivery(r: Delivery, cutoff: Time) {
    r.createdAt < cutoff && Terminal(r.status)
  }

  function ExpiredPreviews(t: Tables, cutoff: Time): set<AttemptKey> {
    set k | k in t.attempts && ExpiredPreview(t.attempts[k], cutoff)
  }

  function ExpiredAudits(t: Tables, cutoff: Time): set<nat> {
    set a | a in t.audits && t.audits[a] < cutoff
  }

  function ExpiredDeliveries(t: Tables, cutoff: Time): set<nat> {
    set d | d in t.deliveries && ExpiredDelivery(t.deliveries[d], cutoff)
  }

  predicate HasDelivery(t: Tables, e: nat) {
    exists d :: d in t.deliveries && t.deliveries[d].event == e
  }

  function ExpiredEvents(t: Tables, cutoff: Time): set<nat> {
    set e | e in t.events && t.events[e].createdAt < cutoff && !HasDelivery(t, e)
  }

  /** Some delivery that stays is a replay of one that goes: the foreign key refuses the DELETE. */
  ghost predicate Orphans(t: Tables, gone: set<nat>) {
    exists d :: d in t.deliveries && d !in gone && t.deliveries[d].replayOf.Some?
             && t.deliveries[d].replayOf.value in gone
  }

  function ClearPreviews(t: Tables, keys: set<AttemptKey>): Tables {
    t.(attempts := map k | k in t.attempts ::
         if k in keys then t.attempts[k].(preview := false) else t.attempts[k])
  }

  function DropAudits(t: Tables, ids: set<nat>): Tables {
    t.(audits := t.audits - ids)
  }

  /** Deleting deliveries takes their attempts along (ON DELETE CASCADE). */
  function DropDeliveries(t: Tables, ids: set<nat>): Tables {
    t.(deliveries := t.deliveries - ids,
       attempts := map k | k in t.attempts && k.delivery !in ids :: t.attempts[k])
  }

  function DropEvents(t: Tables, ids: set<nat>): Tables {
    t.(events := t.events - ids)
  }

  /** What one cleanup transaction picks, in the order it picks it. */
  datatype Sweep = Sweep(previews: set<AttemptKey>, audits: set<nat>, deliveries: set<nat>, events: set<nat>)

  function Total(w: Sweep): nat {
    |w.previews| + |w.audits| + |w.deliveries| + |w.events|
  }

  /** Each set holds expired rows only; events are looked up after the deliveries are gone. */
  predicate Sweepable(t: Tables, s: Settings, now: Time, w: Sweep) {
    && w.previews <= ExpiredPreviews(t, now - s.previewDays * DAY)
    && w.audits <= ExpiredAudits(t, now - s.auditDays * DAY)
    && w.deliveries <= ExpiredDeliveries(t, now - s.metadataDays * DAY)
    && w.events <= ExpiredEvents(DropDeliveries(t, w.deliveries), now - s.metadataDays * DAY)
  }

  function Swept(t: Tables, w: Sweep): Tables {
    DropEvents(DropDeliveries(DropAudits(ClearPreviews(t, w.previews), w.audits), w.deliveries), w.events)
  }

  /** The transaction commits unless the DELETE of deliveries would orphan a replay. */
  ghost function Cleanup(t: Tables, w: Sweep): Tables {
    if Orphans(t, w.deliveries) then t else Swept(t, w)
  }
}
