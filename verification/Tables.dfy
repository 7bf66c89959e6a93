/**
 The rows of the shared database (src/webhook_platform/shared/infrastructure/models.py).

 Identifiers of deliveries, events, outbox and audit rows are insertion numbers: the service draws
 UUIDs that never repeat, and only that they never repeat matters. Times are microseconds. An attempt
 is found by its delivery and number, which the table declares unique together.
 */
module Tables {
  import opened Wrappers

  type OrgId = string
  type KeyId = string
  type Time = int

  const SECOND: nat := 1_000_000
  const DAY: nat := 86_400 * SECOND
  const ENDPOINT_SLOTS: nat := 3

  datatype DeliveryStatus =
    Pending | Queued | Delivering | RetryScheduled | Succeeded | DeadLettered | Cancelled

  predicate Terminal(s: DeliveryStatus) {
    s in {Succeeded, DeadLettered, Cancelled}
  }

  predicate Waiting(s: DeliveryStatus) {
    s in {Pending, Queued, RetryScheduled}
  }

  datatype Delivery = Delivery(
    org: OrgId, event: nat, endpoint: nat, status: DeliveryStatus, attemptCount: nat,
    nextAttemptAt: Option<Time>, leaseUntil: Option<Time>,
    replayOf: Option<nat>, replayKey: Option<string>, createdAt: Time)

  datatype Outcome = Started | Success | Failed | Unknown

  datatype ErrorCode = NetworkError | HttpError | UnsafeDestination | SecretUnavailable | StaleLease

  datatype AttemptKey = AttemptKey(delivery: nat, number: nat)

  /** `retry` is the "retry" entry of the retry_decision column; `preview` says a preview is stored. */
  datatype Attempt = Attempt(
    startedAt: Time, endedAt: Option<Time>, outcome: Outcome, retry: Option<bool>,
    responseStatus: Option<int>, error: Option<ErrorCode>, preview: bool)

  datatype EndpointStatus = PendingVerification | Active | Disabled | Deleted

  datatype Challenge = Challenge(hash: string, expiresAt: Time)

  datatype Endpoint = Endpoint(
    org: OrgId, url: string, status: EndpointStatus, enabled: bool, activeCount: int,
    deletedAt: Option<Time>, challenge: Option<Challenge>, eventTypes: set<string>)

  /** The unique key of an event: organization, API key, Idempotency-Key. */
  datatype IngestKey = IngestKey(org: OrgId, apiKey: KeyId, idempotencyKey: string)

  datatype Event = Event(key: IngestKey, eventType: string, fingerprint: seq<int>, createdAt: Time)

  datatype OutboxRow = OutboxRow(
    delivery: nat, published: bool, availableAt: Time, leaseUntil: Option<Time>,
    publishAttempts: nat, failed: bool)

  /** The whole database; the next* fields are the next unused identifiers. */
  datatype Tables = Tables(
    deliveries: map<nat, Delivery>, attempts: map<AttemptKey, Attempt>, endpoints: map<nat, Endpoint>,
    events: map<nat, Event>, outbox: seq<OutboxRow>, audits: map<nat, Time>,
    nextDelivery: nat, nextEvent: nat, nextAudit: nat)

  const EMPTY := Tables(map[], map[], map[], map[], [], map[], 0, 0, 0)

  datatype Settings = Settings(
    maxAttempts: nat, leaseSeconds: nat, outboxLeaseSeconds: nat, retryBatch: nat, outboxBatch: nat,
    backlogLimit: nat, retryDelays: seq<nat>, jitterRatio: real,
    previewDays: nat, auditDays: nat, metadataDays: nat)

  /** max_delivery_attempts must fit the attempt_count check constraint (0 to 6). */
  predicate ValidSettings(s: Settings) {
    1 <= s.maxAttempts <= 6 && |s.retryDelays| > 0 && s.jitterRatio >= 0.0
  }
}
