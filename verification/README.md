# Verified model of the webhook delivery platform

The platform accepts events from producers, fans each one out into one delivery per subscribed endpoint,
and calls the endpoints over HTTP with leases, retries, manual replays and retention. Four kinds of process
(API, outbox dispatcher, worker, scheduler) share one PostgreSQL database and one broker. This project
models what they do to that shared state and proves what holds in every interleaving of their steps, and
models the smaller algorithms on which the service's other promises rest.

Check everything with `dafny verify dfyconfig.toml` (Dafny 4.11).

## Shape

| modules | what they hold |
|---|---|
| `Tables`, `Transactions` | the rows of the database; one function per transaction, saying for all rows at once what the commit leaves |
| `Stores`, `UseCases` | the same transactions as the service runs them: statement by statement, with their loops, over the mutable fields of a class, each proved to compute its function; the use cases and the dispatcher loop on top |
| `TableInvariant`, `Evolution`, `Outcomes` | the invariant every committed state satisfies, the only ways a transaction may change existing rows, and what each transaction leaves in the service's own numbers |
| `Pipeline`, `Traces`, `Scenarios` | the whole service as a state machine: every transaction, publish, claim, call and crash is a step of its own, any number of clients, dispatchers and workers interleave, and time passes between steps |
| `PipelineInvariant`, `NoLostWork`, `Recovery`, `History`, `Causes`, `Progress`, `TimedSafety`, `OutboxLeases`, `EndpointStatus`, `Backlog`, `BacklogRace`, `CleanupStall`, `DeletedEndpoints`, `Idempotency` | theorems over all runs of that machine |
| `Retention`, `Retry`, `RetrySchedule`, `RateLimit`, `Pagination`, `Cursors`, `CursorText`, `OpaquePaging`, `Base64`, `CanonicalJson`, `CanonicalText`, `Fingerprint`, `Unicode`, `Decimals`, `Sets`, `RefreshTokens` | cleanup, retry arithmetic, token buckets, keyset paging, opaque cursors, canonical JSON and refresh-token rotation |

The main results, hardest first:

- **No lost work, and no dead end.** Nothing ever rescans `queued` rows, yet a queued delivery always has an
  unpublished outbox row or an unclaimed message (`NoLostWork.NoLostWork`), and from every reachable state
  every unfinished delivery can still be finished (`Recovery.UnfinishedCanBeFinished`).
- **Fencing, slots and the attempt log.** `finalize_delivery` never looks at the delivery's status; the open
  attempt alone makes late finalizes harmless, terminal states final and `active_delivery_count` exact, so
  neither `max(0, ...)` ever clamps.
- **Causes.** In every run a delivery changes its status only by one of five causes, each stated in status
  codes, times and counts, and each cause has its effect (`Causes.EveryChangeHasItsCause`,
  `Causes.EveryCauseHasItsEffect`); a claimed outbox row is exclusive for its lease
  (`OutboxLeases.LeaseIsExclusive`), and a new URL is not called before it is verified
  (`EndpointStatus.NewUrlIsNotCalled`).
- **Bounds over runs.** Status changes, HTTP calls, unfinished deliveries; with calls shorter than leases
  also running calls per delivery and endpoint.
- **Idempotency under races**, tied down to the JSON the producer sent: the fingerprint pre-image is
  injective on the meaning of the document, and `CanonicalText` fixes its bytes.
- **Second cores.** Token-bucket window bound, page traversal under concurrent change with opaque cursors,
  cursor round trip for every timestamp and id, the exact condition for cleanup to finish, retry windows,
  linear refresh families.

## Assumptions

- Row locks serialise transactions, so each is one step. Rows a `SKIP LOCKED` query returns are any rows
  that satisfy it, up to the limit. Ingest is split further: check, projection under the organization's
  lock, insert, and the re-check after a conflict are separate steps.
- A confirmed publish was enqueued. The broker may hand out a message any number of times until it is
  removed, and a message is removed only after the claim of a worker that holds it has committed.
- Nothing is assumed about the order of the database's clock readings: `func.now()` is the start of a
  transaction, so a later commit may carry an earlier time, and the machine lets any reading follow any
  other. Only `TimedSafety` ties readings to calls, in `Prompt`.
- The rate limiter's readings on one process come in order: `require` suspends nowhere between
  `time.monotonic()` and the update of the bucket, since acquiring a free `asyncio.Lock` does not suspend
  and the locked block awaits nothing, so the lock is always free.
- A verify request runs both its transactions on one session
  (src/webhook_platform/shared/infrastructure/database.py:41-42). The session does not expire the loaded
  endpoint at the commit, and a SELECT with row lock does not refresh it: the second half checks the hash,
  expiry and status of the first, and writes the columns that differ from what was loaded.
- New identifiers and secrets never repeat.
- `1 <= max_delivery_attempts <= 6`, as the `delivery_attempt_count` constraint demands
  (src/webhook_platform/shared/infrastructure/models.py:222).

## Where the code and its specification differ

The model follows the code. The specification is docs/specifications/PROJECT_SPECIFICATION.md.

- Its status graph (lines 231-238) has no arrow from `queued` to `retry_scheduled` or `dead_lettered`;
  claim takes both, for a full endpoint and for an unusable secret.
- It calls `deleted` a terminal endpoint status (line 229). The second half of `verify` tests neither
  `deleted_at` nor the URL and can set a deleted endpoint's status to `active`
  (`DeletedEndpoints.DeletedCanBecomeActive`). `DeletedEndpoints.StatusAfterDelete` says exactly when: a
  request whose challenge a later one has replaced still does it, a request that loaded the endpoint as
  `active` does not. No call follows, because `enabled` stays false (`History.NoAttemptAfterDelete`).
- It limits unfinished deliveries per organization (line 274). Replays are not counted, and under READ
  COMMITTED an endpoint may begin to match between projection and insert: `BacklogRace.LimitCanBeExceeded`
  is a run that exceeds limit plus replays, for every limit. `Backlog.PlainBound` is the exact condition
  under which a run stays within them, `Backlog.OneStepIngestIsPlainlyBounded` shows that ingest as one
  step would meet it, and `Backlog.BacklogBounded` is the bound that always holds.
- It says reuse of a refresh token revokes the family (line 124). A refresh that already holds its row lock
  when the revoking UPDATE starts commits a token the UPDATE cannot see
  (`RefreshTokens.OvertakenRevocation`); `RefreshTokens.RevocationMissesOnlyNewTokens` says exactly what
  escapes.
- It calls cleanup idempotent (line 348). `replay_of` has no ON DELETE action, so a pass that takes an
  expired delivery without its replay aborts as a whole, and does so again on the next run
  (`Retention.AbortRepeats`). Repeating it finishes if and only if every replay of an expired delivery is
  expired and falls, oldest first, into no later batch than its source
  (`Retention.FixpointIffReplaysInBatch`); `CleanupStall.NoBatchSizeSuffices` is a run that leads there,
  for every batch size.

## Model

| member | source | states |
|---|---|---|
| `NoLostWork.NoLostWork` | src/webhook_platform/outbox/infrastructure/repository.py:13-60 | In every state of every interleaving, the newest outbox row of a queued delivery is unpublished and was never enqueued, or the broker holds a message for it on which no worker has run claim |
| `NoLostWork.NextSound` | src/webhook_platform/outbox_dispatcher.py:31-62 | Every step of every process keeps the whole invariant: tables, workers, broker, dispatchers, nothing lost |
| `NoLostWork.ScheduleQueueStep` | src/webhook_platform/maintenance/application/reconcile.py:32-45 | Whatever the scheduler queues gets an outbox row in the same transaction, and no published flag changes |
| `Recovery.UnfinishedCanBeFinished` | src/webhook_platform/maintenance/application/reconcile.py:17-95 | From every reachable state there is a continuation that makes any unfinished delivery terminal, and delivers it if its endpoint accepts and an attempt is left: no crash, lost confirm or full endpoint blocks it for good |
| `Causes.EveryChangeHasItsCause` | src/webhook_platform/deliveries/infrastructure/processor.py:63-287 | In every run a status changes only by a claim decided by endpoint, calls in flight and secret, by the answer to the open attempt, by a due retry, by a lease that has run out, or by switching the endpoint off, and only as that cause decides |
| `Causes.EveryCauseHasItsEffect` | src/webhook_platform/maintenance/application/reconcile.py:17-95 | And in every run each of these causes has its effect |
| `OutboxLeases.LeaseIsExclusive` | src/webhook_platform/outbox/infrastructure/repository.py:18-39 | Until somebody finishes a claimed row, no claim that reads a time within its lease returns it again |
| `OutboxLeases.NewCommandsAreFree` | src/webhook_platform/maintenance/application/reconcile.py:35-45 | Every row that ingest, replay or the scheduler adds can be claimed from the time of its transaction on |
| `EndpointStatus.NewUrlIsNotCalled` | src/webhook_platform/endpoints/application/use_cases.py:172-175 | After an update to another URL no attempt starts for the endpoint until a verification of it is completed |
| `EndpointStatus.NoAttemptWhileUnverified` | src/webhook_platform/deliveries/infrastructure/processor.py:70-72 | No attempt starts for an endpoint that waits for its verification |
| `History.PublishedForever` | src/webhook_platform/outbox/infrastructure/repository.py:54-60 | A row is published only after its message was enqueued, and never becomes unpublished again |
| `History.SlotsConserved` | src/webhook_platform/deliveries/infrastructure/processor.py:124-127 | In every reachable state active_delivery_count is the number of deliveries in delivering, and at most 3 |
| `History.FinalizeNeverClamps` | src/webhook_platform/deliveries/infrastructure/processor.py:286-287 | The max(0, n - 1) of an effective finalize is a plain decrement |
| `History.ReconcileNeverClamps` | src/webhook_platform/maintenance/application/reconcile.py:63-92 | A reconcile batch lowers each counter by exactly its number of leases of that endpoint, without clamping |
| `History.ClaimVerdict` | src/webhook_platform/deliveries/infrastructure/processor.py:63-135 | In every reachable state the outcome of a claim follows from the endpoint, the calls really in flight and the secret; the missing-event branch is unreachable |
| `History.LateFinalizeChangesNothing` | src/webhook_platform/deliveries/infrastructure/processor.py:243-245 | Once an attempt is closed, its worker's finalize has no effect at any later time, whatever happened to the delivery in between |
| `History.OutcomeWrittenOnce` | src/webhook_platform/deliveries/infrastructure/processor.py:257-284 | An attempt's outcome and times are final once it is closed; only its stored preview can be dropped |
| `History.TerminalForever` | src/webhook_platform/deliveries/infrastructure/processor.py:258-287 | No step changes a terminal delivery, although finalize never tests the delivery status |
| `History.RemovedForever` | src/webhook_platform/maintenance/application/cleanup.py:54-69 | A removed delivery never reappears |
| `History.LogDeterminesStatus` | src/webhook_platform/deliveries/infrastructure/processor.py:85-135 | Attempts are numbered 1..attempt_count without gaps; the status is exactly what the newest attempt says; at most that one is open |
| `History.NothingStuck` | src/webhook_platform/maintenance/application/reconcile.py:20-34 | lease_until is set iff delivering, next_attempt_at iff retry_scheduled; every unfinished delivery satisfies the query of the step that must move it |
| `History.NoAttemptWhileDisabled` | src/webhook_platform/deliveries/infrastructure/processor.py:70-72 | From a disable until an update enables the endpoint again no attempt starts for it |
| `History.NoAttemptAfterDelete` | src/webhook_platform/endpoints/application/use_cases.py:227-236 | After a delete no attempt ever starts for the endpoint, whatever verify and update do later |
| `History.NextKeepsOff` | src/webhook_platform/endpoints/application/use_cases.py:193-225 | Only an update with enabled = true switches an endpoint on; verify does not |
| `DeletedEndpoints.StatusAfterDelete` | src/webhook_platform/endpoints/application/use_cases.py:193-236 | After a delete the status is active exactly if a verification begun before it, on an endpoint not active then, was completed after it and before its own challenge expired, whatever challenge the table holds |
| `DeletedEndpoints.DeletedStep` | src/webhook_platform/endpoints/application/use_cases.py:212-222 | Exactly the end of a verification changes a deleted endpoint: it clears the challenge, and sets the status only if the request had not loaded it as active |
| `DeletedEndpoints.SessionIsOld` | src/webhook_platform/endpoints/application/use_cases.py:197-204 | No verification begins on a deleted endpoint: one open after the delete was open, unchanged, at the delete |
| `DeletedEndpoints.SessionBegan` | src/webhook_platform/endpoints/application/use_cases.py:193-204 | What a verify request carries into its second half is the challenge it stored and the status it read at an earlier step, when the endpoint was not deleted |
| `DeletedEndpoints.DeletedCanBecomeActive` | src/webhook_platform/endpoints/application/use_cases.py:193-236 | A run that begins two verifications, deletes the endpoint and completes the first, whose challenge the second has replaced: deleted, and active |
| `History.CancelsExactlyWaiting` | src/webhook_platform/endpoints/infrastructure/repository.py:162-171 | A disable or delete cancels the waiting deliveries of the endpoint and nothing else |
| `Progress.StatusChangesBounded` | src/webhook_platform/deliveries/infrastructure/processor.py:263-287 | In any run a delivery changes status at most 3*max - 1 times plus twice per capacity deferral |
| `Progress.CallsBounded` | src/webhook_platform/deliveries/infrastructure/processor.py:124-135 | In any run at most max_delivery_attempts HTTP calls are made for a delivery |
| `TimedSafety.ReconcileNeverFencesALiveCall` | src/webhook_platform/maintenance/application/reconcile.py:55-58 | If every call ends within a budget no longer than the lease, reconciling never closes the attempt of a running call |
| `TimedSafety.AtMostThreeCalls` | src/webhook_platform/deliveries/infrastructure/processor.py:154-220 | Under the same timing every delivery has at most one running call and every endpoint at most 3 |
| `EndpointStatus.StatusStep` | src/webhook_platform/endpoints/application/use_cases.py:165-236 | The status of an endpoint changes exactly by the end of a verification, an update and a delete, and to the status given |
| `EndpointStatus.UpdatedColumns` | src/webhook_platform/endpoints/application/use_cases.py:165-191 | An update stores URL, switch and event types as given; a new URL means pending_verification, the switch moves between active and disabled |
| `EndpointStatus.UpdatedRows` | src/webhook_platform/endpoints/application/use_cases.py:178-184 | Only switching an active endpoint off cancels, namely its waiting deliveries; every other row stays |
| `EndpointStatus.DeleteOutcome` | src/webhook_platform/endpoints/application/use_cases.py:227-236 | A delete marks and disables the endpoint and cancels its waiting deliveries, once |
| `EndpointStatus.VerifyOutcome` | src/webhook_platform/endpoints/application/use_cases.py:212-225 | A verification in time activates the endpoint and clears the challenge; too late it changes nothing |
| `Outcomes.FinalizeOutcome` | src/webhook_platform/deliveries/infrastructure/processor.py:222-287 | An answer settles the delivery: 2xx succeeds, 408, 425, 429, 500 and above and transport errors are retried while attempts remain, the rest is dead-lettered; status, error, preview, end and decision are recorded, one slot is freed, nothing else changes |
| `Outcomes.RetryOutcome` | src/webhook_platform/deliveries/infrastructure/processor.py:263-276 | A retry is due after the scheduled delay plus the drawn jitter, or when the receiver asked for it if that is later, up to six hours |
| `Outcomes.LostOutcome` | src/webhook_platform/maintenance/application/reconcile.py:63-84 | The last started attempt of a stale delivery, and no other, is closed as unknown with the decision |
| `OutboxLeases.LeaseKeepsOff` | src/webhook_platform/outbox/infrastructure/repository.py:18-39 | No query at a time within the lease returns a claimed row; its publish attempts go up by one |
| `OutboxLeases.FreeRowIsClaimed` | src/webhook_platform/outbox/infrastructure/repository.py:18-33 | An unlocked free row is passed over only for older ones in a full batch |
| `OutboxLeases.FinishedRowIsFree` | src/webhook_platform/outbox/infrastructure/repository.py:43-60 | A row that was not published is free again at once; a published one never is |
| `TableInvariant.ClaimKeeps` | src/webhook_platform/deliveries/infrastructure/processor.py:54-145 | claim_delivery keeps the invariant of the tables |
| `TableInvariant.FinalizeKeeps` | src/webhook_platform/deliveries/infrastructure/processor.py:222-287 | finalize_delivery keeps the invariant of the tables, for any claim a worker can hold |
| `TableInvariant.ScheduleKeeps` | src/webhook_platform/maintenance/application/reconcile.py:17-46 | schedule_due keeps the invariant of the tables |
| `TableInvariant.ReconcileKeeps` | src/webhook_platform/maintenance/application/reconcile.py:49-95 | reconcile_stale keeps the invariant of the tables, also when a batch frees several slots of one endpoint |
| `TableInvariant.InsertEventKeeps` | src/webhook_platform/events/infrastructure/repository.py:84-148 | Inserting an event with its deliveries and outbox rows keeps the invariant of the tables |
| `TableInvariant.InsertReplayKeeps` | src/webhook_platform/deliveries/infrastructure/repository.py:103-128 | Inserting a replay keeps the invariant of the tables |
| `TableInvariant.UpdateKeeps` | src/webhook_platform/endpoints/application/use_cases.py:165-191 | Every endpoint update keeps the invariant of the tables |
| `TableInvariant.DeleteEndpointKeeps` | src/webhook_platform/endpoints/application/use_cases.py:227-236 | Deleting an endpoint keeps the invariant of the tables |
| `TableInvariant.CleanupKeeps` | src/webhook_platform/maintenance/application/cleanup.py:18-89 | Cleanup, committed or aborted, keeps the invariant of the tables |
| `Evolution.ClaimSteps` | src/webhook_platform/deliveries/infrastructure/processor.py:54-145 | claim_delivery moves rows only along the status graph and opens attempts only for queued deliveries of accepting endpoints |
| `Evolution.FinalizeSteps` | src/webhook_platform/deliveries/infrastructure/processor.py:222-287 | finalize_delivery moves rows only along the status graph and closes only an open attempt |
| `Evolution.ReconcileSteps` | src/webhook_platform/maintenance/application/reconcile.py:49-95 | reconcile_stale moves rows only along the status graph and closes only open attempts |
| `Stores.Store.ClaimDelivery` | src/webhook_platform/deliveries/infrastructure/processor.py:54-145 | The statements of claim_delivery compute Claim; a claim is returned exactly when an attempt starts |
| `Stores.Store.FinalizeDelivery` | src/webhook_platform/deliveries/infrastructure/processor.py:222-287 | The statements of finalize_delivery compute Finalize, and settle the delivery by the answer, in status codes |
| `Stores.Store.ScheduleDueRows` | src/webhook_platform/maintenance/application/reconcile.py:17-46 | The loop of schedule_due computes ScheduleDue on all rows of the batch and returns their number |
| `Stores.Store.ReconcileStale` | src/webhook_platform/maintenance/application/reconcile.py:49-95 | The row-by-row loop of reconcile_stale computes the simultaneous Reconcile, also for several rows of one endpoint |
| `Stores.ReconcileOneMoreEndpoint` | src/webhook_platform/maintenance/application/reconcile.py:85-86 | One clamped decrement more is the same as counting one lease more |
| `Stores.Store.ClaimOutboxRows` | src/webhook_platform/outbox/infrastructure/repository.py:13-40 | The loop of claim_outbox leases exactly the batch and returns its rows in order |
| `Stores.Store.FinishOutboxRow` | src/webhook_platform/outbox/infrastructure/repository.py:43-60 | finish_outbox changes an unpublished row only |
| `Stores.Store.CreateEventGraph` | src/webhook_platform/events/infrastructure/repository.py:84-148 | The loop of create_event_graph computes InsertEvent, or reports the unique-key conflict and changes nothing |
| `Stores.Store.CreateReplay` | src/webhook_platform/deliveries/infrastructure/repository.py:103-128 | create_replay inserts a queued copy with its outbox row, or reports the unique-key conflict |
| `Stores.Store.Update` | src/webhook_platform/endpoints/application/use_cases.py:165-191 | The branches of update compute UpdateEndpoint |
| `Stores.Store.StartVerification` | src/webhook_platform/endpoints/application/use_cases.py:193-204 | The first transaction of verify stores a challenge on an endpoint that is not deleted and keeps the loaded object |
| `Stores.Store.CompleteVerification` | src/webhook_platform/endpoints/application/use_cases.py:212-225 | The second transaction of verify checks the loaded object only, clears the stored challenge, and writes the status if it was not loaded as active |
| `Stores.Store.Delete` | src/webhook_platform/endpoints/application/use_cases.py:227-236 | delete marks the endpoint and cancels its waiting deliveries, once |
| `Stores.Store.CleanupExpired` | src/webhook_platform/maintenance/application/cleanup.py:18-89 | The four bulk statements compute Cleanup: all of it, with the number of rows, or nothing if a replay would lose its source |
| `UseCases.CollectPreview` | src/webhook_platform/deliveries/infrastructure/processor.py:192-197 | The preview is a prefix of the body, as long as limit and body allow |
| `UseCases.ClaimThenFinalize` | src/webhook_platform/deliveries/infrastructure/processor.py:148-219 | Claim and finalize back to back return the slot and record exactly one closed attempt, which decides the status |
| `UseCases.ExecuteDelivery` | src/webhook_platform/deliveries/infrastructure/processor.py:148-219 | execute_delivery leaves no slot taken and settles the delivery by the answer, in status codes; without a claim it does only what claim does |
| `UseCases.ReadAnswer` | src/webhook_platform/deliveries/infrastructure/processor.py:198-207 | Retry-After is read with 429 and 503 only |
| `UseCases.PublishRows` | src/webhook_platform/outbox_dispatcher.py:36-51 | The inner loop finishes each row as its publish went, up to the first failing transaction |
| `UseCases.DispatchOnce` | src/webhook_platform/outbox_dispatcher.py:31-62 | Whatever fails where, a row of the batch ends published only if its message was confirmed, every other one is released, and no other row changes |
| `UseCases.Ingest` | src/webhook_platform/events/application/use_cases.py:94-136 | A known key is answered with its event iff the fingerprints are equal and with a conflict otherwise; a new one is refused iff the projection is over the limit, and inserted otherwise |
| `UseCases.Backlog` | src/webhook_platform/events/infrastructure/repository.py:25-61 | The projection is the number of unfinished deliveries plus the number of active, enabled, undeleted endpoints subscribed to the type |
| `UseCases.ReplayDelivery` | src/webhook_platform/deliveries/application/use_cases.py:145-175 | A used key returns its replay; otherwise the source is not found, not terminal, or gets a replay, each exactly in its case |
| `Backlog.BacklogBounded` | src/webhook_platform/events/infrastructure/repository.py:25-61 | In every reachable state an organization's unfinished deliveries number at most backlog_limit, plus its replays, plus deliveries for endpoints that began to match between projection and insert |
| `Backlog.LateIsTheDifference` | src/webhook_platform/events/infrastructure/repository.py:96-111 | The correction grows exactly by the endpoints matched at the insert beyond those projected |
| `Backlog.PlainBound` | src/webhook_platform/events/application/use_cases.py:100-109 | Unfinished deliveries stay within limit plus replays throughout a run iff the projection, made again at each insert, still passes |
| `Backlog.PunctualBound` | src/webhook_platform/events/application/use_cases.py:100-121 | In particular they do if no insert matches more endpoints than its projection counted |
| `Backlog.OneStepIngestIsPlainlyBounded` | src/webhook_platform/events/infrastructure/repository.py:25-61 | With projection and insert as one step under the organization lock, limit plus replays bounds every reachable state |
| `BacklogRace.LimitCanBeExceeded` | src/webhook_platform/events/infrastructure/repository.py:42-60 | For every limit, a run with one endpoint, which subscribes to a type between projection and insert, exceeds it without a replay |
| `Backlog.NextBacklog` | src/webhook_platform/events/application/use_cases.py:94-151 | No step other than ingest and replay raises the count, and those stay within their allowance |
| `Idempotency.SameKeySameEvent` | src/webhook_platform/events/application/use_cases.py:93-151 | While an event exists, every reply under its key names this event if the fingerprint is equal and refuses if it is not, however requests interleave; only a request that asked before the event existed can be answered with Overloaded |
| `Idempotency.AcceptedRepliesAgree` | src/webhook_platform/events/application/use_cases.py:123-130 | Two accepted replies under one key carry the same event id and fingerprint |
| `Idempotency.IngestFansOut` | src/webhook_platform/events/infrastructure/repository.py:112-148 | An accepted event has one queued delivery with one free outbox row for each active, enabled, undeleted and subscribed endpoint, and no other; the event stores type, fingerprint and time |
| `Idempotency.OneOriginal` | src/webhook_platform/shared/infrastructure/models.py:223-229 | No reachable state has two original deliveries of one event to one endpoint |
| `Idempotency.RacingReplaysAgree` | src/webhook_platform/deliveries/application/use_cases.py:151-175 | Racing replays with one key yield one row, which all callers receive |
| `Idempotency.ReplayLeavesSource` | src/webhook_platform/deliveries/infrastructure/repository.py:103-128 | A replay is a new queued delivery of the same event; all existing deliveries stay as they were |
| `Idempotency.ReplayForest` | src/webhook_platform/shared/infrastructure/models.py:199-216 | Following replay_of always ends; every ancestor is older, terminal, and of the same event, endpoint and organization |
| `Idempotency.SameContentSameEvent` | src/webhook_platform/events/application/use_cases.py:83-99 | A repeated request is accepted with the original event id iff its content means the same, whatever the order of object members, and refused otherwise; Overloaded goes only to one that asked before the event existed |
| `Fingerprint.SameMaterialSameContent` | src/webhook_platform/events/domain/canonical_json.py:35-37 | Fingerprint pre-images are equal iff organization, API key and content are |
| `Fingerprint.MaterialInjective` | src/webhook_platform/events/domain/canonical_json.py:35-37 | Given newline-free ids the pre-image determines organization, key and body |
| `Fingerprint.AcceptsExactly` | src/webhook_platform/events/domain/canonical_json.py:21-32 | Accepted are exactly the documents without NaN or infinity, of height and size within the limits |
| `Fingerprint.BodiesAgree` | src/webhook_platform/events/domain/canonical_json.py:21-32 | Two accepted documents have the same bytes iff they mean the same |
| `Unicode.Utf8Injective` | src/webhook_platform/events/domain/canonical_json.py:25-27 | Different texts have different UTF-8 bytes |
| `CanonicalJson.DepthIsHeight` | src/webhook_platform/events/domain/canonical_json.py:11-18 | _depth is the height of the document, and raises iff it contains a NaN or infinity |
| `CanonicalJson.RoundTrip` | src/webhook_platform/events/domain/canonical_json.py:25-27 | A parser recovers every document from its printed text |
| `CanonicalJson.PrintDependsOnMeaning` | src/webhook_platform/events/domain/canonical_json.py:25-27 | Insertion order does not show in the text |
| `CanonicalJson.PrintIsCanonical` | src/webhook_platform/events/domain/canonical_json.py:25-27 | Texts are equal iff documents are |
| `CanonicalText.MembersInOrder` | src/webhook_platform/events/domain/canonical_json.py:25-27 | An object is printed with exactly its members, in code point order of their keys, by index |
| `CanonicalText.LessIsByCodePoint` | src/webhook_platform/events/domain/canonical_json.py:25-27 | Keys are compared at their first difference by code point, a prefix first |
| `CanonicalText.BodyLayout` | src/webhook_platform/events/application/use_cases.py:83-93 | Every canonical body is data, occurred_at, type, version, in this order |
| `CanonicalText.EscapeTable` | src/webhook_platform/events/domain/canonical_json.py:25-27 | Quote, backslash and control characters are written with their short or lower-case hexadecimal escapes, everything else as itself |
| `CanonicalText.Utf8Bits` | src/webhook_platform/events/domain/canonical_json.py:25-27 | The bytes of a character carry its code point as UTF-8 lays them out |
| `CanonicalText.MaterialLayout` | src/webhook_platform/events/domain/canonical_json.py:35-37 | The hashed material is POST, organization, API key and body, one per line |
| `CanonicalJson.StringRoundTrip` | src/webhook_platform/events/domain/canonical_json.py:25-27 | Every string is recovered from its escaped form |
| `Pagination.FullTraversal` | src/webhook_platform/deliveries/application/use_cases.py:80-84 | Following next_cursor to the end returns the whole sorted list, each row once, for every limit |
| `Pagination.ListingOrder` | src/webhook_platform/deliveries/infrastructure/repository.py:51-63 | Newest first is by falling timestamp and then falling id, oldest first the reverse |
| `Pagination.PagesAreTheList` | src/webhook_platform/deliveries/infrastructure/repository.py:51-63 | From any cursor the pages are exactly the rows after it |
| `Pagination.PageIsPrefix` | src/webhook_platform/deliveries/application/use_cases.py:80-84 | Asking for limit + 1 rows tells exactly whether more than limit remain, and the cursor is the last row of the page |
| `Pagination.NoRowTwice` | src/webhook_platform/deliveries/infrastructure/repository.py:51-63 | Rows come in strict order, so none twice, however the table changes between pages |
| `Pagination.StableRowsAppear` | src/webhook_platform/deliveries/infrastructure/repository.py:86-99 | A row present for the whole traversal is returned, whatever is inserted or deleted around it |
| `Pagination.RowsAreReal` | src/webhook_platform/deliveries/infrastructure/repository.py:86-99 | Every returned row was in the table when its page was read |
| `Pagination.TraversalEnds` | src/webhook_platform/deliveries/application/use_cases.py:104-105 | A traversal over finitely many rows ends within as many pages |
| `Cursors.CursorRoundTrip` | src/webhook_platform/shared/domain/pagination.py:13-34 | A cursor decodes to its timestamp and id iff the timestamp is aware and the id not empty, for every valid timestamp and every id |
| `Cursors.CursorIsInjective` | src/webhook_platform/shared/domain/pagination.py:13-19 | Different rows never share a cursor |
| `Cursors.CursorBytes` | src/webhook_platform/shared/domain/pagination.py:13-19 | A cursor is URL-safe without padding, and its bytes are the JSON payload |
| `OpaquePaging.CrawlIsComplete` | src/webhook_platform/deliveries/application/use_cases.py:80-84 | A client that follows the cursor texts through an unchanging table receives exactly its rows |
| `OpaquePaging.CrawlIsOrdered` | src/webhook_platform/deliveries/infrastructure/repository.py:51-63 | It receives them in order, none twice, however the table changes between pages |
| `OpaquePaging.CrawlFindsStableRows` | src/webhook_platform/deliveries/infrastructure/repository.py:86-99 | It receives every row that is there all the time |
| `OpaquePaging.CrawlFindsRealRows` | src/webhook_platform/deliveries/infrastructure/repository.py:86-99 | It receives no row that was not there |
| `OpaquePaging.NextTextReads` | src/webhook_platform/shared/domain/pagination.py:13-34 | The text given out with a page decodes to the position where the page ended |
| `OpaquePaging.KeysAreFaithful` | src/webhook_platform/deliveries/infrastructure/repository.py:53-59 | The keys that pages are compared by order rows as their timestamps and ids do |
| `CursorText.IsoLayout` | src/webhook_platform/shared/domain/pagination.py:15-15 | Timestamps are written YYYY-MM-DDTHH:MM:SS, with microseconds unless zero and the offset of an aware one, position by position |
| `CursorText.PayloadLayout` | src/webhook_platform/shared/domain/pagination.py:14-18 | The payload of a cursor names created_at and then id, without spaces |
| `Cursors.IsoRoundTrip` | src/webhook_platform/shared/domain/pagination.py:15-28 | Reading the ISO text of a timestamp gives the timestamp back |
| `Cursors.EscapeAsciiRoundTrip` | src/webhook_platform/shared/domain/pagination.py:14-18 | ASCII-only escaping, with surrogate pairs above U+FFFF, is read back by the parser |
| `Base64.UnpaddedRoundTrip` | src/webhook_platform/shared/domain/pagination.py:19-26 | Stripped padding is restored from the length, and decoding gives every byte string back |
| `RateLimit.InMemoryRateLimiter.Require` | src/webhook_platform/shared/infrastructure/rate_limit.py:25-45 | A call updates its own bucket as specified, is admitted iff a token is there, and otherwise names the wait |
| `RateLimit.WindowBound` | src/webhook_platform/shared/infrastructure/rate_limit.py:25-45 | In any stretch of any call sequence at most capacity + rate * elapsed calls of a key are admitted |
| `RateLimit.FullBurst` | src/webhook_platform/shared/infrastructure/rate_limit.py:28-37 | A new key gets its whole capacity at one instant |
| `RateLimit.LevelBounds` | src/webhook_platform/shared/infrastructure/rate_limit.py:32-36 | Tokens stay between 0 and capacity |
| `RateLimit.RetryAfterSuffices` | src/webhook_platform/shared/infrastructure/rate_limit.py:38-45 | After a rejection, waiting retry_after with no other call on the key guarantees admission |
| `RateLimit.RetryAfterIsTight` | src/webhook_platform/shared/infrastructure/rate_limit.py:38-45 | One second less would be rejected again |
| `Retention.CleanupRemovesOnlyExpired` | src/webhook_platform/maintenance/application/cleanup.py:51-87 | Only expired terminal deliveries, and expired events without a remaining delivery, are removed; everything else is unchanged |
| `Retention.CleanupKeepsAttempts` | src/webhook_platform/maintenance/application/cleanup.py:21-36 | Attempts go with their delivery only, and lose at most an expired preview; only expired audit rows go |
| `Retention.CleanupKeepsReferences` | src/webhook_platform/shared/infrastructure/models.py:201-216 | After cleanup the event, endpoint and replay source of every delivery still exist |
| `Retention.NothingOldIsLeft` | src/webhook_platform/maintenance/application/cleanup.py:21-89 | A pass that returns 0 leaves no preview, audit row, finished delivery or unused event older than its retention days |
| `Retention.TakesOnlyOld` | src/webhook_platform/maintenance/application/cleanup.py:21-78 | What a pass takes is older than its retention days; deliveries are finished, events are used by no remaining delivery |
| `Retention.CommittedPass` | src/webhook_platform/maintenance/application/cleanup.py:37-87 | A committed pass removes exactly what it took, with the attempts of its deliveries, and clears the previews |
| `Retention.PassReducesExcess` | src/webhook_platform/maintenance/application/cleanup.py:89-89 | Every row a committed pass counts is one less to remove |
| `Retention.ZeroMeansClean` | src/webhook_platform/maintenance/application/cleanup.py:89-89 | A pass returns 0 iff nothing is expired, and then changes nothing |
| `Retention.FixpointIffReplaysInBatch` | src/webhook_platform/maintenance/application/cleanup.py:18-89 | Cleanup repeated at a fixed clock reaches a pass that returns 0 iff every replay of an expired delivery is expired and, oldest first, in no later batch than its source |
| `Retention.FixpointIffReplaysExpire` | src/webhook_platform/maintenance/application/cleanup.py:51-89 | If one batch has room for all expired deliveries, it does so iff every replay of an expired delivery is expired |
| `Retention.EveryPassCommits` | src/webhook_platform/maintenance/application/cleanup.py:51-66 | Under that condition no pass aborts |
| `Retention.NeverCleans` | src/webhook_platform/maintenance/application/cleanup.py:51-66 | Without it no pass ever returns 0 |
| `Retention.FullPassExists` | src/webhook_platform/maintenance/application/cleanup.py:21-78 | Every table has a pass for every batch size: rows by age up to the limit, events after the deliveries are gone |
| `Retention.PassesExist` | src/webhook_platform/maintenance/application/cleanup.py:18-89 | From every table there are sequences of passes of every length |
| `CleanupStall.NoBatchSizeSuffices` | src/webhook_platform/maintenance/application/cleanup.py:51-66 | For every batch size, a run with one endpoint after which every cleanup pass, however many are made, has rows to remove, aborts and changes nothing |
| `Retention.CommitsIffReplaysExpired` | src/webhook_platform/shared/infrastructure/models.py:213-216 | If one batch takes all expired deliveries, the pass commits iff every replay of an expired delivery is expired |
| `Retention.AbortRepeats` | src/webhook_platform/maintenance/application/cleanup.py:51-66 | A pass that would orphan a replay changes nothing, and so does every later one at that clock |
| `Retention.PickIsDetermined` | src/webhook_platform/maintenance/application/cleanup.py:61-65 | The order by age decides which expired deliveries a pass takes |
| `RetrySchedule.DelayBounds` | src/webhook_platform/deliveries/domain/retry.py:16-29 | For any schedule and draw: at least the base delay and min(Retry-After, 21600), at most base plus jitter or the cap |
| `RetrySchedule.ConfiguredDelayBounds` | src/webhook_platform/config/settings.py:68-69 | With the configured schedule every delay lies between its base and 25920 seconds |
| `RetrySchedule.DelaysIncrease` | src/webhook_platform/config/settings.py:68-69 | Without Retry-After delays strictly increase over attempts 1 to 5, whatever is drawn |
| `RetrySchedule.SixFailures` | src/webhook_platform/deliveries/domain/retry.py:16-29 | Six ordinary failures schedule 25950 to 31140 seconds in all |
| `RetrySchedule.RetryAfterMissing` | src/webhook_platform/deliveries/domain/retry.py:32-41 | A missing, empty or unreadable Retry-After asks for nothing |
| `RetrySchedule.RetryAfterSeconds` | src/webhook_platform/deliveries/domain/retry.py:32-36 | A Retry-After of decimal digits, with or without leading zeros, is read as written, capped at 21600 |
| `RetrySchedule.DigitsAreNumerals` | src/webhook_platform/deliveries/domain/retry.py:35-36 | Every text of digits is such a numeral |
| `RetrySchedule.RetryAfterDate` | src/webhook_platform/deliveries/domain/retry.py:37-44 | A Retry-After date gives the whole seconds until then, at least 0 and capped |
| `RefreshTokens.TokenStore.Refresh` | src/webhook_platform/identity/application/use_cases.py:77-106 | refresh rotates a live token, revokes the family of a revoked one, and otherwise changes nothing |
| `RefreshTokens.TokenStore.Login` | src/webhook_platform/identity/application/use_cases.py:45-75 | login starts a new family with one token |
| `RefreshTokens.TokenStore.Logout` | src/webhook_platform/identity/application/use_cases.py:108-117 | logout revokes the presented token if it is live |
| `RefreshTokens.TokenStore.RevokeFamily` | src/webhook_platform/identity/infrastructure/repository.py:68-76 | The bulk update revokes exactly the unrevoked tokens of the family |
| `RefreshTokens.RefreshOutcome` | src/webhook_platform/identity/application/use_cases.py:77-106 | A secret is renewed iff its token is unrevoked and unexpired, a reuse iff it is revoked; the new token has its user and family |
| `RefreshTokens.LogoutOutcome` | src/webhook_platform/identity/application/use_cases.py:108-117 | Logout revokes the token of the secret and no other |
| `RefreshTokens.DrawnExactly` | src/webhook_platform/identity/application/use_cases.py:77-106 | In every run a token is drawn exactly by a login or for an unrevoked and unexpired token |
| `RefreshTokens.LoggedOutForGood` | src/webhook_platform/identity/application/use_cases.py:108-117 | After a logout the secret draws no token again |
| `RefreshTokens.FamilyIsOneChain` | src/webhook_platform/identity/application/use_cases.py:93-100 | In every reachable state each token of a family is replaced by the next one of the family, and all but the last are revoked |
| `RefreshTokens.AtMostOneLive` | src/webhook_platform/identity/infrastructure/repository.py:45-76 | A family has at most one unrevoked token, and it is the last |
| `RefreshTokens.RenewedOnce` | src/webhook_platform/identity/application/use_cases.py:84-100 | No secret is exchanged twice in any run; the second try is a reuse |
| `RefreshTokens.DeadStaysDead` | src/webhook_platform/identity/application/use_cases.py:77-106 | A family without unrevoked tokens never gets one again |
| `RefreshTokens.RevocationMissesOnlyNewTokens` | src/webhook_platform/identity/infrastructure/repository.py:68-76 | After a family revocation exactly those tokens are live that were issued after it began and were live before its commit |
| `RefreshTokens.ReuseKillsFamily` | src/webhook_platform/identity/application/use_cases.py:84-87 | After a reuse no token of the family is ever live again, if no refresh overtakes the revocation |
| `RefreshTokens.ImmediateReuseKillsFamily` | src/webhook_platform/identity/application/use_cases.py:84-87 | With the use case as one step this holds without condition |
| `RefreshTokens.OvertakenRevocation` | src/webhook_platform/identity/infrastructure/repository.py:68-76 | A run in which a refresh commits while the revocation waits, and its token stays live |

## Left out

- Routers, schemas, middleware, logging, metrics and tracing: no state of their own.
- Cryptography: encryption, signatures, password hashing and JWT are not modelled; a secret is usable or not,
  a verification answer matches its hash or not. SHA-256 is left out: a fingerprint is its pre-image, so
  equal fingerprints mean equal content here.
- Network, DNS, TLS, URL and IP checks: the HTTP call is a step with an arbitrary answer or error.
- Roles, last-owner checks, API keys, registration, endpoint limits and the validation of names, event types
  and key lengths: branches that refuse a request before it reaches shared state.
- Identifiers are insertion numbers where the service draws UUIDs; ties of equal timestamps are broken by
  them. An attempt is found by its delivery and number, which the table declares unique together.
- Reading an event's matching endpoints and committing its insert are one step; in PostgreSQL a disable may
  commit between the two, and its endpoint then gets a delivery that the next claim cancels.
- `delivery_count` in idempotent replies: it counts later replays and misses removed rows.
- Exclusive outbox leases: `finish_outbox` clears a lease without asking whose it is, so two dispatchers may
  publish one row; the model lets them.
- The `pending` delivery status: no code creates it, and the invariant proves it unreachable.
- Celery's redelivery policy, Kombu and RabbitMQ: replaced by the assumptions above.
- The rate limiter and the jitter use reals instead of binary floating point. Retry-After digits are ASCII,
  and parsing an HTTP date is left out: its result is a parameter.
- JSON floats are opaque texts, lone surrogates are no characters, and documents have distinct keys, as
  after parsing. The parser used in the proofs reads compact JSON.
- Cursors.DecodeCursor: refuses what no encoder writes but Python's lenient readers accept (characters
  outside the alphabet, JSON whitespace, repeated keys, other ISO 8601 forms, offsets with seconds).
- Paging ids are compared character by character; a database collation may order them otherwise, and rows
  have UTC timestamps and ids of 36 characters.
- Access tokens, user deactivation and the deletion of users.
- The filters of the list queries: the set of rows a page is read from stands for the rows that pass them.
