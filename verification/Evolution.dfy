/**
 What a single transaction may do to the rows that already exist, and what any number of them can
 have done in the end.
 */
module Evolution {
  import opened Wrappers
  import opened Tables
  import opened Transactions
  import opened TableInvariant

  // --- One transaction ----------------------------------------------------------------------------

  /** The status graph: every arrow with what it does to attempt_count. */
  predicate Edge(a: Delivery, b: Delivery) {
    match a.status
    case Pending => b.status == Cancelled && b.attemptCount == a.attemptCount
    case Queued =>
      || (b.status == Delivering && b.attemptCount == a.attemptCount + 1)
      || (b.status in {RetryScheduled, Cancelled} && b.attemptCount == a.attemptCount)
      || (b.status == DeadLettered && b.attemptCount == a.attemptCount + 1)
    case Delivering =>
      b.status in {Succeeded, RetryScheduled, DeadLettered} && b.attemptCount == a.attemptCount
    case RetryScheduled =>
      b.status in {Queued, Cancelled} && b.attemptCount == a.attemptCount
    case _ => false
  }

  predicate RowStep(a: Delivery, b: Delivery) {
    SameIdentity(a, b) && (a == b || Edge(a, b))
  }

  /** An attempt is closed once, and afterwards can only lose its stored preview. */
  predicate AttemptStep(a: Attempt, b: Attempt) {
    || (a.outcome == Started && b.startedAt == a.startedAt)
    || b == a || b == a.(preview := false)
  }

  predicate OutboxStep(a: OutboxRow, b: OutboxRow) {
    && b.delivery == a.delivery && b.availableAt == a.availableAt && (a.published ==> b.published)
    && a.publishAttempts <= b.publishAttempts
  }

  predicate EndpointStep(a: Endpoint, b: Endpoint) {
    b.org == a.org && (a.deletedAt.Some? ==> b.deletedAt == a.deletedAt && !b.enabled)
  }

  /** Rows that exist before and after take one step; rows leave only when terminal; numbers are new. */
  ghost predicate DeliveriesStep(t: Tables, u: Tables) {
    && t.nextDelivery <= u.nextDelivery
    && (forall d :: d in t.deliveries && d in u.deliveries ==> RowStep(t.deliveries[d], u.deliveries[d]))
    && (forall d :: d in t.deliveries && d !in u.deliveries ==> Terminal(t.deliveries[d].status))
    && (forall d :: d in u.deliveries && d !in t.deliveries ==>
          t.nextDelivery <= d && Newborn(u.deliveries[d]))
  }

  /** A new attempt belongs to a delivery that was queued for an endpoint that accepts calls. */
  predicate OpensFor(t: Tables, k: AttemptKey) {
    && k.delivery in t.deliveries && t.deliveries[k.delivery].status == Queued
    && Accepting(t, t.deliveries[k.delivery].endpoint)
  }

  ghost predicate AttemptsStep(t: Tables, u: Tables) {
    && (forall k :: k in t.attempts && k.delivery in u.deliveries ==>
          k in u.attempts && AttemptStep(t.attempts[k], u.attempts[k]))
    && (forall k :: k in u.attempts && k !in t.attempts ==> OpensFor(t, k))
  }

  ghost predicate OthersStep(t: Tables, u: Tables) {
    && |t.outbox| <= |u.outbox|
    && (forall i :: 0 <= i < |t.outbox| ==> OutboxStep(t.outbox[i], u.outbox[i]))
    && t.nextEvent <= u.nextEvent
    && (forall e :: e in t.events && e in u.events ==> u.events[e] == t.events[e])
    && (forall e :: e in u.events && e !in t.events ==> t.nextEvent <= e)
    && (forall e :: e in t.endpoints ==> e in u.endpoints && EndpointStep(t.endpoints[e], u.endpoints[e]))
  }

  ghost predicate Step(t: Tables, u: Tables) {
    DeliveriesStep(t, u) && AttemptsStep(t, u) && OthersStep(t, u)
  }

  lemma SameTablesStep(t: Tables)
    requires SideOk(t)
    ensures Step(t, t)
  {
  }

  lemma ClaimSteps(t: Tables, s: Settings, now: Time, d: nat, secretOk: bool)
    requires TablesOk(t, s)
    ensures Step(t, Claim(t, s, now, d, secretOk))
  {
    if d in t.deliveries && t.deliveries[d].status == Queued {
      var u := Claim(t, s, now, d, secretOk);
      ClaimShape(t, s, now, d, secretOk);
      ClaimSlot(t, s, now, d, secretOk);
      assert RefsRowOk(t, d);
      QueuedHasNoOpenAttempt(t, s, d);
      assert DeliveriesStep(t, u);
    }
  }

  lemma FinalizeRowStep(t: Tables, s: Settings, now: Time, c: Claimed, resp: Response, sample: real)
    requires ValidSettings(s) && Finalizes(t, c) && t.deliveries[c.attempt.delivery].status == Delivering
    ensures DeliveriesStep(t, Finalize(t, s, now, c, resp, sample))
  {
  }

  lemma FinalizeAttemptStep(t: Tables, s: Settings, now: Time, c: Claimed, resp: Response, sample: real)
    requires ValidSettings(s) && Finalizes(t, c)
    ensures AttemptsStep(t, Finalize(t, s, now, c, resp, sample))
  {
  }

  lemma FinalizeOthersStep(t: Tables, s: Settings, now: Time, c: Claimed, resp: Response, sample: real)
    requires ValidSettings(s) && Finalizes(t, c) && SideOk(t)
    ensures OthersStep(t, Finalize(t, s, now, c, resp, sample))
  {
    assert t.endpoints[c.endpoint].deletedAt.Some? ==> !t.endpoints[c.endpoint].enabled;
  }

  lemma FinalizeSteps(t: Tables, s: Settings, now: Time, c: Claimed, resp: Response, sample: real)
    requires ValidSettings(s) && TablesOk(t, s)
    ensures Step(t, Finalize(t, s, now, c, resp, sample))
  {
    if Finalizes(t, c) {
      OpenAttemptIsDelivering(t, s, c.attempt);
      FinalizeRowStep(t, s, now, c, resp, sample);
      FinalizeAttemptStep(t, s, now, c, resp, sample);
      FinalizeOthersStep(t, s, now, c, resp, sample);
    }
  }

  lemma ScheduleSteps(t: Tables, s: Settings, now: Time, batch: seq<nat>)
    requires TablesOk(t, s)
    requires forall d :: d in batch ==> d in DueRows(t, now)
    ensures Step(t, ScheduleDue(t, now, batch))
  {
  }

  lemma ReconcileDeliveriesStep(t: Tables, s: Settings, now: Time, batch: seq<nat>)
    requires forall d :: d in batch ==> d in StaleRows(t, now)
    ensures DeliveriesStep(t, Reconcile(t, s, now, batch))
  {
  }

  lemma ReconcileAttemptsStep(t: Tables, s: Settings, now: Time, batch: seq<nat>)
    ensures AttemptsStep(t, Reconcile(t, s, now, batch))
  {
  }

  lemma ReconcileOthersStep(t: Tables, s: Settings, now: Time, batch: seq<nat>)
    requires SideOk(t)
    ensures OthersStep(t, Reconcile(t, s, now, batch))
  {
  }

  lemma ReconcileSteps(t: Tables, s: Settings, now: Time, batch: seq<nat>)
    requires TablesOk(t, s)
    requires forall d :: d in batch ==> d in StaleRows(t, now)
    ensures Step(t, Reconcile(t, s, now, batch))
  {
    ReconcileDeliveriesStep(t, s, now, batch);
    ReconcileAttemptsStep(t, s, now, batch);
    ReconcileOthersStep(t, s, now, batch);
  }

  lemma OutboxEditSteps(t: Tables, outbox: seq<OutboxRow>)
    requires SideOk(t) && |outbox| == |t.outbox|
    requires forall i :: 0 <= i < |t.outbox| ==> OutboxStep(t.outbox[i], outbox[i])
    ensures Step(t, t.(outbox := outbox))
  {
  }

  lemma ClaimOutboxSteps(t: Tables, s: Settings, rows: seq<nat>, until: Time)
    requires TablesOk(t, s)
    ensures Step(t, ClaimOutbox(t, rows, until))
  {
    OutboxEditSteps(t, ClaimOutbox(t, rows, until).outbox);
  }

  lemma FinishOutboxSteps(t: Tables, s: Settings, r: nat, published: bool)
    requires TablesOk(t, s)
    ensures Step(t, FinishOutbox(t, r, published))
  {
    OutboxEditSteps(t, FinishOutbox(t, r, published).outbox);
  }

  lemma CreateEndpointSteps(
    t: Tables, s: Settings, e: nat, org: OrgId, url: string, types: set<string>, now: Time)
    requires TablesOk(t, s) && e !in t.endpoints
    ensures Step(t, CreateEndpoint(t, e, org, url, types, now))
  {
  }

  lemma CancelSteps(t: Tables, s: Settings, org: OrgId, e: nat)
    requires TablesOk(t, s)
    ensures Step(t, CancelWaiting(t, org, e))
  {
    forall d | d in t.deliveries
      ensures RowStep(t.deliveries[d], CancelWaiting(t, org, e).deliveries[d])
    {
    }
  }

  /** An endpoint edit committed together with `t1`'s changes to deliveries. */
  lemma EndpointEditSteps(t: Tables, t1: Tables, e: nat, ep: Endpoint, now: Time)
    requires Step(t, t1) && t1.endpoints == t.endpoints && e in t.endpoints && SideOk(t)
    requires EndpointStep(t.endpoints[e], ep)
    ensures Step(t, Audit(t1.(endpoints := t.endpoints[e := ep]), now))
  {
    var u := Audit(t1.(endpoints := t.endpoints[e := ep]), now);
    assert DeliveriesStep(t, u);
    assert AttemptsStep(t, u);
  }

  lemma UpdateSteps(t: Tables, s: Settings, org: OrgId, e: nat, c: Changes, now: Time)
    requires TablesOk(t, s)
    ensures Step(t, UpdateEndpoint(t, org, e, c, now))
  {
    SameTablesStep(t);
    if Manageable(t, org, e) {
      var moved := Relocated(t.endpoints[e], c.url);
      var t1 := if c.enabled == Some(false) && moved.status == Active then CancelWaiting(t, org, e) else t;
      CancelSteps(t, s, org, e);
      EndpointEditSteps(t, t1, e, Subscribed(Switched(moved, c.enabled), c.eventTypes), now);
    }
  }

  lemma BeginVerifySteps(t: Tables, s: Settings, org: OrgId, e: nat, c: Challenge)
    requires TablesOk(t, s)
    ensures Step(t, BeginVerify(t, org, e, c))
  {
  }

  lemma CommitVerifySteps(t: Tables, s: Settings, v: Verification, now: Time)
    requires TablesOk(t, s)
    ensures Step(t, CommitVerify(t, v, now))
  {
  }

  lemma DeleteEndpointSteps(t: Tables, s: Settings, org: OrgId, e: nat, now: Time)
    requires TablesOk(t, s)
    ensures Step(t, DeleteEndpoint(t, org, e, now))
  {
    SameTablesStep(t);
    if Manageable(t, org, e) {
      CancelSteps(t, s, org, e);
      EndpointEditSteps(t, CancelWaiting(t, org, e), e,
                        t.endpoints[e].(deletedAt := Some(now), status := Deleted, enabled := false), now);
    }
  }

  lemma InsertEventSteps(t: Tables, s: Settings, req: Request, eps: seq<nat>, now: Time)
    requires TablesOk(t, s)
    ensures Step(t, InsertEvent(t, req, eps, now))
  {
    NumbersInUse(t);
  }

  lemma InsertReplaySteps(t: Tables, s: Settings, source: nat, key: string, now: Time)
    requires TablesOk(t, s) && source in t.deliveries
    ensures Step(t, InsertReplay(t, source, key, now))
  {
    NumbersInUse(t);
  }

  lemma SweptDeliveriesStep(t: Tables, w: Sweep)
    requires forall d :: d in w.deliveries && d in t.deliveries ==> Terminal(t.deliveries[d].status)
    ensures DeliveriesStep(t, Swept(t, w))
  {
  }

  lemma SweptAttemptsStep(t: Tables, w: Sweep)
    requires RowsKnown(t)
    ensures AttemptsStep(t, Swept(t, w))
  {
  }

  lemma SweptOthersStep(t: Tables, w: Sweep)
    requires SideOk(t)
    ensures OthersStep(t, Swept(t, w))
  {
  }

  lemma CleanupSteps(t: Tables, s: Settings, now: Time, w: Sweep)
    requires TablesOk(t, s) && Sweepable(t, s, now, w)
    ensures Step(t, Cleanup(t, w))
  {
    SweptDeliveriesStep(t, w);
    SweptAttemptsStep(t, w);
    SweptOthersStep(t, w);
  }

  // --- Any number of transactions -------------------------------------------------------------------

  predicate RowEvolves(a: Delivery, b: Delivery) {
    SameIdentity(a, b) && a.attemptCount <= b.attemptCount && (Terminal(a.status) ==> b == a)
  }

  predicate AttemptEvolves(a: Attempt, b: Attempt) {
    && b.startedAt == a.startedAt
    && (a.outcome != Started ==> b == a || b == a.(preview := false))
  }

  ghost predicate Evolves(t: Tables, u: Tables) {
    && t.nextDelivery <= u.nextDelivery && t.nextEvent <= u.nextEvent && |t.outbox| <= |u.outbox|
    && (forall d :: d in t.deliveries && d in u.deliveries ==> RowEvolves(t.deliveries[d], u.deliveries[d]))
    && (forall d :: d in u.deliveries && d !in t.deliveries ==> t.nextDelivery <= d)
    && (forall k :: k in t.attempts && k.delivery in u.deliveries ==>
          k in u.attempts && AttemptEvolves(t.attempts[k], u.attempts[k]))
    && (forall i :: 0 <= i < |t.outbox| ==> OutboxStep(t.outbox[i], u.outbox[i]))
    && (forall e :: e in t.events && e in u.events ==> u.events[e] == t.events[e])
    && (forall e :: e in u.events && e !in t.events ==> t.nextEvent <= e)
    && (forall e :: e in t.endpoints ==> e in u.endpoints && EndpointStep(t.endpoints[e], u.endpoints[e]))
  }

  lemma StepEvolves(t: Tables, u: Tables)
    requires Step(t, u)
    ensures Evolves(t, u)
  {
  }

  /** Numbers are never handed out twice, so a row that is gone stays gone. */
  lemma EvolvesTransitive(t: Tables, u: Tables, v: Tables)
    requires RefsOk(t) && SideOk(t) && RowsKnown(t) && RowsKnown(u)
    requires Evolves(t, u) && Evolves(u, v)
    ensures Evolves(t, v)
  {
    NumbersInUse(t);
    forall d | d in t.deliveries && d in v.deliveries
      ensures d in u.deliveries && RowEvolves(t.deliveries[d], v.deliveries[d])
    {
      assert RowEvolves(t.deliveries[d], u.deliveries[d]);
    }
    forall k | k in t.attempts && k.delivery in v.deliveries
      ensures k in v.attempts && AttemptEvolves(t.attempts[k], v.attempts[k])
    {
      assert k in u.attempts && AttemptEvolves(t.attempts[k], u.attempts[k]);
    }
  }

  ghost predicate RowsKnown(t: Tables) {
    forall k :: k in t.attempts ==> k.delivery in t.deliveries
  }
}
