/**
 The repository code as it runs: statement by statement, with the loops over selected rows. Each method
 is one transaction and is proved to take the tables to what module Transactions says.
 */
module Stores {
  import opened Wrappers
  import opened Tables
  import opened Transactions
  import opened Outcomes
  import Retry

  // --- One more row in a batch ------------------------------------------------------------------------

  lemma PrefixHas<T>(xs: seq<T>, i: nat)
    requires i < |xs|
    ensures xs[..i + 1] == xs[..i] + [xs[i]]
  {
  }

  lemma PrefixLacks<T>(xs: seq<T>, i: nat)
    requires i < |xs| && forall j, k :: 0 <= j < k < |xs| ==> xs[j] != xs[k]
    ensures xs[i] !in xs[..i]
  {
  }

  lemma ScheduleOneMore(t: Tables, now: Time, done: seq<nat>, d: nat)
    requires d !in done && d in t.deliveries
    ensures
      var u := ScheduleDue(t, now, done);
      && d in u.deliveries
      && ScheduleDue(t, now, done + [d])
         == u.(deliveries := u.deliveries[d := u.deliveries[d].(status := Queued, nextAttemptAt := None)],
               outbox := u.outbox + [Command(d, now)])
  {
    var u := ScheduleDue(t, now, done);
    var v := ScheduleDue(t, now, done + [d]);
    assert v.deliveries == u.deliveries[d := u.deliveries[d].(status := Queued, nextAttemptAt := None)];
    assert v.outbox == u.outbox + [Command(d, now)];
  }

  function FreeSlot(endpoints: map<nat, Endpoint>, e: nat): map<nat, Endpoint> {
    if e in endpoints
    then endpoints[e := endpoints[e].(activeCount := Retry.Max(0, endpoints[e].activeCount - 1))]
    else endpoints
  }

  lemma InEndpointGrows(t: Tables, done: seq<nat>, d: nat, e: nat)
    requires d !in done && d in t.deliveries
    ensures |InEndpoint(t, done + [d], e)|
         == |InEndpoint(t, done, e)| + if t.deliveries[d].endpoint == e then 1 else 0
    ensures t.deliveries[d].endpoint != e ==> InEndpoint(t, done + [d], e) == InEndpoint(t, done, e)
    ensures t.deliveries[d].endpoint == e ==> InEndpoint(t, done + [d], e) != {}
  {
    if t.deliveries[d].endpoint == e {
      assert InEndpoint(t, done + [d], e) == InEndpoint(t, done, e) + {d};
      assert d !in InEndpoint(t, done, e);
    } else {
      assert InEndpoint(t, done + [d], e) == InEndpoint(t, done, e);
    }
  }

  /** Clamped decrements add up: taking one more slot off is the same as counting one more lease. */
  lemma ReconcileOneMoreSlot(t: Tables, s: Settings, now: Time, done: seq<nat>, d: nat, e: nat)
    requires d !in done && d in t.deliveries && e in t.endpoints
    ensures Reconcile(t, s, now, done + [d]).endpoints[e]
         == FreeSlot(Reconcile(t, s, now, done).endpoints, t.deliveries[d].endpoint)[e]
  {
    InEndpointGrows(t, done, d, e);
  }

  lemma ReconcileOneMoreEndpoint(t: Tables, s: Settings, now: Time, done: seq<nat>, d: nat)
    requires d !in done && d in t.deliveries
    ensures Reconcile(t, s, now, done + [d]).endpoints
         == FreeSlot(Reconcile(t, s, now, done).endpoints, t.deliveries[d].endpoint)
  {
    var v := Reconcile(t, s, now, done + [d]).endpoints;
    var w := FreeSlot(Reconcile(t, s, now, done).endpoints, t.deliveries[d].endpoint);
    assert v.Keys == t.endpoints.Keys && w.Keys == t.endpoints.Keys;
    forall e | e in t.endpoints
      ensures v[e] == w[e]
    {
      ReconcileOneMoreSlot(t, s, now, done, d, e);
    }
  }

  /** Closing attempts of other deliveries does not change which attempt of `d` is found. */
  lemma NewestStartedStays(t: Tables, s: Settings, now: Time, done: seq<nat>, k: AttemptKey)
    requires k.delivery !in done
    ensures NewestStarted(Reconcile(t, s, now, done).attempts, k) <==> NewestStarted(t.attempts, k)
  {
    var u := Reconcile(t, s, now, done).attempts;
    assert forall j :: j in t.attempts && j.delivery == k.delivery ==> u[j] == t.attempts[j];
  }

  lemma ReconcileOneMoreAttempt(t: Tables, s: Settings, now: Time, done: seq<nat>, d: nat, k: AttemptKey)
    requires d !in done && d in t.deliveries && k.delivery == d
    requires NewestStarted(Reconcile(t, s, now, done).attempts, k)
    ensures
      var u := Reconcile(t, s, now, done).attempts;
      Reconcile(t, s, now, done + [d]).attempts
      == u[k := LostAttempt(u[k], t.deliveries[d].attemptCount < s.maxAttempts, now)]
  {
    NewestStartedStays(t, s, now, done, k);
    var u := Reconcile(t, s, now, done).attempts;
    var v := Reconcile(t, s, now, done + [d]).attempts;
    var w := u[k := LostAttempt(u[k], t.deliveries[d].attemptCount < s.maxAttempts, now)];
    forall j | j in t.attempts
      ensures v[j] == w[j]
    {
      if j.delivery == d && NewestStarted(t.attempts, j) {
        assert j.number == k.number;
      }
    }
    assert v.Keys == w.Keys;
  }

  lemma ReconcileOneMoreWithout(t: Tables, s: Settings, now: Time, done: seq<nat>, d: nat)
    requires d !in done && d in t.deliveries
    requires forall k :: k in Reconcile(t, s, now, done).attempts && k.delivery == d ==>
               !NewestStarted(Reconcile(t, s, now, done).attempts, k)
    ensures Reconcile(t, s, now, done + [d]).attempts == Reconcile(t, s, now, done).attempts
  {
    var u := Reconcile(t, s, now, done).attempts;
    var v := Reconcile(t, s, now, done + [d]).attempts;
    forall j | j in t.attempts
      ensures v[j] == u[j]
    {
      if j.delivery == d {
        NewestStartedStays(t, s, now, done, j);
        assert j in u;
      }
    }
    assert v.Keys == u.Keys;
  }

  lemma ReconcileOneMoreRow(t: Tables, s: Settings, now: Time, done: seq<nat>, d: nat)
    requires d !in done && d in t.deliveries
    ensures
      var u := Reconcile(t, s, now, done).deliveries;
      && d in u && u[d] == t.deliveries[d]
      && Reconcile(t, s, now, done + [d]).deliveries == u[d := Reconciled(u[d], s, now)]
  {
  }

  lemma ReconcileNothing(t: Tables, s: Settings, now: Time)
    ensures Reconcile(t, s, now, []) == t
  {
    var u := Reconcile(t, s, now, []);
    assert u.deliveries == t.deliveries;
    assert u.attempts == t.attempts;
    assert forall e :: InEndpoint(t, [], e) == {};
    assert u.endpoints == t.endpoints;
  }

  lemma ClaimOneMore(t: Tables, done: seq<nat>, r: nat, until: Time)
    requires r !in done && r < |t.outbox|
    ensures
      var u := ClaimOutbox(t, done, until).outbox;
      && |u| == |t.outbox| && u[r] == t.outbox[r]
      && ClaimOutbox(t, done + [r], until).outbox == u[r := Leased(u[r], until)]
  {
  }

  lemma InsertNothing(t: Tables, req: Request, now: Time)
    ensures InsertEvent(t, req, [], now)
         == t.(events := t.events[t.nextEvent := Event(req.key, req.eventType, req.fingerprint, now)],
               nextEvent := t.nextEvent + 1)
  {
    var u := InsertEvent(t, req, [], now);
    assert u.deliveries == t.deliveries;
    assert u.outbox == t.outbox;
  }

  lemma InsertOneMore(t: Tables, req: Request, eps: seq<nat>, e: nat, now: Time)
    requires forall d :: d in t.deliveries ==> d < t.nextDelivery
    ensures
      var u := InsertEvent(t, req, eps, now);
      InsertEvent(t, req, eps + [e], now)
      == u.(deliveries := u.deliveries[u.nextDelivery := NewDelivery(req.key.org, t.nextEvent, e, now)],
            nextDelivery := u.nextDelivery + 1, outbox := u.outbox + [Command(u.nextDelivery, now)])
  {
    var u := InsertEvent(t, req, eps, now);
    var v := InsertEvent(t, req, eps + [e], now);
    var w := u.deliveries[u.nextDelivery := NewDelivery(req.key.org, t.nextEvent, e, now)];
    forall d: nat
      ensures d in v.deliveries <==> d in w
      ensures d in w ==> v.deliveries[d] == w[d]
    {
      assert d in Block(t.nextDelivery, |eps| + 1) <==> t.nextDelivery <= d <= t.nextDelivery + |eps| by {
        assert t.nextDelivery <= d <= t.nextDelivery + |eps| ==> Within(t.nextDelivery, d, |eps| + 1);
      }
      assert d in Block(t.nextDelivery, |eps|) <==> t.nextDelivery <= d < t.nextDelivery + |eps| by {
        assert t.nextDelivery <= d < t.nextDelivery + |eps| ==> Within(t.nextDelivery, d, |eps|);
      }
    }
    assert v.deliveries == w;
    assert v.outbox == u.outbox + [Command(u.nextDelivery, now)];
  }

  lemma SweptFields(t: Tables, w: Sweep)
    ensures
      var u := Swept(t, w);
      && u == t.(attempts := u.attempts, audits := t.audits - w.audits,
                 deliveries := t.deliveries - w.deliveries, events := t.events - w.events)
      && u.attempts == map k | k in t.attempts && k.delivery !in w.deliveries ::
           if k in w.previews then t.attempts[k].(preview := false) else t.attempts[k]
  {
  }

  // --- The store ----------------------------------------------------------------------------------------

  /** A row handed to the dispatcher: its number and the delivery its payload names. */
  datatype Ticket = Ticket(row: nat, delivery: nat)

  class Store {
    var deliveries: map<nat, Delivery>
    var attempts: map<AttemptKey, Attempt>
    var endpoints: map<nat, Endpoint>
    var events: map<nat, Event>
    var outbox: seq<OutboxRow>
    var audits: map<nat, Time>
    var nextDelivery: nat
    var nextEvent: nat
    var nextAudit: nat

    constructor ()
      ensures Snapshot() == EMPTY
    {
      deliveries, attempts, endpoints, events, outbox, audits := map[], map[], map[], map[], [], map[];
      nextDelivery, nextEvent, nextAudit := 0, 0, 0;
    }

    ghost function Snapshot(): Tables
      reads this
    {
      Tables(deliveries, attempts, endpoints, events, outbox, audits, nextDelivery, nextEvent, nextAudit)
    }

    // --- Worker -------------------------------------------------------------------------------------

    method ClaimDelivery(s: Settings, now: Time, d: nat, secretOk: bool) returns (claimed: Option<Claimed>)
      modifies this
      ensures Snapshot() == Claim(old(Snapshot()), s, now, d, secretOk)
      ensures claimed.Some? <==> StartsAttempt(old(Snapshot()), d, secretOk)
      ensures claimed.Some? ==>
                && var r := old(deliveries)[d];
                   claimed.value == Claimed(AttemptKey(d, r.attemptCount + 1), r.endpoint)
    {
      if d !in deliveries || deliveries[d].status != Queued {
        return None;
      }
      var row := deliveries[d];
      if row.endpoint !in endpoints || endpoints[row.endpoint].status != Active || !endpoints[row.endpoint].enabled {
        deliveries := deliveries[d := row.(status := Cancelled)];
        return None;
      }
      var endpoint := endpoints[row.endpoint];
      if endpoint.activeCount >= ENDPOINT_SLOTS {
        deliveries := deliveries[d := row.(status := RetryScheduled, nextAttemptAt := Some(now + SECOND))];
        return None;
      }
      if row.event !in events {
        deliveries := deliveries[d := row.(status := DeadLettered)];
        return None;
      }
      row := row.(attemptCount := row.attemptCount + 1);
      var key := AttemptKey(d, row.attemptCount);
      if !secretOk {
        deliveries := deliveries[d := row.(status := DeadLettered)];
        attempts := attempts[key :=
          Attempt(now, Some(now), Failed, Some(false), None, Some(SecretUnavailable), false)];
        return None;
      }
      deliveries := deliveries[d :=
        row.(status := Delivering, leaseUntil := Some(now + s.leaseSeconds * SECOND))];
      endpoints := endpoints[row.endpoint := endpoint.(activeCount := endpoint.activeCount + 1)];
      attempts := attempts[key := Attempt(now, None, Started, None, None, None, false)];
      return Some(Claimed(key, row.endpoint));
    }

    method FinalizeDelivery(s: Settings, now: Time, c: Claimed, resp: Response, sample: real)
      requires ValidSettings(s)
      modifies this
      ensures Snapshot() == Finalize(old(Snapshot()), s, now, c, resp, sample)
      ensures OpenClaim(old(Snapshot()), c) ==>
                && c.attempt.delivery in deliveries
                && Settles(s.maxAttempts, old(deliveries)[c.attempt.delivery].attemptCount, resp,
                           deliveries[c.attempt.delivery].status)
    {
      if OpenClaim(Snapshot(), c) {
        AnswerSettles(Snapshot(), s, now, c, resp, sample);
      }
      var d := c.attempt.delivery;
      if d !in deliveries || c.endpoint !in endpoints || c.attempt !in attempts
         || attempts[c.attempt].outcome != Started {
        return;
      }
      var row, attempt, endpoint := deliveries[d], attempts[c.attempt], endpoints[c.endpoint];
      attempt := attempt.(endedAt := Some(now), responseStatus := resp.status, error := resp.error);
      if resp.preview {
        attempt := attempt.(preview := true);
      }
      var networkError := resp.error in {Some(NetworkError), Some(HttpError)};
      if Retry.IsSuccess(resp.status) {
        row := row.(status := Succeeded);
        attempt := attempt.(outcome := Success, retry := Some(false));
      } else if Retry.IsRetryable(resp.status, networkError) && row.attemptCount < s.maxAttempts {
        var delay := Retry.RetryDelay(row.attemptCount, s.retryDelays, s.jitterRatio, resp.retryAfter, sample);
        row := row.(status := RetryScheduled, nextAttemptAt := Some(now + delay * SECOND));
        attempt := attempt.(outcome := Failed, retry := Some(true));
      } else {
        row := row.(status := DeadLettered);
        attempt := attempt.(outcome := Failed, retry := Some(false));
      }
      row := row.(leaseUntil := None);
      deliveries := deliveries[d := row];
      attempts := attempts[c.attempt := attempt];
      endpoints := endpoints[c.endpoint := endpoint.(activeCount := Retry.Max(0, endpoint.activeCount - 1))];
    }

    // --- Scheduler ------------------------------------------------------------------------------------

    method ScheduleDueRows(s: Settings, now: Time, ghost locked: set<nat>, batch: seq<nat>) returns (n: nat)
      requires Batch(Snapshot(), DueRows(Snapshot(), now), s.retryBatch, locked, batch)
      modifies this`deliveries, this`outbox
      ensures Snapshot() == ScheduleDue(old(Snapshot()), now, batch)
      ensures n == |batch|
    {
      ghost var t := Snapshot();
      assert ScheduleDue(t, now, []) == t by {
        assert ScheduleDue(t, now, []).deliveries == t.deliveries;
        assert ScheduleDue(t, now, []).outbox == t.outbox;
      }
      for i := 0 to |batch|
        invariant Snapshot() == ScheduleDue(t, now, batch[..i])
      {
        var d := batch[i];
        PrefixHas(batch, i);
        PrefixLacks(batch, i);
        assert d in batch && d in DueRows(t, now);
        ScheduleOneMore(t, now, batch[..i], d);
        deliveries := deliveries[d := deliveries[d].(status := Queued, nextAttemptAt := None)];
        outbox := outbox + [Command(d, now)];
      }
      assert batch[..|batch|] == batch;
      return |batch|;
    }

    /** The reconciler frees leases one by one; several of a batch may belong to one endpoint. */
    method ReconcileStale(s: Settings, now: Time, ghost locked: set<nat>, batch: seq<nat>) returns (n: nat)
      requires Batch(Snapshot(), StaleRows(Snapshot(), now), s.retryBatch, locked, batch)
      modifies this`deliveries, this`attempts, this`endpoints
      ensures Snapshot() == Reconcile(old(Snapshot()), s, now, batch)
      ensures n == |batch|
    {
      forall i | 0 <= i < |batch|
        ensures batch[i] in deliveries
      {
        assert batch[i] in batch;
      }
      ReconcileRows(s, now, batch);
      return |batch|;
    }

    method ReconcileRows(s: Settings, now: Time, batch: seq<nat>)
      requires forall i, j :: 0 <= i < j < |batch| ==> batch[i] != batch[j]
      requires forall i :: 0 <= i < |batch| ==> batch[i] in deliveries
      modifies this`deliveries, this`attempts, this`endpoints
      ensures Snapshot() == Reconcile(old(Snapshot()), s, now, batch)
    {
      ghost var t := Snapshot();
      ReconcileNothing(t, s, now);
      for i := 0 to |batch|
        invariant Snapshot() == Reconcile(t, s, now, batch[..i])
      {
        PrefixHas(batch, i);
        PrefixLacks(batch, i);
        ReconcileOne(s, now, batch[i], t, batch[..i]);
      }
      assert batch[..|batch|] == batch;
    }

    /** The body of the reconciler's loop. */
    method ReconcileOne(s: Settings, now: Time, d: nat, ghost t: Tables, ghost done: seq<nat>)
      requires Snapshot() == Reconcile(t, s, now, done) && d !in done && d in t.deliveries
      modifies this`deliveries, this`attempts, this`endpoints
      ensures Snapshot() == Reconcile(t, s, now, done + [d])
    {
      ReconcileOneMoreRow(t, s, now, done, d);
      ReconcileOneMoreEndpoint(t, s, now, done, d);
      var row := deliveries[d];
      CloseNewestAttempt(s, now, d, t, done);
      ReleaseSlot(row.endpoint);
      row := row.(leaseUntil := None);
      if row.attemptCount < s.maxAttempts {
        row := row.(status := RetryScheduled, nextAttemptAt := Some(now));
      } else {
        row := row.(status := DeadLettered);
      }
      deliveries := deliveries[d := row];
    }

    method CloseNewestAttempt(s: Settings, now: Time, d: nat, ghost t: Tables, ghost done: seq<nat>)
      requires Snapshot() == Reconcile(t, s, now, done) && d !in done && d in t.deliveries && d in deliveries
      requires deliveries[d] == t.deliveries[d]
      modifies this`attempts
      ensures attempts == Reconcile(t, s, now, done + [d]).attempts
    {
      var retry := deliveries[d].attemptCount < s.maxAttempts;
      if k :| k in attempts && k.delivery == d && NewestStarted(attempts, k) {
        ReconcileOneMoreAttempt(t, s, now, done, d, k);
        attempts := attempts[k :=
          attempts[k].(outcome := Unknown, endedAt := Some(now), error := Some(StaleLease), retry := Some(retry))];
      } else {
        ReconcileOneMoreWithout(t, s, now, done, d);
      }
    }

    method ReleaseSlot(e: nat)
      modifies this`endpoints
      ensures endpoints == FreeSlot(old(endpoints), e)
    {
      if e in endpoints {
        var endpoint := endpoints[e];
        endpoints := endpoints[e := endpoint.(activeCount := Retry.Max(0, endpoint.activeCount - 1))];
      }
    }

    // --- Outbox -----------------------------------------------------------------------------------------

    method ClaimOutboxRows(s: Settings, now: Time, ghost locked: set<nat>, rows: seq<nat>)
      returns (result: seq<Ticket>)
      requires OutboxBatch(Snapshot(), now, s.outboxBatch, locked, rows)
      modifies this`outbox
      ensures Snapshot() == ClaimOutbox(old(Snapshot()), rows, now + s.outboxLeaseSeconds * SECOND)
      ensures |result| == |rows|
      ensures forall i :: 0 <= i < |rows| ==>
                rows[i] < |old(outbox)| && result[i] == Ticket(rows[i], old(outbox)[rows[i]].delivery)
    {
      ghost var t := Snapshot();
      var until := now + s.outboxLeaseSeconds * SECOND;
      result := [];
      assert ClaimOutbox(t, [], until).outbox == t.outbox;
      for i := 0 to |rows|
        invariant Snapshot() == ClaimOutbox(t, rows[..i], until)
        invariant |result| == i
        invariant forall j :: 0 <= j < i ==>
                    rows[j] < |t.outbox| && result[j] == Ticket(rows[j], t.outbox[rows[j]].delivery)
      {
        var r := rows[i];
        PrefixHas(rows, i);
        PrefixLacks(rows, i);
        assert r in rows;
        ClaimOneMore(t, rows[..i], r, until);
        var row := outbox[r];
        outbox := outbox[r := row.(leaseUntil := Some(until), publishAttempts := row.publishAttempts + 1)];
        result := result + [Ticket(r, row.delivery)];
      }
      assert rows[..|rows|] == rows;
    }

    method FinishOutboxRow(r: nat, published: bool)
      modifies this`outbox
      ensures Snapshot() == FinishOutbox(old(Snapshot()), r, published)
    {
      if r >= |outbox| || outbox[r].published {
        assert r < |outbox| ==> outbox[r := outbox[r]] == outbox;
        return;
      }
      var row := outbox[r];
      if published {
        row := row.(published := true);
      }
      row := row.(leaseUntil := None, failed := !published);
      outbox := outbox[r := row];
    }

    // --- Ingest -----------------------------------------------------------------------------------------

    /** Insert the event, then a delivery and its command per endpoint; a taken key rolls back. */
    method CreateEventGraph(req: Request, eps: seq<nat>, now: Time) returns (created: Result<(nat, nat), Unit>)
      requires forall d :: d in deliveries ==> d < nextDelivery
      modifies this`events, this`nextEvent, this`deliveries, this`nextDelivery, this`outbox
      ensures created.Err? <==> Ingested(old(Snapshot()), req.key)
      ensures created.Err? ==> Snapshot() == old(Snapshot())
      ensures created.Ok? ==>
                && Snapshot() == InsertEvent(old(Snapshot()), req, eps, now)
                && created.value == (old(nextEvent), |eps|)
    {
      ghost var t := Snapshot();
      if e :| e in events && events[e].key == req.key {
        assert EventFor(t, req.key, e);
        return Err(Unit);
      }
      assert !Ingested(t, req.key) by {
        if e :| EventFor(t, req.key, e) {
          assert false;
        }
      }
      events := events[nextEvent := Event(req.key, req.eventType, req.fingerprint, now)];
      nextEvent := nextEvent + 1;
      AddDeliveries(req, eps, now, t);
      return Ok((nextEvent - 1, |eps|));
    }

    /** The loop over matched endpoints, once the event row is in. */
    method AddDeliveries(req: Request, eps: seq<nat>, now: Time, ghost t: Tables)
      requires forall d :: d in t.deliveries ==> d < t.nextDelivery
      requires nextEvent == t.nextEvent + 1
      requires Snapshot() == t.(events := events, nextEvent := nextEvent)
      requires events == t.events[t.nextEvent := Event(req.key, req.eventType, req.fingerprint, now)]
      modifies this`deliveries, this`nextDelivery, this`outbox
      ensures Snapshot() == InsertEvent(t, req, eps, now)
    {
      var event := nextEvent - 1;
      InsertNothing(t, req, now);
      for i := 0 to |eps|
        invariant Snapshot() == InsertEvent(t, req, eps[..i], now)
      {
        PrefixHas(eps, i);
        AddDelivery(req, event, eps[i], now, t, eps[..i]);
      }
      assert eps[..|eps|] == eps;
    }

    /** The body of that loop: a queued delivery and its command. */
    method AddDelivery(req: Request, event: nat, e: nat, now: Time, ghost t: Tables, ghost done: seq<nat>)
      requires forall d :: d in t.deliveries ==> d < t.nextDelivery
      requires event == t.nextEvent && Snapshot() == InsertEvent(t, req, done, now)
      modifies this`deliveries, this`nextDelivery, this`outbox
      ensures Snapshot() == InsertEvent(t, req, done + [e], now)
    {
      InsertOneMore(t, req, done, e, now);
      var d := nextDelivery;
      deliveries := deliveries[d := NewDelivery(req.key.org, event, e, now)];
      nextDelivery := nextDelivery + 1;
      outbox := outbox + [Command(d, now)];
    }

    method CreateReplay(org: OrgId, source: nat, key: string, now: Time) returns (created: Option<nat>)
      requires Replayable(Snapshot(), org, source)
      modifies this`deliveries, this`nextDelivery, this`outbox, this`audits, this`nextAudit
      ensures created.None? <==> Replayed(old(Snapshot()), org, source, key)
      ensures created.None? ==> Snapshot() == old(Snapshot())
      ensures created.Some? ==>
                && Snapshot() == InsertReplay(old(Snapshot()), source, key, now)
                && created.value == old(nextDelivery)
    {
      ghost var t := Snapshot();
      if d :| d in deliveries && deliveries[d].org == org && deliveries[d].replayOf == Some(source)
              && deliveries[d].replayKey == Some(key) {
        assert ReplayFor(t, org, source, key, d);
        return None;
      }
      assert !Replayed(t, org, source, key) by {
        if d :| ReplayFor(t, org, source, key, d) {
          assert false;
        }
      }
      var row := deliveries[source];
      var d := nextDelivery;
      deliveries := deliveries[d :=
        Delivery(row.org, row.event, row.endpoint, Queued, 0, None, None, Some(source), Some(key), now)];
      nextDelivery := nextDelivery + 1;
      outbox := outbox + [Command(d, now)];
      RecordAudit(now);
      return Some(d);
    }

    // --- Endpoints --------------------------------------------------------------------------------------

    method RecordAudit(now: Time)
      modifies this`audits, this`nextAudit
      ensures Snapshot() == Audit(old(Snapshot()), now)
    {
      audits := audits[nextAudit := now];
      nextAudit := nextAudit + 1;
    }

    /** One bulk UPDATE statement. */
    method CancelWaitingRows(org: OrgId, e: nat)
      modifies this`deliveries
      ensures Snapshot() == CancelWaiting(old(Snapshot()), org, e)
    {
      deliveries := map d | d in deliveries ::
        var r := deliveries[d];
        if r.org == org && r.endpoint == e && r.status in {Pending, Queued, RetryScheduled}
        then r.(status := Cancelled, leaseUntil := None, nextAttemptAt := None)
        else r;
    }

    method Update(org: OrgId, e: nat, changes: Changes, now: Time) returns (found: bool)
      modifies this
      ensures Snapshot() == UpdateEndpoint(old(Snapshot()), org, e, changes, now)
      ensures found <==> Manageable(old(Snapshot()), org, e)
    {
      if e !in endpoints || endpoints[e].org != org || endpoints[e].deletedAt.Some? {
        return false;
      }
      var endpoint := endpoints[e];
      if changes.url.Some? && changes.url.value != endpoint.url {
        endpoint := endpoint.(url := changes.url.value, status := PendingVerification);
      }
      if changes.enabled.Some? {
        endpoint := endpoint.(enabled := changes.enabled.value);
        if !endpoint.enabled && endpoint.status == Active {
          endpoint := endpoint.(status := Disabled);
          CancelWaitingRows(org, e);
        } else if endpoint.enabled && endpoint.status == Disabled {
          endpoint := endpoint.(status := Active);
        }
      }
      if changes.eventTypes.Some? {
        endpoint := endpoint.(eventTypes := changes.eventTypes.value);
      }
      endpoints := endpoints[e := endpoint];
      RecordAudit(now);
      return true;
    }

    /** The first half of verify; `loaded` is the endpoint object that stays in the request's session. */
    method StartVerification(org: OrgId, e: nat, challenge: Challenge) returns (loaded: Option<Endpoint>)
      modifies this`endpoints
      ensures Snapshot() == BeginVerify(old(Snapshot()), org, e, challenge)
      ensures loaded.Some? <==> Manageable(old(Snapshot()), org, e)
      ensures loaded.Some? ==> loaded.value == old(endpoints)[e].(challenge := Some(challenge))
    {
      if e !in endpoints || endpoints[e].org != org || endpoints[e].deletedAt.Some? {
        return None;
      }
      var endpoint := endpoints[e].(challenge := Some(challenge));
      endpoints := endpoints[e := endpoint];
      return Some(endpoint);
    }

    /**
     The second half. Its SELECT returns the loaded object as it is; the checks read that object, and only
     the columns whose values differ from the loaded ones are written.
     */
    method CompleteVerification(org: OrgId, e: nat, loaded: Endpoint, hash: string, now: Time)
      returns (verified: bool)
      requires loaded.challenge.Some? && loaded.challenge.value.hash == hash
      modifies this
      ensures
        Snapshot() == CommitVerify(
          old(Snapshot()), Verification(org, e, loaded.challenge.value, loaded.status), now)
      ensures verified <==>
                e in old(endpoints) && old(endpoints)[e].org == org && loaded.challenge.value.expiresAt > now
    {
      if e !in endpoints || endpoints[e].org != org {
        return false;
      }
      var current := loaded;
      if current.challenge.None? || current.challenge.value.hash != hash
         || current.challenge.value.expiresAt <= now {
        return false;
      }
      current := current.(challenge := None, status := Active);
      var row := endpoints[e];
      if current.challenge != loaded.challenge {
        row := row.(challenge := current.challenge);
      }
      if current.status != loaded.status {
        row := row.(status := current.status);
      }
      endpoints := endpoints[e := row];
      RecordAudit(now);
      return true;
    }

    method Delete(org: OrgId, e: nat, now: Time)
      modifies this
      ensures Snapshot() == DeleteEndpoint(old(Snapshot()), org, e, now)
    {
      if e !in endpoints || endpoints[e].org != org || endpoints[e].deletedAt.Some? {
        return;
      }
      endpoints := endpoints[e := endpoints[e].(deletedAt := Some(now), status := Deleted, enabled := false)];
      CancelWaitingRows(org, e);
      RecordAudit(now);
    }

    // --- Retention --------------------------------------------------------------------------------------

    /** Four bulk statements; the third fails, and takes everything back, if it would orphan a replay. */
    method CleanupExpired(s: Settings, now: Time, w: Sweep) returns (removed: Result<nat, Unit>)
      requires Sweepable(Snapshot(), s, now, w)
      modifies this
      ensures Snapshot() == Cleanup(old(Snapshot()), w)
      ensures removed.Err? <==> Orphans(old(Snapshot()), w.deliveries)
      ensures removed.Ok? ==> removed.value == Total(w)
    {
      var cleared := map k | k in attempts ::
        if k in w.previews then attempts[k].(preview := false) else attempts[k];
      if d :| d in deliveries && d !in w.deliveries && deliveries[d].replayOf.Some?
              && deliveries[d].replayOf.value in w.deliveries {
        return Err(Unit);
      }
      SweptFields(Snapshot(), w);
      audits := audits - w.audits;
      deliveries := deliveries - w.deliveries;
      attempts := map k | k in cleared && k.delivery !in w.deliveries :: cleared[k];
      events := events - w.events;
      return Ok(|w.previews| + |w.audits| + |w.deliveries| + |w.events|);
    }
  }
}
