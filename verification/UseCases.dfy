/** The use cases that string transactions together, run without interference. */
module UseCases {
  import opened Wrappers
  import opened Tables
  import opened Transactions
  import opened TableInvariant
  import opened Stores
  import opened Outcomes
  import Retry

  // --- Worker -------------------------------------------------------------------------------------------

  function Concat<T>(chunks: seq<seq<T>>): seq<T> {
    if chunks == [] then [] else Concat(chunks[..|chunks| - 1]) + chunks[|chunks| - 1]
  }

  /** The response preview: a prefix of the body, as long as the limit and the body allow. */
  method CollectPreview<T>(chunks: seq<seq<T>>, limit: nat) returns (preview: seq<T>)
    ensures preview <= Concat(chunks)
    ensures |preview| == Retry.Min(limit, |Concat(chunks)|)
  {
    preview := [];
    for i := 0 to |chunks|
      invariant preview <= Concat(chunks[..i])
      invariant |preview| == Retry.Min(limit, |Concat(chunks[..i])|)
    {
      assert chunks[..i + 1][..i] == chunks[..i];
      var remaining := limit - |preview|;
      if remaining > 0 {
        preview := preview + if remaining < |chunks[i]| then chunks[i][..remaining] else chunks[i];
      }
    }
    assert chunks[..|chunks|] == chunks;
  }

  /** What execute_delivery makes of an answer: Retry-After counts with 429 and 503 only. */
  method ReadAnswer(
    status: Option<int>, error: Option<ErrorCode>, preview: bool, header: Option<string>, date: Option<int>, now: int)
    returns (resp: Response)
    ensures resp.status == status && resp.error == error && resp.preview == preview
    ensures status == Some(429) || status == Some(503) ==> resp.retryAfter == Retry.ParseRetryAfter(header, date, now)
    ensures status != Some(429) && status != Some(503) ==> resp.retryAfter == None
  {
    var retryAfter := None;
    if status.Some? && status.value in {429, 503} {
      retryAfter := Retry.ParseRetryAfter(header, date, now);
    }
    resp := Response(status, error, preview, retryAfter);
  }

  /** Attempt `key` was opened and closed at these times, and decided the state of its delivery. */
  predicate CallRecorded(
    u: Tables, s: Settings, key: AttemptKey, claimedAt: Time, endedAt: Time, resp: Response)
  {
    && key.delivery in u.deliveries && u.deliveries[key.delivery].attemptCount == key.number
    && Settles(s.maxAttempts, key.number, resp, u.deliveries[key.delivery].status)
    && u.deliveries[key.delivery].leaseUntil.None?
    && key in u.attempts
    && u.attempts[key].startedAt == claimedAt && u.attempts[key].endedAt == Some(endedAt)
    && u.attempts[key].responseStatus == resp.status && u.attempts[key].error == resp.error
  }

  /** Finalizing a claim at once gives its slot back and closes exactly the attempt it opened. */
  lemma ClaimThenFinalize(
    t: Tables, s: Settings, d: nat, claimedAt: Time, endedAt: Time, resp: Response, sample: real)
    requires ValidSettings(s) && TablesOk(t, s) && StartsAttempt(t, d, true)
    ensures
      var key := AttemptKey(d, t.deliveries[d].attemptCount + 1);
      var c := Claimed(key, t.deliveries[d].endpoint);
      var u := Finalize(Claim(t, s, claimedAt, d, true), s, endedAt, c, resp, sample);
      && u.endpoints == t.endpoints
      && key !in t.attempts && u.attempts.Keys == t.attempts.Keys + {key}
      && CallRecorded(u, s, key, claimedAt, endedAt, resp)
  {
    QueuedHasNoOpenAttempt(t, s, d);
    var r := t.deliveries[d];
    var ep := t.endpoints[r.endpoint];
    assert SlotOk(t, r.endpoint);
    ClaimSlot(t, s, claimedAt, d, true);
    var u := Finalize(Claim(t, s, claimedAt, d, true), s, endedAt,
                      Claimed(AttemptKey(d, r.attemptCount + 1), r.endpoint), resp, sample);
    FinalizeOutcome(Claim(t, s, claimedAt, d, true), s, endedAt,
                    Claimed(AttemptKey(d, r.attemptCount + 1), r.endpoint), resp, sample);
    assert u.endpoints[r.endpoint] == ep;
    assert u.endpoints == t.endpoints;
  }

  /** Claim, call, finalize: `resp` is what the call brought back, `endedAt` when it did. */
  method ExecuteDelivery(
    store: Store, s: Settings, d: nat, secretOk: bool, claimedAt: Time, endedAt: Time, resp: Response, sample: real)
    requires ValidSettings(s) && TablesOk(store.Snapshot(), s)
    modifies store
    ensures TablesOk(store.Snapshot(), s)
    ensures store.endpoints == old(store.endpoints)
    ensures StartsAttempt(old(store.Snapshot()), d, secretOk) ==>
              && d in store.deliveries
              && store.deliveries[d].attemptCount == old(store.deliveries)[d].attemptCount + 1
              && Settles(s.maxAttempts, old(store.deliveries)[d].attemptCount + 1, resp, store.deliveries[d].status)
    ensures !StartsAttempt(old(store.Snapshot()), d, secretOk) ==>
              store.Snapshot() == Claim(old(store.Snapshot()), s, claimedAt, d, secretOk)
  {
    ghost var t := store.Snapshot();
    ClaimKeeps(t, s, claimedAt, d, secretOk);
    if d in t.deliveries {
      ClaimSlot(t, s, claimedAt, d, secretOk);
    }
    var claimed := store.ClaimDelivery(s, claimedAt, d, secretOk);
    if claimed.None? {
      return;
    }
    ghost var u := store.Snapshot();
    ClaimThenFinalize(t, s, d, claimedAt, endedAt, resp, sample);
    ClaimShape(t, s, claimedAt, d, secretOk);
    store.FinalizeDelivery(s, endedAt, claimed.value, resp, sample);
    FinalizeKeeps(u, s, endedAt, claimed.value, resp, sample);
  }

  // --- Dispatcher ---------------------------------------------------------------------------------------

  /** How one publish and the transaction after it go; the last kind ends the loop with an exception. */
  datatype Attempted = Confirmed | Unconfirmed(enqueued: bool) | FinishFailed(enqueued: bool)

  class Broker {
    var messages: seq<Ticket>

    constructor ()
      ensures messages == []
    {
      messages := [];
    }

    /** publisher.publish: returns whether the broker confirmed. */
    method Publish(ticket: Ticket, a: Attempted) returns (confirmed: bool)
      modifies this
      ensures messages == if a.Confirmed? || a.enqueued then old(messages) + [ticket] else old(messages)
      ensures confirmed <==> a.Confirmed?
    {
      if a.Confirmed? || a.enqueued {
        messages := messages + [ticket];
      }
      confirmed := a.Confirmed?;
    }
  }

  /** Rows handled before the first failing transaction. */
  function Reached(attempts: seq<Attempted>): nat
    ensures Reached(attempts) <= |attempts|
  {
    if attempts == [] || attempts[0].FinishFailed? then 0 else 1 + Reached(attempts[1..])
  }

  lemma {:induction false} ReachedIsFirst(attempts: seq<Attempted>, i: nat)
    requires i < |attempts|
    requires forall j :: 0 <= j < i ==> !attempts[j].FinishFailed?
    ensures attempts[i].FinishFailed? ==> Reached(attempts) == i
    ensures i < Reached(attempts) <==> !attempts[i].FinishFailed?
  {
    if i > 0 {
      ReachedIsFirst(attempts[1..], i - 1);
    }
  }

  lemma {:induction false} ReachedAll(attempts: seq<Attempted>)
    requires forall j :: 0 <= j < |attempts| ==> !attempts[j].FinishFailed?
    ensures Reached(attempts) == |attempts|
  {
    if attempts != [] {
      ReachedAll(attempts[1..]);
    }
  }

  /** Row `j` of the batch ends published: the connection came up, it was confirmed, and so marked. */
  predicate MarkedPublished(connects: bool, attempts: seq<Attempted>, j: nat) {
    connects && j < |attempts| && j < Reached(attempts) && attempts[j].Confirmed?
  }

  predicate Distinct(rows: seq<Ticket>, size: nat) {
    && (forall i :: 0 <= i < |rows| ==> rows[i].row < size)
    && (forall i, j :: 0 <= i < j < |rows| ==> rows[i].row != rows[j].row)
  }

  /** The outbox after finish_outbox ran for the first `i` rows, row j with published = flags[j]. */
  function Settled(outbox: seq<OutboxRow>, rows: seq<Ticket>, flags: seq<bool>, i: nat): (r: seq<OutboxRow>)
    requires Distinct(rows, |outbox|) && i <= |rows| == |flags|
    ensures |r| == |outbox|
  {
    if i == 0 then outbox
    else
      var before := Settled(outbox, rows, flags, i - 1);
      before[rows[i - 1].row := FinishedRow(before[rows[i - 1].row], flags[i - 1])]
  }

  lemma {:induction false} SettledRows(outbox: seq<OutboxRow>, rows: seq<Ticket>, flags: seq<bool>, i: nat)
    requires Distinct(rows, |outbox|) && i <= |rows| == |flags|
    ensures forall j :: 0 <= j < |rows| ==>
              Settled(outbox, rows, flags, i)[rows[j].row]
              == if j < i then FinishedRow(outbox[rows[j].row], flags[j]) else outbox[rows[j].row]
    ensures forall r :: 0 <= r < |outbox| && (forall j :: 0 <= j < |rows| ==> rows[j].row != r) ==>
              Settled(outbox, rows, flags, i)[r] == outbox[r]
  {
    if i > 0 {
      SettledRows(outbox, rows, flags, i - 1);
    }
  }

  function Confirms(attempts: seq<Attempted>): seq<bool> {
    seq(|attempts|, i requires 0 <= i < |attempts| => attempts[i].Confirmed?)
  }

  function Refusals(n: nat): seq<bool> {
    seq(n, i => false)
  }

  /** The inner loop: publish each row and finish it, until a finish transaction fails. */
  method PublishRows(store: Store, broker: Broker, rows: seq<Ticket>, attempts: seq<Attempted>) returns (i: nat)
    requires |attempts| == |rows| && Distinct(rows, |store.outbox|)
    modifies store`outbox, broker
    ensures i == Reached(attempts)
    ensures store.outbox == Settled(old(store.outbox), rows, Confirms(attempts), i)
    ensures old(broker.messages) <= broker.messages
    ensures forall j :: 0 <= j < i && attempts[j].Confirmed? ==> rows[j] in broker.messages
  {
    ghost var was := store.outbox;
    i := 0;
    while i < |rows|
      invariant i <= |rows| && store.outbox == Settled(was, rows, Confirms(attempts), i)
      invariant forall j :: 0 <= j < i ==> !attempts[j].FinishFailed?
      invariant old(broker.messages) <= broker.messages
      invariant forall j :: 0 <= j < i && attempts[j].Confirmed? ==> rows[j] in broker.messages
    {
      ghost var before := broker.messages;
      var confirmed := broker.Publish(rows[i], attempts[i]);
      assert forall x :: x in before ==> x in broker.messages;
      if attempts[i].FinishFailed? {
        ReachedIsFirst(attempts, i);
        return;
      }
      store.FinishOutboxRow(rows[i].row, confirmed);
      i := i + 1;
    }
    ReachedAll(attempts);
  }

  /** The outer handler: finish every row of the batch as not published. */
  method ReleaseRows(store: Store, rows: seq<Ticket>)
    requires Distinct(rows, |store.outbox|)
    modifies store`outbox
    ensures store.outbox == Settled(old(store.outbox), rows, Refusals(|rows|), |rows|)
  {
    for i := 0 to |rows|
      invariant store.outbox == Settled(old(store.outbox), rows, Refusals(|rows|), i)
    {
      store.FinishOutboxRow(rows[i].row, false);
    }
  }

  /**
   One pass of the dispatcher over its claimed rows, with its two nested failure paths. Whatever fails
   where, a row of the batch ends published only if its message was confirmed, every other one is
   released for the next pass, and no other row changes.
   */
  method DispatchOnce(store: Store, broker: Broker, rows: seq<Ticket>, connects: bool, attempts: seq<Attempted>)
    requires |attempts| == |rows| && Distinct(rows, |store.outbox|)
    modifies store`outbox, broker
    ensures |store.outbox| == old(|store.outbox|)
    ensures forall j :: 0 <= j < |rows| ==>
              store.outbox[rows[j].row]
              == FinishedRow(old(store.outbox)[rows[j].row], MarkedPublished(connects, attempts, j))
    ensures forall r :: 0 <= r < |store.outbox| && (forall j :: 0 <= j < |rows| ==> rows[j].row != r) ==>
              store.outbox[r] == old(store.outbox)[r]
    ensures old(broker.messages) <= broker.messages
    ensures forall j :: 0 <= j < |rows| && MarkedPublished(connects, attempts, j) ==> rows[j] in broker.messages
  {
    ghost var was := store.outbox;
    var handled := 0;
    if connects {
      handled := PublishRows(store, broker, rows, attempts);
    }
    ghost var between := store.outbox;
    SettledRows(was, rows, Confirms(attempts), handled);
    if handled < |rows| {
      ReleaseRows(store, rows);
      SettledRows(between, rows, Refusals(|rows|), |rows|);
    }
  }

  // --- Requests -------------------------------------------------------------------------------------------

  datatype IngestResult = Accepted(event: nat, replayed: bool) | Conflict | BacklogExceeded

  /** EventUseCases.ingest after validation; `eps` is what the matching query returns. */
  method Ingest(store: Store, s: Settings, req: Request, eps: seq<nat>, now: Time) returns (r: IngestResult)
    requires TablesOk(store.Snapshot(), s)
    requires Lists(eps, Matching(store.Snapshot(), req.key.org, req.eventType))
    modifies store
    ensures r.Accepted? && !r.replayed <==>
              !Ingested(old(store.Snapshot()), req.key)
              && ProjectedBacklog(old(store.Snapshot()), req.key.org, req.eventType) <= s.backlogLimit
    ensures r.Accepted? && !r.replayed ==> store.Snapshot() == InsertEvent(old(store.Snapshot()), req, eps, now)
    ensures !(r.Accepted? && !r.replayed) ==> store.Snapshot() == old(store.Snapshot())
    ensures r.Accepted? ==>
              && EventFor(store.Snapshot(), req.key, r.event)
              && store.events[r.event].fingerprint == req.fingerprint
    ensures forall e :: EventFor(old(store.Snapshot()), req.key, e) ==>
              (old(store.events)[e].fingerprint == req.fingerprint <==> r == Accepted(e, true))
    ensures r.BacklogExceeded? <==>
              !Ingested(old(store.Snapshot()), req.key)
              && ProjectedBacklog(old(store.Snapshot()), req.key.org, req.eventType) > s.backlogLimit
    ensures r.Accepted? && !r.replayed ==> r.event == old(store.nextEvent)
    ensures r.Conflict? <==>
              exists e :: EventFor(old(store.Snapshot()), req.key, e)
                && old(store.events)[e].fingerprint != req.fingerprint
  {
    ghost var t := store.Snapshot();
    if e :| e in store.events && store.events[e].key == req.key {
      assert EventFor(t, req.key, e);
      forall f | EventFor(t, req.key, f)
        ensures f == e
      {
        assert SameKey(t.events[e], t.events[f]);
      }
      return if store.events[e].fingerprint == req.fingerprint then Accepted(e, true) else Conflict;
    }
    assert !Ingested(t, req.key);
    var backlog := Backlog(store, req.key.org, req.eventType);
    if backlog > s.backlogLimit {
      return BacklogExceeded;
    }
    NumbersInUse(t);
    var created := store.CreateEventGraph(req, eps, now);
    return Accepted(created.value.0, false);
  }

  lemma TerminalOrNot(q: DeliveryStatus)
    ensures q !in {Succeeded, DeadLettered, Cancelled} <==> q in {Pending, Queued, Delivering, RetryScheduled}
  {
  }

  /** projected_backlog: unfinished deliveries plus endpoints about to receive one. */
  method Backlog(store: Store, org: OrgId, eventType: string) returns (n: nat)
    ensures n == ProjectedBacklog(store.Snapshot(), org, eventType)
    ensures
      var unfinished := set d | d in store.deliveries && store.deliveries[d].org == org
                             && store.deliveries[d].status in {Pending, Queued, Delivering, RetryScheduled};
      var receiving := set e | e in store.endpoints && store.endpoints[e].org == org
                            && store.endpoints[e].status == Active && store.endpoints[e].enabled
                            && store.endpoints[e].deletedAt.None? && eventType in store.endpoints[e].eventTypes;
      n == |unfinished| + |receiving|
  {
    var unfinished := set d | d in store.deliveries && store.deliveries[d].org == org
                           && store.deliveries[d].status !in {Succeeded, DeadLettered, Cancelled};
    var matching := set e | e in store.endpoints && Receives(store.endpoints[e], org, eventType);
    assert unfinished == Unfinished(store.Snapshot(), org);
    assert matching == Matching(store.Snapshot(), org, eventType);
    forall d | d in store.deliveries
      ensures store.deliveries[d].status !in {Succeeded, DeadLettered, Cancelled}
         <==> store.deliveries[d].status in {Pending, Queued, Delivering, RetryScheduled}
    {
      TerminalOrNot(store.deliveries[d].status);
    }
    assert unfinished == set d | d in store.deliveries && store.deliveries[d].org == org
                              && store.deliveries[d].status in {Pending, Queued, Delivering, RetryScheduled};
    assert matching == set e | e in store.endpoints && store.endpoints[e].org == org
                            && store.endpoints[e].status == Active && store.endpoints[e].enabled
                            && store.endpoints[e].deletedAt.None? && eventType in store.endpoints[e].eventTypes;
    return |unfinished| + |matching|;
  }

  datatype ReplayResult = Replay(delivery: nat, existing: bool) | NotFound | NotTerminal

  /** DeliveryUseCases.replay after the role and key-length checks. */
  method ReplayDelivery(store: Store, s: Settings, org: OrgId, source: nat, key: string, now: Time)
    returns (r: ReplayResult)
    requires TablesOk(store.Snapshot(), s)
    modifies store
    ensures r.Replay? ==> ReplayFor(store.Snapshot(), org, source, key, r.delivery)
    ensures forall d :: ReplayFor(old(store.Snapshot()), org, source, key, d) ==> r == Replay(d, true)
    ensures r == NotFound <==>
              && !Replayed(old(store.Snapshot()), org, source, key)
              && (source !in old(store.deliveries) || old(store.deliveries)[source].org != org)
    ensures r == NotTerminal <==>
              && !Replayed(old(store.Snapshot()), org, source, key)
              && source in old(store.deliveries) && old(store.deliveries)[source].org == org
              && old(store.deliveries)[source].status in {Pending, Queued, Delivering, RetryScheduled}
    ensures r.Replay? && !r.existing <==>
              !Replayed(old(store.Snapshot()), org, source, key) && Replayable(old(store.Snapshot()), org, source)
    ensures r.Replay? && !r.existing ==>
              store.Snapshot() == InsertReplay(old(store.Snapshot()), source, key, now)
    ensures !(r.Replay? && !r.existing) ==> store.Snapshot() == old(store.Snapshot())
  {
    ghost var t := store.Snapshot();
    if d :| d in store.deliveries && store.deliveries[d].org == org && store.deliveries[d].replayOf == Some(source)
            && store.deliveries[d].replayKey == Some(key) {
      assert ReplayFor(t, org, source, key, d);
      forall f | ReplayFor(t, org, source, key, f)
        ensures f == d
      {
        assert Twins(t.deliveries[d], t.deliveries[f]);
      }
      return Replay(d, true);
    }
    assert !Replayed(t, org, source, key);
    if source !in store.deliveries || store.deliveries[source].org != org {
      return NotFound;
    }
    TerminalOrNot(store.deliveries[source].status);
    if store.deliveries[source].status !in {Succeeded, DeadLettered, Cancelled} {
      return NotTerminal;
    }
    NumbersInUse(t);
    var created := store.CreateReplay(org, source, key, now);
    return Replay(created.value, false);
  }
}
