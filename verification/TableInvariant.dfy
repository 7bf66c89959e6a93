/**
 The invariant that every committed database state satisfies, and a proof for each transaction that
 it is kept.
 */
module TableInvariant {
  import opened Wrappers
  import opened Tables
  import opened Transactions

  // --- The attempt log determines the delivery ----------------------------------------------------

  /** A closed attempt whose recorded decision was to try again. */
  predicate WorthRetry(a: Attempt) {
    a.outcome in {Failed, Unknown} && a.retry == Some(true) && a.endedAt.Some?
  }

  predicate Final(a: Attempt) {
    a.outcome in {Failed, Unknown} && a.retry == Some(false) && a.endedAt.Some?
  }

  predicate Open(a: Attempt) {
    a.outcome == Started && a.retry.None? && a.endedAt.None? && !a.preview
  }

  /** What a row may say, given its newest attempt (if it has one). */
  predicate RowOk(r: Delivery, s: Settings, last: Option<Attempt>) {
    && r.attemptCount <= s.maxAttempts
    && (last.Some? <==> r.attemptCount > 0)
    && (r.nextAttemptAt.Some? <==> r.status == RetryScheduled)
    && (r.leaseUntil.Some? <==> r.status == Delivering)
    && match r.status
       case Pending => false
       case Queued | RetryScheduled =>
         r.attemptCount < s.maxAttempts && (last.Some? ==> WorthRetry(last.value))
       case Cancelled => r.attemptCount < s.maxAttempts && (last.Some? ==> WorthRetry(last.value))
       case Delivering =>
         && last.Some? && Open(last.value)
         && r.leaseUntil == Some(last.value.startedAt + s.leaseSeconds * SECOND)
       case Succeeded =>
         && last.Some? && last.value.outcome == Success && last.value.retry == Some(false)
         && last.value.endedAt.Some?
       case DeadLettered => last.Some? && Final(last.value)
  }

  function Last(t: Tables, d: nat): Option<Attempt>
    requires d in t.deliveries
  {
    var k := AttemptKey(d, t.deliveries[d].attemptCount);
    if k in t.attempts then Some(t.attempts[k]) else None
  }

  /** Attempts are numbered 1 to attempt_count without a gap, and all but the newest failed retryably. */
  ghost predicate LogOk(t: Tables, d: nat)
    requires d in t.deliveries
  {
    var n := t.deliveries[d].attemptCount;
    && (forall i: nat :: AttemptKey(d, i) in t.attempts <==> 1 <= i <= n)
    && (forall i: nat :: 1 <= i < n ==> WorthRetry(t.attempts[AttemptKey(d, i)]))
  }

  ghost predicate DeliveryOk(t: Tables, s: Settings, d: nat) {
    d in t.deliveries && LogOk(t, d) && RowOk(t.deliveries[d], s, Last(t, d))
  }

  ghost predicate RowsOk(t: Tables, s: Settings) {
    && (forall d {:trigger DeliveryOk(t, s, d)} :: d in t.deliveries ==> DeliveryOk(t, s, d))
    && (forall k :: k in t.attempts ==> k.delivery in t.deliveries)
  }

  // --- References and keys ------------------------------------------------------------------------

  /** A replay points back to an older, finished delivery of the same event to the same endpoint. */
  predicate ReplayLinkOk(t: Tables, d: nat)
    requires d in t.deliveries
  {
    var r := t.deliveries[d];
    && (r.replayOf.Some? <==> r.replayKey.Some?)
    && (r.replayOf.Some? ==>
          var p := r.replayOf.value;
          && p < d && p in t.deliveries && Terminal(t.deliveries[p].status)
          && t.deliveries[p].org == r.org && t.deliveries[p].event == r.event
          && t.deliveries[p].endpoint == r.endpoint)
  }

  predicate RefsRowOk(t: Tables, d: nat) {
    && d in t.deliveries
    && var r := t.deliveries[d];
    && d < t.nextDelivery
    && r.event in t.events && t.events[r.event].key.org == r.org
    && r.endpoint in t.endpoints && t.endpoints[r.endpoint].org == r.org
    && ReplayLinkOk(t, d)
  }

  ghost predicate RefsOk(t: Tables) {
    forall d {:trigger RefsRowOk(t, d)} :: d in t.deliveries ==> RefsRowOk(t, d)
  }

  ghost predicate SideOk(t: Tables) {
    && (forall e :: e in t.events ==> e < t.nextEvent)
    && (forall a :: a in t.audits ==> a < t.nextAudit)
    && (forall i :: 0 <= i < |t.outbox| ==> t.outbox[i].delivery < t.nextDelivery)
    && (forall e :: e in t.endpoints && t.endpoints[e].deletedAt.Some? ==> !t.endpoints[e].enabled)
  }

  /** Same original (event and endpoint) or same replay (source and Idempotency-Key). */
  predicate Twins(a: Delivery, b: Delivery) {
    && a.replayOf == b.replayOf
    && if a.replayOf.None? then a.event == b.event && a.endpoint == b.endpoint
       else a.org == b.org && a.replayKey == b.replayKey
  }

  predicate SameKey(a: Event, b: Event) {
    a.key == b.key
  }

  ghost predicate EventKeysOk(t: Tables) {
    forall a, b {:trigger SameKey(t.events[a], t.events[b])} ::
      a in t.events && b in t.events && SameKey(t.events[a], t.events[b]) ==> a == b
  }

  ghost predicate DeliveryKeysOk(t: Tables) {
    forall a, b {:trigger Twins(t.deliveries[a], t.deliveries[b])} ::
      a in t.deliveries && b in t.deliveries && Twins(t.deliveries[a], t.deliveries[b]) ==> a == b
  }

  /** The unique indexes on events and deliveries. */
  ghost predicate KeysOk(t: Tables) {
    EventKeysOk(t) && DeliveryKeysOk(t)
  }

  // --- Slots --------------------------------------------------------------------------------------

  function InFlight(t: Tables, e: nat): set<nat> {
    set d | d in t.deliveries && t.deliveries[d].endpoint == e && t.deliveries[d].status == Delivering
  }

  predicate SlotOk(t: Tables, e: nat) {
    e in t.endpoints && t.endpoints[e].activeCount == |InFlight(t, e)| && |InFlight(t, e)| <= ENDPOINT_SLOTS
  }

  ghost predicate SlotsOk(t: Tables) {
    forall e {:trigger SlotOk(t, e)} :: e in t.endpoints ==> SlotOk(t, e)
  }

  ghost predicate TablesOk(t: Tables, s: Settings) {
    RowsOk(t, s) && RefsOk(t) && SideOk(t) && KeysOk(t) && SlotsOk(t)
  }

  lemma EmptyOk(s: Settings)
    ensures TablesOk(EMPTY, s)
  {
  }

  // --- Editing one delivery -------------------------------------------------------------------------

  /** `a` and `b` agree on everything about a delivery that is fixed when it is created. */
  predicate SameIdentity(a: Delivery, b: Delivery) {
    && a.org == b.org && a.event == b.event && a.endpoint == b.endpoint
    && a.replayOf == b.replayOf && a.replayKey == b.replayKey && a.createdAt == b.createdAt
  }

  ghost predicate SameLog(t: Tables, u: Tables, d: nat) {
    forall i: nat {:trigger AttemptKey(d, i) in u.attempts} ::
      && (AttemptKey(d, i) in u.attempts <==> AttemptKey(d, i) in t.attempts)
      && (AttemptKey(d, i) in t.attempts ==> u.attempts[AttemptKey(d, i)] == t.attempts[AttemptKey(d, i)])
  }

  lemma SameLogKeepsDelivery(t: Tables, u: Tables, s: Settings, d: nat)
    requires DeliveryOk(t, s, d) && SameLog(t, u, d)
    requires d in u.deliveries && u.deliveries[d] == t.deliveries[d]
    ensures DeliveryOk(u, s, d)
  {
    assert Last(u, d) == Last(t, d);
  }

  lemma EditKeepsRows(t: Tables, u: Tables, s: Settings, d: nat, r: Delivery)
    requires RowsOk(t, s) && d in t.deliveries && u.deliveries == t.deliveries[d := r]
    requires forall c :: c in t.deliveries && c != d ==> SameLog(t, u, c)
    requires forall k :: k in u.attempts ==> k.delivery in t.deliveries
    requires DeliveryOk(u, s, d)
    ensures RowsOk(u, s)
  {
    forall c | c in u.deliveries
      ensures DeliveryOk(u, s, c)
    {
      if c != d {
        assert DeliveryOk(t, s, c);
        SameLogKeepsDelivery(t, u, s, c);
      }
    }
  }

  /** The endpoints of `u` are those of `t`, with the same owners. */
  ghost predicate SameOwners(t: Tables, u: Tables) {
    && t.endpoints.Keys <= u.endpoints.Keys
    && forall e :: e in t.endpoints ==> u.endpoints[e].org == t.endpoints[e].org
  }

  /** Rows may change status, but keep their identity and stay terminal once terminal. */
  ghost predicate SameRows(t: Tables, u: Tables) {
    && t.deliveries.Keys == u.deliveries.Keys
    && forall d :: d in t.deliveries ==>
         && SameIdentity(t.deliveries[d], u.deliveries[d])
         && (Terminal(t.deliveries[d].status) ==> Terminal(u.deliveries[d].status))
  }

  lemma SameRowsKeepRefs(t: Tables, u: Tables)
    requires RefsOk(t) && SameRows(t, u) && SameOwners(t, u)
    requires u.events == t.events && u.nextDelivery == t.nextDelivery
    ensures RefsOk(u)
  {
    forall d | d in u.deliveries
      ensures RefsRowOk(u, d)
    {
      assert RefsRowOk(t, d);
    }
  }

  lemma SameRowsKeepDeliveryKeys(t: Tables, u: Tables)
    requires DeliveryKeysOk(t) && SameRows(t, u)
    ensures DeliveryKeysOk(u)
  {
    forall a, b | a in u.deliveries && b in u.deliveries && Twins(u.deliveries[a], u.deliveries[b])
      ensures a == b
    {
      assert Twins(t.deliveries[a], t.deliveries[b]);
    }
  }

  lemma SameRowsKeepKeys(t: Tables, u: Tables)
    requires KeysOk(t) && SameRows(t, u) && u.events == t.events
    ensures KeysOk(u)
  {
    SameRowsKeepDeliveryKeys(t, u);
  }

  // --- Worker -------------------------------------------------------------------------------------

  lemma QueuedHasNoOpenAttempt(t: Tables, s: Settings, d: nat)
    requires RowsOk(t, s) && d in t.deliveries && t.deliveries[d].status == Queued
    ensures DeliveryOk(t, s, d) && t.deliveries[d].attemptCount < s.maxAttempts
    ensures AttemptKey(d, t.deliveries[d].attemptCount + 1) !in t.attempts
  {
    assert DeliveryOk(t, s, d);
  }

  lemma ClaimKeepsLog(t: Tables, s: Settings, now: Time, d: nat, secretOk: bool)
    requires RowsOk(t, s) && RefsOk(t)
    ensures d in t.deliveries ==> DeliveryOk(Claim(t, s, now, d, secretOk), s, d)
  {
    if d in t.deliveries {
      var u := Claim(t, s, now, d, secretOk);
      assert DeliveryOk(t, s, d) && RefsRowOk(t, d);
      if t.deliveries[d].status == Queued {
        QueuedHasNoOpenAttempt(t, s, d);
        if u.deliveries[d].attemptCount == t.deliveries[d].attemptCount {
          assert u.attempts == t.attempts;
          assert Last(u, d) == Last(t, d);
        } else {
          var key := AttemptKey(d, t.deliveries[d].attemptCount + 1);
          assert u.attempts == t.attempts[key := OpenedAttempt(now, secretOk)];
          assert Last(u, d) == Some(OpenedAttempt(now, secretOk));
        }
      }
    }
  }

  lemma ClaimFrame(t: Tables, s: Settings, now: Time, d: nat, secretOk: bool)
    requires d in t.deliveries
    ensures
      var u := Claim(t, s, now, d, secretOk);
      && d in u.deliveries && u.deliveries == t.deliveries[d := u.deliveries[d]]
      && u == t.(deliveries := u.deliveries, attempts := u.attempts, endpoints := u.endpoints)
  {
  }

  lemma ClaimRow(t: Tables, s: Settings, now: Time, d: nat, secretOk: bool)
    requires d in t.deliveries
    ensures
      var u := Claim(t, s, now, d, secretOk);
      && d in u.deliveries && SameIdentity(t.deliveries[d], u.deliveries[d])
      && (t.deliveries[d].status == Queued ==>
            (u.deliveries[d].status == Delivering <==> StartsAttempt(t, d, secretOk)))
      && (t.deliveries[d].status != Queued ==> u == t)
  {
  }

  /** What Claim changes, apart from attempts: one row, and a slot if it starts a call. */
  lemma ClaimShape(t: Tables, s: Settings, now: Time, d: nat, secretOk: bool)
    requires d in t.deliveries
    ensures
      var u := Claim(t, s, now, d, secretOk);
      && d in u.deliveries && u.deliveries == t.deliveries[d := u.deliveries[d]]
      && u == t.(deliveries := u.deliveries, attempts := u.attempts, endpoints := u.endpoints)
      && SameIdentity(t.deliveries[d], u.deliveries[d])
      && (t.deliveries[d].status == Queued ==>
            (u.deliveries[d].status == Delivering <==> StartsAttempt(t, d, secretOk)))
      && (t.deliveries[d].status != Queued ==> u == t)
  {
    ClaimFrame(t, s, now, d, secretOk);
    ClaimRow(t, s, now, d, secretOk);
  }

  lemma ClaimSlot(t: Tables, s: Settings, now: Time, d: nat, secretOk: bool)
    requires d in t.deliveries
    ensures
      var u := Claim(t, s, now, d, secretOk);
      var e := t.deliveries[d].endpoint;
      if StartsAttempt(t, d, secretOk)
      then u.endpoints == t.endpoints[e := t.endpoints[e].(activeCount := t.endpoints[e].activeCount + 1)]
      else u.endpoints == t.endpoints
  {
  }

  function Busy(r: Delivery): int {
    if r.status == Delivering then 1 else 0
  }

  lemma InFlightAfterEdit(t: Tables, u: Tables, d: nat, r: Delivery, e: nat)
    requires d in t.deliveries && u.deliveries == t.deliveries[d := r] && SameIdentity(t.deliveries[d], r)
    ensures |InFlight(u, e)| == |InFlight(t, e)| + if r.endpoint == e then Busy(r) - Busy(t.deliveries[d]) else 0
  {
    if r.endpoint != e || Busy(r) == Busy(t.deliveries[d]) {
      assert InFlight(u, e) == InFlight(t, e);
    } else if Busy(r) == 1 {
      assert InFlight(u, e) == InFlight(t, e) + {d};
    } else {
      assert InFlight(t, e) == InFlight(u, e) + {d};
    }
  }

  /** The endpoint's counter follows its delivery into and out of `delivering`. */
  lemma EditKeepsSlots(t: Tables, u: Tables, d: nat, r: Delivery)
    requires SlotsOk(t)
    requires d in t.deliveries && u.deliveries == t.deliveries[d := r] && SameIdentity(t.deliveries[d], r)
    requires u.endpoints.Keys == t.endpoints.Keys
    requires forall e :: e in t.endpoints && e != r.endpoint ==>
               u.endpoints[e].activeCount == t.endpoints[e].activeCount
    requires r.endpoint in t.endpoints ==>
               && u.endpoints[r.endpoint].activeCount
                  == t.endpoints[r.endpoint].activeCount + Busy(r) - Busy(t.deliveries[d])
               && u.endpoints[r.endpoint].activeCount <= ENDPOINT_SLOTS
    ensures SlotsOk(u)
  {
    forall e | e in u.endpoints
      ensures SlotOk(u, e)
    {
      assert SlotOk(t, e);
      InFlightAfterEdit(t, u, d, r, e);
    }
  }

  lemma ClaimKeepsSlots(t: Tables, s: Settings, now: Time, d: nat, secretOk: bool)
    requires SlotsOk(t) && d in t.deliveries && t.deliveries[d].status == Queued
    ensures SlotsOk(Claim(t, s, now, d, secretOk))
  {
    var u := Claim(t, s, now, d, secretOk);
    ClaimShape(t, s, now, d, secretOk);
    ClaimSlot(t, s, now, d, secretOk);
    if t.deliveries[d].endpoint in t.endpoints {
      assert SlotOk(t, t.deliveries[d].endpoint);
    }
    EditKeepsSlots(t, u, d, u.deliveries[d]);
  }

  lemma ClaimKeeps(t: Tables, s: Settings, now: Time, d: nat, secretOk: bool)
    requires TablesOk(t, s)
    ensures TablesOk(Claim(t, s, now, d, secretOk), s)
  {
    if d in t.deliveries && t.deliveries[d].status == Queued {
      var u := Claim(t, s, now, d, secretOk);
      ClaimShape(t, s, now, d, secretOk);
      ClaimSlot(t, s, now, d, secretOk);
      ClaimKeepsLog(t, s, now, d, secretOk);
      EditKeepsRows(t, u, s, d, u.deliveries[d]);
      ClaimKeepsSlots(t, s, now, d, secretOk);
      SameRowsKeepRefs(t, u);
      SameRowsKeepKeys(t, u);
    }
  }

  /** Finalize does not look at the delivery's status; an open attempt implies it is `delivering`. */
  lemma OpenAttemptIsDelivering(t: Tables, s: Settings, k: AttemptKey)
    requires RowsOk(t, s)
    requires k in t.attempts && t.attempts[k].outcome == Started
    ensures DeliveryOk(t, s, k.delivery) && t.deliveries[k.delivery].status == Delivering
    ensures k.number == t.deliveries[k.delivery].attemptCount
    ensures Open(t.attempts[k])
  {
    assert DeliveryOk(t, s, k.delivery);
    assert AttemptKey(k.delivery, k.number) in t.attempts;
  }

  /** The endpoint a worker remembers is its delivery's endpoint, as long as the delivery exists. */
  predicate ClaimMatches(t: Tables, c: Claimed) {
    c.attempt.delivery in t.deliveries ==> t.deliveries[c.attempt.delivery].endpoint == c.endpoint
  }

  predicate Finalizes(t: Tables, c: Claimed) {
    && c.attempt.delivery in t.deliveries && c.endpoint in t.endpoints
    && c.attempt in t.attempts && t.attempts[c.attempt].outcome == Started
  }

  lemma FinalizeKeepsLog(t: Tables, s: Settings, now: Time, c: Claimed, resp: Response, sample: real)
    requires ValidSettings(s) && RowsOk(t, s) && Finalizes(t, c)
    ensures DeliveryOk(Finalize(t, s, now, c, resp, sample), s, c.attempt.delivery)
  {
    OpenAttemptIsDelivering(t, s, c.attempt);
    var u := Finalize(t, s, now, c, resp, sample);
    assert LogOk(u, c.attempt.delivery);
    assert Last(u, c.attempt.delivery) == Some(u.attempts[c.attempt]);
  }

  lemma FinalizeKeepsSlots(t: Tables, s: Settings, now: Time, c: Claimed, resp: Response, sample: real)
    requires ValidSettings(s) && RowsOk(t, s) && SlotsOk(t) && ClaimMatches(t, c) && Finalizes(t, c)
    ensures SlotsOk(Finalize(t, s, now, c, resp, sample))
  {
    var u := Finalize(t, s, now, c, resp, sample);
    var d := c.attempt.delivery;
    OpenAttemptIsDelivering(t, s, c.attempt);
    assert SlotOk(t, c.endpoint) && d in InFlight(t, c.endpoint);
    EditKeepsSlots(t, u, d, u.deliveries[d]);
  }

  lemma FinalizeKeeps(t: Tables, s: Settings, now: Time, c: Claimed, resp: Response, sample: real)
    requires ValidSettings(s) && TablesOk(t, s) && ClaimMatches(t, c)
    ensures TablesOk(Finalize(t, s, now, c, resp, sample), s)
  {
    if Finalizes(t, c) {
      var u := Finalize(t, s, now, c, resp, sample);
      OpenAttemptIsDelivering(t, s, c.attempt);
      FinalizeKeepsLog(t, s, now, c, resp, sample);
      EditKeepsRows(t, u, s, c.attempt.delivery, u.deliveries[c.attempt.delivery]);
      FinalizeKeepsSlots(t, s, now, c, resp, sample);
      SameRowsKeepRefs(t, u);
      SameRowsKeepKeys(t, u);
    }
  }

  // --- Scheduler ----------------------------------------------------------------------------------

  lemma SameInFlightKeepsSlots(t: Tables, u: Tables)
    requires SlotsOk(t)
    requires forall e :: e in t.endpoints ==> InFlight(u, e) == InFlight(t, e)
    requires forall e :: e in u.endpoints ==>
               e in t.endpoints && u.endpoints[e].activeCount == t.endpoints[e].activeCount
    ensures SlotsOk(u)
  {
    forall e | e in u.endpoints
      ensures SlotOk(u, e)
    {
      assert SlotOk(t, e);
    }
  }

  lemma ScheduleKeepsRows(t: Tables, s: Settings, now: Time, batch: seq<nat>)
    requires RowsOk(t, s)
    requires forall d :: d in batch ==> d in DueRows(t, now)
    ensures RowsOk(ScheduleDue(t, now, batch), s)
  {
    var u := ScheduleDue(t, now, batch);
    forall d | d in u.deliveries
      ensures DeliveryOk(u, s, d)
    {
      assert DeliveryOk(t, s, d);
      assert Last(u, d) == Last(t, d);
    }
  }

  lemma ScheduleKeeps(t: Tables, s: Settings, now: Time, batch: seq<nat>)
    requires TablesOk(t, s)
    requires forall d :: d in batch ==> d in DueRows(t, now)
    ensures TablesOk(ScheduleDue(t, now, batch), s)
  {
    var u := ScheduleDue(t, now, batch);
    ScheduleKeepsRows(t, s, now, batch);
    SameRowsKeepRefs(t, u);
    SameRowsKeepKeys(t, u);
    forall e | e in t.endpoints
      ensures InFlight(u, e) == InFlight(t, e)
    {
    }
    SameInFlightKeepsSlots(t, u);
    forall i | 0 <= i < |u.outbox|
      ensures u.outbox[i].delivery < u.nextDelivery
    {
      if i >= |t.outbox| {
        var d := batch[i - |t.outbox|];
        assert d in batch && d in DueRows(t, now);
        assert RefsRowOk(t, d);
      }
    }
  }

  lemma ReconcileClosesOpenAttempt(t: Tables, s: Settings, k: AttemptKey)
    requires RowsOk(t, s) && k in t.attempts && t.attempts[k].outcome == Started
    ensures NewestStarted(t.attempts, k)
  {
    OpenAttemptIsDelivering(t, s, k);
    forall j | j in t.attempts && j.delivery == k.delivery && t.attempts[j].outcome == Started
      ensures j.number <= k.number
    {
      OpenAttemptIsDelivering(t, s, j);
    }
  }

  lemma ReconcileKeepsRows(t: Tables, s: Settings, now: Time, batch: seq<nat>)
    requires RowsOk(t, s)
    requires forall d :: d in batch ==> d in StaleRows(t, now)
    ensures RowsOk(Reconcile(t, s, now, batch), s)
  {
    var u := Reconcile(t, s, now, batch);
    forall d | d in u.deliveries
      ensures DeliveryOk(u, s, d)
    {
      assert DeliveryOk(t, s, d);
      if d in batch {
        var k := AttemptKey(d, t.deliveries[d].attemptCount);
        ReconcileClosesOpenAttempt(t, s, k);
        assert Last(u, d) == Some(u.attempts[k]);
      } else {
        assert Last(u, d) == Last(t, d);
      }
    }
  }

  /** Taking a batch of running deliveries out of flight. */
  lemma InFlightWithout(t: Tables, u: Tables, batch: seq<nat>, e: nat)
    requires u.deliveries.Keys == t.deliveries.Keys
    requires forall d :: d in t.deliveries ==>
               && u.deliveries[d].endpoint == t.deliveries[d].endpoint
               && (u.deliveries[d].status == Delivering <==> t.deliveries[d].status == Delivering && d !in batch)
               && (d in batch ==> t.deliveries[d].status == Delivering)
    ensures |InFlight(u, e)| == |InFlight(t, e)| - |InEndpoint(t, batch, e)|
  {
    assert InFlight(u, e) !! InEndpoint(t, batch, e);
    assert InFlight(t, e) == InFlight(u, e) + InEndpoint(t, batch, e);
  }

  lemma ReconcileInFlight(t: Tables, s: Settings, now: Time, batch: seq<nat>, e: nat)
    requires forall d :: d in batch ==> d in StaleRows(t, now)
    ensures |InFlight(Reconcile(t, s, now, batch), e)| == |InFlight(t, e)| - |InEndpoint(t, batch, e)|
  {
    var u := Reconcile(t, s, now, batch);
    forall d | d in t.deliveries
      ensures u.deliveries[d].endpoint == t.deliveries[d].endpoint
      ensures u.deliveries[d].status == Delivering <==> t.deliveries[d].status == Delivering && d !in batch
      ensures d in batch ==> t.deliveries[d].status == Delivering
    {
    }
    InFlightWithout(t, u, batch, e);
  }

  lemma ReconcileKeepsSlots(t: Tables, s: Settings, now: Time, batch: seq<nat>)
    requires SlotsOk(t)
    requires forall d :: d in batch ==> d in StaleRows(t, now)
    ensures SlotsOk(Reconcile(t, s, now, batch))
  {
    var u := Reconcile(t, s, now, batch);
    forall e | e in u.endpoints
      ensures SlotOk(u, e)
    {
      assert SlotOk(t, e);
      ReconcileInFlight(t, s, now, batch, e);
    }
  }

  lemma ReconcileKeeps(t: Tables, s: Settings, now: Time, batch: seq<nat>)
    requires TablesOk(t, s)
    requires forall d :: d in batch ==> d in StaleRows(t, now)
    ensures TablesOk(Reconcile(t, s, now, batch), s)
  {
    var u := Reconcile(t, s, now, batch);
    ReconcileKeepsRows(t, s, now, batch);
    ReconcileKeepsSlots(t, s, now, batch);
    SameRowsKeepRefs(t, u);
    SameRowsKeepKeys(t, u);
  }

  // --- Outbox and endpoints -------------------------------------------------------------------------

  /** Nothing but outbox rows, audit rows and endpoint columns other than org and counter differ. */
  ghost predicate SameCore(t: Tables, u: Tables) {
    && u.deliveries == t.deliveries && u.attempts == t.attempts && u.events == t.events
    && u.nextDelivery == t.nextDelivery && u.nextEvent == t.nextEvent
    && u.endpoints.Keys == t.endpoints.Keys
    && forall e :: e in t.endpoints ==>
         u.endpoints[e].org == t.endpoints[e].org && u.endpoints[e].activeCount == t.endpoints[e].activeCount
  }

  lemma SameCoreKeeps(t: Tables, u: Tables, s: Settings)
    requires TablesOk(t, s) && SameCore(t, u) && SideOk(u)
    ensures TablesOk(u, s)
  {
    forall d | d in u.deliveries
      ensures DeliveryOk(u, s, d)
    {
      assert DeliveryOk(t, s, d);
      SameLogKeepsDelivery(t, u, s, d);
    }
    SameRowsKeepRefs(t, u);
    SameRowsKeepKeys(t, u);
    forall e | e in t.endpoints
      ensures InFlight(u, e) == InFlight(t, e)
    {
    }
    SameInFlightKeepsSlots(t, u);
  }

  lemma ClaimOutboxKeeps(t: Tables, s: Settings, rows: seq<nat>, until: Time)
    requires TablesOk(t, s)
    ensures TablesOk(ClaimOutbox(t, rows, until), s)
  {
    SameCoreKeeps(t, ClaimOutbox(t, rows, until), s);
  }

  lemma FinishOutboxKeeps(t: Tables, s: Settings, r: nat, published: bool)
    requires TablesOk(t, s)
    ensures TablesOk(FinishOutbox(t, r, published), s)
  {
    SameCoreKeeps(t, FinishOutbox(t, r, published), s);
  }

  lemma AuditKeeps(t: Tables, s: Settings, now: Time)
    requires TablesOk(t, s)
    ensures TablesOk(Audit(t, now), s)
  {
    SameCoreKeeps(t, Audit(t, now), s);
  }

  /** Rewriting an endpoint's own columns; a deleted endpoint must stay switched off. */
  lemma EndpointEditKeeps(t: Tables, s: Settings, e: nat, ep: Endpoint)
    requires TablesOk(t, s) && e in t.endpoints
    requires ep.org == t.endpoints[e].org && ep.activeCount == t.endpoints[e].activeCount
    requires ep.deletedAt.Some? ==> !ep.enabled
    ensures TablesOk(t.(endpoints := t.endpoints[e := ep]), s)
  {
    SameCoreKeeps(t, t.(endpoints := t.endpoints[e := ep]), s);
  }

  lemma CancelKeepsRows(t: Tables, s: Settings, org: OrgId, e: nat)
    requires RowsOk(t, s)
    ensures RowsOk(CancelWaiting(t, org, e), s)
  {
    var u := CancelWaiting(t, org, e);
    forall d | d in u.deliveries
      ensures DeliveryOk(u, s, d)
    {
      assert DeliveryOk(t, s, d);
      assert Last(u, d) == Last(t, d);
    }
  }

  lemma CancelKeeps(t: Tables, s: Settings, org: OrgId, e: nat)
    requires TablesOk(t, s)
    ensures TablesOk(CancelWaiting(t, org, e), s)
  {
    var u := CancelWaiting(t, org, e);
    CancelKeepsRows(t, s, org, e);
    SameRowsKeepRefs(t, u);
    SameRowsKeepKeys(t, u);
    forall x | x in t.endpoints
      ensures InFlight(u, x) == InFlight(t, x)
    {
    }
    SameInFlightKeepsSlots(t, u);
  }

  lemma UpdateKeeps(t: Tables, s: Settings, org: OrgId, e: nat, c: Changes, now: Time)
    requires TablesOk(t, s)
    ensures TablesOk(UpdateEndpoint(t, org, e, c, now), s)
  {
    if Manageable(t, org, e) {
      var moved := Relocated(t.endpoints[e], c.url);
      var t1 := if c.enabled == Some(false) && moved.status == Active then CancelWaiting(t, org, e) else t;
      CancelKeeps(t, s, org, e);
      var ep := Subscribed(Switched(moved, c.enabled), c.eventTypes);
      EndpointEditKeeps(t1, s, e, ep);
      AuditKeeps(t1.(endpoints := t1.endpoints[e := ep]), s, now);
    }
  }

  lemma BeginVerifyKeeps(t: Tables, s: Settings, org: OrgId, e: nat, c: Challenge)
    requires TablesOk(t, s)
    ensures TablesOk(BeginVerify(t, org, e, c), s)
  {
    if Manageable(t, org, e) {
      EndpointEditKeeps(t, s, e, t.endpoints[e].(challenge := Some(c)));
    }
  }

  /** The second half of verify looks at neither deleted_at nor enabled, and needs neither for this. */
  lemma CommitVerifyKeeps(t: Tables, s: Settings, v: Verification, now: Time)
    requires TablesOk(t, s)
    ensures TablesOk(CommitVerify(t, v, now), s)
  {
    if CommitVerify(t, v, now) != t {
      var ep := Verified(t.endpoints[v.e], v.loaded);
      EndpointEditKeeps(t, s, v.e, ep);
      AuditKeeps(t.(endpoints := t.endpoints[v.e := ep]), s, now);
    }
  }

  lemma DeleteEndpointKeeps(t: Tables, s: Settings, org: OrgId, e: nat, now: Time)
    requires TablesOk(t, s)
    ensures TablesOk(DeleteEndpoint(t, org, e, now), s)
  {
    if Manageable(t, org, e) {
      var t1 := CancelWaiting(t, org, e);
      var ep := t.endpoints[e].(deletedAt := Some(now), status := Deleted, enabled := false);
      CancelKeeps(t, s, org, e);
      EndpointEditKeeps(t1, s, e, ep);
      AuditKeeps(t1.(endpoints := t1.endpoints[e := ep]), s, now);
    }
  }

  /** No delivery of an endpoint exists before the endpoint does. */
  lemma UnknownEndpointIsIdle(t: Tables, e: nat)
    requires RefsOk(t) && e !in t.endpoints
    ensures InFlight(t, e) == {}
  {
    forall d | d in t.deliveries
      ensures t.deliveries[d].endpoint != e
    {
      assert RefsRowOk(t, d);
    }
  }

  lemma CreateEndpointKeeps(
    t: Tables, s: Settings, e: nat, org: OrgId, url: string, types: set<string>, now: Time)
    requires TablesOk(t, s) && e !in t.endpoints
    ensures TablesOk(CreateEndpoint(t, e, org, url, types, now), s)
  {
    var ep := Endpoint(org, url, PendingVerification, true, 0, None, None, types);
    var u := t.(endpoints := t.endpoints[e := ep]);
    forall d | d in u.deliveries
      ensures DeliveryOk(u, s, d)
    {
      assert DeliveryOk(t, s, d);
      SameLogKeepsDelivery(t, u, s, d);
    }
    SameRowsKeepRefs(t, u);
    SameRowsKeepKeys(t, u);
    UnknownEndpointIsIdle(t, e);
    forall x | x in u.endpoints
      ensures SlotOk(u, x)
    {
      assert InFlight(u, x) == InFlight(t, x);
      if x != e {
        assert SlotOk(t, x);
      }
    }
    AuditKeeps(u, s, now);
  }

  // --- Inserting deliveries -----------------------------------------------------------------------

  /** A row as the ingest and replay use cases insert it. */
  predicate Newborn(r: Delivery) {
    r.status == Queued && r.attemptCount == 0 && r.nextAttemptAt.None? && r.leaseUntil.None?
  }

  /** `u` is `t` with newborn deliveries under fresh numbers. */
  ghost predicate Adds(t: Tables, u: Tables, added: map<nat, Delivery>) {
    && u.deliveries == t.deliveries + added && added.Keys !! t.deliveries.Keys
    && u.attempts == t.attempts && u.endpoints == t.endpoints
    && t.nextDelivery <= u.nextDelivery
    && (forall d :: d in added ==> t.nextDelivery <= d < u.nextDelivery && Newborn(added[d]))
    && t.events.Keys <= u.events.Keys && (forall e :: e in t.events ==> u.events[e] == t.events[e])
  }

  lemma AddsKeepsRows(t: Tables, u: Tables, s: Settings, added: map<nat, Delivery>)
    requires RowsOk(t, s) && RefsOk(t) && Adds(t, u, added) && ValidSettings(s)
    ensures RowsOk(u, s)
  {
    forall d | d in u.deliveries
      ensures DeliveryOk(u, s, d)
    {
      if d in added {
        assert forall i: nat :: AttemptKey(d, i) !in t.attempts;
      } else {
        assert DeliveryOk(t, s, d);
        SameLogKeepsDelivery(t, u, s, d);
      }
    }
  }

  lemma AddsKeepsSlots(t: Tables, u: Tables, added: map<nat, Delivery>)
    requires SlotsOk(t) && Adds(t, u, added)
    ensures SlotsOk(u)
  {
    forall e | e in t.endpoints
      ensures InFlight(u, e) == InFlight(t, e)
    {
    }
    SameInFlightKeepsSlots(t, u);
  }

  lemma AddsKeepsRefs(t: Tables, u: Tables, added: map<nat, Delivery>)
    requires RefsOk(t) && Adds(t, u, added)
    requires forall d :: d in added ==> RefsRowOk(u, d)
    ensures RefsOk(u)
  {
    forall d | d in u.deliveries
      ensures RefsRowOk(u, d)
    {
      if d !in added {
        assert RefsRowOk(t, d);
      }
    }
  }

  lemma AddsKeepsKeys(t: Tables, u: Tables, added: map<nat, Delivery>)
    requires DeliveryKeysOk(t) && Adds(t, u, added)
    requires forall a, b :: a in added && b in u.deliveries && Twins(added[a], u.deliveries[b]) ==> a == b
    ensures DeliveryKeysOk(u)
  {
    forall a, b | a in u.deliveries && b in u.deliveries && Twins(u.deliveries[a], u.deliveries[b])
      ensures a == b
    {
      if a !in added && b !in added {
        assert Twins(t.deliveries[a], t.deliveries[b]);
      } else if a !in added {
        assert Twins(added[b], u.deliveries[a]);
      }
    }
  }

  lemma InBlock(n: nat)
    ensures forall e: nat :: e < n <==> e in Block(0, n)
  {
    assert forall e: nat :: e < n ==> Within(0, e, n);
  }

  lemma {:induction false} BlockSize(lo: nat, n: nat)
    ensures |Block(lo, n)| == n
  {
    if n == 0 {
      assert Block(lo, 0) == {};
    } else {
      BlockSize(lo, n - 1);
      assert Within(lo, lo + n - 1, n);
      forall i | i in Block(lo, n)
        ensures i in Block(lo, n - 1) + {lo + n - 1}
      {
        assert i != lo + n - 1 ==> Within(lo, i, n - 1);
      }
      forall i | i in Block(lo, n - 1)
        ensures i in Block(lo, n)
      {
        assert Within(lo, i, n);
      }
      assert Block(lo, n) == Block(lo, n - 1) + {lo + n - 1};
    }
  }

  /** The next numbers are unused. */
  lemma NumbersInUse(t: Tables)
    requires RefsOk(t) && SideOk(t)
    ensures forall d :: d in t.deliveries ==> d < t.nextDelivery && t.deliveries[d].event < t.nextEvent
  {
    forall d | d in t.deliveries
      ensures d < t.nextDelivery && t.deliveries[d].event < t.nextEvent
    {
      assert RefsRowOk(t, d);
    }
  }

  lemma NewOriginalsAreUnique(t: Tables, req: Request, eps: seq<nat>, now: Time, a: nat, b: nat)
    requires RefsOk(t) && SideOk(t)
    requires forall i, j :: 0 <= i < j < |eps| ==> eps[i] != eps[j]
    requires a in FreshRows(t.nextDelivery, req.key.org, t.nextEvent, eps, now)
    requires b in InsertEvent(t, req, eps, now).deliveries
    requires
      Twins(FreshRows(t.nextDelivery, req.key.org, t.nextEvent, eps, now)[a],
        InsertEvent(t, req, eps, now).deliveries[b])
    ensures a == b
  {
    NumbersInUse(t);
  }

  lemma InsertEventKeepsKeys(t: Tables, req: Request, eps: seq<nat>, now: Time)
    requires EventKeysOk(t) && SideOk(t) && !Ingested(t, req.key)
    ensures EventKeysOk(InsertEvent(t, req, eps, now))
  {
    var u := InsertEvent(t, req, eps, now);
    forall e | e in t.events
      ensures t.events[e].key != req.key
    {
      assert EventFor(t, req.key, e) <==> t.events[e].key == req.key;
    }
    forall a, b | a in u.events && b in u.events && SameKey(u.events[a], u.events[b])
      ensures a == b
    {
      if a != t.nextEvent && b != t.nextEvent {
        assert SameKey(t.events[a], t.events[b]);
      }
    }
  }

  lemma InsertEventKeeps(t: Tables, s: Settings, req: Request, eps: seq<nat>, now: Time)
    requires ValidSettings(s) && TablesOk(t, s) && !Ingested(t, req.key)
    requires Lists(eps, Matching(t, req.key.org, req.eventType))
    ensures TablesOk(InsertEvent(t, req, eps, now), s)
  {
    var u := InsertEvent(t, req, eps, now);
    var added := FreshRows(t.nextDelivery, req.key.org, t.nextEvent, eps, now);
    NumbersInUse(t);
    assert Adds(t, u, added);
    AddsKeepsRows(t, u, s, added);
    AddsKeepsSlots(t, u, added);
    forall d | d in added
      ensures RefsRowOk(u, d)
    {
      assert eps[d - t.nextDelivery] in eps;
    }
    forall i | 0 <= i < |u.outbox|
      ensures u.outbox[i].delivery < u.nextDelivery
    {
      if i >= |t.outbox| {
        assert u.outbox[i] == Command(t.nextDelivery + (i - |t.outbox|), now);
      }
    }
    AddsKeepsRefs(t, u, added);
    forall a, b | a in added && b in u.deliveries && Twins(added[a], u.deliveries[b])
      ensures a == b
    {
      NewOriginalsAreUnique(t, req, eps, now, a, b);
    }
    AddsKeepsKeys(t, u, added);
    InsertEventKeepsKeys(t, req, eps, now);
  }

  lemma NewReplayIsUnique(t: Tables, org: OrgId, source: nat, key: string, copy: Delivery, b: nat)
    requires !Replayed(t, org, source, key) && b in t.deliveries
    requires copy.org == org && copy.replayOf == Some(source) && copy.replayKey == Some(key)
    ensures !Twins(copy, t.deliveries[b])
  {
    assert !ReplayFor(t, org, source, key, b);
  }

  lemma InsertReplayKeeps(t: Tables, s: Settings, org: OrgId, source: nat, key: string, now: Time)
    requires ValidSettings(s) && TablesOk(t, s)
    requires Replayable(t, org, source) && !Replayed(t, org, source, key)
    ensures TablesOk(InsertReplay(t, source, key, now), s)
  {
    var r := t.deliveries[source];
    var copy := NewDelivery(r.org, r.event, r.endpoint, now).(replayOf := Some(source), replayKey := Some(key));
    var added := map[t.nextDelivery := copy];
    var u := t.(deliveries := t.deliveries[t.nextDelivery := copy], nextDelivery := t.nextDelivery + 1,
                outbox := t.outbox + [Command(t.nextDelivery, now)]);
    assert RefsRowOk(t, source);
    NumbersInUse(t);
    assert Adds(t, u, added);
    AddsKeepsRows(t, u, s, added);
    AddsKeepsSlots(t, u, added);
    assert RefsRowOk(u, t.nextDelivery);
    AddsKeepsRefs(t, u, added);
    forall b | b in t.deliveries
      ensures !Twins(copy, t.deliveries[b])
    {
      NewReplayIsUnique(t, org, source, key, copy, b);
    }
    AddsKeepsKeys(t, u, added);
    AuditKeeps(u, s, now);
  }

  // --- Retention ------------------------------------------------------------------------------------

  lemma ClearPreviewsKeeps(t: Tables, s: Settings, keys: set<AttemptKey>)
    requires TablesOk(t, s)
    ensures TablesOk(ClearPreviews(t, keys), s)
  {
    var u := ClearPreviews(t, keys);
    forall d | d in u.deliveries
      ensures DeliveryOk(u, s, d)
    {
      assert DeliveryOk(t, s, d);
      assert Last(t, d).Some? <==> Last(u, d).Some?;
    }
    SameRowsKeepRefs(t, u);
    SameRowsKeepKeys(t, u);
    forall e | e in t.endpoints
      ensures InFlight(u, e) == InFlight(t, e)
    {
    }
    SameInFlightKeepsSlots(t, u);
  }

  lemma DropDeliveriesKeeps(t: Tables, s: Settings, ids: set<nat>)
    requires TablesOk(t, s) && !Orphans(t, ids)
    requires forall d :: d in ids && d in t.deliveries ==> Terminal(t.deliveries[d].status)
    ensures TablesOk(DropDeliveries(t, ids), s)
  {
    var u := DropDeliveries(t, ids);
    forall d | d in u.deliveries
      ensures DeliveryOk(u, s, d) && RefsRowOk(u, d)
    {
      assert DeliveryOk(t, s, d) && RefsRowOk(t, d);
      SameLogKeepsDelivery(t, u, s, d);
    }
    forall a, b | a in u.deliveries && b in u.deliveries && Twins(u.deliveries[a], u.deliveries[b])
      ensures a == b
    {
      assert Twins(t.deliveries[a], t.deliveries[b]);
    }
    forall e | e in t.endpoints
      ensures InFlight(u, e) == InFlight(t, e)
    {
    }
    SameInFlightKeepsSlots(t, u);
  }

  lemma DropEventsKeeps(t: Tables, s: Settings, ids: set<nat>)
    requires TablesOk(t, s)
    requires forall e :: e in ids ==> !HasDelivery(t, e)
    ensures TablesOk(DropEvents(t, ids), s)
  {
    var u := DropEvents(t, ids);
    forall d | d in u.deliveries
      ensures DeliveryOk(u, s, d) && RefsRowOk(u, d)
    {
      assert DeliveryOk(t, s, d) && RefsRowOk(t, d);
      SameLogKeepsDelivery(t, u, s, d);
    }
    SameRowsKeepDeliveryKeys(t, u);
    forall a, b | a in u.events && b in u.events && SameKey(u.events[a], u.events[b])
      ensures a == b
    {
      assert SameKey(t.events[a], t.events[b]);
    }
    forall e | e in t.endpoints
      ensures InFlight(u, e) == InFlight(t, e)
    {
    }
    SameInFlightKeepsSlots(t, u);
  }

  lemma CleanupKeeps(t: Tables, s: Settings, now: Time, w: Sweep)
    requires TablesOk(t, s) && Sweepable(t, s, now, w)
    ensures TablesOk(Cleanup(t, w), s)
  {
    if !Orphans(t, w.deliveries) {
      var t1 := ClearPreviews(t, w.previews);
      ClearPreviewsKeeps(t, s, w.previews);
      var t2 := DropAudits(t1, w.audits);
      SameCoreKeeps(t1, t2, s);
      var t3 := DropDeliveries(t2, w.deliveries);
      DropDeliveriesKeeps(t2, s, w.deliveries);
      forall e | e in w.events
        ensures !HasDelivery(t3, e)
      {
        assert e in ExpiredEvents(DropDeliveries(t, w.deliveries), now - s.metadataDays * DAY);
      }
      DropEventsKeeps(t3, s, w.events);
    }
  }
}
