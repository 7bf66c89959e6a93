/**
 From every reachable state every unfinished delivery can still be finished: there is a continuation,
 using only the scheduler, a new dispatcher and a new worker, after which it is terminal. No crash, lost
 confirm, duplicate or full endpoint can make this impossible.
 */
module Recovery {
  import opened Wrappers
  import opened Tables
  import opened Transactions
  import opened TableInvariant
  import opened Pipeline
  import opened PipelineInvariant
  import opened NoLostWork
  import opened History
  import opened Traces
  import UseCases

  lemma {:induction false} FreshNumber(used: set<nat>) returns (n: nat)
    ensures forall u :: u in used ==> u < n
    decreases |used|
  {
    if used == {} {
      n := 0;
    } else {
      var u :| u in used;
      var m := FreshNumber(used - {u});
      n := if m <= u then u + 1 else m;
      assert forall v :: v in used && v != u ==> v in used - {u};
    }
  }

  // --- Broker and outbox ------------------------------------------------------------------------------------

  function ClaimableFrom(row: OutboxRow, now: Time): Time {
    var due := if row.availableAt > now then row.availableAt else now;
    if row.leaseUntil.Some? && row.leaseUntil.value >= due then row.leaseUntil.value + 1 else due
  }

  function OtherRows(t: Tables, r: nat): set<nat> {
    Block(0, |t.outbox|) - {r}
  }

  /** With every other row locked, a batch of this one row is a possible answer of the query. */
  lemma SingleBatch(t: Tables, now: Time, limit: nat, r: nat)
    requires limit >= 1 && r < |t.outbox| && Claimable(t.outbox[r], now)
    ensures OutboxBatch(t, now, limit, OtherRows(t, r), [r])
  {
    forall q: nat | q < |t.outbox| && q != r
      ensures q in OtherRows(t, r)
    {
      assert Within(0, q, |t.outbox|);
    }
  }

  function Leasing(x: System, s: Settings, p: nat, r: nat): System {
    x.(t := ClaimOutbox(x.t, [r], x.now + s.outboxLeaseSeconds * SECOND),
       dispatchers := x.dispatchers[p := Publishing([r], 0)])
  }

  lemma LeaseRow(x: System, s: Settings, p: nat, r: nat)
    requires s.outboxBatch >= 1 && p !in x.dispatchers
    requires r < |x.t.outbox| && Claimable(x.t.outbox[r], x.now)
    ensures DispatcherEnabled(x, s, p, ClaimRows([r], OtherRows(x.t, r)))
    ensures DoDispatch(x, s, p, ClaimRows([r], OtherRows(x.t, r))) == Leasing(x, s, p, r)
  {
    SingleBatch(x.t, x.now, s.outboxBatch, r);
  }

  function Enqueueing(x: System, p: nat, r: nat): System
    requires r < |x.t.outbox|
  {
    x.(dispatchers := x.dispatchers[p := Finishing([r], 0, true)],
       broker := x.broker + [Message(r, x.t.outbox[r].delivery, false, false)])
  }

  lemma EnqueueRow(x: System, s: Settings, p: nat, r: nat)
    requires r < |x.t.outbox| && p in x.dispatchers && x.dispatchers[p] == Publishing([r], 0)
    ensures DispatcherEnabled(x, s, p, Publish(true, true))
    ensures DoDispatch(x, s, p, Publish(true, true)) == Enqueueing(x, p, r)
  {
  }

  /** Only outbox rows differ. */
  predicate OnlyOutbox(t: Tables, u: Tables) {
    u == t.(outbox := u.outbox)
  }

  /** A new dispatcher leases row `r` and publishes it. */
  lemma PublishRow(x: System, s: Settings, r: nat) returns (acts: seq<Action>, y: System)
    requires ValidSettings(s) && s.outboxBatch >= 1
    requires r < |x.t.outbox| && Claimable(x.t.outbox[r], x.now)
    ensures OnlyOutbox(x.t, y.t)
    ensures y.broker == x.broker + [Message(r, x.t.outbox[r].delivery, false, false)]
    ensures Leads(x, acts, y, s)
  {
    var p := FreshNumber(x.dispatchers.Keys);
    var lease, publish := Dispatch(p, ClaimRows([r], OtherRows(x.t, r))), Dispatch(p, Publish(true, true));
    LeaseRow(x, s, p, r);
    var leased := Leasing(x, s, p, r);
    EnqueueRow(leased, s, p, r);
    y := Enqueueing(leased, p, r);
    LeadsTwo(x, lease, publish, y, s);
    acts := [lease, publish];
  }

  /** Message `m` awaits the claim of `d`. */
  predicate Awaits(x: System, m: nat, d: nat) {
    m < |x.broker| && !x.broker[m].removed && x.broker[m].delivery == d && IsQueued(x.t, d)
  }

  lemma PublishPending(x: System, s: Settings, d: nat, r: nat) returns (acts: seq<Action>, y: System)
    requires ValidSettings(s) && s.outboxBatch >= 1 && IsQueued(x.t, d)
    requires r < |x.t.outbox| && x.t.outbox[r].delivery == d && !x.t.outbox[r].published
    ensures Leads(x, acts, y, s) && OnlyOutbox(x.t, y.t) && Awaits(y, |x.broker|, d)
  {
    var at := ClaimableFrom(x.t.outbox[r], x.now);
    var publish;
    publish, y := PublishRow(x.(now := at), s, r);
    LeadsOne(x, ReadClock(at), publish, y, s);
    acts := [ReadClock(at)] + publish;
  }

  /** The broker holds, or can be made to hold, a message for every queued delivery. */
  lemma MessageFor(x: System, s: Settings, d: nat) returns (acts: seq<Action>, y: System, m: nat)
    requires ValidSettings(s) && Sound(x, s) && s.outboxBatch >= 1 && IsQueued(x.t, d)
    ensures Leads(x, acts, y, s) && OnlyOutbox(x.t, y.t) && Awaits(y, m, d)
  {
    var r :| Covers(x, d, r);
    if Live(x, r) {
      m :| 0 <= m < |x.broker| && x.broker[m].row == r && !x.broker[m].claimed && !x.broker[m].removed;
      acts, y := [], x;
    } else {
      acts, y := PublishPending(x, s, d, r);
      m := |x.broker|;
    }
  }

  // --- Worker -----------------------------------------------------------------------------------------------

  const OK: Response := Response(Some(200), None, false, None)

  /** A new worker takes message `m` and runs claim on it. */
  lemma ClaimMessage(x: System, s: Settings, m: nat, d: nat) returns (w: nat, acts: seq<Action>, y: System)
    requires ValidSettings(s) && Awaits(x, m, d)
    ensures Leads(x, acts, y, s) && y.t == Claim(x.t, s, x.now, d, true)
    ensures w in y.workers && y.workers[w] == AfterClaim(x, m, true)
  {
    w := FreshNumber(x.workers.Keys);
    var taken := x.(workers := x.workers[w := Holding(m)]);
    assert taken == Next(x, s, Work(w, Take(m)));
    y := DoClaim(taken, s, w, true);
    acts := [Work(w, Take(m)), Work(w, RunClaim(true))];
    LeadsTwo(x, Work(w, Take(m)), Work(w, RunClaim(true)), y, s);
  }

  /** The call of worker `w` returns 200, and its finalize runs. */
  lemma DeliverCall(x: System, s: Settings, w: nat) returns (acts: seq<Action>, y: System)
    requires ValidSettings(s) && w in x.workers && x.workers[w].Calling?
    ensures Leads(x, acts, y, s) && y.t == Finalize(x.t, s, x.now, x.workers[w].claim, OK, 0.0)
  {
    var answered := x.(workers := x.workers[w := Answered(x.workers[w].tag, x.workers[w].claim, OK)]);
    assert answered == Next(x, s, Work(w, Answer(OK)));
    y := DoFinalize(answered, s, w, 0.0);
    acts := [Work(w, Answer(OK)), Work(w, RunFinalize(0.0))];
    LeadsTwo(x, Work(w, Answer(OK)), Work(w, RunFinalize(0.0)), y, s);
  }

  /** The delivery exists and is terminal, and a success if `delivered`. */
  predicate Done(t: Tables, d: nat, delivered: bool) {
    && d in t.deliveries && Terminal(t.deliveries[d].status)
    && (delivered ==> t.deliveries[d].status == Succeeded)
  }

  /** With a free slot, a claimed message is delivered; if the endpoint does not accept, it is cancelled. */
  lemma FinishMessage(x: System, s: Settings, m: nat, d: nat) returns (acts: seq<Action>, y: System)
    requires ValidSettings(s) && Sound(x, s) && Awaits(x, m, d)
    requires
      var e := x.t.deliveries[d].endpoint;
      Accepting(x.t, e) ==> x.t.endpoints[e].activeCount < ENDPOINT_SLOTS
    ensures Leads(x, acts, y, s) && Done(y.t, d, Accepting(x.t, x.t.deliveries[d].endpoint))
  {
    var w, claim, claimed := ClaimMessage(x, s, m, d);
    assert RefsRowOk(x.t, d);
    if Accepting(x.t, x.t.deliveries[d].endpoint) {
      assert StartsAttempt(x.t, d, true);
      var call;
      call, y := DeliverCall(claimed, s, w);
      LeadsConcat(x, claim, claimed, call, y, s);
      ClaimDelivers(x.t, s, d, x.now, claimed.now);
      acts := claim + call;
    } else {
      acts, y := claim, claimed;
    }
  }

  lemma ClaimDelivers(t: Tables, s: Settings, d: nat, now: Time, at: Time)
    requires ValidSettings(s) && TablesOk(t, s) && StartsAttempt(t, d, true)
    ensures
      var c := Claimed(AttemptKey(d, t.deliveries[d].attemptCount + 1), t.deliveries[d].endpoint);
      Done(Finalize(Claim(t, s, now, d, true), s, at, c, OK, 0.0), d, true)
  {
    UseCases.ClaimThenFinalize(t, s, d, now, at, OK, 0.0);
  }

  // --- Scheduler --------------------------------------------------------------------------------------------

  lemma SingleRowBatch(t: Tables, wanted: set<nat>, limit: nat, d: nat)
    requires limit >= 1 && d in wanted
    ensures Batch(t, wanted, limit, wanted - {d}, [d])
  {
  }

  function Later(a: Time, b: Time): Time {
    if a >= b then a else b
  }

  lemma ScheduleOne(x: System, s: Settings, d: nat) returns (acts: seq<Action>, y: System)
    requires ValidSettings(s) && Sound(x, s) && s.retryBatch >= 1
    requires d in x.t.deliveries && x.t.deliveries[d].status == RetryScheduled
    ensures Leads(x, acts, y, s)
    ensures y.t.endpoints == x.t.endpoints
    ensures IsQueued(y.t, d) && y.t.deliveries[d].endpoint == x.t.deliveries[d].endpoint
  {
    assert DeliveryOk(x.t, s, d);
    var later := x.(now := Later(x.now, x.t.deliveries[d].nextAttemptAt.value));
    SingleRowBatch(x.t, DueRows(x.t, later.now), s.retryBatch, d);
    var run := Maintain(RunSchedule([d], DueRows(x.t, later.now) - {d}));
    y := Next(later, s, run);
    LeadsTwo(x, ReadClock(later.now), run, y, s);
    acts := [ReadClock(later.now), run];
  }

  lemma ReconcileOne(x: System, s: Settings, d: nat) returns (acts: seq<Action>, y: System, at: Time)
    requires ValidSettings(s) && Sound(x, s) && s.retryBatch >= 1
    requires d in x.t.deliveries && x.t.deliveries[d].status == Delivering
    ensures Leads(x, acts, y, s) && y.t == Reconcile(x.t, s, at, [d]) && d in StaleRows(x.t, at)
  {
    assert DeliveryOk(x.t, s, d);
    at := Later(x.now, x.t.deliveries[d].leaseUntil.value + 1);
    SingleRowBatch(x.t, StaleRows(x.t, at), s.retryBatch, d);
    var run := Maintain(RunReconcile([d], StaleRows(x.t, at) - {d}));
    y := Next(x.(now := at), s, run);
    LeadsTwo(x, ReadClock(at), run, y, s);
    acts := [ReadClock(at), run];
  }

  /** Reconciling one call of an endpoint leaves it accepting what it accepted, with one slot more. */
  lemma ReconcileFreesSlot(t: Tables, s: Settings, at: Time, f: nat)
    requires TablesOk(t, s) && f in StaleRows(t, at)
    ensures
      var e, u := t.deliveries[f].endpoint, Reconcile(t, s, at, [f]);
      && e in t.endpoints && e in u.endpoints && u.endpoints[e].activeCount == t.endpoints[e].activeCount - 1
      && (Accepting(u, e) <==> Accepting(t, e))
      && u.deliveries == t.deliveries[f := Reconciled(t.deliveries[f], s, at)]
  {
    var e := t.deliveries[f].endpoint;
    assert RefsRowOk(t, f);
    ReconcileNeverClamps(t, s, at, [f], e);
    assert InEndpoint(t, [f], e) == {f};
  }

  // --- Any unfinished delivery ------------------------------------------------------------------------------

  lemma FinishReady(x: System, s: Settings, d: nat) returns (acts: seq<Action>, y: System)
    requires ValidSettings(s) && Sound(x, s) && s.outboxBatch >= 1 && IsQueued(x.t, d)
    requires
      var e := x.t.deliveries[d].endpoint;
      Accepting(x.t, e) ==> x.t.endpoints[e].activeCount < ENDPOINT_SLOTS
    ensures Leads(x, acts, y, s) && Done(y.t, d, Accepting(x.t, x.t.deliveries[d].endpoint))
  {
    var first, x1, m := MessageFor(x, s, d);
    LeadsSound(x, first, x1, s);
    var second;
    second, y := FinishMessage(x1, s, m, d);
    LeadsConcat(x, first, x1, second, y, s);
    acts := first + second;
  }

  /** If the endpoint is full, one of its calls is taken to be dead first. */
  lemma FinishQueued(x: System, s: Settings, d: nat) returns (acts: seq<Action>, y: System)
    requires ValidSettings(s) && Sound(x, s) && s.outboxBatch >= 1 && s.retryBatch >= 1 && IsQueued(x.t, d)
    ensures Leads(x, acts, y, s) && Done(y.t, d, Accepting(x.t, x.t.deliveries[d].endpoint))
  {
    var e := x.t.deliveries[d].endpoint;
    if Accepting(x.t, e) && x.t.endpoints[e].activeCount >= ENDPOINT_SLOTS {
      assert SlotOk(x.t, e);
      var f :| f in InFlight(x.t, e);
      var first, x1, at := ReconcileOne(x, s, f);
      ReconcileFreesSlot(x.t, s, at, f);
      LeadsSound(x, first, x1, s);
      var second;
      second, y := FinishReady(x1, s, d);
      LeadsConcat(x, first, x1, second, y, s);
      acts := first + second;
    } else {
      acts, y := FinishReady(x, s, d);
    }
  }

  lemma FinishScheduled(x: System, s: Settings, d: nat) returns (acts: seq<Action>, y: System)
    requires ValidSettings(s) && Sound(x, s) && s.outboxBatch >= 1 && s.retryBatch >= 1
    requires d in x.t.deliveries && x.t.deliveries[d].status == RetryScheduled
    ensures Leads(x, acts, y, s) && Done(y.t, d, Accepting(x.t, x.t.deliveries[d].endpoint))
  {
    var first, x1 := ScheduleOne(x, s, d);
    LeadsSound(x, first, x1, s);
    var second;
    second, y := FinishQueued(x1, s, d);
    LeadsConcat(x, first, x1, second, y, s);
    acts := first + second;
  }

  lemma FinishDelivering(x: System, s: Settings, d: nat) returns (acts: seq<Action>, y: System)
    requires ValidSettings(s) && Sound(x, s) && s.outboxBatch >= 1 && s.retryBatch >= 1
    requires d in x.t.deliveries && x.t.deliveries[d].status == Delivering
    ensures Leads(x, acts, y, s)
    ensures Done(y.t, d, Accepting(x.t, x.t.deliveries[d].endpoint) && x.t.deliveries[d].attemptCount < s.maxAttempts)
  {
    var first, x1, at := ReconcileOne(x, s, d);
    ReconcileFreesSlot(x.t, s, at, d);
    if x.t.deliveries[d].attemptCount < s.maxAttempts {
      LeadsSound(x, first, x1, s);
      var second;
      second, y := FinishScheduled(x1, s, d);
      LeadsConcat(x, first, x1, second, y, s);
      acts := first + second;
    } else {
      acts, y := first, x1;
    }
  }

  /**
   Every unfinished delivery of every reachable state can be finished, and delivered if its endpoint
   accepts calls and it is not on its last attempt.
   */
  lemma UnfinishedCanBeFinished(xs: seq<System>, acts: seq<Action>, s: Settings, i: nat, d: nat)
    returns (more: seq<Action>, y: System)
    requires Run(xs, acts, s) && i < |xs| && s.outboxBatch >= 1 && s.retryBatch >= 1
    requires d in xs[i].t.deliveries && !Terminal(xs[i].t.deliveries[d].status)
    ensures Leads(xs[i], more, y, s)
    ensures
      var r := xs[i].t.deliveries[d];
      Done(y.t, d, Accepting(xs[i].t, r.endpoint) && (r.status == Delivering ==> r.attemptCount < s.maxAttempts))
  {
    RunSound(xs, acts, s, i);
    assert DeliveryOk(xs[i].t, s, d);
    match xs[i].t.deliveries[d].status
    case Queued => more, y := FinishQueued(xs[i], s, d);
    case RetryScheduled => more, y := FinishScheduled(xs[i], s, d);
    case Delivering => more, y := FinishDelivering(xs[i], s, d);
  }
}
