/** Safety over whole executions: what, once committed, no later step can change. */
module History {
  import opened Wrappers
  import opened Tables
  import opened Transactions
  import opened TableInvariant
  import opened Evolution
  import opened Pipeline
  import opened PipelineInvariant
  import opened NoLostWork

  lemma EvolvesReflexive(t: Tables)
    requires SideOk(t)
    ensures Evolves(t, t)
  {
    SameTablesStep(t);
    StepEvolves(t, t);
  }

  lemma {:induction false} RunEvolves(xs: seq<System>, acts: seq<Action>, s: Settings, i: nat, j: nat)
    requires Run(xs, acts, s) && i <= j < |xs|
    ensures Evolves(xs[i].t, xs[j].t)
    decreases j
  {
    RunSound(xs, acts, s, i);
    if i == j {
      EvolvesReflexive(xs[i].t);
    } else {
      RunEvolves(xs, acts, s, i, j - 1);
      RunSound(xs, acts, s, j - 1);
      NextSound(xs[j - 1], s, acts[j - 1]);
      StepEvolves(xs[j - 1].t, xs[j].t);
      EvolvesTransitive(xs[i].t, xs[j - 1].t, xs[j].t);
    }
  }

  // --- Fencing --------------------------------------------------------------------------------------

  /** An attempt's outcome is written once: after it is closed only its stored preview can be dropped. */
  lemma OutcomeWrittenOnce(xs: seq<System>, acts: seq<Action>, s: Settings, i: nat, j: nat, k: AttemptKey)
    requires Run(xs, acts, s) && i <= j < |xs|
    requires k in xs[i].t.attempts && xs[i].t.attempts[k].outcome != Started
    requires k.delivery in xs[j].t.deliveries
    ensures k in xs[j].t.attempts
    ensures xs[j].t.attempts[k].(preview := false) == xs[i].t.attempts[k].(preview := false)
  {
    RunEvolves(xs, acts, s, i, j);
  }

  /** Finalize of an attempt that has been closed, or whose delivery is gone, changes nothing. */
  lemma ClosedAttemptFences(t: Tables, s: Settings, now: Time, c: Claimed, resp: Response, sample: real)
    requires ValidSettings(s)
    ensures !Finalizes(t, c) ==> Finalize(t, s, now, c, resp, sample) == t
  {
  }

  /**
   Fencing: once the attempt a worker claimed is no longer open (its lease was reconciled, another
   process finalized it, or retention removed it), that worker's finalize has no effect at any later
   time, whatever happened to the delivery in between.
   */
  lemma LateFinalizeChangesNothing(
    xs: seq<System>, acts: seq<Action>, s: Settings, h: nat, i: nat, j: nat, w: nat, sample: real)
    requires Run(xs, acts, s) && h <= i <= j < |xs|
    requires WorkerEnabled(xs[j], w, RunFinalize(sample))
    requires xs[j].workers[w].claim.attempt in xs[h].t.attempts
    requires
      var k := xs[j].workers[w].claim.attempt;
      k in xs[i].t.attempts ==> xs[i].t.attempts[k].outcome != Started
    ensures Next(xs[j], s, Work(w, RunFinalize(sample))).t == xs[j].t
  {
    var k := xs[j].workers[w].claim.attempt;
    RunSound(xs, acts, s, h);
    RunEvolves(xs, acts, s, h, i);
    RunEvolves(xs, acts, s, i, j);
    NumbersInUse(xs[h].t);
    if k.delivery in xs[j].t.deliveries {
      assert k.delivery in xs[i].t.deliveries;
      OutcomeWrittenOnce(xs, acts, s, i, j, k);
    }
    ClosedAttemptFences(xs[j].t, s, xs[j].now, xs[j].workers[w].claim, xs[j].workers[w].response, sample);
  }

  /** A terminal delivery is never changed again; it can only be removed by retention, for good. */
  lemma TerminalForever(xs: seq<System>, acts: seq<Action>, s: Settings, i: nat, j: nat, d: nat)
    requires Run(xs, acts, s) && i <= j < |xs|
    requires d in xs[i].t.deliveries && Terminal(xs[i].t.deliveries[d].status)
    ensures d in xs[j].t.deliveries ==> xs[j].t.deliveries[d] == xs[i].t.deliveries[d]
  {
    RunEvolves(xs, acts, s, i, j);
  }

  /** Only terminal deliveries are ever removed, and their numbers are not used again. */
  lemma RemovedForever(xs: seq<System>, acts: seq<Action>, s: Settings, h: nat, i: nat, j: nat, d: nat)
    requires Run(xs, acts, s) && h <= i <= j < |xs|
    requires d in xs[h].t.deliveries && d !in xs[i].t.deliveries
    ensures d !in xs[j].t.deliveries
  {
    RunSound(xs, acts, s, h);
    NumbersInUse(xs[h].t);
    RunEvolves(xs, acts, s, h, i);
    RunEvolves(xs, acts, s, i, j);
  }

  /** A published outbox row stays published and unchanged in content, and was really enqueued. */
  lemma PublishedForever(xs: seq<System>, acts: seq<Action>, s: Settings, i: nat, j: nat, r: nat)
    requires Run(xs, acts, s) && i <= j < |xs|
    requires r < |xs[i].t.outbox| && xs[i].t.outbox[r].published
    ensures r < |xs[j].t.outbox| && xs[j].t.outbox[r].published
    ensures xs[j].t.outbox[r].delivery == xs[i].t.outbox[r].delivery
    ensures exists m :: 0 <= m < |xs[i].broker| && xs[i].broker[m].row == r
  {
    RunEvolves(xs, acts, s, i, j);
    RunSound(xs, acts, s, i);
    assert Enqueued(xs[i], r);
  }

  // --- Slots ----------------------------------------------------------------------------------------

  /** Slot conservation in every reachable state. */
  lemma SlotsConserved(xs: seq<System>, acts: seq<Action>, s: Settings, i: nat, e: nat)
    requires Run(xs, acts, s) && i < |xs| && e in xs[i].t.endpoints
    ensures xs[i].t.endpoints[e].activeCount == |InFlight(xs[i].t, e)| <= ENDPOINT_SLOTS
  {
    RunSound(xs, acts, s, i);
    assert SlotOk(xs[i].t, e);
  }

  /** The max(0, n - 1) of finalize never has to clamp. */
  lemma FinalizeNeverClamps(t: Tables, s: Settings, c: Claimed)
    requires TablesOk(t, s) && ClaimMatches(t, c) && Finalizes(t, c)
    ensures t.endpoints[c.endpoint].activeCount >= 1
  {
    OpenAttemptIsDelivering(t, s, c.attempt);
    assert SlotOk(t, c.endpoint);
    assert c.attempt.delivery in InFlight(t, c.endpoint);
  }

  /** Nor does the reconciler's, however many leases of one endpoint a batch holds. */
  lemma ReconcileNeverClamps(t: Tables, s: Settings, now: Time, batch: seq<nat>, e: nat)
    requires TablesOk(t, s) && e in t.endpoints
    requires forall d :: d in batch ==> d in StaleRows(t, now)
    ensures t.endpoints[e].activeCount >= |InEndpoint(t, batch, e)|
    ensures Reconcile(t, s, now, batch).endpoints[e].activeCount
         == t.endpoints[e].activeCount - |InEndpoint(t, batch, e)|
  {
    assert SlotOk(t, e);
    ReconcileInFlight(t, s, now, batch, e);
  }

  // --- The attempt log --------------------------------------------------------------------------------

  ghost predicate IsOpen(t: Tables, d: nat, n: nat) {
    AttemptKey(d, n) in t.attempts && t.attempts[AttemptKey(d, n)].outcome == Started
  }

  /** The status of a delivery can be read off its attempts; at most the newest one is open. */
  lemma LogDeterminesStatus(xs: seq<System>, acts: seq<Action>, s: Settings, i: nat, d: nat)
    requires Run(xs, acts, s) && i < |xs| && d in xs[i].t.deliveries
    ensures
      var t := xs[i].t;
      var r := t.deliveries[d];
      var last := Last(t, d);
      && r.attemptCount <= s.maxAttempts
      && (forall n: nat :: AttemptKey(d, n) in t.attempts <==> 1 <= n <= r.attemptCount)
      && (forall n: nat :: 1 <= n < r.attemptCount ==> WorthRetry(t.attempts[AttemptKey(d, n)]))
      && (forall n: nat :: IsOpen(t, d, n) <==> r.status == Delivering && n == r.attemptCount)
      && (r.status == Succeeded <==> last.Some? && last.value.outcome == Success)
      && (r.status == DeadLettered <==> last.Some? && Final(last.value))
      && (r.status in {Queued, RetryScheduled, Cancelled} <==> last.None? || WorthRetry(last.value))
  {
    RunSound(xs, acts, s, i);
    assert DeliveryOk(xs[i].t, s, d);
  }

  /** No unfinished delivery is invisible to the step that has to move it on. */
  lemma NothingStuck(xs: seq<System>, acts: seq<Action>, s: Settings, i: nat, d: nat)
    requires Run(xs, acts, s) && i < |xs| && d in xs[i].t.deliveries
    ensures
      var r := xs[i].t.deliveries[d];
      && (r.leaseUntil.Some? <==> r.status == Delivering)
      && (r.nextAttemptAt.Some? <==> r.status == RetryScheduled)
      && r.status != Pending
      && (r.status == Delivering ==> forall now :: now > r.leaseUntil.value ==> d in StaleRows(xs[i].t, now))
      && (r.status == RetryScheduled ==> forall now :: now >= r.nextAttemptAt.value ==> d in DueRows(xs[i].t, now))
      && (r.status == Queued ==> Covered(xs[i], d))
  {
    RunSound(xs, acts, s, i);
    assert DeliveryOk(xs[i].t, s, d);
  }

  // --- Disabled and deleted endpoints -----------------------------------------------------------------

  ghost predicate SwitchesOn(a: Action, e: nat) {
    a.Maintain? && a.maintain.RunUpdate? && a.maintain.e == e && a.maintain.changes.enabled == Some(true)
  }

  predicate Off(t: Tables, e: nat) {
    e in t.endpoints && !t.endpoints[e].enabled
  }

  lemma MaintainKeepsOff(t: Tables, s: Settings, now: Time, a: TableAction, e: nat)
    requires TableEnabled(t, s, now, a) && Off(t, e)
    requires !(a.RunUpdate? && a.e == e && a.changes.enabled == Some(true))
    ensures Off(DoTables(t, s, now, a), e)
  {
  }

  lemma ServeKeepsEndpoints(x: System, s: Settings, c: nat, a: ClientAction)
    requires ClientEnabled(x, c, a)
    ensures DoServe(x, s, c, a).t.endpoints == x.t.endpoints
  {
    ServeEffect(x, s, c, a);
  }

  lemma WorkKeepsOff(x: System, s: Settings, w: nat, a: WorkerAction, e: nat)
    requires ValidSettings(s) && WorkerEnabled(x, w, a) && Off(x.t, e)
    ensures Off(DoWork(x, s, w, a).t, e)
  {
    if a.RunClaim? {
      var d := x.broker[x.workers[w].tag].delivery;
      if d in x.t.deliveries {
        ClaimSlot(x.t, s, x.now, d, a.secretOk);
      }
    }
  }

  lemma DispatchKeepsEndpoints(x: System, s: Settings, p: nat, a: DispatcherAction)
    requires DispatcherEnabled(x, s, p, a)
    ensures DoDispatch(x, s, p, a).t.endpoints == x.t.endpoints
  {
  }

  /** Only an update that sets `enabled` switches an endpoint on; in particular verify does not. */
  lemma NextKeepsOff(x: System, s: Settings, a: Action, e: nat)
    requires ValidSettings(s) && Enabled(x, s, a) && Off(x.t, e) && !SwitchesOn(a, e)
    ensures Off(Next(x, s, a).t, e)
  {
    match a
    case Work(w, b) => WorkKeepsOff(x, s, w, b, e);
    case Dispatch(p, b) => DispatchKeepsEndpoints(x, s, p, b);
    case Serve(c, b) => ServeKeepsEndpoints(x, s, c, b);
    case Maintain(b) => MaintainKeepsOff(x.t, s, x.now, b, e);
    case ReadClock(_) =>
  }

  /** Attempts of a switched-off endpoint's deliveries are not created by a step. */
  lemma StepAttemptIsOld(t: Tables, u: Tables, e: nat, k: AttemptKey)
    requires Step(t, u) && RowsKnown(t) && Off(t, e)
    requires k in u.attempts && k.delivery in u.deliveries && u.deliveries[k.delivery].endpoint == e
    ensures k in t.attempts && k.delivery in t.deliveries && t.deliveries[k.delivery].endpoint == e
  {
    if k.delivery in t.deliveries {
      assert RowStep(t.deliveries[k.delivery], u.deliveries[k.delivery]);
    }
    assert k !in t.attempts ==> OpensFor(t, k);
  }

  /**
   From a state in which endpoint `e` is disabled until an update enables it, no attempt starts for it:
   every attempt that any of its deliveries has was already there.
   */
  lemma {:induction false} NoAttemptWhileDisabled(
    xs: seq<System>, acts: seq<Action>, s: Settings, e: nat, i: nat, j: nat, k: AttemptKey)
    requires Run(xs, acts, s) && i <= j < |xs|
    requires Off(xs[i].t, e) && forall n :: i <= n < j ==> !SwitchesOn(acts[n], e)
    requires k in xs[j].t.attempts && k.delivery in xs[j].t.deliveries
    requires xs[j].t.deliveries[k.delivery].endpoint == e
    ensures k in xs[i].t.attempts && Off(xs[j].t, e)
    decreases j
  {
    if i < j {
      RunSound(xs, acts, s, j - 1);
      NextSound(xs[j - 1], s, acts[j - 1]);
      StaysOff(xs, acts, s, e, i, j - 1);
      NextKeepsOff(xs[j - 1], s, acts[j - 1], e);
      StepAttemptIsOld(xs[j - 1].t, xs[j].t, e, k);
      NoAttemptWhileDisabled(xs, acts, s, e, i, j - 1, k);
    }
  }

  lemma {:induction false} StaysOff(xs: seq<System>, acts: seq<Action>, s: Settings, e: nat, i: nat, j: nat)
    requires Run(xs, acts, s) && i <= j < |xs|
    requires Off(xs[i].t, e) && forall n :: i <= n < j ==> !SwitchesOn(acts[n], e)
    ensures Off(xs[j].t, e)
    decreases j
  {
    if i < j {
      StaysOff(xs, acts, s, e, i, j - 1);
      NextKeepsOff(xs[j - 1], s, acts[j - 1], e);
    }
  }

  /** After a delete no attempt ever starts for the endpoint, whatever verify and update do later. */
  lemma {:induction false} NoAttemptAfterDelete(
    xs: seq<System>, acts: seq<Action>, s: Settings, e: nat, i: nat, j: nat, k: AttemptKey)
    requires Run(xs, acts, s) && i <= j < |xs|
    requires e in xs[i].t.endpoints && xs[i].t.endpoints[e].deletedAt.Some?
    requires k in xs[j].t.attempts && k.delivery in xs[j].t.deliveries
    requires xs[j].t.deliveries[k.delivery].endpoint == e
    ensures k in xs[i].t.attempts
    decreases j
  {
    if i < j {
      RunSound(xs, acts, s, j - 1);
      NextSound(xs[j - 1], s, acts[j - 1]);
      RunEvolves(xs, acts, s, i, j - 1);
      assert Off(xs[j - 1].t, e);
      StepAttemptIsOld(xs[j - 1].t, xs[j].t, e, k);
      NoAttemptAfterDelete(xs, acts, s, e, i, j - 1, k);
    }
  }

  /** A disable or delete cancels exactly the endpoint's waiting deliveries; calls in flight go on. */
  lemma CancelsExactlyWaiting(t: Tables, s: Settings, org: OrgId, e: nat, d: nat)
    requires TablesOk(t, s) && e in t.endpoints && t.endpoints[e].org == org && d in t.deliveries
    ensures
      var r := t.deliveries[d];
      var q := CancelWaiting(t, org, e).deliveries[d];
      if r.endpoint == e && r.status in {Queued, RetryScheduled}
      then q.status == Cancelled && q.attemptCount == r.attemptCount
      else q == r
  {
    assert RefsRowOk(t, d) && DeliveryOk(t, s, d);
  }

  // --- What a claim decides ---------------------------------------------------------------------------

  /**
   The verdict of a claim on a queued delivery follows from the endpoint and the calls really in flight:
   the counter never misleads it, and the missing-event branch is never taken.
   */
  lemma ClaimVerdict(
    xs: seq<System>, acts: seq<Action>, s: Settings, i: nat, now: Time, d: nat, secretOk: bool)
    requires Run(xs, acts, s) && i < |xs| && IsQueued(xs[i].t, d)
    ensures
      var t := xs[i].t;
      var e := t.deliveries[d].endpoint;
      var q := Claim(t, s, now, d, secretOk).deliveries[d].status;
      && (q == Cancelled <==> !Accepting(t, e))
      && (q == RetryScheduled <==> Accepting(t, e) && |InFlight(t, e)| == ENDPOINT_SLOTS)
      && (q == Delivering <==> Accepting(t, e) && |InFlight(t, e)| < ENDPOINT_SLOTS && secretOk)
      && (q == DeadLettered <==> Accepting(t, e) && |InFlight(t, e)| < ENDPOINT_SLOTS && !secretOk)
  {
    var t := xs[i].t;
    RunSound(xs, acts, s, i);
    assert RefsRowOk(t, d);
    assert SlotOk(t, t.deliveries[d].endpoint);
  }
}
