/** Why a delivery changes its status: in every run each change has one of the causes below, and no other. */
module Causes {
  import opened Wrappers
  import opened Tables
  import opened Transactions
  import opened TableInvariant
  import opened Evolution
  import opened Pipeline
  import opened PipelineInvariant
  import opened NoLostWork
  import opened Outcomes

  // --- The causes -------------------------------------------------------------------------------------------

  /** A worker claims the delivery for a message that names it. */
  predicate Claims(x: System, a: Action, d: nat) {
    && a.Work? && a.work.RunClaim? && WorkerEnabled(x, a.w, a.work)
    && x.broker[x.workers[a.w].tag].delivery == d
  }

  /** The claim is decided by the endpoint, the calls in flight and the secret. */
  predicate ClaimDecides(x: System, s: Settings, a: Action, d: nat, after: Delivery)
    requires Claims(x, a, d) && d in x.t.deliveries && x.t.deliveries[d].endpoint in x.t.endpoints
  {
    var ep := x.t.endpoints[x.t.deliveries[d].endpoint];
    var inFlight := |InFlight(x.t, x.t.deliveries[d].endpoint)|;
    var accepts := ep.status == Active && ep.enabled;
    && (after.status == Cancelled <==> !accepts)
    && (after.status == RetryScheduled <==> accepts && inFlight == 3)
    && (after.status == Delivering <==> accepts && inFlight < 3 && a.work.secretOk)
    && (after.status == DeadLettered <==> accepts && inFlight < 3 && !a.work.secretOk)
    && (after.status == RetryScheduled ==> after.nextAttemptAt == Some(x.now + MICROSECONDS))
    && (after.status == Delivering ==> after.leaseUntil == Some(x.now + s.leaseSeconds * MICROSECONDS))
  }

  /** A worker brings the answer to the open attempt of the delivery. */
  predicate Answers(x: System, a: Action, d: nat) {
    && a.Work? && a.work.RunFinalize? && WorkerEnabled(x, a.w, a.work)
    && x.workers[a.w].claim.attempt.delivery == d && OpenClaim(x.t, x.workers[a.w].claim)
  }

  /** The scheduler finds the retry due. */
  predicate Schedules(x: System, a: Action, d: nat) {
    && a.Maintain? && a.maintain.RunSchedule? && d in a.maintain.batch
    && d in x.t.deliveries && x.t.deliveries[d].nextAttemptAt.Some? && x.t.deliveries[d].nextAttemptAt.value <= x.now
  }

  /** The reconciler finds the lease run out. */
  predicate TakesBack(x: System, a: Action, d: nat) {
    && a.Maintain? && a.maintain.RunReconcile? && d in a.maintain.batch
    && d in x.t.deliveries && x.t.deliveries[d].leaseUntil.Some? && x.t.deliveries[d].leaseUntil.value < x.now
  }

  /** The endpoint is deleted, or disabled while it is active and keeps its URL. */
  predicate SwitchesOff(x: System, a: Action, e: nat) {
    && a.Maintain? && e in x.t.endpoints && x.t.endpoints[e].deletedAt.None?
    && var ep := x.t.endpoints[e];
    || (a.maintain.RunDelete? && a.maintain.e == e && a.maintain.org == ep.org)
    || (a.maintain.RunUpdate? && a.maintain.e == e && a.maintain.org == ep.org && ep.status == Active
        && a.maintain.changes.enabled == Some(false)
        && (a.maintain.changes.url.None? || a.maintain.changes.url.value == ep.url))
  }

  /** One of them, for this change of the row from `p` to `q`. */
  predicate HasCause(x: System, s: Settings, a: Action, d: nat, q: Delivery)
    requires d in x.t.deliveries && x.t.deliveries[d].endpoint in x.t.endpoints
  {
    var p := x.t.deliveries[d];
    || (p.status == Queued && Claims(x, a, d) && ClaimDecides(x, s, a, d, q))
    || (p.status == Delivering && Answers(x, a, d)
        && Settles(s.maxAttempts, p.attemptCount, x.workers[a.w].response, q.status))
    || (p.status == Delivering && TakesBack(x, a, d)
        && q.status == if p.attemptCount < s.maxAttempts then RetryScheduled else DeadLettered)
    || (p.status == RetryScheduled && q.status == Queued && Schedules(x, a, d))
    || ((p.status == Queued || p.status == RetryScheduled) && q.status == Cancelled && SwitchesOff(x, a, p.endpoint))
  }

  // --- Step by step -----------------------------------------------------------------------------------------

  lemma ClaimCause(x: System, s: Settings, a: Action, d: nat)
    requires ValidSettings(s) && Sound(x, s) && Claims(x, a, d) && IsQueued(x.t, d)
    ensures x.t.deliveries[d].endpoint in x.t.endpoints
    ensures ClaimDecides(x, s, a, d, Claim(x.t, s, x.now, d, a.work.secretOk).deliveries[d])
  {
    assert RefsRowOk(x.t, d);
    assert SlotOk(x.t, x.t.deliveries[d].endpoint);
    ClaimOutcome(x.t, s, x.now, d, a.work.secretOk);
  }

  lemma WorkCause(x: System, s: Settings, w: nat, b: WorkerAction, d: nat)
    requires ValidSettings(s) && Sound(x, s) && WorkerEnabled(x, w, b)
    requires d in x.t.deliveries && d in DoWork(x, s, w, b).t.deliveries
    requires DoWork(x, s, w, b).t.deliveries[d].status != x.t.deliveries[d].status
    ensures x.t.deliveries[d].endpoint in x.t.endpoints
    ensures HasCause(x, s, Work(w, b), d, DoWork(x, s, w, b).t.deliveries[d])
  {
    assert RefsRowOk(x.t, d);
    match b
    case RunClaim(secretOk) =>
      var named := x.broker[x.workers[w].tag].delivery;
      if IsQueued(x.t, named) {
        ClaimShape(x.t, s, x.now, named, secretOk);
        if named == d {
          ClaimCause(x, s, Work(w, b), d);
        }
      }
    case RunFinalize(sample) =>
      var c := x.workers[w].claim;
      if OpenClaim(x.t, c) {
        FinalizeOutcome(x.t, s, x.now, c, x.workers[w].response, sample);
        if c.attempt.delivery == d {
          OpenAttemptIsDelivering(x.t, s, c.attempt);
        }
      }
    case _ =>
  }

  lemma ScheduleCause(x: System, s: Settings, b: TableAction, d: nat)
    requires TableEnabled(x.t, s, x.now, b) && b.RunSchedule? && d in x.t.deliveries
    requires DoTables(x.t, s, x.now, b).deliveries[d].status != x.t.deliveries[d].status
    ensures x.t.deliveries[d].status == RetryScheduled && Schedules(x, Maintain(b), d)
    ensures DoTables(x.t, s, x.now, b).deliveries[d].status == Queued
  {
    ScheduleOutcome(x.t, x.now, s.retryBatch, b.locked, b.batch);
  }

  lemma ReconcileCause(x: System, s: Settings, b: TableAction, d: nat)
    requires TableEnabled(x.t, s, x.now, b) && b.RunReconcile? && d in x.t.deliveries
    requires DoTables(x.t, s, x.now, b).deliveries[d].status != x.t.deliveries[d].status
    ensures x.t.deliveries[d].status == Delivering && TakesBack(x, Maintain(b), d)
    ensures DoTables(x.t, s, x.now, b).deliveries[d].status
         == if x.t.deliveries[d].attemptCount < s.maxAttempts then RetryScheduled else DeadLettered
  {
    ReconcileOutcome(x.t, s, x.now, s.retryBatch, b.locked, b.batch);
  }

  lemma UpdateCause(x: System, s: Settings, b: TableAction, d: nat)
    requires TablesOk(x.t, s) && b.RunUpdate? && d in x.t.deliveries && d in DoTables(x.t, s, x.now, b).deliveries
    requires DoTables(x.t, s, x.now, b).deliveries[d].status != x.t.deliveries[d].status
    ensures x.t.deliveries[d].status == Queued || x.t.deliveries[d].status == RetryScheduled
    ensures DoTables(x.t, s, x.now, b).deliveries[d].status == Cancelled
    ensures SwitchesOff(x, Maintain(b), x.t.deliveries[d].endpoint)
  {
    assert DeliveryOk(x.t, s, d);
  }

  lemma ManageCause(x: System, s: Settings, b: TableAction, d: nat)
    requires Sound(x, s) && TableEnabled(x.t, s, x.now, b) && !b.RunSchedule? && !b.RunReconcile?
    requires d in x.t.deliveries && d in DoTables(x.t, s, x.now, b).deliveries
    requires DoTables(x.t, s, x.now, b).deliveries[d].status != x.t.deliveries[d].status
    ensures x.t.deliveries[d].status == Queued || x.t.deliveries[d].status == RetryScheduled
    ensures DoTables(x.t, s, x.now, b).deliveries[d].status == Cancelled
    ensures SwitchesOff(x, Maintain(b), x.t.deliveries[d].endpoint)
  {
    if b.RunUpdate? {
      UpdateCause(x, s, b, d);
    } else {
      assert DeliveryOk(x.t, s, d) && RefsRowOk(x.t, d);
    }
  }

  lemma MaintainCause(x: System, s: Settings, b: TableAction, d: nat)
    requires Sound(x, s) && TableEnabled(x.t, s, x.now, b)
    requires d in x.t.deliveries && d in DoTables(x.t, s, x.now, b).deliveries
    requires DoTables(x.t, s, x.now, b).deliveries[d].status != x.t.deliveries[d].status
    ensures x.t.deliveries[d].endpoint in x.t.endpoints
    ensures HasCause(x, s, Maintain(b), d, DoTables(x.t, s, x.now, b).deliveries[d])
  {
    assert RefsRowOk(x.t, d);
    if b.RunSchedule? {
      ScheduleCause(x, s, b, d);
    } else if b.RunReconcile? {
      ReconcileCause(x, s, b, d);
    } else {
      ManageCause(x, s, b, d);
    }
  }

  lemma ServeKeepsRow(x: System, s: Settings, c: nat, b: ClientAction, d: nat)
    requires Sound(x, s) && ClientEnabled(x, c, b) && d in x.t.deliveries
    ensures d in DoServe(x, s, c, b).t.deliveries && DoServe(x, s, c, b).t.deliveries[d] == x.t.deliveries[d]
  {
    ServeEffect(x, s, c, b);
    NumbersInUse(x.t);
  }

  lemma DispatchKeepsRow(x: System, s: Settings, p: nat, b: DispatcherAction, d: nat)
    requires DispatcherEnabled(x, s, p, b) && d in x.t.deliveries
    ensures DoDispatch(x, s, p, b).t.deliveries == x.t.deliveries
  {
  }

  lemma StepHasCause(x: System, s: Settings, a: Action, d: nat)
    requires ValidSettings(s) && Sound(x, s) && Enabled(x, s, a)
    requires d in x.t.deliveries && d in Next(x, s, a).t.deliveries
    requires Next(x, s, a).t.deliveries[d].status != x.t.deliveries[d].status
    ensures x.t.deliveries[d].endpoint in x.t.endpoints
    ensures HasCause(x, s, a, d, Next(x, s, a).t.deliveries[d])
  {
    match a
    case Work(w, b) => WorkCause(x, s, w, b, d);
    case Dispatch(p, b) => DispatchKeepsRow(x, s, p, b, d);
    case Serve(c, b) => ServeKeepsRow(x, s, c, b, d);
    case Maintain(b) => MaintainCause(x, s, b, d);
    case ReadClock(_) =>
  }

  /** No status ever changes without its cause. */
  lemma EveryChangeHasItsCause(xs: seq<System>, acts: seq<Action>, s: Settings, i: nat, d: nat)
    requires Run(xs, acts, s) && i < |acts|
    requires d in xs[i].t.deliveries && d in xs[i + 1].t.deliveries
    requires xs[i + 1].t.deliveries[d].status != xs[i].t.deliveries[d].status
    ensures xs[i].t.deliveries[d].endpoint in xs[i].t.endpoints
    ensures HasCause(xs[i], s, acts[i], d, xs[i + 1].t.deliveries[d])
  {
    RunSound(xs, acts, s, i);
    StepHasCause(xs[i], s, acts[i], d);
  }

  // --- And every cause has its effect -----------------------------------------------------------------------

  lemma AnswerHasEffect(x: System, s: Settings, a: Action, d: nat)
    requires ValidSettings(s) && Sound(x, s) && Enabled(x, s, a) && Answers(x, a, d)
    ensures x.t.deliveries[d].status == Delivering
    ensures d in Next(x, s, a).t.deliveries
    ensures Settles(s.maxAttempts, x.t.deliveries[d].attemptCount, x.workers[a.w].response,
                    Next(x, s, a).t.deliveries[d].status)
  {
    var c := x.workers[a.w].claim;
    OpenAttemptIsDelivering(x.t, s, c.attempt);
    FinalizeOutcome(x.t, s, x.now, c, x.workers[a.w].response, a.work.sample);
  }

  lemma ClaimHasEffect(x: System, s: Settings, a: Action, d: nat)
    requires ValidSettings(s) && Sound(x, s) && Enabled(x, s, a) && Claims(x, a, d) && IsQueued(x.t, d)
    ensures x.t.deliveries[d].endpoint in x.t.endpoints && d in Next(x, s, a).t.deliveries
    ensures ClaimDecides(x, s, a, d, Next(x, s, a).t.deliveries[d])
    ensures Next(x, s, a).t.deliveries[d].status != Queued
  {
    ClaimCause(x, s, a, d);
    ClaimShape(x.t, s, x.now, d, a.work.secretOk);
  }

  /** Switching an endpoint off cancels its waiting deliveries, and leaves its calls in flight alone. */
  lemma SwitchingOffHasEffect(x: System, s: Settings, a: TableAction, d: nat)
    requires TablesOk(x.t, s) && d in x.t.deliveries
    requires SwitchesOff(x, Maintain(a), x.t.deliveries[d].endpoint)
    ensures d in DoTables(x.t, s, x.now, a).deliveries
    ensures DoTables(x.t, s, x.now, a).deliveries[d].status
         == if x.t.deliveries[d].status == Queued || x.t.deliveries[d].status == RetryScheduled then Cancelled
            else x.t.deliveries[d].status
  {
    assert RefsRowOk(x.t, d) && DeliveryOk(x.t, s, d);
  }

  lemma ScheduleHasEffect(x: System, s: Settings, b: TableAction, d: nat)
    requires TableEnabled(x.t, s, x.now, b) && d in x.t.deliveries
    ensures Schedules(x, Maintain(b), d) ==>
              && d in DoTables(x.t, s, x.now, b).deliveries
              && DoTables(x.t, s, x.now, b).deliveries[d].status == Queued
    ensures TakesBack(x, Maintain(b), d) ==>
              && d in DoTables(x.t, s, x.now, b).deliveries
              && DoTables(x.t, s, x.now, b).deliveries[d].status
                 == if x.t.deliveries[d].attemptCount < s.maxAttempts then RetryScheduled else DeadLettered
  {
    if b.RunSchedule? {
      ScheduleOutcome(x.t, x.now, s.retryBatch, b.locked, b.batch);
    } else if b.RunReconcile? {
      ReconcileOutcome(x.t, s, x.now, s.retryBatch, b.locked, b.batch);
    }
  }

  /** Each of these causes has its effect in every state of every run. */
  lemma EveryCauseHasItsEffect(xs: seq<System>, acts: seq<Action>, s: Settings, i: nat, d: nat)
    requires Run(xs, acts, s) && i < |acts| && d in xs[i].t.deliveries
    ensures xs[i].t.deliveries[d].endpoint in xs[i].t.endpoints
    ensures Answers(xs[i], acts[i], d) ==>
              && d in xs[i + 1].t.deliveries
              && Settles(s.maxAttempts, xs[i].t.deliveries[d].attemptCount, xs[i].workers[acts[i].w].response,
                         xs[i + 1].t.deliveries[d].status)
    ensures Claims(xs[i], acts[i], d) && xs[i].t.deliveries[d].status == Queued ==>
              d in xs[i + 1].t.deliveries && ClaimDecides(xs[i], s, acts[i], d, xs[i + 1].t.deliveries[d])
    ensures SwitchesOff(xs[i], acts[i], xs[i].t.deliveries[d].endpoint) ==>
              && d in xs[i + 1].t.deliveries
              && (xs[i].t.deliveries[d].status in {Queued, RetryScheduled} ==>
                    xs[i + 1].t.deliveries[d].status == Cancelled)
    ensures Schedules(xs[i], acts[i], d) ==>
              d in xs[i + 1].t.deliveries && xs[i + 1].t.deliveries[d].status == Queued
    ensures TakesBack(xs[i], acts[i], d) ==>
              && d in xs[i + 1].t.deliveries
              && xs[i + 1].t.deliveries[d].status
                 == if xs[i].t.deliveries[d].attemptCount < s.maxAttempts then RetryScheduled else DeadLettered
  {
    RunSound(xs, acts, s, i);
    assert Enabled(xs[i], s, acts[i]) && xs[i + 1] == Next(xs[i], s, acts[i]);
    assert RefsRowOk(xs[i].t, d);
    if Answers(xs[i], acts[i], d) {
      AnswerHasEffect(xs[i], s, acts[i], d);
    }
    if Claims(xs[i], acts[i], d) && xs[i].t.deliveries[d].status == Queued {
      ClaimHasEffect(xs[i], s, acts[i], d);
    }
    if SwitchesOff(xs[i], acts[i], xs[i].t.deliveries[d].endpoint) {
      SwitchingOffHasEffect(xs[i], s, acts[i].maintain, d);
    }
    if acts[i].Maintain? {
      ScheduleHasEffect(xs[i], s, acts[i].maintain, d);
    }
  }
}
