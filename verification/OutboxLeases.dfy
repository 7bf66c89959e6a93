/**
 Leases on outbox rows: a claimed row is offered to no other dispatcher until it is finished or its lease
 has run out, and commands can be published from the moment they are written.
 */
module OutboxLeases {
  import opened Wrappers
  import opened Tables
  import opened Transactions
  import opened TableInvariant
  import opened Pipeline
  import opened PipelineInvariant
  import opened NoLostWork
  import opened Outcomes

  // --- One transaction --------------------------------------------------------------------------------------

  /** Only rows that are unpublished, due and not under a running lease are claimed. */
  lemma ClaimedRowsWereFree(t: Tables, now: Time, limit: nat, locked: set<nat>, rows: seq<nat>, r: nat)
    requires OutboxBatch(t, now, limit, locked, rows) && r in rows
    ensures r < |t.outbox| && r !in locked && !t.outbox[r].published && t.outbox[r].availableAt <= now
    ensures t.outbox[r].leaseUntil.None? || t.outbox[r].leaseUntil.value < now
  {
  }

  /** An unlocked free row is passed over only for older ones, when the batch is full. */
  lemma FreeRowIsClaimed(t: Tables, now: Time, limit: nat, locked: set<nat>, rows: seq<nat>, r: nat)
    requires OutboxBatch(t, now, limit, locked, rows) && r < |t.outbox| && r !in locked
    requires !t.outbox[r].published && t.outbox[r].availableAt <= now
    requires t.outbox[r].leaseUntil.None? || t.outbox[r].leaseUntil.value < now
    ensures r in rows || (|rows| == limit && forall q :: q in rows ==>
                            q < |t.outbox| && (t.outbox[q].availableAt < t.outbox[r].availableAt
                              || (t.outbox[q].availableAt == t.outbox[r].availableAt && q < r)))
  {
  }

  /** The claimed rows are leased and counted, the others are left alone. */
  lemma ClaimOutcome(t: Tables, rows: seq<nat>, until: Time, r: nat)
    requires r < |t.outbox|
    ensures
      var u := ClaimOutbox(t, rows, until);
      && u == t.(outbox := u.outbox) && |u.outbox| == |t.outbox|
      && u.outbox[r] == if r in rows then t.outbox[r].(
                            leaseUntil := Some(until), publishAttempts := t.outbox[r].publishAttempts + 1)
                        else t.outbox[r]
  {
  }

  /** finish_outbox touches one row, and only while it is unpublished. */
  lemma FinishOutcome(t: Tables, r: nat, published: bool)
    requires r < |t.outbox|
    ensures FinishOutbox(t, r, published)
         == if t.outbox[r].published then t
            else t.(outbox := t.outbox[r := t.outbox[r].(
                      published := published, leaseUntil := None, failed := !published)])
  {
  }

  /** No query at a time within the lease returns a claimed row, whatever else is claimed with it. */
  lemma LeaseKeepsOff(
    t: Tables, s: Settings, now: Time, locked: set<nat>, rows: seq<nat>, r: nat,
    at: Time, limit: nat, others: set<nat>, more: seq<nat>)
    requires OutboxBatch(t, now, s.outboxBatch, locked, rows) && r in rows
    requires now <= at <= now + s.outboxLeaseSeconds * MICROSECONDS
    requires OutboxBatch(ClaimOutbox(t, rows, now + s.outboxLeaseSeconds * MICROSECONDS), at, limit, others, more)
    ensures r !in more
    ensures t.outbox[r].publishAttempts + 1
         == ClaimOutbox(t, rows, now + s.outboxLeaseSeconds * MICROSECONDS).outbox[r].publishAttempts
  {
    ClaimedRowsWereFree(t, now, s.outboxBatch, locked, rows, r);
    ClaimOutcome(t, rows, now + s.outboxLeaseSeconds * MICROSECONDS, r);
    if r in more {
      ClaimedRowsWereFree(
        ClaimOutbox(t, rows, now + s.outboxLeaseSeconds * MICROSECONDS), at, limit, others, more, r);
    }
  }

  /** A row that was not published is free again at once; a published one never is. */
  lemma FinishedRowIsFree(t: Tables, now: Time, locked: set<nat>, limit: nat, rows: seq<nat>, r: nat, until: Time)
    requires OutboxBatch(t, now, limit, locked, rows) && r in rows
    ensures
      var u := FinishOutbox(ClaimOutbox(t, rows, until), r, false).outbox[r];
      !u.published && u.availableAt <= now && u.leaseUntil.None?
    ensures
      forall at, size, others, more ::
        OutboxBatch(FinishOutbox(ClaimOutbox(t, rows, until), r, true), at, size, others, more) ==> r !in more
  {
    ClaimedRowsWereFree(t, now, limit, locked, rows, r);
    ClaimOutcome(t, rows, until, r);
    FinishOutcome(ClaimOutbox(t, rows, until), r, false);
    FinishOutcome(ClaimOutbox(t, rows, until), r, true);
    forall at, size, others, more |
      OutboxBatch(FinishOutbox(ClaimOutbox(t, rows, until), r, true), at, size, others, more)
      ensures r !in more
    {
      if r in more {
        ClaimedRowsWereFree(FinishOutbox(ClaimOutbox(t, rows, until), r, true), at, size, others, more, r);
      }
    }
  }

  // --- Runs -------------------------------------------------------------------------------------------------

  /** Some dispatcher ends its handling of row `r` in this step. */
  predicate Finishes(x: System, a: Action, r: nat) {
    && a.Dispatch? && (a.dispatch.FinishRow? || a.dispatch.AbortRow?)
    && a.p in x.dispatchers && x.dispatchers[a.p].next < |x.dispatchers[a.p].rows|
    && x.dispatchers[a.p].rows[x.dispatchers[a.p].next] == r
  }

  predicate ClaimsRow(a: Action, r: nat) {
    a.Dispatch? && a.dispatch.ClaimRows? && r in a.dispatch.rows
  }

  /** Row `r` is leased at least until then. */
  predicate LeasedUntil(t: Tables, r: nat, until: Time) {
    r < |t.outbox| && t.outbox[r].leaseUntil.Some? && t.outbox[r].leaseUntil.value >= until
  }

  lemma DispatchKeepsLease(x: System, s: Settings, p: nat, b: DispatcherAction, r: nat, until: Time)
    requires DispatcherEnabled(x, s, p, b) && LeasedUntil(x.t, r, until) && !Finishes(x, Dispatch(p, b), r)
    requires until <= x.now + s.outboxLeaseSeconds * SECOND || !ClaimsRow(Dispatch(p, b), r)
    ensures LeasedUntil(DoDispatch(x, s, p, b).t, r, until)
  {
    match b
    case ClaimRows(rows, _) => ClaimOutcome(x.t, rows, x.now + s.outboxLeaseSeconds * SECOND, r);
    case _ =>
  }

  lemma ServeKeepsRows(x: System, s: Settings, c: nat, b: ClientAction, r: nat)
    requires ClientEnabled(x, c, b) && r < |x.t.outbox|
    ensures r < |DoServe(x, s, c, b).t.outbox| && DoServe(x, s, c, b).t.outbox[r] == x.t.outbox[r]
  {
    ServeEffect(x, s, c, b);
  }

  lemma MaintainKeepsRows(t: Tables, s: Settings, now: Time, b: TableAction, r: nat)
    requires TableEnabled(t, s, now, b) && r < |t.outbox|
    ensures r < |DoTables(t, s, now, b).outbox| && DoTables(t, s, now, b).outbox[r] == t.outbox[r]
  {
  }

  lemma WorkKeepsRows(x: System, s: Settings, w: nat, b: WorkerAction)
    requires ValidSettings(s) && WorkerEnabled(x, w, b)
    ensures DoWork(x, s, w, b).t.outbox == x.t.outbox
  {
    if b.RunClaim? {
      var d := x.broker[x.workers[w].tag].delivery;
      if d in x.t.deliveries {
        ClaimShape(x.t, s, x.now, d, b.secretOk);
      }
    }
  }

  /** A later claim of the row starts after the lease, so it only extends it. */
  lemma StepKeepsLease(x: System, s: Settings, a: Action, r: nat, until: Time)
    requires ValidSettings(s) && Enabled(x, s, a) && LeasedUntil(x.t, r, until) && !Finishes(x, a, r)
    ensures LeasedUntil(Next(x, s, a).t, r, until)
    ensures ClaimsRow(a, r) ==> x.now > until
  {
    match a
    case Work(w, b) => WorkKeepsRows(x, s, w, b);
    case Dispatch(p, b) =>
      if b.ClaimRows? && r in b.rows {
        ClaimedRowsWereFree(x.t, x.now, s.outboxBatch, b.locked, b.rows, r);
      }
      DispatchKeepsLease(x, s, p, b, r, until);
    case Serve(c, b) => ServeKeepsRows(x, s, c, b, r);
    case Maintain(b) => MaintainKeepsRows(x.t, s, x.now, b, r);
    case ReadClock(_) =>
  }

  lemma ClaimLeases(x: System, s: Settings, p: nat, b: DispatcherAction, r: nat)
    requires DispatcherEnabled(x, s, p, b) && ClaimsRow(Dispatch(p, b), r)
    ensures LeasedUntil(DoDispatch(x, s, p, b).t, r, x.now + s.outboxLeaseSeconds * MICROSECONDS)
  {
    ClaimedRowsWereFree(x.t, x.now, s.outboxBatch, b.locked, b.rows, r);
    ClaimOutcome(x.t, b.rows, x.now + s.outboxLeaseSeconds * MICROSECONDS, r);
  }

  lemma LeaseStarts(x: System, y: System, s: Settings, a: Action, r: nat, until: Time)
    requires ValidSettings(s) && Enabled(x, s, a) && y == Next(x, s, a) && ClaimsRow(a, r)
    requires until == x.now + s.outboxLeaseSeconds * MICROSECONDS
    ensures LeasedUntil(y.t, r, until)
  {
    ClaimLeases(x, s, a.p, a.dispatch, r);
  }

  lemma {:induction false} LeaseLasts(
    xs: seq<System>, acts: seq<Action>, s: Settings, i: nat, j: nat, r: nat, until: Time)
    requires Run(xs, acts, s) && i <= j < |xs| && LeasedUntil(xs[i].t, r, until)
    requires forall k {:trigger acts[k]} :: i <= k < j ==> !Finishes(xs[k], acts[k], r)
    ensures LeasedUntil(xs[j].t, r, until)
    decreases j
  {
    if i < j {
      LeaseLasts(xs, acts, s, i, j - 1, r, until);
      StepKeepsLease(xs[j - 1], s, acts[j - 1], r, until);
    }
  }

  /**
   Once a dispatcher has claimed a row, no claim returns the row again that reads a time within the lease,
   until somebody finishes the row.
   */
  lemma LeaseIsExclusive(xs: seq<System>, acts: seq<Action>, s: Settings, i: nat, j: nat, r: nat)
    requires Run(xs, acts, s) && i < j < |acts| && ClaimsRow(acts[i], r) && ClaimsRow(acts[j], r)
    requires forall k {:trigger acts[k]} :: i < k < j ==> !Finishes(xs[k], acts[k], r)
    ensures xs[j].now > xs[i].now + s.outboxLeaseSeconds * MICROSECONDS
  {
    var until := xs[i].now + s.outboxLeaseSeconds * MICROSECONDS;
    assert Enabled(xs[i], s, acts[i]) && xs[i + 1] == Next(xs[i], s, acts[i]);
    LeaseStarts(xs[i], xs[i + 1], s, acts[i], r, until);
    LeaseLasts(xs, acts, s, i + 1, j, r, until);
    StepKeepsLease(xs[j], s, acts[j], r, until);
  }

  // --- Commands ---------------------------------------------------------------------------------------------

  lemma ServeAddsFreeRows(x: System, s: Settings, c: nat, b: ClientAction, r: nat)
    requires ClientEnabled(x, c, b) && |x.t.outbox| <= r < |DoServe(x, s, c, b).t.outbox|
    ensures
      var row := DoServe(x, s, c, b).t.outbox[r];
      row == OutboxRow(row.delivery, false, x.now, None, 0, false)
  {
    ServeEffect(x, s, c, b);
    if InsertsEvent(x, c, b) {
      InsertEventOutbox(x.t, x.clients[c].req, b.eps, x.now, r - |x.t.outbox|);
    }
  }

  lemma MaintainAddsFreeRows(t: Tables, s: Settings, now: Time, b: TableAction, r: nat)
    requires TableEnabled(t, s, now, b) && |t.outbox| <= r < |DoTables(t, s, now, b).outbox|
    ensures
      var row := DoTables(t, s, now, b).outbox[r];
      row == OutboxRow(row.delivery, false, now, None, 0, false)
  {
  }

  /** Whoever writes a command, ingest, replay or the scheduler, it can be claimed at once. */
  lemma NewCommandsAreFree(xs: seq<System>, acts: seq<Action>, s: Settings, i: nat, r: nat)
    requires Run(xs, acts, s) && i < |acts| && |xs[i].t.outbox| <= r < |xs[i + 1].t.outbox|
    ensures
      var row := xs[i + 1].t.outbox[r];
      !row.published && row.availableAt == xs[i].now && row.leaseUntil.None? && row.publishAttempts == 0
  {
    var x, a := xs[i], acts[i];
    assert Enabled(x, s, a) && xs[i + 1] == Next(x, s, a);
    match a
    case Work(w, b) => WorkKeepsRows(x, s, w, b);
    case Dispatch(p, b) => DispatchAddsNoRow(x, s, p, b);
    case Serve(c, b) => ServeAddsFreeRows(x, s, c, b, r);
    case Maintain(b) => MaintainAddsFreeRows(x.t, s, x.now, b, r);
    case ReadClock(_) =>
  }

  lemma DispatchAddsNoRow(x: System, s: Settings, p: nat, b: DispatcherAction)
    requires DispatcherEnabled(x, s, p, b)
    ensures |DoDispatch(x, s, p, b).t.outbox| == |x.t.outbox|
  {
  }
}
