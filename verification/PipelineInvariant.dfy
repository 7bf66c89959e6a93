/** The invariant of the whole service and the proof that every step keeps it. */
module PipelineInvariant {
  import opened Wrappers
  import opened Tables
  import opened Transactions
  import opened TableInvariant
  import opened Evolution
  import opened Pipeline

  // --- Tables ---------------------------------------------------------------------------------------

  lemma MaintainKeepsTables(t: Tables, s: Settings, now: Time, a: TableAction)
    requires TablesOk(t, s) && TableEnabled(t, s, now, a)
    ensures TablesOk(DoTables(t, s, now, a), s)
  {
    match a
    case RunSchedule(batch, _) => ScheduleKeeps(t, s, now, batch);
    case RunReconcile(batch, _) => ReconcileKeeps(t, s, now, batch);
    case RunCleanup(w) => CleanupKeeps(t, s, now, w);
    case RunCreate(e, org, url, types) => CreateEndpointKeeps(t, s, e, org, url, types, now);
    case RunUpdate(org, e, changes) => UpdateKeeps(t, s, org, e, changes, now);
    case RunBeginVerify(_, org, e, challenge) => BeginVerifyKeeps(t, s, org, e, challenge);
    case RunCommitVerify(_, verification) => CommitVerifyKeeps(t, s, verification, now);
    case RunDelete(org, e) => DeleteEndpointKeeps(t, s, org, e, now);
  }

  lemma MaintainSteps(t: Tables, s: Settings, now: Time, a: TableAction)
    requires TablesOk(t, s) && TableEnabled(t, s, now, a)
    ensures Step(t, DoTables(t, s, now, a))
  {
    match a
    case RunSchedule(batch, _) => ScheduleSteps(t, s, now, batch);
    case RunReconcile(batch, _) => ReconcileSteps(t, s, now, batch);
    case RunCleanup(w) => CleanupSteps(t, s, now, w);
    case RunCreate(e, org, url, types) => CreateEndpointSteps(t, s, e, org, url, types, now);
    case RunUpdate(org, e, changes) => UpdateSteps(t, s, org, e, changes, now);
    case RunBeginVerify(_, org, e, challenge) => BeginVerifySteps(t, s, org, e, challenge);
    case RunCommitVerify(_, verification) => CommitVerifySteps(t, s, verification, now);
    case RunDelete(org, e) => DeleteEndpointSteps(t, s, org, e, now);
  }

  /** The transaction of a dispatcher's action, if it has one. */
  function OutboxAfter(x: System, s: Settings, p: nat, a: DispatcherAction): Tables
    requires p in x.dispatchers || a.ClaimRows?
  {
    match a
    case ClaimRows(rows, _) => ClaimOutbox(x.t, rows, x.now + s.outboxLeaseSeconds * SECOND)
    case FinishRow => FinishNext(x.t, x.dispatchers[p], x.dispatchers[p].Finishing? && x.dispatchers[p].confirmed)
    case AbortRow => FinishNext(x.t, x.dispatchers[p], false)
    case _ => x.t
  }

  function FinishNext(t: Tables, q: Dispatcher, published: bool): Tables {
    if q.next < |q.rows| then FinishOutbox(t, q.rows[q.next], published) else t
  }

  lemma OutboxAfterKeeps(x: System, s: Settings, p: nat, a: DispatcherAction)
    requires TablesOk(x.t, s) && (p in x.dispatchers || a.ClaimRows?)
    ensures TablesOk(OutboxAfter(x, s, p, a), s)
  {
    match a
    case ClaimRows(rows, _) => ClaimOutboxKeeps(x.t, s, rows, x.now + s.outboxLeaseSeconds * SECOND);
    case FinishRow =>
      FinishNextKeeps(x.t, s, x.dispatchers[p], x.dispatchers[p].Finishing? && x.dispatchers[p].confirmed);
    case AbortRow => FinishNextKeeps(x.t, s, x.dispatchers[p], false);
    case _ =>
  }

  lemma FinishNextKeeps(t: Tables, s: Settings, q: Dispatcher, published: bool)
    requires TablesOk(t, s)
    ensures TablesOk(FinishNext(t, q, published), s) && Step(t, FinishNext(t, q, published))
  {
    if q.next < |q.rows| {
      FinishOutboxKeeps(t, s, q.rows[q.next], published);
      FinishOutboxSteps(t, s, q.rows[q.next], published);
    } else {
      SameTablesStep(t);
    }
  }

  lemma OutboxAfterSteps(x: System, s: Settings, p: nat, a: DispatcherAction)
    requires TablesOk(x.t, s) && (p in x.dispatchers || a.ClaimRows?)
    ensures Step(x.t, OutboxAfter(x, s, p, a))
  {
    match a
    case ClaimRows(rows, _) => ClaimOutboxSteps(x.t, s, rows, x.now + s.outboxLeaseSeconds * SECOND);
    case FinishRow =>
      FinishNextKeeps(x.t, s, x.dispatchers[p], x.dispatchers[p].Finishing? && x.dispatchers[p].confirmed);
    case AbortRow => FinishNextKeeps(x.t, s, x.dispatchers[p], false);
    case _ => SameTablesStep(x.t);
  }

  lemma DispatchEffect(x: System, s: Settings, p: nat, a: DispatcherAction)
    requires DispatcherEnabled(x, s, p, a)
    ensures p in x.dispatchers || a.ClaimRows?
    ensures DoDispatch(x, s, p, a).t == OutboxAfter(x, s, p, a)
  {
  }

  lemma DispatchTables(x: System, s: Settings, p: nat, a: DispatcherAction)
    requires TablesOk(x.t, s) && DispatcherEnabled(x, s, p, a)
    ensures TablesOk(DoDispatch(x, s, p, a).t, s) && Step(x.t, DoDispatch(x, s, p, a).t)
  {
    DispatchEffect(x, s, p, a);
    OutboxAfterKeeps(x, s, p, a);
    OutboxAfterSteps(x, s, p, a);
  }

  /** The request step inserts an event, or a replay. */
  ghost predicate InsertsEvent(x: System, c: nat, a: ClientAction) {
    a.Insert? && c in x.clients && x.clients[c].IngestReserved? && !Ingested(x.t, x.clients[c].req.key)
  }

  ghost predicate InsertsReplay(x: System, c: nat, a: ClientAction) {
    && a.CreateReplay? && c in x.clients && x.clients[c].ReplayChecked?
    && Replayable(x.t, x.clients[c].org, x.clients[c].source)
    && !Replayed(x.t, x.clients[c].org, x.clients[c].source, x.clients[c].key)
  }

  lemma ServeEffect(x: System, s: Settings, c: nat, a: ClientAction)
    requires ClientEnabled(x, c, a)
    ensures
      DoServe(x, s, c, a).t
      == if InsertsEvent(x, c, a) then InsertEvent(x.t, x.clients[c].req, a.eps, x.now)
         else if InsertsReplay(x, c, a) then InsertReplay(x.t, x.clients[c].source, x.clients[c].key, x.now)
         else x.t
  {
  }

  lemma ServeTables(x: System, s: Settings, c: nat, a: ClientAction)
    requires ValidSettings(s) && TablesOk(x.t, s) && ClientEnabled(x, c, a)
    ensures TablesOk(DoServe(x, s, c, a).t, s) && Step(x.t, DoServe(x, s, c, a).t)
  {
    ServeEffect(x, s, c, a);
    if InsertsEvent(x, c, a) {
      InsertEventKeeps(x.t, s, x.clients[c].req, a.eps, x.now);
      InsertEventSteps(x.t, s, x.clients[c].req, a.eps, x.now);
    } else if InsertsReplay(x, c, a) {
      InsertReplayKeeps(x.t, s, x.clients[c].org, x.clients[c].source, x.clients[c].key, x.now);
      InsertReplaySteps(x.t, s, x.clients[c].source, x.clients[c].key, x.now);
    } else {
      SameTablesStep(x.t);
    }
  }

  lemma WorkTables(x: System, s: Settings, w: nat, a: WorkerAction)
    requires ValidSettings(s) && TablesOk(x.t, s) && WorkerEnabled(x, w, a) && WorkersOk(x)
    ensures TablesOk(DoWork(x, s, w, a).t, s) && Step(x.t, DoWork(x, s, w, a).t)
  {
    SameTablesStep(x.t);
    match a
    case RunClaim(secretOk) =>
      var d := x.broker[x.workers[w].tag].delivery;
      ClaimKeeps(x.t, s, x.now, d, secretOk);
      ClaimSteps(x.t, s, x.now, d, secretOk);
    case RunFinalize(sample) =>
      var q := x.workers[w];
      assert WorkerOk(x, w);
      FinalizeKeeps(x.t, s, x.now, q.claim, q.response, sample);
      FinalizeSteps(x.t, s, x.now, q.claim, q.response, sample);
    case _ =>
  }

  // --- Workers ----------------------------------------------------------------------------------------

  predicate InCall(q: Worker) {
    q.Calling? || q.Answered?
  }

  /** A worker between claim and finalize holds a claim on an attempt that exists while its delivery does. */
  predicate WorkerOk(x: System, w: nat) {
    && w in x.workers
    && var q := x.workers[w];
    && q.tag < |x.broker|
    && (!q.Holding? ==> x.broker[q.tag].claimed)
    && (InCall(q) ==>
          var k := q.claim.attempt;
          && k.delivery < x.t.nextDelivery
          && ClaimMatches(x.t, q.claim)
          && (k.delivery in x.t.deliveries ==>
                k in x.t.attempts && (q.Calling? ==> x.t.attempts[k].startedAt == q.since)))
  }

  ghost predicate WorkersOk(x: System) {
    forall w {:trigger WorkerOk(x, w)} :: w in x.workers ==> WorkerOk(x, w)
  }

  predicate SameAttempt(p: Worker, q: Worker) {
    InCall(p) && InCall(q) && p.claim.attempt == q.claim.attempt
  }

  /** No two workers hold the same attempt. */
  ghost predicate WorkersApart(x: System) {
    forall v, w {:trigger SameAttempt(x.workers[v], x.workers[w])} ::
      v in x.workers && w in x.workers && SameAttempt(x.workers[v], x.workers[w]) ==> v == w
  }

  /** Broker messages only gain flags. */
  ghost predicate BrokerStep(x: System, y: System) {
    && |x.broker| <= |y.broker|
    && forall m :: 0 <= m < |x.broker| ==>
         && y.broker[m].row == x.broker[m].row && y.broker[m].delivery == x.broker[m].delivery
         && (x.broker[m].claimed ==> y.broker[m].claimed)
  }

  lemma WorkerOkFrame(x: System, y: System, w: nat)
    requires WorkerOk(x, w) && w in y.workers && y.workers[w] == x.workers[w]
    requires Step(x.t, y.t) && BrokerStep(x, y)
    ensures WorkerOk(y, w)
  {
    var q := x.workers[w];
    if InCall(q) {
      var k := q.claim.attempt;
      assert k.delivery in y.t.deliveries ==> k.delivery in x.t.deliveries;
      assert k.delivery in y.t.deliveries ==> RowStep(x.t.deliveries[k.delivery], y.t.deliveries[k.delivery]);
    }
  }

  lemma WorkersFrame(x: System, y: System)
    requires WorkersOk(x) && WorkersApart(x) && y.workers == x.workers
    requires Step(x.t, y.t) && BrokerStep(x, y)
    ensures WorkersOk(y) && WorkersApart(y)
  {
    forall w | w in y.workers
      ensures WorkerOk(y, w)
    {
      assert WorkerOk(x, w);
      WorkerOkFrame(x, y, w);
    }
    forall v, w | v in y.workers && w in y.workers && SameAttempt(y.workers[v], y.workers[w])
      ensures v == w
    {
      assert SameAttempt(x.workers[v], x.workers[w]);
    }
  }

  lemma ClaimGivesNewAttempt(x: System, s: Settings, w: nat, secretOk: bool)
    requires ValidSettings(s) && TablesOk(x.t, s) && WorkersOk(x) && WorkerEnabled(x, w, RunClaim(secretOk))
    ensures WorkerOk(DoClaim(x, s, w, secretOk), w)
    ensures
      var q := DoClaim(x, s, w, secretOk).workers[w];
      InCall(q) ==> q.claim.attempt.delivery in x.t.deliveries && q.claim.attempt !in x.t.attempts
  {
    var tag := x.workers[w].tag;
    var d := x.broker[tag].delivery;
    if StartsAttempt(x.t, d, secretOk) {
      assert RefsRowOk(x.t, d);
      QueuedHasNoOpenAttempt(x.t, s, d);
      ClaimShape(x.t, s, x.now, d, secretOk);
    }
  }

  /** Only worker `w` changed, and its claim (if any) is its old one or on an attempt nobody had. */
  lemma OneWorkerFrame(x: System, y: System, w: nat)
    requires WorkersOk(x) && WorkersApart(x) && Step(x.t, y.t) && BrokerStep(x, y)
    requires forall v :: v in y.workers && v != w ==> v in x.workers && y.workers[v] == x.workers[v]
    requires w in y.workers ==> WorkerOk(y, w)
    requires w in y.workers && InCall(y.workers[w]) ==>
               || (w in x.workers && InCall(x.workers[w]) && x.workers[w].claim == y.workers[w].claim)
               || (y.workers[w].claim.attempt.delivery in x.t.deliveries && y.workers[w].claim.attempt !in x.t.attempts)
    ensures WorkersOk(y) && WorkersApart(y)
  {
    forall v | v in y.workers
      ensures WorkerOk(y, v)
    {
      if v != w {
        assert WorkerOk(x, v);
        WorkerOkFrame(x, y, v);
      }
    }
    forall u, v | u in y.workers && v in y.workers && SameAttempt(y.workers[u], y.workers[v])
      ensures u == v
    {
      if u in x.workers && v in x.workers {
        assert WorkerOk(x, u) && WorkerOk(x, v);
        assert SameAttempt(x.workers[u], x.workers[v]) || u == w || v == w;
      } else if u in x.workers {
        assert WorkerOk(x, u);
      } else if v in x.workers {
        assert WorkerOk(x, v);
      }
    }
  }

  lemma WorkKeepsWorkers(x: System, s: Settings, w: nat, a: WorkerAction)
    requires ValidSettings(s) && TablesOk(x.t, s) && WorkersOk(x) && WorkersApart(x) && WorkerEnabled(x, w, a)
    ensures WorkersOk(DoWork(x, s, w, a)) && WorkersApart(DoWork(x, s, w, a))
    ensures BrokerStep(x, DoWork(x, s, w, a))
  {
    var y := DoWork(x, s, w, a);
    WorkTables(x, s, w, a);
    if w in x.workers {
      assert WorkerOk(x, w);
    }
    if a.RunClaim? {
      ClaimGivesNewAttempt(x, s, w, a.secretOk);
    } else if a.RunFinalize? {
      FinalizeKeepsClaims(x, s, w, a.sample);
    }
    OneWorkerFrame(x, y, w);
  }

  lemma FinalizeKeepsClaims(x: System, s: Settings, w: nat, sample: real)
    requires ValidSettings(s) && WorkersOk(x) && WorkerEnabled(x, w, RunFinalize(sample))
    ensures WorkerOk(DoFinalize(x, s, w, sample), w)
  {
    assert WorkerOk(x, w);
  }

  // --- Dispatchers ------------------------------------------------------------------------------------

  /** A message for outbox row `r` was enqueued at some time. */
  ghost predicate Enqueued(x: System, r: nat) {
    exists m :: 0 <= m < |x.broker| && x.broker[m].row == r
  }

  ghost predicate DispatcherOk(x: System, p: nat) {
    && p in x.dispatchers
    && var q := x.dispatchers[p];
    && (forall i :: 0 <= i < |q.rows| ==> q.rows[i] < |x.t.outbox|)
    && (q.Finishing? ==> q.next < |q.rows| && (q.confirmed ==> Enqueued(x, q.rows[q.next])))
  }

  /** Messages carry the delivery of their row, leave after a claim; published rows were enqueued. */
  ghost predicate BrokerOk(x: System) {
    && (forall m :: 0 <= m < |x.broker| ==>
          && x.broker[m].row < |x.t.outbox| && x.broker[m].delivery == x.t.outbox[x.broker[m].row].delivery
          && (x.broker[m].removed ==> x.broker[m].claimed))
    && (forall r: nat :: r < |x.t.outbox| && x.t.outbox[r].published ==> Enqueued(x, r))
    && (forall p {:trigger DispatcherOk(x, p)} :: p in x.dispatchers ==> DispatcherOk(x, p))
  }

  lemma EnqueuedStays(x: System, y: System, r: nat)
    requires Enqueued(x, r) && BrokerStep(x, y)
    ensures Enqueued(y, r)
  {
    var m :| 0 <= m < |x.broker| && x.broker[m].row == r;
    assert y.broker[m].row == r;
  }

  /** Rows that become published must have been enqueued. */
  lemma BrokerFrame(x: System, y: System)
    requires BrokerOk(x) && Step(x.t, y.t) && BrokerStep(x, y)
    requires forall m :: |x.broker| <= m < |y.broker| ==>
               && y.broker[m].row < |y.t.outbox| && y.broker[m].delivery == y.t.outbox[y.broker[m].row].delivery
    requires forall m :: 0 <= m < |y.broker| && y.broker[m].removed ==> y.broker[m].claimed
    requires forall r: nat :: r < |y.t.outbox| && y.t.outbox[r].published ==>
               (r < |x.t.outbox| && x.t.outbox[r].published) || Enqueued(y, r)
    requires forall p :: p in y.dispatchers ==>
               (p in x.dispatchers && y.dispatchers[p] == x.dispatchers[p]) || DispatcherOk(y, p)
    ensures BrokerOk(y)
  {
    forall r: nat | r < |y.t.outbox| && y.t.outbox[r].published
      ensures Enqueued(y, r)
    {
      if r < |x.t.outbox| && x.t.outbox[r].published {
        EnqueuedStays(x, y, r);
      }
    }
    forall p | p in y.dispatchers
      ensures DispatcherOk(y, p)
    {
      if p in x.dispatchers && y.dispatchers[p] == x.dispatchers[p] {
        assert DispatcherOk(x, p);
        var q := x.dispatchers[p];
        if q.Finishing? && q.confirmed {
          EnqueuedStays(x, y, q.rows[q.next]);
        }
      }
    }
  }
}
