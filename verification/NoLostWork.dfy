/**
 A queued delivery can always still be executed: its newest outbox row is unpublished and waiting for
 a dispatcher, or the broker holds a message for it on which no worker has yet run claim.
 */
module NoLostWork {
  import opened Wrappers
  import opened Tables
  import opened Transactions
  import opened TableInvariant
  import opened Evolution
  import opened Pipeline
  import opened PipelineInvariant

  // --- What transactions do to the queue ----------------------------------------------------------

  predicate IsQueued(t: Tables, d: nat) {
    d in t.deliveries && t.deliveries[d].status == Queued
  }

  ghost predicate NewRowFor(t: Tables, u: Tables, d: nat) {
    exists i :: |t.outbox| <= i < |u.outbox| && u.outbox[i].delivery == d
  }

  /** Whatever becomes queued gets an outbox row in the same transaction. */
  ghost predicate QueueStep(t: Tables, u: Tables) {
    && (forall d :: IsQueued(u, d) ==> IsQueued(t, d) || NewRowFor(t, u, d))
    && (forall r: nat :: r < |u.outbox| && u.outbox[r].published ==> r < |t.outbox| && t.outbox[r].published)
  }

  lemma ClaimQueueStep(t: Tables, s: Settings, now: Time, d: nat, secretOk: bool)
    ensures QueueStep(t, Claim(t, s, now, d, secretOk))
  {
    if d in t.deliveries {
      ClaimShape(t, s, now, d, secretOk);
    }
  }

  /** Whatever claim decides about a queued delivery, it does not stay queued. */
  lemma ClaimLeavesQueue(t: Tables, s: Settings, now: Time, d: nat, secretOk: bool)
    ensures !IsQueued(Claim(t, s, now, d, secretOk), d)
  {
  }

  lemma FinalizeQueueStep(t: Tables, s: Settings, now: Time, c: Claimed, resp: Response, sample: real)
    requires ValidSettings(s)
    ensures QueueStep(t, Finalize(t, s, now, c, resp, sample))
  {
  }

  lemma ScheduleQueueStep(t: Tables, now: Time, batch: seq<nat>)
    ensures QueueStep(t, ScheduleDue(t, now, batch))
  {
    var u := ScheduleDue(t, now, batch);
    forall d | IsQueued(u, d)
      ensures IsQueued(t, d) || NewRowFor(t, u, d)
    {
      if d in batch {
        var i :| 0 <= i < |batch| && batch[i] == d;
        assert u.outbox[|t.outbox| + i].delivery == d;
      }
    }
  }

  lemma InsertEventOutbox(t: Tables, req: Request, eps: seq<nat>, now: Time, i: nat)
    requires i < |eps|
    ensures |InsertEvent(t, req, eps, now).outbox| == |t.outbox| + |eps|
    ensures InsertEvent(t, req, eps, now).outbox[|t.outbox| + i] == Command(t.nextDelivery + i, now)
  {
  }

  lemma InsertEventQueueStep(t: Tables, req: Request, eps: seq<nat>, now: Time)
    ensures QueueStep(t, InsertEvent(t, req, eps, now))
  {
    var u := InsertEvent(t, req, eps, now);
    forall d: nat | IsQueued(u, d)
      ensures IsQueued(t, d) || NewRowFor(t, u, d)
    {
      if t.nextDelivery <= d < t.nextDelivery + |eps| {
        InsertEventOutbox(t, req, eps, now, d - t.nextDelivery);
      }
    }
    forall r: nat | r < |u.outbox| && u.outbox[r].published
      ensures r < |t.outbox| && t.outbox[r].published
    {
      if r >= |t.outbox| {
        InsertEventOutbox(t, req, eps, now, r - |t.outbox|);
      }
    }
  }

  lemma InsertReplayQueueStep(t: Tables, source: nat, key: string, now: Time)
    requires source in t.deliveries
    ensures QueueStep(t, InsertReplay(t, source, key, now))
  {
    var u := InsertReplay(t, source, key, now);
    assert u.outbox[|t.outbox|].delivery == t.nextDelivery;
  }

  lemma MaintainQueueStep(t: Tables, s: Settings, now: Time, a: TableAction)
    ensures QueueStep(t, DoTables(t, s, now, a))
  {
    if a.RunSchedule? {
      ScheduleQueueStep(t, now, a.batch);
    }
  }

  // --- The invariant --------------------------------------------------------------------------------

  predicate NewestRow(outbox: seq<OutboxRow>, d: nat, r: nat) {
    && r < |outbox| && outbox[r].delivery == d
    && forall q :: r < q < |outbox| ==> outbox[q].delivery != d
  }

  lemma NewestRowExists(outbox: seq<OutboxRow>, d: nat, i: nat) returns (r: nat)
    requires i < |outbox| && outbox[i].delivery == d
    ensures i <= r && NewestRow(outbox, d, r)
    decreases |outbox| - i
  {
    if q :| i < q < |outbox| && outbox[q].delivery == d {
      r := NewestRowExists(outbox, d, q);
    } else {
      r := i;
    }
  }

  /** A message for row `r` that no worker has run claim on. */
  ghost predicate Live(x: System, r: nat) {
    exists m :: 0 <= m < |x.broker| && x.broker[m].row == r && !x.broker[m].claimed && !x.broker[m].removed
  }

  ghost predicate Covers(x: System, d: nat, r: nat) {
    NewestRow(x.t.outbox, d, r) && (!Enqueued(x, r) || Live(x, r))
  }

  ghost predicate Covered(x: System, d: nat) {
    exists r :: Covers(x, d, r)
  }

  ghost predicate NothingLost(x: System) {
    forall d :: IsQueued(x.t, d) ==> Covered(x, d)
  }

  /** Messages of delivery `d` that were live stay live, and none of its rows is newly enqueued dead. */
  ghost predicate KeepsMessages(x: System, y: System, d: nat) {
    && |x.broker| <= |y.broker|
    && (forall m :: |x.broker| <= m < |y.broker| ==> !y.broker[m].claimed && !y.broker[m].removed)
    && (forall m :: 0 <= m < |x.broker| && x.broker[m].delivery == d && !x.broker[m].claimed ==>
          y.broker[m] == x.broker[m])
  }

  lemma CoveredFrame(x: System, y: System, d: nat)
    requires BrokerOk(x) && BrokerStep(x, y) && Step(x.t, y.t) && KeepsMessages(x, y, d)
    requires IsQueued(x.t, d) ==> Covered(x, d)
    requires IsQueued(x.t, d) || NewRowFor(x.t, y.t, d)
    requires forall m :: |x.broker| <= m < |y.broker| ==> y.broker[m].row < |x.t.outbox|
    ensures Covered(y, d)
  {
    if NewRowFor(x.t, y.t, d) {
      var i :| |x.t.outbox| <= i < |y.t.outbox| && y.t.outbox[i].delivery == d;
      var r := NewestRowExists(y.t.outbox, d, i);
      assert !Enqueued(y, r);
      assert Covers(y, d, r);
    } else {
      var r :| Covers(x, d, r);
      if Live(x, r) {
        var m :| 0 <= m < |x.broker| && x.broker[m].row == r && !x.broker[m].claimed && !x.broker[m].removed;
        assert y.broker[m] == x.broker[m];
        assert Live(y, r);
      } else if Enqueued(y, r) {
        var m :| 0 <= m < |y.broker| && y.broker[m].row == r;
        assert m >= |x.broker|;
        assert Live(y, r);
      }
      assert Covers(y, d, r);
    }
  }

  lemma LostNothing(x: System, y: System)
    requires BrokerOk(x) && NothingLost(x) && Step(x.t, y.t) && BrokerStep(x, y)
    requires forall d :: IsQueued(y.t, d) ==> IsQueued(x.t, d) || NewRowFor(x.t, y.t, d)
    requires forall m :: |x.broker| <= m < |y.broker| ==> y.broker[m].row < |x.t.outbox|
    requires forall d :: IsQueued(y.t, d) ==> KeepsMessages(x, y, d)
    ensures NothingLost(y)
  {
    forall d | IsQueued(y.t, d)
      ensures Covered(y, d)
    {
      CoveredFrame(x, y, d);
    }
  }

  lemma WorkKeepsBroker(x: System, s: Settings, w: nat, a: WorkerAction)
    requires ValidSettings(s) && TablesOk(x.t, s) && WorkersOk(x) && WorkersApart(x)
    requires BrokerOk(x) && NothingLost(x) && WorkerEnabled(x, w, a)
    ensures BrokerOk(DoWork(x, s, w, a)) && NothingLost(DoWork(x, s, w, a))
  {
    var y := DoWork(x, s, w, a);
    WorkTables(x, s, w, a);
    WorkKeepsWorkers(x, s, w, a);
    if w in x.workers {
      assert WorkerOk(x, w);
    }
    if a.RunClaim? {
      var d := x.broker[x.workers[w].tag].delivery;
      ClaimQueueStep(x.t, s, x.now, d, a.secretOk);
      ClaimLeavesQueue(x.t, s, x.now, d, a.secretOk);
    } else if a.RunFinalize? {
      FinalizeQueueStep(x.t, s, x.now, x.workers[w].claim, x.workers[w].response, a.sample);
    }
    BrokerFrame(x, y);
    LostNothing(x, y);
  }

  lemma PublishKeepsBroker(x: System, s: Settings, p: nat, enqueued: bool, confirmed: bool)
    requires SideOk(x.t) && BrokerOk(x) && NothingLost(x)
    requires DispatcherEnabled(x, s, p, Publish(enqueued, confirmed))
    ensures
      var y := DoPublish(x, p, enqueued, confirmed);
      BrokerOk(y) && NothingLost(y) && BrokerStep(x, y)
  {
    var y := DoPublish(x, p, enqueued, confirmed);
    assert DispatcherOk(x, p);
    var r := x.dispatchers[p].rows[x.dispatchers[p].next];
    if enqueued {
      assert y.broker[|x.broker|].row == r;
      assert Enqueued(y, r);
    }
    assert DispatcherOk(y, p);
    SameTablesStep(x.t);
    BrokerFrame(x, y);
    LostNothing(x, y);
  }

  /** The claim and finish transactions of a dispatcher: the broker is not touched. */
  lemma OutboxKeepsBroker(x: System, s: Settings, p: nat, a: DispatcherAction)
    requires TablesOk(x.t, s) && BrokerOk(x) && NothingLost(x) && DispatcherEnabled(x, s, p, a) && !a.Publish?
    ensures BrokerOk(DoDispatch(x, s, p, a)) && NothingLost(DoDispatch(x, s, p, a))
  {
    var y := DoDispatch(x, s, p, a);
    DispatchTables(x, s, p, a);
    if p in x.dispatchers {
      assert DispatcherOk(x, p);
      if a.FinishRow? && x.dispatchers[p].confirmed {
        EnqueuedStays(x, y, x.dispatchers[p].rows[x.dispatchers[p].next]);
      }
    }
    OutboxQueueStep(x, s, p, a);
    if p in y.dispatchers {
      forall i | 0 <= i < |y.dispatchers[p].rows|
        ensures y.dispatchers[p].rows[i] < |x.t.outbox|
      {
        assert y.dispatchers[p].rows[i] in y.dispatchers[p].rows;
      }
      assert DispatcherOk(y, p);
    }
    BrokerFrame(x, y);
    LostNothing(x, y);
  }

  /** Which rows a dispatcher transaction can mark published. */
  lemma OutboxQueueStep(x: System, s: Settings, p: nat, a: DispatcherAction)
    requires DispatcherEnabled(x, s, p, a) && !a.Publish?
    ensures
      var y := DoDispatch(x, s, p, a);
      && y.broker == x.broker && y.t.deliveries == x.t.deliveries && |y.t.outbox| == |x.t.outbox|
      && (forall r: nat :: r < |y.t.outbox| && y.t.outbox[r].published ==>
            x.t.outbox[r].published
            || (a.FinishRow? && x.dispatchers[p].confirmed && r == x.dispatchers[p].rows[x.dispatchers[p].next]))
      && (forall q :: q in y.dispatchers && q != p ==> q in x.dispatchers && y.dispatchers[q] == x.dispatchers[q])
      && (p in y.dispatchers ==>
            && !y.dispatchers[p].Finishing?
            && y.dispatchers[p].rows == if a.ClaimRows? then a.rows else x.dispatchers[p].rows)
  {
  }

  lemma QuietKeepsBroker(x: System, y: System)
    requires BrokerOk(x) && NothingLost(x) && Step(x.t, y.t) && QueueStep(x.t, y.t)
    requires y.broker == x.broker && y.dispatchers == x.dispatchers
    ensures BrokerOk(y) && NothingLost(y)
  {
    BrokerFrame(x, y);
    LostNothing(x, y);
  }

  lemma ServeQueueStep(x: System, s: Settings, c: nat, a: ClientAction)
    requires ClientEnabled(x, c, a)
    ensures QueueStep(x.t, DoServe(x, s, c, a).t)
  {
    ServeEffect(x, s, c, a);
    if InsertsEvent(x, c, a) {
      InsertEventQueueStep(x.t, x.clients[c].req, a.eps, x.now);
    } else if InsertsReplay(x, c, a) {
      InsertReplayQueueStep(x.t, x.clients[c].source, x.clients[c].key, x.now);
    }
  }

  // --- Every reachable state ------------------------------------------------------------------------

  ghost predicate Sound(x: System, s: Settings) {
    TablesOk(x.t, s) && WorkersOk(x) && WorkersApart(x) && BrokerOk(x) && NothingLost(x)
  }

  lemma InitialSound(x: System, s: Settings)
    requires Initial(x)
    ensures Sound(x, s)
  {
    EmptyOk(s);
  }

  lemma WorkSound(x: System, s: Settings, w: nat, b: WorkerAction)
    requires ValidSettings(s) && Sound(x, s) && WorkerEnabled(x, w, b)
    ensures Sound(DoWork(x, s, w, b), s) && Step(x.t, DoWork(x, s, w, b).t)
  {
    WorkTables(x, s, w, b);
    WorkKeepsWorkers(x, s, w, b);
    WorkKeepsBroker(x, s, w, b);
  }

  lemma DispatchSound(x: System, s: Settings, p: nat, b: DispatcherAction)
    requires ValidSettings(s) && Sound(x, s) && DispatcherEnabled(x, s, p, b)
    ensures Sound(DoDispatch(x, s, p, b), s) && Step(x.t, DoDispatch(x, s, p, b).t)
  {
    DispatchTables(x, s, p, b);
    if b.Publish? {
      PublishKeepsBroker(x, s, p, b.enqueued, b.confirmed);
    } else {
      OutboxKeepsBroker(x, s, p, b);
      OutboxQueueStep(x, s, p, b);
    }
    WorkersFrame(x, DoDispatch(x, s, p, b));
  }

  lemma ServeSound(x: System, s: Settings, c: nat, b: ClientAction)
    requires ValidSettings(s) && Sound(x, s) && ClientEnabled(x, c, b)
    ensures Sound(DoServe(x, s, c, b), s) && Step(x.t, DoServe(x, s, c, b).t)
  {
    ServeTables(x, s, c, b);
    ServeQueueStep(x, s, c, b);
    QuietKeepsBroker(x, DoServe(x, s, c, b));
    WorkersFrame(x, DoServe(x, s, c, b));
  }

  lemma MaintainSound(x: System, s: Settings, b: TableAction)
    requires Sound(x, s) && TableEnabled(x.t, s, x.now, b)
    ensures Sound(x.(t := DoTables(x.t, s, x.now, b), sessions := DoSessions(x.t, x.sessions, b)), s)
    ensures Step(x.t, DoTables(x.t, s, x.now, b))
  {
    var y := x.(t := DoTables(x.t, s, x.now, b), sessions := DoSessions(x.t, x.sessions, b));
    MaintainKeepsTables(x.t, s, x.now, b);
    MaintainSteps(x.t, s, x.now, b);
    MaintainQueueStep(x.t, s, x.now, b);
    QuietKeepsBroker(x, y);
    WorkersFrame(x, y);
  }

  /** Every step of every process keeps the invariant, and commits at most one transaction. */
  lemma NextSound(x: System, s: Settings, a: Action)
    requires ValidSettings(s) && Sound(x, s) && Enabled(x, s, a)
    ensures Sound(Next(x, s, a), s) && Step(x.t, Next(x, s, a).t)
  {
    match a
    case Work(w, b) => WorkSound(x, s, w, b);
    case Dispatch(p, b) => DispatchSound(x, s, p, b);
    case Serve(c, b) => ServeSound(x, s, c, b);
    case Maintain(b) => MaintainSound(x, s, b);
    case ReadClock(_) =>
      SameTablesStep(x.t);
      QuietKeepsBroker(x, Next(x, s, a));
      WorkersFrame(x, Next(x, s, a));
  }

  lemma {:induction false} RunSound(xs: seq<System>, acts: seq<Action>, s: Settings, i: nat)
    requires Run(xs, acts, s) && i < |xs|
    ensures Sound(xs[i], s)
  {
    if i == 0 {
      InitialSound(xs[0], s);
    } else {
      RunSound(xs, acts, s, i - 1);
      NextSound(xs[i - 1], s, acts[i - 1]);
    }
  }

  /**
   No lost work: in every state of every interleaving, the newest outbox row of a queued delivery is
   unpublished and was never enqueued, or a message for it awaits its claim.
   */
  lemma NoLostWork(xs: seq<System>, acts: seq<Action>, s: Settings, i: nat, d: nat)
    requires Run(xs, acts, s) && i < |xs| && IsQueued(xs[i].t, d)
    ensures exists r: nat ::
              && NewestRow(xs[i].t.outbox, d, r)
              && ((!xs[i].t.outbox[r].published && !Enqueued(xs[i], r)) || Live(xs[i], r))
  {
    RunSound(xs, acts, s, i);
    var r :| Covers(xs[i], d, r);
    assert NewestRow(xs[i].t.outbox, d, r);
  }
}
