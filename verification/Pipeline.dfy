/**
 The whole service as a state machine. Every database transaction, every broker operation and the
 start and end of every HTTP call is one step; steps of any number of API requests, dispatchers,
 workers and schedulers interleave freely, and any process may die between two of its steps.

 `now` is what the next transaction reads as the time. PostgreSQL answers with the start of the
 transaction, so readings need not follow the order of commits: any reading may come after any other.

 Assumed of the environment: a confirmed publish was enqueued; the broker may hand out a message any
 number of times until it is removed; a message is removed only after the claim transaction of a
 worker that holds it has committed.
 */
module Pipeline {
  import opened Wrappers
  import opened Tables
  import opened Transactions

  /** A command in the broker, published for an outbox row; removed ones are remembered. */
  datatype Message = Message(row: nat, delivery: nat, claimed: bool, removed: bool)

  datatype Worker =
    | Holding(tag: nat)
    | Calling(tag: nat, claim: Claimed, since: Time)
    | Answered(tag: nat, claim: Claimed, response: Response)
    | Finished(tag: nat)

  datatype Dispatcher =
    | Publishing(rows: seq<nat>, next: nat)
    | Finishing(rows: seq<nat>, next: nat, confirmed: bool)
    | Aborting(rows: seq<nat>, next: nat)

  /** A request between two of its statements. IngestReserved holds the organization's row lock. */
  datatype Client =
    | IngestChecked(req: Request)
    | IngestReserved(req: Request, projected: nat)
    | IngestConflict(req: Request)
    | ReplayChecked(org: OrgId, source: nat, key: string)
    | ReplayConflict(org: OrgId, source: nat, key: string)

  datatype Reply =
    | EventAccepted(req: Request, event: nat)
    | EventRefused(req: Request)
    | Overloaded(req: Request)
    | ReplayReturned(org: OrgId, source: nat, key: string, replay: nat)

  /**
   `sessions` holds the verify requests between their two transactions. `replays` and `late` are history:
   replays created, and deliveries inserted beyond the projection.
   */
  datatype System = System(
    t: Tables, now: Time, broker: seq<Message>,
    workers: map<nat, Worker>, dispatchers: map<nat, Dispatcher>,
    clients: map<nat, Client>, sessions: map<nat, Verification>,
    replies: seq<Reply>, replays: map<OrgId, nat>, late: map<OrgId, nat>)

  function Tally(m: map<OrgId, nat>, org: OrgId): nat {
    if org in m then m[org] else 0
  }

  ghost predicate Initial(x: System) {
    && x.t == EMPTY && x.broker == [] && x.replies == []
    && x.workers == map[] && x.dispatchers == map[] && x.clients == map[] && x.sessions == map[]
    && x.replays == map[] && x.late == map[]
  }

  // --- Workers ------------------------------------------------------------------------------------

  datatype WorkerAction =
    | Take(tag: nat)
    | RunClaim(secretOk: bool)
    | Answer(response: Response)
    | RunFinalize(sample: real)
    | Ack
    | Crash

  predicate WorkerEnabled(x: System, w: nat, a: WorkerAction) {
    match a
    case Take(tag) => w !in x.workers && tag < |x.broker| && !x.broker[tag].removed
    case RunClaim(_) => w in x.workers && x.workers[w].Holding? && x.workers[w].tag < |x.broker|
    case Answer(_) => w in x.workers && x.workers[w].Calling?
    case RunFinalize(_) => w in x.workers && x.workers[w].Answered?
    case Ack => w in x.workers && !x.workers[w].Holding? && x.workers[w].tag < |x.broker|
    case Crash => w in x.workers
  }

  function AfterClaim(x: System, tag: nat, secretOk: bool): Worker
    requires tag < |x.broker|
  {
    var d := x.broker[tag].delivery;
    if StartsAttempt(x.t, d, secretOk)
    then Calling(tag, Claimed(AttemptKey(d, x.t.deliveries[d].attemptCount + 1), x.t.deliveries[d].endpoint), x.now)
    else Finished(tag)
  }

  function DoClaim(x: System, s: Settings, w: nat, secretOk: bool): System
    requires WorkerEnabled(x, w, RunClaim(secretOk))
  {
    var tag := x.workers[w].tag;
    x.(t := Claim(x.t, s, x.now, x.broker[tag].delivery, secretOk),
       broker := x.broker[tag := x.broker[tag].(claimed := true)],
       workers := x.workers[w := AfterClaim(x, tag, secretOk)])
  }

  function DoFinalize(x: System, s: Settings, w: nat, sample: real): System
    requires ValidSettings(s) && WorkerEnabled(x, w, RunFinalize(sample))
  {
    x.(t := Finalize(x.t, s, x.now, x.workers[w].claim, x.workers[w].response, sample),
       workers := x.workers[w := Finished(x.workers[w].tag)])
  }

  function DoAck(x: System, w: nat): System
    requires WorkerEnabled(x, w, Ack)
  {
    var tag := x.workers[w].tag;
    x.(broker := x.broker[tag := x.broker[tag].(removed := true)], workers := x.workers - {w})
  }

  function DoWork(x: System, s: Settings, w: nat, a: WorkerAction): System
    requires ValidSettings(s) && WorkerEnabled(x, w, a)
  {
    match a
    case Take(tag) => x.(workers := x.workers[w := Holding(tag)])
    case RunClaim(secretOk) => DoClaim(x, s, w, secretOk)
    case Answer(resp) => x.(workers := x.workers[w := Answered(x.workers[w].tag, x.workers[w].claim, resp)])
    case RunFinalize(sample) => DoFinalize(x, s, w, sample)
    case Ack => DoAck(x, w)
    case Crash => x.(workers := x.workers - {w})
  }

  // --- Dispatchers --------------------------------------------------------------------------------

  /** Publish either enqueues or not; without a confirm the dispatcher cannot tell. */
  datatype DispatcherAction =
    | ClaimRows(rows: seq<nat>, locked: set<nat>)
    | Publish(enqueued: bool, confirmed: bool)
    | FinishRow
    | LoseConnection
    | AbortRow
    | Stop

  ghost predicate DispatcherEnabled(x: System, s: Settings, p: nat, a: DispatcherAction) {
    match a
    case ClaimRows(rows, locked) =>
      p !in x.dispatchers && OutboxBatch(x.t, x.now, s.outboxBatch, locked, rows)
    case Publish(enqueued, confirmed) =>
      && p in x.dispatchers && x.dispatchers[p].Publishing?
      && x.dispatchers[p].next < |x.dispatchers[p].rows|
      && x.dispatchers[p].rows[x.dispatchers[p].next] < |x.t.outbox|
      && (confirmed ==> enqueued)
    case FinishRow =>
      && p in x.dispatchers && x.dispatchers[p].Finishing?
      && x.dispatchers[p].next < |x.dispatchers[p].rows|
    case LoseConnection => p in x.dispatchers && !x.dispatchers[p].Aborting?
    case AbortRow =>
      && p in x.dispatchers && x.dispatchers[p].Aborting?
      && x.dispatchers[p].next < |x.dispatchers[p].rows|
    case Stop => p in x.dispatchers
  }

  function DoPublish(x: System, p: nat, enqueued: bool, confirmed: bool): System
    requires p in x.dispatchers && x.dispatchers[p].Publishing?
    requires x.dispatchers[p].next < |x.dispatchers[p].rows|
    requires x.dispatchers[p].rows[x.dispatchers[p].next] < |x.t.outbox|
  {
    var q := x.dispatchers[p];
    var r := q.rows[q.next];
    x.(dispatchers := x.dispatchers[p := Finishing(q.rows, q.next, confirmed)],
       broker := if enqueued then x.broker + [Message(r, x.t.outbox[r].delivery, false, false)] else x.broker)
  }

  ghost function DoDispatch(x: System, s: Settings, p: nat, a: DispatcherAction): System
    requires DispatcherEnabled(x, s, p, a)
  {
    match a
    case ClaimRows(rows, _) =>
      x.(t := ClaimOutbox(x.t, rows, x.now + s.outboxLeaseSeconds * SECOND),
         dispatchers := x.dispatchers[p := Publishing(rows, 0)])
    case Publish(enqueued, confirmed) => DoPublish(x, p, enqueued, confirmed)
    case FinishRow =>
      var q := x.dispatchers[p];
      x.(t := FinishOutbox(x.t, q.rows[q.next], q.confirmed),
         dispatchers := x.dispatchers[p := Publishing(q.rows, q.next + 1)])
    case LoseConnection => x.(dispatchers := x.dispatchers[p := Aborting(x.dispatchers[p].rows, 0)])
    case AbortRow =>
      var q := x.dispatchers[p];
      x.(t := FinishOutbox(x.t, q.rows[q.next], false),
         dispatchers := x.dispatchers[p := Aborting(q.rows, q.next + 1)])
    case Stop => x.(dispatchers := x.dispatchers - {p})
  }

  // --- Requests -----------------------------------------------------------------------------------

  datatype ClientAction =
    | StartIngest(req: Request)
    | Reserve
    | Insert(eps: seq<nat>)
    | Recheck
    | StartReplay(org: OrgId, source: nat, key: string)
    | CreateReplay
    | RecheckReplay
    | Leave

  /** Somebody's ingest holds the row lock of the organization. */
  ghost predicate Locked(x: System, org: OrgId) {
    exists c :: c in x.clients && x.clients[c].IngestReserved? && x.clients[c].req.key.org == org
  }

  ghost predicate ClientEnabled(x: System, c: nat, a: ClientAction) {
    match a
    case StartIngest(_) => c !in x.clients
    case Reserve => c in x.clients && x.clients[c].IngestChecked? && !Locked(x, x.clients[c].req.key.org)
    case Insert(eps) =>
      && c in x.clients && x.clients[c].IngestReserved?
      && Lists(eps, Matching(x.t, x.clients[c].req.key.org, x.clients[c].req.eventType))
    case Recheck => c in x.clients && x.clients[c].IngestConflict?
    case StartReplay(_, _, _) => c !in x.clients
    case CreateReplay => c in x.clients && x.clients[c].ReplayChecked?
    case RecheckReplay => c in x.clients && x.clients[c].ReplayConflict?
    case Leave => c in x.clients
  }

  ghost function EventOf(t: Tables, key: IngestKey): (e: nat)
    requires Ingested(t, key)
    ensures EventFor(t, key, e)
  {
    var e: nat :| EventFor(t, key, e);
    e
  }

  ghost function ReplayOf(t: Tables, org: OrgId, source: nat, key: string): (d: nat)
    requires Replayed(t, org, source, key)
    ensures ReplayFor(t, org, source, key, d)
  {
    var d: nat :| ReplayFor(t, org, source, key, d);
    d
  }

  /** _idempotent_result: the stored event if the fingerprints agree, otherwise a conflict. */
  ghost function IdempotentReply(t: Tables, req: Request): Reply
    requires Ingested(t, req.key)
  {
    var e := EventOf(t, req.key);
    if t.events[e].fingerprint == req.fingerprint then EventAccepted(req, e) else EventRefused(req)
  }

  /** Requests leave the broker, the workers, the dispatchers, the verify requests and the clock alone. */
  predicate SameProcesses(x: System, y: System) {
    && y.broker == x.broker && y.workers == x.workers && y.dispatchers == x.dispatchers
    && y.sessions == x.sessions && y.now == x.now
  }

  function Replying(x: System, c: nat, r: Reply): (y: System)
    ensures SameProcesses(x, y)
  {
    x.(clients := x.clients - {c}, replies := x.replies + [r])
  }

  ghost function DoStartIngest(x: System, c: nat, req: Request): (y: System)
    ensures SameProcesses(x, y)
  {
    if Ingested(x.t, req.key) then Replying(x, c, IdempotentReply(x.t, req))
    else x.(clients := x.clients[c := IngestChecked(req)])
  }

  function DoReserve(x: System, s: Settings, c: nat): (y: System)
    requires c in x.clients && x.clients[c].IngestChecked?
    ensures SameProcesses(x, y)
  {
    var req := x.clients[c].req;
    if ProjectedBacklog(x.t, req.key.org, req.eventType) > s.backlogLimit then Replying(x, c, Overloaded(req))
    else x.(clients := x.clients[c := IngestReserved(req, |Matching(x.t, req.key.org, req.eventType)|)])
  }

  ghost function DoInsert(x: System, c: nat, eps: seq<nat>): (y: System)
    requires c in x.clients && x.clients[c].IngestReserved?
    ensures SameProcesses(x, y)
  {
    var req := x.clients[c].req;
    var org := req.key.org;
    var extra := if |eps| > x.clients[c].projected then |eps| - x.clients[c].projected else 0;
    if Ingested(x.t, req.key) then x.(clients := x.clients[c := IngestConflict(req)])
    else Replying(x, c, EventAccepted(req, x.t.nextEvent))
      .(t := InsertEvent(x.t, req, eps, x.now), late := x.late[org := Tally(x.late, org) + extra])
  }

  ghost function DoRecheck(x: System, c: nat): (y: System)
    requires c in x.clients && x.clients[c].IngestConflict?
    ensures SameProcesses(x, y)
  {
    if Ingested(x.t, x.clients[c].req.key) then Replying(x, c, IdempotentReply(x.t, x.clients[c].req))
    else x.(clients := x.clients - {c})
  }

  ghost function DoStartReplay(x: System, c: nat, org: OrgId, source: nat, key: string): (y: System)
    ensures SameProcesses(x, y)
  {
    if Replayed(x.t, org, source, key)
    then Replying(x, c, ReplayReturned(org, source, key, ReplayOf(x.t, org, source, key)))
    else x.(clients := x.clients[c := ReplayChecked(org, source, key)])
  }

  ghost function DoCreateReplay(x: System, c: nat): (y: System)
    requires c in x.clients && x.clients[c].ReplayChecked?
    ensures SameProcesses(x, y)
  {
    var ReplayChecked(org, source, key) := x.clients[c];
    if !Replayable(x.t, org, source) then x.(clients := x.clients - {c})
    else if Replayed(x.t, org, source, key) then x.(clients := x.clients[c := ReplayConflict(org, source, key)])
    else Replying(x, c, ReplayReturned(org, source, key, x.t.nextDelivery))
      .(t := InsertReplay(x.t, source, key, x.now), replays := x.replays[org := Tally(x.replays, org) + 1])
  }

  ghost function DoRecheckReplay(x: System, c: nat): (y: System)
    requires c in x.clients && x.clients[c].ReplayConflict?
    ensures SameProcesses(x, y)
  {
    var ReplayConflict(org, source, key) := x.clients[c];
    if Replayed(x.t, org, source, key)
    then Replying(x, c, ReplayReturned(org, source, key, ReplayOf(x.t, org, source, key)))
    else x.(clients := x.clients - {c})
  }

  ghost function DoServe(x: System, s: Settings, c: nat, a: ClientAction): (y: System)
    requires ClientEnabled(x, c, a)
    ensures SameProcesses(x, y)
  {
    match a
    case StartIngest(req) => DoStartIngest(x, c, req)
    case Reserve => DoReserve(x, s, c)
    case Insert(eps) => DoInsert(x, c, eps)
    case Recheck => DoRecheck(x, c)
    case StartReplay(org, source, key) => DoStartReplay(x, c, org, source, key)
    case CreateReplay => DoCreateReplay(x, c)
    case RecheckReplay => DoRecheckReplay(x, c)
    case Leave => x.(clients := x.clients - {c})
  }

  // --- Scheduler and management -------------------------------------------------------------------

  datatype TableAction =
    | RunSchedule(batch: seq<nat>, locked: set<nat>)
    | RunReconcile(batch: seq<nat>, locked: set<nat>)
    | RunCleanup(sweep: Sweep)
    | RunCreate(e: nat, org: OrgId, url: string, types: set<string>)
    | RunUpdate(org: OrgId, e: nat, changes: Changes)
    | RunBeginVerify(session: nat, org: OrgId, e: nat, challenge: Challenge)
    | RunCommitVerify(session: nat, verification: Verification)
    | RunDelete(org: OrgId, e: nat)

  ghost predicate TableEnabled(t: Tables, s: Settings, now: Time, a: TableAction) {
    match a
    case RunSchedule(batch, locked) => Batch(t, DueRows(t, now), s.retryBatch, locked, batch)
    case RunReconcile(batch, locked) => Batch(t, StaleRows(t, now), s.retryBatch, locked, batch)
    case RunCleanup(w) => Sweepable(t, s, now, w)
    case RunCreate(e, _, _, _) => e !in t.endpoints
    case _ => true
  }

  ghost function DoTables(t: Tables, s: Settings, now: Time, a: TableAction): Tables {
    match a
    case RunSchedule(batch, _) => ScheduleDue(t, now, batch)
    case RunReconcile(batch, _) => Reconcile(t, s, now, batch)
    case RunCleanup(w) => Cleanup(t, w)
    case RunCreate(e, org, url, types) => CreateEndpoint(t, e, org, url, types, now)
    case RunUpdate(org, e, changes) => UpdateEndpoint(t, org, e, changes, now)
    case RunBeginVerify(_, org, e, challenge) => BeginVerify(t, org, e, challenge)
    case RunCommitVerify(_, verification) => CommitVerify(t, verification, now)
    case RunDelete(org, e) => DeleteEndpoint(t, org, e, now)
  }

  /** The second half of a verify request continues what the first half left in its session. */
  predicate SessionReady(sessions: map<nat, Verification>, a: TableAction) {
    match a
    case RunBeginVerify(v, _, _, _) => v !in sessions
    case RunCommitVerify(v, verification) => v in sessions && sessions[v] == verification
    case _ => true
  }

  function DoSessions(t: Tables, sessions: map<nat, Verification>, a: TableAction): map<nat, Verification> {
    match a
    case RunBeginVerify(v, org, e, challenge) =>
      if Manageable(t, org, e) then sessions[v := Verification(org, e, challenge, t.endpoints[e].status)]
      else sessions
    case RunCommitVerify(v, _) => sessions - {v}
    case _ => sessions
  }

  // --- Runs ---------------------------------------------------------------------------------------

  /** ReadClock sets the time that the following transactions read, earlier or later than before. */
  datatype Action =
    | Work(w: nat, work: WorkerAction)
    | Dispatch(p: nat, dispatch: DispatcherAction)
    | Serve(c: nat, serve: ClientAction)
    | Maintain(maintain: TableAction)
    | ReadClock(to: Time)

  ghost predicate Enabled(x: System, s: Settings, a: Action) {
    match a
    case Work(w, b) => WorkerEnabled(x, w, b)
    case Dispatch(p, b) => DispatcherEnabled(x, s, p, b)
    case Serve(c, b) => ClientEnabled(x, c, b)
    case Maintain(b) => TableEnabled(x.t, s, x.now, b) && SessionReady(x.sessions, b)
    case ReadClock(_) => true
  }

  ghost function Next(x: System, s: Settings, a: Action): System
    requires ValidSettings(s) && Enabled(x, s, a)
  {
    match a
    case Work(w, b) => DoWork(x, s, w, b)
    case Dispatch(p, b) => DoDispatch(x, s, p, b)
    case Serve(c, b) => DoServe(x, s, c, b)
    case Maintain(b) => x.(t := DoTables(x.t, s, x.now, b), sessions := DoSessions(x.t, x.sessions, b))
    case ReadClock(to) => x.(now := to)
  }

  /** `xs` is an execution: it starts empty and every state follows from the one before by an action. */
  ghost predicate Run(xs: seq<System>, acts: seq<Action>, s: Settings) {
    && ValidSettings(s) && |xs| == |acts| + 1 && Initial(xs[0])
    && forall i {:trigger acts[i]} :: 0 <= i < |acts| ==>
         Enabled(xs[i], s, acts[i]) && xs[i + 1] == Next(xs[i], s, acts[i])
  }
}
