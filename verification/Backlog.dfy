/**
 The backlog limit. Under the organization's row lock the projection and the insert are still two
 statements, so an endpoint that starts matching in between adds a delivery nobody counted.
 */
module Backlog {
  import opened Wrappers
  import opened Tables
  import opened Transactions
  import opened TableInvariant
  import opened Evolution
  import opened Pipeline
  import opened PipelineInvariant
  import opened NoLostWork
  import opened Sets

  /** Whatever does not insert deliveries does not add to any backlog. */
  lemma StepAddsNoBacklog(t: Tables, u: Tables, org: OrgId)
    requires Step(t, u) && u.deliveries.Keys <= t.deliveries.Keys
    ensures |Unfinished(u, org)| <= |Unfinished(t, org)|
  {
    forall d | d in Unfinished(u, org)
      ensures d in Unfinished(t, org)
    {
      assert RowStep(t.deliveries[d], u.deliveries[d]);
    }
    SubsetSize(Unfinished(u, org), Unfinished(t, org));
  }

  lemma InsertEventUnfinished(t: Tables, s: Settings, req: Request, eps: seq<nat>, now: Time, org: OrgId)
    requires TablesOk(t, s)
    ensures Unfinished(InsertEvent(t, req, eps, now), org)
         == Unfinished(t, org) + if org == req.key.org then Block(t.nextDelivery, |eps|) else {}
    ensures Unfinished(t, org) !! Block(t.nextDelivery, |eps|)
  {
    var u := InsertEvent(t, req, eps, now);
    NumbersInUse(t);
    forall d | d in t.deliveries
      ensures d !in Block(t.nextDelivery, |eps|) && u.deliveries[d] == t.deliveries[d]
    {
    }
  }

  /** An ingest adds one unfinished delivery per endpoint to its own organization only. */
  lemma InsertEventBacklog(t: Tables, s: Settings, req: Request, eps: seq<nat>, now: Time, org: OrgId)
    requires TablesOk(t, s)
    ensures |Unfinished(InsertEvent(t, req, eps, now), org)|
         == |Unfinished(t, org)| + if org == req.key.org then |eps| else 0
  {
    InsertEventUnfinished(t, s, req, eps, now, org);
    if org == req.key.org {
      BlockSize(t.nextDelivery, |eps|);
    }
  }

  lemma InsertReplayBacklog(t: Tables, s: Settings, source: nat, key: string, now: Time, org: OrgId)
    requires TablesOk(t, s) && source in t.deliveries
    ensures |Unfinished(InsertReplay(t, source, key, now), org)|
         == |Unfinished(t, org)| + if org == t.deliveries[source].org then 1 else 0
  {
    var u := InsertReplay(t, source, key, now);
    NumbersInUse(t);
    if org == t.deliveries[source].org {
      assert Unfinished(u, org) == Unfinished(t, org) + {t.nextDelivery};
    } else {
      assert Unfinished(u, org) == Unfinished(t, org);
    }
  }

  // --- The invariant --------------------------------------------------------------------------------

  predicate HoldsLock(x: System, c: nat, org: OrgId) {
    c in x.clients && x.clients[c].IngestReserved? && x.clients[c].req.key.org == org
  }

  /** At most one request holds an organization's lock. */
  ghost predicate LocksOk(x: System) {
    forall org, b, c {:trigger HoldsLock(x, b, org), HoldsLock(x, c, org)} ::
      HoldsLock(x, b, org) && HoldsLock(x, c, org) ==> b == c
  }

  function Allowance(x: System, s: Settings, org: OrgId): nat {
    s.backlogLimit + Tally(x.replays, org) + Tally(x.late, org)
  }

  ghost predicate BacklogOk(x: System, s: Settings) {
    && LocksOk(x)
    && (forall org {:trigger Unfinished(x.t, org)} :: |Unfinished(x.t, org)| <= Allowance(x, s, org))
    && (forall c, org {:trigger HoldsLock(x, c, org)} :: HoldsLock(x, c, org) ==>
          |Unfinished(x.t, org)| + x.clients[c].projected <= Allowance(x, s, org))
  }

  lemma InitialBacklog(x: System, s: Settings)
    requires Initial(x)
    ensures BacklogOk(x, s)
  {
    forall org
      ensures Unfinished(x.t, org) == {}
    {
    }
  }

  /** No delivery and no lock is added. */
  ghost predicate AddsNothing(x: System, y: System) {
    && y.t.deliveries.Keys <= x.t.deliveries.Keys && y.replays == x.replays && y.late == x.late
    && forall b :: b in y.clients && y.clients[b].IngestReserved? ==> b in x.clients && x.clients[b] == y.clients[b]
  }

  lemma QuietBacklog(x: System, y: System, s: Settings)
    requires BacklogOk(x, s) && Step(x.t, y.t) && AddsNothing(x, y)
    ensures BacklogOk(y, s)
  {
    forall org
      ensures |Unfinished(y.t, org)| <= |Unfinished(x.t, org)|
    {
      StepAddsNoBacklog(x.t, y.t, org);
    }
    forall b, org | HoldsLock(y, b, org)
      ensures HoldsLock(x, b, org)
    {
    }
  }

  lemma ReserveBacklog(x: System, s: Settings, c: nat)
    requires TablesOk(x.t, s) && BacklogOk(x, s) && ClientEnabled(x, c, Reserve)
    ensures BacklogOk(DoReserve(x, s, c), s)
  {
    var y := DoReserve(x, s, c);
    var req := x.clients[c].req;
    var org := req.key.org;
    if ProjectedBacklog(x.t, org, req.eventType) > s.backlogLimit {
      SameTablesStep(x.t);
      QuietBacklog(x, y, s);
    } else {
      TakeLock(x, y, s, c, req, |Matching(x.t, org, req.eventType)|);
    }
  }

  lemma TakeLock(x: System, y: System, s: Settings, c: nat, req: Request, projected: nat)
    requires BacklogOk(x, s) && !Locked(x, req.key.org)
    requires |Unfinished(x.t, req.key.org)| + projected <= s.backlogLimit
    requires y == x.(clients := x.clients[c := IngestReserved(req, projected)])
    ensures BacklogOk(y, s)
  {
    forall b, org | HoldsLock(y, b, org) && b != c
      ensures HoldsLock(x, b, org) && org != req.key.org
    {
      assert HoldsLock(x, b, org);
    }
  }

  /** The insert gives the lock of its organization up; other locks stay as they are. */
  lemma InsertReleases(x: System, c: nat, eps: seq<nat>, b: nat, org: OrgId)
    requires LocksOk(x) && ClientEnabled(x, c, Insert(eps)) && !Ingested(x.t, x.clients[c].req.key)
    requires HoldsLock(DoInsert(x, c, eps), b, org)
    ensures HoldsLock(x, b, org) && DoInsert(x, c, eps).clients[b] == x.clients[b]
    ensures org != x.clients[c].req.key.org
  {
    assert HoldsLock(x, c, x.clients[c].req.key.org);
    assert HoldsLock(x, b, org);
  }

  /** `n` deliveries come in under the lock: as many as projected are covered, the others count as late. */
  lemma GrowBacklog(x: System, y: System, s: Settings, org: OrgId, projected: nat, n: nat)
    requires BacklogOk(x, s) && |Unfinished(x.t, org)| + projected <= Allowance(x, s, org)
    requires y.replays == x.replays
    requires y.late == x.late[org := Tally(x.late, org) + if n > projected then n - projected else 0]
    requires forall o {:trigger Unfinished(y.t, o)} ::
               |Unfinished(y.t, o)| == |Unfinished(x.t, o)| + if o == org then n else 0
    requires forall b, o {:trigger HoldsLock(y, b, o)} :: HoldsLock(y, b, o) ==>
               HoldsLock(x, b, o) && y.clients[b] == x.clients[b] && o != org
    ensures BacklogOk(y, s)
  {
  }

  lemma InsertLocks(x: System, c: nat, eps: seq<nat>)
    requires LocksOk(x) && ClientEnabled(x, c, Insert(eps)) && !Ingested(x.t, x.clients[c].req.key)
    ensures
      var y := DoInsert(x, c, eps);
      forall b, o {:trigger HoldsLock(y, b, o)} :: HoldsLock(y, b, o) ==>
        HoldsLock(x, b, o) && y.clients[b] == x.clients[b] && o != x.clients[c].req.key.org
  {
    forall b, o | HoldsLock(DoInsert(x, c, eps), b, o)
      ensures HoldsLock(x, b, o) && DoInsert(x, c, eps).clients[b] == x.clients[b] && o != x.clients[c].req.key.org
    {
      InsertReleases(x, c, eps, b, o);
    }
  }

  lemma InsertGrows(t: Tables, s: Settings, req: Request, eps: seq<nat>, now: Time)
    requires TablesOk(t, s)
    ensures
      var u := InsertEvent(t, req, eps, now);
      forall o {:trigger Unfinished(u, o)} ::
        |Unfinished(u, o)| == |Unfinished(t, o)| + if o == req.key.org then |eps| else 0
  {
    forall o
      ensures |Unfinished(InsertEvent(t, req, eps, now), o)|
           == |Unfinished(t, o)| + if o == req.key.org then |eps| else 0
    {
      InsertEventBacklog(t, s, req, eps, now, o);
    }
  }

  lemma InsertBacklog(x: System, s: Settings, c: nat, eps: seq<nat>)
    requires TablesOk(x.t, s) && BacklogOk(x, s) && ClientEnabled(x, c, Insert(eps))
    requires !Ingested(x.t, x.clients[c].req.key)
    ensures BacklogOk(DoInsert(x, c, eps), s)
  {
    var req := x.clients[c].req;
    assert HoldsLock(x, c, req.key.org);
    InsertLocks(x, c, eps);
    InsertGrows(x.t, s, req, eps, x.now);
    GrowBacklog(x, DoInsert(x, c, eps), s, req.key.org, x.clients[c].projected, |eps|);
  }

  lemma CreateReplayBacklog(x: System, s: Settings, c: nat)
    requires TablesOk(x.t, s) && BacklogOk(x, s) && ClientEnabled(x, c, CreateReplay)
    requires Replayable(x.t, x.clients[c].org, x.clients[c].source)
    requires !Replayed(x.t, x.clients[c].org, x.clients[c].source, x.clients[c].key)
    ensures BacklogOk(DoCreateReplay(x, c), s)
  {
    var y := DoCreateReplay(x, c);
    var ReplayChecked(org0, source, key) := x.clients[c];
    forall b, org | HoldsLock(y, b, org)
      ensures HoldsLock(x, b, org) && y.clients[b] == x.clients[b]
    {
    }
    forall org
      ensures |Unfinished(y.t, org)| == |Unfinished(x.t, org)| + if org == org0 then 1 else 0
    {
      InsertReplayBacklog(x.t, s, source, key, x.now, org);
    }
  }

  lemma IngestGrantsNothing(x: System, c: nat, req: Request)
    ensures AddsNothing(x, DoStartIngest(x, c, req)) && DoStartIngest(x, c, req).t == x.t
  {
  }

  lemma RecheckGrantsNothing(x: System, c: nat)
    requires c in x.clients && x.clients[c].IngestConflict?
    ensures AddsNothing(x, DoRecheck(x, c)) && DoRecheck(x, c).t == x.t
  {
  }

  lemma ReplayGrantsNothing(x: System, c: nat, org: OrgId, source: nat, key: string)
    ensures AddsNothing(x, DoStartReplay(x, c, org, source, key)) && DoStartReplay(x, c, org, source, key).t == x.t
  {
  }

  lemma RecheckReplayGrantsNothing(x: System, c: nat)
    requires c in x.clients && x.clients[c].ReplayConflict?
    ensures AddsNothing(x, DoRecheckReplay(x, c)) && DoRecheckReplay(x, c).t == x.t
  {
  }

  lemma RefusalGrantsNothing(x: System, c: nat)
    requires c in x.clients
    ensures x.clients[c].IngestReserved? && Ingested(x.t, x.clients[c].req.key) ==>
              forall eps :: AddsNothing(x, DoInsert(x, c, eps)) && DoInsert(x, c, eps).t == x.t
    ensures x.clients[c].ReplayChecked? && !Creates(x, c) ==>
              AddsNothing(x, DoCreateReplay(x, c)) && DoCreateReplay(x, c).t == x.t
  {
  }

  ghost predicate Creates(x: System, c: nat) {
    && c in x.clients && x.clients[c].ReplayChecked?
    && Replayable(x.t, x.clients[c].org, x.clients[c].source)
    && !Replayed(x.t, x.clients[c].org, x.clients[c].source, x.clients[c].key)
  }

  lemma ServeBacklog(x: System, s: Settings, c: nat, a: ClientAction)
    requires TablesOk(x.t, s) && BacklogOk(x, s) && ClientEnabled(x, c, a)
    ensures BacklogOk(DoServe(x, s, c, a), s)
  {
    if a.Reserve? {
      ReserveBacklog(x, s, c);
    } else if a.Insert? && !Ingested(x.t, x.clients[c].req.key) {
      InsertBacklog(x, s, c, a.eps);
    } else if a.CreateReplay? && Creates(x, c) {
      CreateReplayBacklog(x, s, c);
    } else {
      ServeGrantsNothing(x, s, c, a);
      SameTablesStep(x.t);
      QuietBacklog(x, DoServe(x, s, c, a), s);
    }
  }

  lemma ServeGrantsNothing(x: System, s: Settings, c: nat, a: ClientAction)
    requires ClientEnabled(x, c, a) && !a.Reserve?
    requires a.Insert? ==> Ingested(x.t, x.clients[c].req.key)
    requires a.CreateReplay? ==> !Creates(x, c)
    ensures AddsNothing(x, DoServe(x, s, c, a)) && DoServe(x, s, c, a).t == x.t
  {
    match a
    case StartIngest(req) => IngestGrantsNothing(x, c, req);
    case Recheck => RecheckGrantsNothing(x, c);
    case StartReplay(org, source, key) => ReplayGrantsNothing(x, c, org, source, key);
    case RecheckReplay => RecheckReplayGrantsNothing(x, c);
    case Leave =>
    case _ => RefusalGrantsNothing(x, c);
  }

  lemma WorkInsertsNothing(x: System, s: Settings, w: nat, a: WorkerAction)
    requires ValidSettings(s) && WorkerEnabled(x, w, a)
    ensures DoWork(x, s, w, a).t.deliveries.Keys <= x.t.deliveries.Keys
    ensures DoWork(x, s, w, a).clients == x.clients
    ensures DoWork(x, s, w, a).replays == x.replays && DoWork(x, s, w, a).late == x.late
  {
    if a.RunClaim? {
      var d := x.broker[x.workers[w].tag].delivery;
      if d in x.t.deliveries {
        ClaimShape(x.t, s, x.now, d, a.secretOk);
      }
    }
  }

  lemma DispatchInsertsNothing(x: System, s: Settings, p: nat, a: DispatcherAction)
    requires DispatcherEnabled(x, s, p, a)
    ensures DoDispatch(x, s, p, a).t.deliveries == x.t.deliveries
    ensures DoDispatch(x, s, p, a).clients == x.clients
    ensures DoDispatch(x, s, p, a).replays == x.replays && DoDispatch(x, s, p, a).late == x.late
  {
  }

  lemma MaintainInsertsNothing(t: Tables, s: Settings, now: Time, a: TableAction)
    ensures DoTables(t, s, now, a).deliveries.Keys <= t.deliveries.Keys
  {
  }

  lemma NextBacklog(x: System, s: Settings, a: Action)
    requires ValidSettings(s) && Sound(x, s) && BacklogOk(x, s) && Enabled(x, s, a)
    ensures BacklogOk(Next(x, s, a), s)
  {
    NextSound(x, s, a);
    match a
    case Serve(c, b) => ServeBacklog(x, s, c, b);
    case Work(w, b) => WorkInsertsNothing(x, s, w, b); QuietBacklog(x, Next(x, s, a), s);
    case Dispatch(p, b) => DispatchInsertsNothing(x, s, p, b); QuietBacklog(x, Next(x, s, a), s);
    case Maintain(b) => MaintainInsertsNothing(x.t, s, x.now, b); QuietBacklog(x, Next(x, s, a), s);
    case ReadClock(_) => QuietBacklog(x, Next(x, s, a), s);
  }

  lemma {:induction false} RunBacklog(xs: seq<System>, acts: seq<Action>, s: Settings, i: nat)
    requires Run(xs, acts, s) && i < |xs|
    ensures BacklogOk(xs[i], s)
  {
    if i == 0 {
      InitialBacklog(xs[0], s);
    } else {
      RunBacklog(xs, acts, s, i - 1);
      RunSound(xs, acts, s, i - 1);
      NextBacklog(xs[i - 1], s, acts[i - 1]);
    }
  }

  /**
   In every reachable state an organization's unfinished deliveries number at most the limit, plus the
   replays created for it, plus the deliveries inserted for endpoints that began to match after the
   projection.
   */
  lemma BacklogBounded(xs: seq<System>, acts: seq<Action>, s: Settings, i: nat, org: OrgId)
    requires Run(xs, acts, s) && i < |xs|
    ensures |Unfinished(xs[i].t, org)| <= s.backlogLimit + Tally(xs[i].replays, org) + Tally(xs[i].late, org)
  {
    RunBacklog(xs, acts, s, i);
    assert |Unfinished(xs[i].t, org)| <= Allowance(xs[i], s, org);
  }

  // --- When the plain limit holds -------------------------------------------------------------------

  lemma {:induction false} ListingSize<T(!new)>(xs: seq<T>, s: set<T>)
    requires Lists(xs, s)
    ensures |xs| == |s|
  {
    if xs == [] {
      assert s == {};
    } else {
      var last := xs[|xs| - 1];
      var init := xs[..|xs| - 1];
      assert last in xs;
      forall x
        ensures x in init <==> x in s - {last}
      {
        if x in init {
          var i :| 0 <= i < |init| && init[i] == x;
          assert xs[i] == x && x in xs;
        }
        if x in s - {last} {
          assert x in xs;
        }
      }
      ListingSize(init, s - {last});
    }
  }

  /** `late` grows exactly by the endpoints that match at the insert beyond those projected. */
  lemma LateIsTheDifference(x: System, s: Settings, c: nat, eps: seq<nat>)
    requires ClientEnabled(x, c, Insert(eps)) && !Ingested(x.t, x.clients[c].req.key)
    ensures
      var req := x.clients[c].req;
      var matching := |Matching(x.t, req.key.org, req.eventType)|;
      Tally(DoInsert(x, c, eps).late, req.key.org)
      == Tally(x.late, req.key.org)
         + if matching > x.clients[c].projected then matching - x.clients[c].projected else 0
  {
    ListingSize(eps, Matching(x.t, x.clients[c].req.key.org, x.clients[c].req.eventType));
  }

  /** This step is no insert that finds more matching endpoints than were projected. */
  ghost predicate Punctual(x: System, a: Action) {
    a.Serve? && a.serve.Insert? && a.c in x.clients && x.clients[a.c].IngestReserved? ==>
      |a.serve.eps| <= x.clients[a.c].projected
  }

  lemma ServeLate(x: System, s: Settings, c: nat, a: ClientAction, org: OrgId)
    requires ClientEnabled(x, c, a) && Punctual(x, Serve(c, a))
    ensures Tally(DoServe(x, s, c, a).late, org) == Tally(x.late, org)
  {
    if !a.Insert? {
      ServeKeepsLate(x, s, c, a);
    }
  }

  lemma ServeKeepsLate(x: System, s: Settings, c: nat, a: ClientAction)
    requires ClientEnabled(x, c, a) && !a.Insert?
    ensures DoServe(x, s, c, a).late == x.late
  {
  }

  lemma {:induction false} NothingLate(xs: seq<System>, acts: seq<Action>, s: Settings, n: nat, org: OrgId)
    requires Run(xs, acts, s) && n < |xs|
    requires forall i {:trigger acts[i]} :: 0 <= i < n ==> Punctual(xs[i], acts[i])
    ensures Tally(xs[n].late, org) == 0
  {
    if n > 0 {
      NothingLate(xs, acts, s, n - 1, org);
      var x, a := xs[n - 1], acts[n - 1];
      assert Enabled(x, s, a) && xs[n] == Next(x, s, a);
      match a
      case Serve(c, b) => ServeLate(x, s, c, b, org);
      case Work(w, b) => WorkInsertsNothing(x, s, w, b);
      case Dispatch(p, b) => DispatchInsertsNothing(x, s, p, b);
      case _ =>
    }
  }

  /** If no insert finds more matching endpoints than its projection, the plain limit holds. */
  lemma PunctualBound(xs: seq<System>, acts: seq<Action>, s: Settings, n: nat, org: OrgId)
    requires Run(xs, acts, s) && n < |xs|
    requires forall i {:trigger acts[i]} :: 0 <= i < n ==> Punctual(xs[i], acts[i])
    ensures |Unfinished(xs[n].t, org)| <= s.backlogLimit + Tally(xs[n].replays, org)
  {
    NothingLate(xs, acts, s, n, org);
    BacklogBounded(xs, acts, s, n, org);
  }

  // --- Exactly when it holds ------------------------------------------------------------------------------

  /** The limit as it is documented, with the replays added. */
  predicate PlainlyBounded(x: System, s: Settings, org: OrgId) {
    |Unfinished(x.t, org)| <= s.backlogLimit + Tally(x.replays, org)
  }

  ghost predicate Inserts(x: System, a: Action, org: OrgId) {
    a.Serve? && InsertsEvent(x, a.c, a.serve) && x.clients[a.c].req.key.org == org
  }

  /** If this step inserts an event of `org`, the projection, made once more right now, passes. */
  ghost predicate StillFits(x: System, s: Settings, a: Action, org: OrgId) {
    Inserts(x, a, org) ==>
      ProjectedBacklog(x.t, org, x.clients[a.c].req.eventType) <= s.backlogLimit + Tally(x.replays, org)
  }

  lemma InsertFits(x: System, s: Settings, c: nat, eps: seq<nat>, org: OrgId)
    requires TablesOk(x.t, s) && ClientEnabled(x, c, Insert(eps)) && InsertsEvent(x, c, Insert(eps))
    requires PlainlyBounded(x, s, org)
    ensures PlainlyBounded(DoInsert(x, c, eps), s, org) <==> StillFits(x, s, Serve(c, Insert(eps)), org)
  {
    var req := x.clients[c].req;
    InsertEventBacklog(x.t, s, req, eps, x.now, org);
    ListingSize(eps, Matching(x.t, req.key.org, req.eventType));
  }

  lemma ReplayFits(x: System, s: Settings, c: nat, org: OrgId)
    requires TablesOk(x.t, s) && ClientEnabled(x, c, CreateReplay) && Creates(x, c) && PlainlyBounded(x, s, org)
    ensures PlainlyBounded(DoCreateReplay(x, c), s, org)
  {
    InsertReplayBacklog(x.t, s, x.clients[c].source, x.clients[c].key, x.now, org);
  }

  lemma ServeFits(x: System, s: Settings, c: nat, a: ClientAction, org: OrgId)
    requires TablesOk(x.t, s) && ClientEnabled(x, c, a) && PlainlyBounded(x, s, org)
    ensures PlainlyBounded(DoServe(x, s, c, a), s, org) <==> StillFits(x, s, Serve(c, a), org)
  {
    if a.Insert? && InsertsEvent(x, c, a) {
      InsertFits(x, s, c, a.eps, org);
    } else if a.CreateReplay? && Creates(x, c) {
      ReplayFits(x, s, c, org);
    } else if !a.Reserve? {
      ServeGrantsNothing(x, s, c, a);
    }
  }

  lemma NextFits(x: System, s: Settings, a: Action, org: OrgId)
    requires ValidSettings(s) && Sound(x, s) && Enabled(x, s, a) && PlainlyBounded(x, s, org)
    ensures PlainlyBounded(Next(x, s, a), s, org) <==> StillFits(x, s, a, org)
  {
    match a
    case Serve(c, b) => ServeFits(x, s, c, b, org);
    case Work(w, b) =>
      WorkInsertsNothing(x, s, w, b);
      NextSound(x, s, a);
      StepAddsNoBacklog(x.t, Next(x, s, a).t, org);
    case Dispatch(p, b) =>
      DispatchInsertsNothing(x, s, p, b);
      NextSound(x, s, a);
      StepAddsNoBacklog(x.t, Next(x, s, a).t, org);
    case Maintain(b) =>
      MaintainInsertsNothing(x.t, s, x.now, b);
      NextSound(x, s, a);
      StepAddsNoBacklog(x.t, Next(x, s, a).t, org);
    case ReadClock(_) =>
  }

  lemma InitiallyBounded(x: System, s: Settings, org: OrgId)
    requires Initial(x)
    ensures PlainlyBounded(x, s, org)
  {
    assert Unfinished(x.t, org) == {};
  }

  lemma RunFits(xs: seq<System>, acts: seq<Action>, s: Settings, i: nat, org: OrgId)
    requires Run(xs, acts, s) && i < |acts| && PlainlyBounded(xs[i], s, org)
    ensures PlainlyBounded(xs[i + 1], s, org) <==> StillFits(xs[i], s, acts[i], org)
  {
    RunSound(xs, acts, s, i);
    NextFits(xs[i], s, acts[i], org);
  }

  /** After each of the first `n` steps, and before them, the organization is within the plain bound. */
  predicate BoundedUpTo(xs: seq<System>, s: Settings, n: nat, org: OrgId)
    requires n < |xs|
  {
    forall i :: 0 <= i <= n ==> PlainlyBounded(xs[i], s, org)
  }

  ghost predicate FitsUpTo(xs: seq<System>, acts: seq<Action>, s: Settings, n: nat, org: OrgId)
    requires n <= |acts| && n < |xs|
  {
    forall i {:trigger acts[i]} :: 0 <= i < n ==> StillFits(xs[i], s, acts[i], org)
  }

  lemma {:induction false} FitsMeansBounded(
    xs: seq<System>, acts: seq<Action>, s: Settings, n: nat, org: OrgId, i: nat)
    requires Run(xs, acts, s) && i <= n < |xs| && FitsUpTo(xs, acts, s, n, org)
    ensures PlainlyBounded(xs[i], s, org)
    decreases i
  {
    if i == 0 {
      InitiallyBounded(xs[0], s, org);
    } else {
      FitsMeansBounded(xs, acts, s, n, org, i - 1);
      FitsAt(xs, acts, s, n, org, i - 1);
      RunFits(xs, acts, s, i - 1, org);
    }
  }

  lemma FitsAt(xs: seq<System>, acts: seq<Action>, s: Settings, n: nat, org: OrgId, i: nat)
    requires n <= |acts| && n < |xs| && FitsUpTo(xs, acts, s, n, org) && i < n
    ensures StillFits(xs[i], s, acts[i], org)
  {
  }

  lemma BoundedAt(xs: seq<System>, s: Settings, n: nat, org: OrgId, i: nat)
    requires n < |xs| && BoundedUpTo(xs, s, n, org) && i <= n
    ensures PlainlyBounded(xs[i], s, org)
  {
  }

  /**
   An organization's unfinished deliveries stay within the limit plus its replays throughout a run if and
   only if the projection still passes whenever one of its events is inserted.
   */
  lemma PlainBound(xs: seq<System>, acts: seq<Action>, s: Settings, n: nat, org: OrgId)
    requires Run(xs, acts, s) && n < |xs|
    ensures BoundedUpTo(xs, s, n, org) <==> FitsUpTo(xs, acts, s, n, org)
  {
    if BoundedUpTo(xs, s, n, org) {
      forall i {:trigger acts[i]} | 0 <= i < n
        ensures StillFits(xs[i], s, acts[i], org)
      {
        BoundedAt(xs, s, n, org, i);
        BoundedAt(xs, s, n, org, i + 1);
        RunFits(xs, acts, s, i, org);
      }
    }
    if FitsUpTo(xs, acts, s, n, org) {
      forall i | 0 <= i <= n
        ensures PlainlyBounded(xs[i], s, org)
      {
        FitsMeansBounded(xs, acts, s, n, org, i);
      }
    }
  }

  /** Each of the first `n` inserts comes directly after the projection of the same request. */
  ghost predicate IngestIsOneStep(xs: seq<System>, acts: seq<Action>, n: nat)
    requires n <= |acts| && n < |xs|
  {
    forall i {:trigger acts[i]} :: 0 <= i < n && acts[i].Serve? && InsertsEvent(xs[i], acts[i].c, acts[i].serve) ==>
      i > 0 && acts[i - 1] == Serve(acts[i].c, Reserve)
  }

  /** An insert right after its projection finds what the projection counted. */
  lemma ProjectionHolds(x: System, s: Settings, c: nat, eps: seq<nat>)
    requires ClientEnabled(x, c, Reserve) && InsertsEvent(DoReserve(x, s, c), c, Insert(eps))
    ensures StillFits(DoReserve(x, s, c), s, Serve(c, Insert(eps)), x.clients[c].req.key.org)
    ensures DoReserve(x, s, c).clients[c].req == x.clients[c].req
  {
  }

  lemma OneStepFits(xs: seq<System>, acts: seq<Action>, s: Settings, n: nat, org: OrgId, i: nat)
    requires Run(xs, acts, s) && n < |xs| && IngestIsOneStep(xs, acts, n) && i < n
    ensures StillFits(xs[i], s, acts[i], org)
  {
    if acts[i].Serve? && InsertsEvent(xs[i], acts[i].c, acts[i].serve) {
      var j := i - 1;
      assert acts[j] == Serve(acts[i].c, Reserve);
      assert Enabled(xs[j], s, acts[j]) && xs[i] == Next(xs[j], s, acts[j]);
      ProjectionHolds(xs[j], s, acts[i].c, acts[i].serve.eps);
    }
  }

  /** With ingest as one step under the organization's lock the plain bound holds in every reachable state. */
  lemma OneStepIngestIsPlainlyBounded(xs: seq<System>, acts: seq<Action>, s: Settings, n: nat, org: OrgId)
    requires Run(xs, acts, s) && n < |xs| && IngestIsOneStep(xs, acts, n)
    ensures PlainlyBounded(xs[n], s, org)
  {
    forall i {:trigger acts[i]} | 0 <= i < n
      ensures StillFits(xs[i], s, acts[i], org)
    {
      OneStepFits(xs, acts, s, n, org, i);
    }
    PlainBound(xs, acts, s, n, org);
  }
}
