/** Racing requests with one Idempotency-Key agree, for ingest and for replay. */
module Idempotency {
  import opened Wrappers
  import opened Tables
  import opened Transactions
  import opened TableInvariant
  import opened Evolution
  import opened Pipeline
  import opened NoLostWork
  import opened Fingerprint
  import opened History

  // --- One reply --------------------------------------------------------------------------------------

  /** What a reply says is true of the tables before (`t`) and after (`u`) the step that gave it. */
  ghost predicate Truthful(t: Tables, u: Tables, r: Reply) {
    match r
    case EventAccepted(req, e) => EventFor(u, req.key, e) && u.events[e].fingerprint == req.fingerprint
    case EventRefused(req) => exists e :: EventFor(t, req.key, e) && t.events[e].fingerprint != req.fingerprint
    case Overloaded(_) => true
    case ReplayReturned(org, source, key, d) => ReplayFor(u, org, source, key, d)
  }

  ghost predicate Replies(x: System, y: System) {
    || y.replies == x.replies
    || (|y.replies| == |x.replies| + 1 && y.replies[..|x.replies|] == x.replies
        && Truthful(x.t, y.t, y.replies[|x.replies|]))
  }

  lemma IdempotentReplyTruthful(t: Tables, req: Request)
    requires Ingested(t, req.key)
    ensures Truthful(t, t, IdempotentReply(t, req))
  {
    assert EventFor(t, req.key, EventOf(t, req.key));
  }

  lemma LookupReplies(x: System, s: Settings, c: nat, a: ClientAction)
    requires ClientEnabled(x, c, a) && (a.StartIngest? || a.Recheck?)
    ensures Replies(x, DoServe(x, s, c, a))
  {
    if a.StartIngest? && Ingested(x.t, a.req.key) {
      IdempotentReplyTruthful(x.t, a.req);
    } else if a.Recheck? && Ingested(x.t, x.clients[c].req.key) {
      IdempotentReplyTruthful(x.t, x.clients[c].req);
    }
  }

  lemma InsertReplies(x: System, s: Settings, c: nat, a: ClientAction)
    requires ClientEnabled(x, c, a) && (a.Reserve? || a.Insert?)
    ensures Replies(x, DoServe(x, s, c, a))
  {
    if a.Insert? && !Ingested(x.t, x.clients[c].req.key) {
      assert EventFor(InsertEvent(x.t, x.clients[c].req, a.eps, x.now), x.clients[c].req.key, x.t.nextEvent);
    }
  }

  lemma CreateReplayReplies(x: System, s: Settings, c: nat)
    requires TablesOk(x.t, s) && ClientEnabled(x, c, CreateReplay)
    ensures Replies(x, DoCreateReplay(x, c))
  {
    var ReplayChecked(org, source, key) := x.clients[c];
    if Replayable(x.t, org, source) && !Replayed(x.t, org, source, key) {
      assert ReplayFor(InsertReplay(x.t, source, key, x.now), org, source, key, x.t.nextDelivery);
    }
  }

  lemma ServeReplies(x: System, s: Settings, c: nat, a: ClientAction)
    requires TablesOk(x.t, s) && ClientEnabled(x, c, a)
    ensures Replies(x, DoServe(x, s, c, a))
  {
    match a
    case StartReplay(org, source, key) => StartReplayReplies(x, c, org, source, key);
    case CreateReplay => CreateReplayReplies(x, s, c);
    case RecheckReplay => RecheckReplayReplies(x, c);
    case Leave =>
    case StartIngest(_) | Recheck => LookupReplies(x, s, c, a);
    case Reserve | Insert(_) => InsertReplies(x, s, c, a);
  }

  lemma StartReplayReplies(x: System, c: nat, org: OrgId, source: nat, key: string)
    ensures Replies(x, DoStartReplay(x, c, org, source, key))
  {
  }

  lemma RecheckReplayReplies(x: System, c: nat)
    requires c in x.clients && x.clients[c].ReplayConflict?
    ensures Replies(x, DoRecheckReplay(x, c))
  {
  }

  lemma OthersReplyNothing(x: System, s: Settings, a: Action)
    requires ValidSettings(s) && Enabled(x, s, a) && !a.Serve?
    ensures Next(x, s, a).replies == x.replies && Next(x, s, a).clients == x.clients
  {
    match a
    case Work(w, b) => WorkRepliesNothing(x, s, w, b);
    case Dispatch(p, b) => DispatchRepliesNothing(x, s, p, b);
    case _ =>
  }

  lemma WorkRepliesNothing(x: System, s: Settings, w: nat, a: WorkerAction)
    requires ValidSettings(s) && WorkerEnabled(x, w, a)
    ensures DoWork(x, s, w, a).replies == x.replies && DoWork(x, s, w, a).clients == x.clients
  {
  }

  lemma DispatchRepliesNothing(x: System, s: Settings, p: nat, a: DispatcherAction)
    requires DispatcherEnabled(x, s, p, a)
    ensures DoDispatch(x, s, p, a).replies == x.replies && DoDispatch(x, s, p, a).clients == x.clients
  {
  }

  lemma NextReplies(x: System, s: Settings, a: Action)
    requires ValidSettings(s) && Sound(x, s) && Enabled(x, s, a)
    ensures Replies(x, Next(x, s, a))
  {
    if a.Serve? {
      ServeReplies(x, s, a.c, a.serve);
    } else {
      OthersReplyNothing(x, s, a);
    }
  }

  // --- All replies of a run -----------------------------------------------------------------------------

  lemma RunReplies(xs: seq<System>, acts: seq<Action>, s: Settings, j: nat)
    requires Run(xs, acts, s) && 0 < j < |xs|
    ensures Replies(xs[j - 1], xs[j])
  {
    RunSound(xs, acts, s, j - 1);
    NextReplies(xs[j - 1], s, acts[j - 1]);
  }

  lemma PrefixOfPrefix(a: seq<Reply>, b: seq<Reply>, c: seq<Reply>)
    requires |a| <= |b| <= |c| && b[..|a|] == a && c[..|b|] == b
    ensures c[..|a|] == a
  {
  }

  lemma {:induction false} RepliesGrow(xs: seq<System>, acts: seq<Action>, s: Settings, i: nat, j: nat)
    requires Run(xs, acts, s) && i <= j < |xs|
    ensures |xs[i].replies| <= |xs[j].replies| && xs[j].replies[..|xs[i].replies|] == xs[i].replies
    decreases j
  {
    if i < j {
      RepliesGrow(xs, acts, s, i, j - 1);
      RunReplies(xs, acts, s, j);
      PrefixOfPrefix(xs[i].replies, xs[j - 1].replies, xs[j].replies);
    }
  }

  /** The step in which reply number `n` was given. */
  lemma {:induction false} GivenAt(xs: seq<System>, acts: seq<Action>, s: Settings, i: nat, j: nat, n: nat)
    returns (k: nat)
    requires Run(xs, acts, s) && i <= j < |xs| && |xs[i].replies| <= n < |xs[j].replies|
    ensures i <= k < j && |xs[k].replies| == n && |xs[k + 1].replies| == n + 1
    ensures xs[k + 1].replies[n] == xs[j].replies[n]
    ensures Truthful(xs[k].t, xs[k + 1].t, xs[j].replies[n])
    decreases j
  {
    RunReplies(xs, acts, s, j);
    if n < |xs[j - 1].replies| {
      k := GivenAt(xs, acts, s, i, j - 1, n);
      assert xs[j].replies[n] == xs[j].replies[..|xs[j - 1].replies|][n];
    } else {
      RepliesGrow(xs, acts, s, i, j - 1);
      k := j - 1;
    }
  }

  lemma EventIsUnique(t: Tables, key: IngestKey, a: nat, b: nat)
    requires EventKeysOk(t) && EventFor(t, key, a) && EventFor(t, key, b)
    ensures a == b
  {
    assert SameKey(t.events[a], t.events[b]);
  }

  /** An event that exists at both ends of a stretch of a run exists, unchanged, all along. */
  lemma EventPersists(xs: seq<System>, acts: seq<Action>, s: Settings, i: nat, k: nat, j: nat, e: nat)
    requires Run(xs, acts, s) && i <= k <= j < |xs|
    requires e in xs[i].t.events && e in xs[j].t.events
    ensures e in xs[k].t.events && xs[k].t.events[e] == xs[i].t.events[e]
  {
    RunSound(xs, acts, s, i);
    RunEvolves(xs, acts, s, i, k);
    RunEvolves(xs, acts, s, k, j);
  }

  // --- Overloaded ---------------------------------------------------------------------------------------

  /** Client `c` asked for `req` in this step and was told that its key is new. */
  ghost predicate FindsKeyNew(x: System, a: Action, c: nat, req: Request) {
    a == Serve(c, StartIngest(req)) && !Ingested(x.t, req.key)
  }

  /** A request that is checked in `y` was so in `x`, unless it is client `b`'s new one. */
  ghost predicate ChecksOnly(x: System, y: System, b: nat, req: Option<Request>) {
    forall c :: c in y.clients && y.clients[c].IngestChecked? ==>
      || (c in x.clients && x.clients[c] == y.clients[c])
      || (c == b && req.Some? && y.clients[c].req == req.value && !Ingested(x.t, req.value.key))
  }

  lemma AskingChecks(x: System, c: nat, req: Request)
    ensures ChecksOnly(x, DoStartIngest(x, c, req), c, Some(req))
  {
  }

  lemma IngestChecksNothing(x: System, s: Settings, c: nat, a: ClientAction)
    requires ClientEnabled(x, c, a) && (a.Reserve? || a.Insert? || a.Recheck?)
    ensures ChecksOnly(x, DoServe(x, s, c, a), c, None)
  {
  }

  lemma ReplayChecksNothing(x: System, s: Settings, c: nat, a: ClientAction)
    requires ClientEnabled(x, c, a) && (a.StartReplay? || a.CreateReplay? || a.RecheckReplay? || a.Leave?)
    ensures ChecksOnly(x, DoServe(x, s, c, a), c, None)
  {
  }

  /** A request becomes checked only by finding its key new. */
  lemma CheckedStep(x: System, s: Settings, b: nat, a: ClientAction, c: nat)
    requires ClientEnabled(x, b, a)
    requires c in DoServe(x, s, b, a).clients && DoServe(x, s, b, a).clients[c].IngestChecked?
    ensures
      var q := DoServe(x, s, b, a).clients[c];
      (c in x.clients && x.clients[c] == q) || FindsKeyNew(x, Serve(b, a), c, q.req)
  {
    match a
    case StartIngest(req) => AskingChecks(x, b, req);
    case Reserve | Insert(_) | Recheck => IngestChecksNothing(x, s, b, a);
    case _ => ReplayChecksNothing(x, s, b, a);
  }

  lemma {:induction false} CheckedAt(xs: seq<System>, acts: seq<Action>, s: Settings, k: nat, c: nat)
    returns (b: nat)
    requires Run(xs, acts, s) && k < |xs| && c in xs[k].clients && xs[k].clients[c].IngestChecked?
    ensures b < k && FindsKeyNew(xs[b], acts[b], c, xs[k].clients[c].req)
  {
    var x, a := xs[k - 1], acts[k - 1];
    assert Enabled(x, s, a) && xs[k] == Next(x, s, a);
    if a.Serve? {
      CheckedStep(x, s, a.c, a.serve, c);
    } else {
      OthersReplyNothing(x, s, a);
    }
    if c in x.clients && x.clients[c] == xs[k].clients[c] {
      b := CheckedAt(xs, acts, s, k - 1, c);
    } else {
      b := k - 1;
    }
  }

  /** Only a checked request is answered with Overloaded. */
  lemma OverloadedStep(x: System, s: Settings, a: Action, req: Request)
    requires ValidSettings(s) && Enabled(x, s, a)
    requires |Next(x, s, a).replies| == |x.replies| + 1 && Next(x, s, a).replies[|x.replies|] == Overloaded(req)
    ensures a.Serve? && a.c in x.clients && x.clients[a.c] == IngestChecked(req)
  {
    if a.Serve? {
      ServeOverloads(x, s, a.c, a.serve, req);
    } else {
      OthersReplyNothing(x, s, a);
    }
  }

  ghost predicate OverloadsNobody(x: System, y: System) {
    |y.replies| == |x.replies| + 1 ==> !y.replies[|x.replies|].Overloaded?
  }

  lemma IngestOverloadsNobody(x: System, s: Settings, c: nat, a: ClientAction)
    requires ClientEnabled(x, c, a) && (a.StartIngest? || a.Insert? || a.Recheck?)
    ensures OverloadsNobody(x, DoServe(x, s, c, a))
  {
  }

  lemma ReplayOverloadsNobody(x: System, s: Settings, c: nat, a: ClientAction)
    requires ClientEnabled(x, c, a) && (a.StartReplay? || a.CreateReplay? || a.RecheckReplay? || a.Leave?)
    ensures OverloadsNobody(x, DoServe(x, s, c, a))
  {
  }

  lemma ServeOverloads(x: System, s: Settings, c: nat, a: ClientAction, req: Request)
    requires ClientEnabled(x, c, a)
    requires |DoServe(x, s, c, a).replies| == |x.replies| + 1
    requires DoServe(x, s, c, a).replies[|x.replies|] == Overloaded(req)
    ensures c in x.clients && x.clients[c] == IngestChecked(req)
  {
    match a
    case Reserve =>
    case StartIngest(_) | Insert(_) | Recheck => IngestOverloadsNobody(x, s, c, a);
    case _ => ReplayOverloadsNobody(x, s, c, a);
  }

  /** `req` was asked before state `i`, by a client that found its key new. */
  ghost predicate AskedBefore(xs: seq<System>, acts: seq<Action>, i: nat, req: Request)
    requires i <= |acts| && i < |xs|
  {
    exists b: nat {:trigger acts[b]} :: b < i && acts[b].Serve? && FindsKeyNew(xs[b], acts[b], acts[b].c, req)
  }

  lemma OverloadedWasAskedBefore(
    xs: seq<System>, acts: seq<Action>, s: Settings, i: nat, k: nat, j: nat, e: nat, req: Request)
    requires Run(xs, acts, s) && i <= k < j < |xs|
    requires e in xs[i].t.events && e in xs[j].t.events && req.key == xs[i].t.events[e].key
    requires |xs[k + 1].replies| == |xs[k].replies| + 1 && xs[k + 1].replies[|xs[k].replies|] == Overloaded(req)
    ensures AskedBefore(xs, acts, i, req)
  {
    assert Enabled(xs[k], s, acts[k]);
    OverloadedStep(xs[k], s, acts[k], req);
    var b := CheckedAt(xs, acts, s, k, acts[k].c);
    if b >= i {
      EventPersists(xs, acts, s, i, b, j, e);
      assert EventFor(xs[b].t, req.key, e);
      assert false;
    }
    assert acts[b] == acts[b];
  }

  // --- One key, one event -------------------------------------------------------------------------------

  /**
   Idempotent ingest under races: while event `e` exists, every reply to a request with its key, however
   the requests interleave, accepts it with this very event id if the content is the same and refuses it
   if the content differs; only requests that asked before the event existed can be told to come back
   later instead.
   */
  lemma SameKeySameEvent(xs: seq<System>, acts: seq<Action>, s: Settings, i: nat, j: nat, e: nat, n: nat)
    requires Run(xs, acts, s) && i <= j < |xs|
    requires e in xs[i].t.events && e in xs[j].t.events
    requires |xs[i].replies| <= n < |xs[j].replies|
    ensures
      match xs[j].replies[n]
      case EventAccepted(req, id) =>
        req.key == xs[i].t.events[e].key ==> id == e && req.fingerprint == xs[i].t.events[e].fingerprint
      case EventRefused(req) =>
        req.key == xs[i].t.events[e].key ==> req.fingerprint != xs[i].t.events[e].fingerprint
      case Overloaded(req) =>
        req.key == xs[i].t.events[e].key ==> AskedBefore(xs, acts, i, req)
      case ReplayReturned(_, _, _, _) => true
  {
    var k := GivenAt(xs, acts, s, i, j, n);
    EventPersists(xs, acts, s, i, k, j, e);
    EventPersists(xs, acts, s, i, k + 1, j, e);
    RunSound(xs, acts, s, k);
    RunSound(xs, acts, s, k + 1);
    match xs[j].replies[n]
    case EventAccepted(req, id) =>
      if req.key == xs[i].t.events[e].key {
        EventIsUnique(xs[k + 1].t, req.key, e, id);
      }
    case EventRefused(req) =>
      if req.key == xs[i].t.events[e].key {
        var f :| EventFor(xs[k].t, req.key, f) && xs[k].t.events[f].fingerprint != req.fingerprint;
        EventIsUnique(xs[k].t, req.key, e, f);
      }
    case Overloaded(req) =>
      if req.key == xs[i].t.events[e].key {
        OverloadedWasAskedBefore(xs, acts, s, i, k, j, e, req);
      }
    case ReplayReturned(_, _, _, _) =>
  }

  /** Two accepted replies for one key name the same event as long as the first one's event exists. */
  lemma AcceptedRepliesAgree(xs: seq<System>, acts: seq<Action>, s: Settings, j: nat, m: nat, n: nat)
    requires Run(xs, acts, s) && j < |xs| && m < n < |xs[j].replies|
    requires xs[j].replies[m].EventAccepted? && xs[j].replies[n].EventAccepted?
    requires xs[j].replies[m].req.key == xs[j].replies[n].req.key
    requires xs[j].replies[m].event in xs[j].t.events
    ensures xs[j].replies[n].event == xs[j].replies[m].event
    ensures xs[j].replies[n].req.fingerprint == xs[j].replies[m].req.fingerprint
  {
    var k := GivenAt(xs, acts, s, 0, j, m);
    SameKeySameEvent(xs, acts, s, k + 1, j, xs[j].replies[m].event, n);
  }

  // --- Fan-out -------------------------------------------------------------------------------------------

  /** The i-th listed endpoint's delivery and its one outbox row. */
  ghost predicate Serves(t: Tables, u: Tables, req: Request, eps: seq<nat>, now: Time, i: nat)
    requires i < |eps|
  {
    var d := t.nextDelivery + i;
    && d in u.deliveries
    && u.deliveries[d] == Delivery(req.key.org, t.nextEvent, eps[i], Queued, 0, None, None, None, None, now)
    && (forall r :: 0 <= r < |u.outbox| ==> (u.outbox[r].delivery == d <==> r == |t.outbox| + i))
    && |t.outbox| + i < |u.outbox| && u.outbox[|t.outbox| + i] == OutboxRow(d, false, now, None, 0, false)
  }

  lemma OneDelivery(t: Tables, s: Settings, req: Request, eps: seq<nat>, now: Time, i: nat)
    requires TablesOk(t, s) && i < |eps|
    ensures Serves(t, InsertEvent(t, req, eps, now), req, eps, now, i)
  {
    var u := InsertEvent(t, req, eps, now);
    NumbersInUse(t);
    assert Within(t.nextDelivery, t.nextDelivery + i, |eps|);
    InsertEventOutbox(t, req, eps, now, i);
    forall r | 0 <= r < |u.outbox|
      ensures u.outbox[r].delivery == t.nextDelivery + i <==> r == |t.outbox| + i
    {
      if r >= |t.outbox| {
        InsertEventOutbox(t, req, eps, now, r - |t.outbox|);
      }
    }
  }

  /**
   An accepted event has one queued original delivery, with one outbox row, for each endpoint of the
   organization that is active, enabled, not deleted and subscribed at the insert, and no other delivery;
   existing rows are untouched.
   */
  lemma IngestFansOut(t: Tables, s: Settings, req: Request, eps: seq<nat>, now: Time)
    requires TablesOk(t, s) && Lists(eps, Matching(t, req.key.org, req.eventType))
    ensures
      var u := InsertEvent(t, req, eps, now);
      && |u.outbox| == |t.outbox| + |eps|
      && (forall i: nat :: i < |eps| ==> Serves(t, u, req, eps, now, i))
      && (forall d :: d in u.deliveries && u.deliveries[d].event == t.nextEvent ==>
            t.nextDelivery <= d < t.nextDelivery + |eps|)
      && (forall e :: e in eps <==>
            && e in t.endpoints && t.endpoints[e].org == req.key.org && t.endpoints[e].status == Active
            && t.endpoints[e].enabled && t.endpoints[e].deletedAt.None? && req.eventType in t.endpoints[e].eventTypes)
      && u.events == t.events[t.nextEvent := Event(req.key, req.eventType, req.fingerprint, now)]
      && (forall d :: d in t.deliveries ==> d in u.deliveries && u.deliveries[d] == t.deliveries[d])
      && u.outbox[..|t.outbox|] == t.outbox && u.attempts == t.attempts && u.endpoints == t.endpoints
  {
    NumbersInUse(t);
    forall i: nat | i < |eps|
      ensures Serves(t, InsertEvent(t, req, eps, now), req, eps, now, i)
    {
      OneDelivery(t, s, req, eps, now, i);
    }
  }

  /** Never two originals for one event and endpoint, in any reachable state. */
  lemma OneOriginal(xs: seq<System>, acts: seq<Action>, s: Settings, i: nat, a: nat, b: nat)
    requires Run(xs, acts, s) && i < |xs| && a in xs[i].t.deliveries && b in xs[i].t.deliveries
    requires xs[i].t.deliveries[a].replayOf.None? && xs[i].t.deliveries[b].replayOf.None?
    requires xs[i].t.deliveries[a].event == xs[i].t.deliveries[b].event
    requires xs[i].t.deliveries[a].endpoint == xs[i].t.deliveries[b].endpoint
    ensures a == b
  {
    RunSound(xs, acts, s, i);
    assert Twins(xs[i].t.deliveries[a], xs[i].t.deliveries[b]);
  }

  // --- Replays --------------------------------------------------------------------------------------------

  lemma ReplayIsUnique(t: Tables, org: OrgId, source: nat, key: string, a: nat, b: nat)
    requires DeliveryKeysOk(t) && ReplayFor(t, org, source, key, a) && ReplayFor(t, org, source, key, b)
    ensures a == b
  {
    assert Twins(t.deliveries[a], t.deliveries[b]);
  }

  /** Racing replays with one key yield one row, which all callers receive while it exists. */
  lemma RacingReplaysAgree(xs: seq<System>, acts: seq<Action>, s: Settings, j: nat, m: nat, n: nat)
    requires Run(xs, acts, s) && j < |xs| && m < n < |xs[j].replies|
    requires xs[j].replies[m].ReplayReturned? && xs[j].replies[n].ReplayReturned?
    requires xs[j].replies[m].org == xs[j].replies[n].org && xs[j].replies[m].source == xs[j].replies[n].source
    requires xs[j].replies[m].key == xs[j].replies[n].key
    requires xs[j].replies[m].replay in xs[j].t.deliveries
    ensures xs[j].replies[n].replay == xs[j].replies[m].replay
  {
    var first, second := xs[j].replies[m], xs[j].replies[n];
    var k := GivenAt(xs, acts, s, 0, j, m);
    var l := GivenAt(xs, acts, s, k + 1, j, n);
    RunSound(xs, acts, s, k + 1);
    RunSound(xs, acts, s, l + 1);
    NumbersInUse(xs[k + 1].t);
    RunEvolves(xs, acts, s, k + 1, l + 1);
    RunEvolves(xs, acts, s, l + 1, j);
    assert RowEvolves(xs[k + 1].t.deliveries[first.replay], xs[l + 1].t.deliveries[first.replay]);
    ReplayIsUnique(xs[l + 1].t, first.org, first.source, first.key, first.replay, second.replay);
  }

  /** A replay is a new queued delivery of the same event; its terminal source is left as it was. */
  lemma ReplayLeavesSource(t: Tables, s: Settings, org: OrgId, source: nat, key: string, now: Time)
    requires TablesOk(t, s) && Replayable(t, org, source)
    ensures
      var u := InsertReplay(t, source, key, now);
      var d := t.nextDelivery;
      && (forall c :: c in t.deliveries ==> c in u.deliveries && u.deliveries[c] == t.deliveries[c])
      && d !in t.deliveries && d in u.deliveries
      && u.deliveries[d] == Delivery(org, t.deliveries[source].event, t.deliveries[source].endpoint, Queued, 0,
                                     None, None, Some(source), Some(key), now)
      && ReplayFor(u, org, source, key, d)
      && u.outbox == t.outbox + [OutboxRow(d, false, now, None, 0, false)]
  {
    NumbersInUse(t);
  }

  /** The delivery reached from `d` by following replay_of `n` times, while the links last. */
  function Ancestor(t: Tables, d: nat, n: nat): Option<nat>
    decreases n
  {
    if n == 0 then Some(d)
    else if d in t.deliveries && t.deliveries[d].replayOf.Some? then Ancestor(t, t.deliveries[d].replayOf.value, n - 1)
    else None
  }

  /** Replay links form a forest: every ancestor is older, finished, and of the same event and endpoint. */
  lemma {:induction false} ReplayForest(t: Tables, s: Settings, d: nat, n: nat)
    requires TablesOk(t, s) && d in t.deliveries && n > 0
    ensures n > d ==> Ancestor(t, d, n).None?
    ensures
      Ancestor(t, d, n).Some? ==>
        var a := Ancestor(t, d, n).value;
        && a + n <= d && a in t.deliveries && Terminal(t.deliveries[a].status)
        && t.deliveries[a].event == t.deliveries[d].event && t.deliveries[a].org == t.deliveries[d].org
        && t.deliveries[a].endpoint == t.deliveries[d].endpoint
    decreases n
  {
    assert RefsRowOk(t, d);
    if t.deliveries[d].replayOf.Some? && n > 1 {
      ReplayForest(t, s, t.deliveries[d].replayOf.value, n - 1);
    }
  }

  // --- In terms of what producers send ----------------------------------------------------------------------

  /** `req` is the request that ingest makes of content `c` under some Idempotency-Key. */
  predicate RequestOf(req: Request, c: Content) {
    && req.key.org == c.org && req.key.apiKey == c.apiKey && req.eventType == c.eventType
    && req.fingerprint == MaterialOf(c)
  }

  /**
   While an event made from content `original` exists, every reply under its key accepts `again` with the
   original event id if both contents mean the same (whatever the order of their object members), and
   refuses it if they do not; Overloaded goes only to a request that asked before the event existed.
   */
  lemma SameContentSameEvent(
    xs: seq<System>, acts: seq<Action>, s: Settings, i: nat, j: nat, e: nat, n: nat, original: Content, again: Content)
    requires Run(xs, acts, s) && i <= j < |xs|
    requires e in xs[i].t.events && e in xs[j].t.events
    requires |xs[i].replies| <= n < |xs[j].replies|
    requires !xs[j].replies[n].ReplayReturned?
    requires xs[j].replies[n].req.key == xs[i].t.events[e].key
    requires Acceptable(original) && xs[i].t.events[e].fingerprint == MaterialOf(original)
    requires Acceptable(again) && RequestOf(xs[j].replies[n].req, again)
    ensures xs[j].replies[n].Overloaded? ==> AskedBefore(xs, acts, i, xs[j].replies[n].req)
    ensures !xs[j].replies[n].Overloaded? ==>
              xs[j].replies[n] == if SameContent(original, again) then EventAccepted(xs[j].replies[n].req, e)
                                  else EventRefused(xs[j].replies[n].req)
  {
    SameKeySameEvent(xs, acts, s, i, j, e, n);
    SameMaterialSameContent(original, again);
  }
}
