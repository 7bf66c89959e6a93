/**
 For every batch size, a run with one endpoint after which cleanup aborts for ever: an event is ingested,
 its delivery is cancelled and replayed until one row more than a batch exists, and the endpoint is
 deleted. Once everything has expired, the first batch takes the source and not its last replay.
 */
module CleanupStall {
  import opened Wrappers
  import opened Tables
  import opened Transactions
  import opened TableInvariant
  import opened Pipeline
  import opened Traces
  import opened Scenarios
  import opened Retention

  // --- A table that no number of passes cleans ----------------------------------------------------------------

  /** Deliveries 0 to n, all of the same time and cancelled; number 0 is the source of all others. */
  ghost predicate Cancelled0To(t: Tables, n: nat) {
    && (forall d: nat :: d in t.deliveries <==> d <= n)
    && (forall d :: d in t.deliveries ==>
          && t.deliveries[d].status == Cancelled && t.deliveries[d].createdAt == 0
          && t.deliveries[d].replayOf == if d == 0 then None else Some(0))
  }

  /** The rank of a delivery is its number. */
  lemma RankIsNumber(t: Tables, n: nat, cutoff: Time, d: nat)
    requires Cancelled0To(t, n) && cutoff > 0 && d <= n
    ensures d in ExpiredDeliveries(t, cutoff) && Rank(t, cutoff, d) == d
  {
    assert OlderExpired(t, cutoff, d) == Block(0, d) by {
      InBlock(d);
    }
    BlockSize(0, d);
  }

  lemma LastReplayIsLate(t: Tables, cutoff: Time, limit: nat)
    requires Cancelled0To(t, limit) && cutoff > 0 && limit >= 1
    ensures !ReplaysInBatch(t, cutoff, limit)
  {
    RankIsNumber(t, limit, cutoff, 0);
    RankIsNumber(t, limit, cutoff, limit);
    BatchNumbers(0, 0, limit);
    assert !InBatch(t, cutoff, limit, limit);
  }

  lemma FirstPassAborts(t: Tables, s: Settings, now: Time, limit: nat, w: Sweep)
    requires Cancelled0To(t, limit) && Cutoff(s, now) > 0 && limit >= 1 && FullPass(t, s, now, limit, w)
    ensures Orphans(t, w.deliveries)
  {
    RankIsNumber(t, limit, Cutoff(s, now), 0);
    RankIsNumber(t, limit, Cutoff(s, now), limit);
    PicksByRank(t, s, now, limit, w, 0);
    PicksByRank(t, s, now, limit, w, limit);
  }

  /** However often cleanup is run, it finds rows to remove, aborts, and leaves the tables as they are. */
  ghost predicate Stalls(t: Tables, s: Settings, now: Time, limit: nat) {
    forall ts: seq<Tables>, ws: seq<Sweep>, n: nat {:trigger Passes(ts, ws, s, now, limit), ws[n]} ::
      Passes(ts, ws, s, now, limit) && ts[0] == t && n < |ws| ==>
        ts[n] == t && Orphans(t, ws[n].deliveries) && Total(ws[n]) > 0
  }

  lemma ItStalls(t: Tables, s: Settings, now: Time, limit: nat)
    requires Cancelled0To(t, limit) && Cutoff(s, now) > 0 && limit >= 1
    ensures Stalls(t, s, now, limit)
  {
    forall ts: seq<Tables>, ws: seq<Sweep>, n: nat | Passes(ts, ws, s, now, limit) && ts[0] == t && n < |ws|
      ensures ts[n] == t && Orphans(t, ws[n].deliveries) && Total(ws[n]) > 0
    {
      StallsAt(ts, ws, s, now, limit, n);
    }
  }

  lemma StallsAt(ts: seq<Tables>, ws: seq<Sweep>, s: Settings, now: Time, limit: nat, n: nat)
    requires Passes(ts, ws, s, now, limit) && n < |ws|
    requires Cancelled0To(ts[0], limit) && Cutoff(s, now) > 0 && limit >= 1
    ensures ts[n] == ts[0] && Orphans(ts[0], ws[n].deliveries) && Total(ws[n]) > 0
  {
    assert FullPass(ts[0], s, now, limit, ws[0]) && FullPass(ts[n], s, now, limit, ws[n]);
    FirstPassAborts(ts[0], s, now, limit, ws[0]);
    if n > 0 {
      AbortRepeats(ts, ws, s, now, limit, n - 1);
    }
    FirstPassAborts(ts[0], s, now, limit, ws[n]);
    LastReplayIsLate(ts[0], Cutoff(s, now), limit);
    NeverCleans(ts, ws, s, now, limit, n);
  }

  // --- A run that gets there ------------------------------------------------------------------------------------

  function Original(status: DeliveryStatus): Delivery {
    NewDelivery(ORG, 0, 0, 0).(status := status)
  }

  function Copy(d: nat): Delivery {
    NewDelivery(ORG, 0, 0, 0).(replayOf := Some(0), replayKey := Some(KeyText(d)))
  }

  /** The cancelled original and n queued replays of it. */
  ghost predicate Copied(x: System, n: nat) {
    && x.clients == map[] && x.now == 0 && Manageable(x.t, ORG, 0) && x.t.nextDelivery == n + 1
    && (forall d: nat :: d in x.t.deliveries <==> d <= n)
    && (forall d :: d in x.t.deliveries ==>
          x.t.deliveries[d] == if d == 0 then Original(Cancelled) else Copy(d))
  }

  /** With no endpoint verified yet, the event passes the projection whatever the limit. */
  lemma IngestIt(s: Settings) returns (acts: seq<Action>, y: System)
    requires ValidSettings(s)
    ensures Leads(START, acts, y, s) && y.clients == map[] && y.now == 0
    ensures y.t.endpoints == map[0 := Receiver(Active, {PAID})]
    ensures y.t.deliveries == map[0 := Original(Queued)] && y.t.nextDelivery == 1
  {
    var req := Asking(0, PAID);
    var create, x1 := CreateIt(s);
    NothingThere(x1.t);
    var reserve, x2 := ReserveIt(x1, s, req);
    LeadsConcat(START, create, x1, reserve, x2, s);
    var verify, x3 := VerifyIt(x2, s);
    LeadsConcat(START, create + reserve, x2, verify, x3, s);
    MatchIt(x3.t, PAID);
    NothingIngested(x3.t);
    var insert;
    insert, y := InsertIt(x3, s, req, 0, [0]);
    LeadsConcat(START, create + reserve + verify, x3, insert, y, s);
    FirstDelivery(x3.t, req);
    acts := create + reserve + verify + insert;
  }

  lemma NothingIngested(t: Tables)
    requires t.events == map[]
    ensures !Ingested(t, Asking(0, PAID).key)
  {
    assert forall e :: !EventFor(t, Asking(0, PAID).key, e);
  }

  lemma NothingThere(t: Tables)
    requires t.events == map[] && t.deliveries == map[]
    requires t.endpoints == map[0 := Receiver(PendingVerification, {PAID})]
    ensures !Ingested(t, Asking(0, PAID).key) && ProjectedBacklog(t, ORG, PAID) == 0
    ensures Matching(t, ORG, PAID) == {}
  {
    NothingIngested(t);
    MatchIt(t, PAID);
    assert Unfinished(t, ORG) == {};
  }

  lemma FirstDelivery(t: Tables, req: Request)
    requires t.deliveries == map[] && t.nextDelivery == 0 && t.nextEvent == 0 && req.key.org == ORG
    ensures InsertEvent(t, req, [0], 0).deliveries == map[0 := Original(Queued)]
  {
    assert Within(0, 0, 1);
    assert Block(0, 1) == {0};
  }

  /** Disabling the endpoint cancels the delivery. */
  lemma CancelIt(x: System, s: Settings) returns (acts: seq<Action>, y: System)
    requires ValidSettings(s) && x.clients == map[] && x.now == 0
    requires x.t.endpoints == map[0 := Receiver(Active, {PAID})]
    requires x.t.deliveries == map[0 := Original(Queued)] && x.t.nextDelivery == 1
    ensures Leads(x, acts, y, s) && Copied(y, 0)
  {
    var changes := Changes(None, Some(false), None);
    var update := Maintain(RunUpdate(ORG, 0, changes));
    y := UpdateStep(x, s, ORG, 0, changes);
    assert y.t.deliveries == map[0 := Original(Cancelled)];
    acts := [update] + [];
    LeadsOne(x, update, [], y, s);
  }

  lemma CopyIsNew(x: System, n: nat)
    requires Copied(x, n)
    ensures !Transactions.Replayed(x.t, ORG, 0, KeyText(n + 1))
  {
    forall d | d in x.t.deliveries
      ensures !ReplayFor(x.t, ORG, 0, KeyText(n + 1), d)
    {
      if d > 0 && KeyText(d) == KeyText(n + 1) {
        KeyTextsDiffer(d, n + 1);
      }
    }
  }

  lemma CopyOnce(x: System, s: Settings, n: nat) returns (acts: seq<Action>, y: System)
    requires ValidSettings(s) && Copied(x, n)
    ensures Leads(x, acts, y, s) && Copied(y, n + 1)
  {
    var key := KeyText(n + 1);
    CopyIsNew(x, n);
    var asked := x.(clients := map[0 := ReplayChecked(ORG, 0, key)]);
    assert DoServe(x, s, 0, StartReplay(ORG, 0, key)) == asked;
    y := DoServe(asked, s, 0, CreateReplay);
    acts := [Serve(0, StartReplay(ORG, 0, key)), Serve(0, CreateReplay)];
    LeadsTwo(x, acts[0], acts[1], y, s);
  }

  lemma {:induction false} CopyAll(x: System, s: Settings, n: nat) returns (acts: seq<Action>, y: System)
    requires ValidSettings(s) && Copied(x, 0)
    ensures Leads(x, acts, y, s) && Copied(y, n)
  {
    if n == 0 {
      acts, y := [], x;
    } else {
      var before, x1 := CopyAll(x, s, n - 1);
      var last;
      last, y := CopyOnce(x1, s, n - 1);
      acts := before + last;
      LeadsConcat(x, before, x1, last, y, s);
    }
  }

  /** Deleting the endpoint cancels the replays; then time passes. */
  lemma ExpireAll(x: System, s: Settings, n: nat, now: Time) returns (acts: seq<Action>, y: System)
    requires ValidSettings(s) && Copied(x, n)
    ensures Leads(x, acts, y, s) && Cancelled0To(y.t, n) && y.now == now
  {
    var deleted := DeleteStep(x, s, ORG, 0);
    y := deleted.(now := now);
    acts := [Maintain(RunDelete(ORG, 0)), ReadClock(now)];
    LeadsTwo(x, acts[0], acts[1], y, s);
  }

  /**
   No batch size rules an eternal abort out: for each there is a run after which every sequence of cleanup
   passes, of any length, removes nothing although there is something to remove.
   */
  lemma NoBatchSizeSuffices(s: Settings, limit: nat) returns (xs: seq<System>, acts: seq<Action>)
    requires ValidSettings(s) && limit >= 1
    ensures Run(xs, acts, s)
    ensures !ReplaysInBatch(xs[|acts|].t, Cutoff(s, xs[|acts|].now), limit)
    ensures Stalls(xs[|acts|].t, s, xs[|acts|].now, limit)
  {
    var ingest, x1 := IngestIt(s);
    var cancel, x2 := CancelIt(x1, s);
    LeadsConcat(START, ingest, x1, cancel, x2, s);
    var copy, x3 := CopyAll(x2, s, limit);
    LeadsConcat(START, ingest + cancel, x2, copy, x3, s);
    var expire, x4 := ExpireAll(x3, s, limit, s.metadataDays * DAY + 1);
    LeadsConcat(START, ingest + cancel + copy, x3, expire, x4, s);
    acts := ingest + cancel + copy + expire;
    LastReplayIsLate(x4.t, Cutoff(s, x4.now), limit);
    ItStalls(x4.t, s, x4.now, limit);
    xs := TraceIsRun(START, acts, x4, s);
  }
}
