/**
 For every limit, a run with one endpoint in which an ingest exceeds it with no replay: the backlog is
 filled, an event of a type nobody receives yet passes the projection, the endpoint subscribes to the
 type, and the insert finds it.
 */
module BacklogRace {
  import opened Wrappers
  import opened Tables
  import opened Transactions
  import opened TableInvariant
  import opened Pipeline
  import opened NoLostWork
  import opened Traces
  import opened Scenarios
  import opened Backlog

  /** n events of one type have been ingested for the endpoint, and nothing else has happened to them. */
  ghost predicate Filled(x: System, n: nat) {
    && x.clients == map[] && x.replays == map[]
    && x.t.endpoints == map[0 := Receiver(Active, {PAID})]
    && EventsBelow(x.t, n) && |Unfinished(x.t, ORG)| == n
  }

  ghost predicate EventsBelow(t: Tables, n: nat) {
    t.nextEvent == n && forall e :: e in t.events ==> e < n && t.events[e].key == Asking(e, PAID).key
  }

  lemma KeyIsNew(t: Tables, n: nat, eventType: string)
    requires EventsBelow(t, n)
    ensures !Ingested(t, Asking(n, eventType).key)
  {
    forall e | e in t.events
      ensures !EventFor(t, Asking(n, eventType).key, e)
    {
      if t.events[e].key == Asking(n, eventType).key {
        KeyTextsDiffer(e, n);
      }
    }
  }

  lemma Empty(s: Settings) returns (acts: seq<Action>, y: System)
    requires ValidSettings(s)
    ensures Leads(START, acts, y, s) && Sound(y, s) && Filled(y, 0)
  {
    var create, x := CreateIt(s);
    var verify;
    verify, y := VerifyIt(x, s);
    LeadsConcat(START, create, x, verify, y, s);
    acts := create + verify;
    InitialSound(START, s);
    LeadsSound(START, acts, y, s);
    assert Unfinished(y.t, ORG) == {};
  }

  lemma OneEventMore(t: Tables, n: nat, eps: seq<nat>, now: Time)
    requires EventsBelow(t, n)
    ensures EventsBelow(InsertEvent(t, Asking(n, PAID), eps, now), n + 1)
    ensures InsertEvent(t, Asking(n, PAID), eps, now).endpoints == t.endpoints
  {
  }

  lemma IngestOne(x: System, s: Settings, n: nat) returns (acts: seq<Action>, y: System)
    requires ValidSettings(s) && Sound(x, s) && Filled(x, n) && n < s.backlogLimit
    ensures Leads(x, acts, y, s) && Sound(y, s) && Filled(y, n + 1)
  {
    var req := Asking(n, PAID);
    KeyIsNew(x.t, n, PAID);
    MatchIt(x.t, PAID);
    var reserve, x1 := ReserveIt(x, s, req);
    var insert;
    insert, y := InsertIt(x1, s, req, 1, [0]);
    LeadsConcat(x, reserve, x1, insert, y, s);
    acts := reserve + insert;
    LeadsSound(x, acts, y, s);
    OneEventMore(x.t, n, [0], x.now);
    InsertEventBacklog(x.t, s, req, [0], x.now, ORG);
  }

  lemma {:induction false} Fill(s: Settings, n: nat) returns (acts: seq<Action>, y: System)
    requires ValidSettings(s) && n <= s.backlogLimit
    ensures Leads(START, acts, y, s) && Sound(y, s) && Filled(y, n)
  {
    if n == 0 {
      acts, y := Empty(s);
    } else {
      var before, x := Fill(s, n - 1);
      var last;
      last, y := IngestOne(x, s, n - 1);
      acts := before + last;
      LeadsConcat(START, before, x, last, y, s);
    }
  }

  lemma SubscribeTables(t: Tables, changes: Changes, now: Time)
    requires t.endpoints == map[0 := Receiver(Active, {PAID})] && changes == Changes(None, None, Some({PAID, SENT}))
    ensures
      UpdateEndpoint(t, ORG, 0, changes, now) == Audit(t.(endpoints := map[0 := Receiver(Active, {PAID, SENT})]), now)
  {
    assert t.endpoints[0 := Receiver(Active, {PAID, SENT})] == map[0 := Receiver(Active, {PAID, SENT})];
  }

  /** Nobody receives the event when it is projected; the endpoint does when it is inserted. */
  lemma IngestLate(x: System, s: Settings, n: nat) returns (acts: seq<Action>, y: System)
    requires ValidSettings(s) && Sound(x, s) && Filled(x, n) && n <= s.backlogLimit
    ensures Leads(x, acts, y, s) && y.replays == map[] && |Unfinished(y.t, ORG)| == n + 1
    ensures y.t.endpoints.Keys == {0}
  {
    var req, changes := Asking(n, SENT), Changes(None, None, Some({PAID, SENT}));
    KeyIsNew(x.t, n, SENT);
    MatchIt(x.t, SENT);
    var reserve, x1 := ReserveIt(x, s, req);
    var x2 := UpdateStep(x1, s, ORG, 0, changes);
    SubscribeTables(x.t, changes, x.now);
    MatchIt(x2.t, SENT);
    assert !Ingested(x2.t, req.key) by {
      KeyIsNew(x2.t, n, SENT);
    }
    var update := Maintain(RunUpdate(ORG, 0, changes));
    LeadsOne(x1, update, [], x2, s);
    LeadsConcat(x, reserve, x1, [update] + [], x2, s);
    LeadsSound(x, reserve + ([update] + []), x2, s);
    var insert;
    insert, y := InsertIt(x2, s, req, 0, [0]);
    LeadsConcat(x, reserve + ([update] + []), x2, insert, y, s);
    acts := reserve + ([update] + []) + insert;
    InsertEventBacklog(x2.t, s, req, [0], x2.now, ORG);
    assert Unfinished(x2.t, ORG) == Unfinished(x.t, ORG);
  }

  /** The plain bound, limit plus replays, fails for every limit. */
  lemma LimitCanBeExceeded(s: Settings) returns (xs: seq<System>, acts: seq<Action>)
    requires ValidSettings(s)
    ensures Run(xs, acts, s) && xs[|acts|].replays == map[] && xs[|acts|].t.endpoints.Keys == {0}
    ensures |Unfinished(xs[|acts|].t, ORG)| == s.backlogLimit + 1
    ensures !PlainlyBounded(xs[|acts|], s, ORG)
  {
    var fill, x := Fill(s, s.backlogLimit);
    var late, y := IngestLate(x, s, s.backlogLimit);
    LeadsConcat(START, fill, x, late, y, s);
    acts := fill + late;
    xs := TraceIsRun(START, acts, y, s);
  }
}
