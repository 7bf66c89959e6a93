/** One organization with one endpoint: the pieces from which the runs of the counterexamples are put together. */
module Scenarios {
  import opened Wrappers
  import opened Tables
  import opened Transactions
  import opened Pipeline
  import opened NoLostWork
  import opened Traces
  import Decimals

  const ORG := "o"
  const URL := "https://example.com/"
  const PAID := "order.paid"
  const SENT := "order.sent"
  const PREFIX := "idempotency-key-"

  /** Keys of at least 16 characters, as the service demands. */
  function KeyText(i: nat): string {
    PREFIX + Decimals.Decimal(i)
  }

  lemma KeyTextsDiffer(i: nat, j: nat)
    requires KeyText(i) == KeyText(j)
    ensures i == j
  {
    assert KeyText(i)[|PREFIX|..] == Decimals.Decimal(i) && KeyText(j)[|PREFIX|..] == Decimals.Decimal(j);
    Decimals.DecimalRoundTrip(i);
    Decimals.DecimalRoundTrip(j);
  }

  function Asking(i: nat, eventType: string): Request {
    Request(IngestKey(ORG, "k", KeyText(i)), eventType, [])
  }

  function Receiver(status: EndpointStatus, types: set<string>): Endpoint {
    Endpoint(ORG, URL, status, true, 0, None, None, types)
  }

  /** The endpoint is created and awaits its verification. */
  lemma CreateIt(s: Settings) returns (acts: seq<Action>, y: System)
    requires ValidSettings(s)
    ensures Leads(START, acts, y, s) && y == START.(t := CreateEndpoint(EMPTY, 0, ORG, URL, {PAID}, 0))
  {
    var create := Maintain(RunCreate(0, ORG, URL, {PAID}));
    y := CreateStep(START, s, 0, ORG, URL, {PAID});
    LeadsOne(START, create, [], y, s);
    acts := [create] + [];
  }

  lemma VerifyTables(t: Tables, q: Verification, now: Time)
    requires q == Verification(ORG, 0, Challenge("h", now + 1), PendingVerification)
    requires t.endpoints == map[0 := Receiver(PendingVerification, {PAID})]
    ensures
      CommitVerify(BeginVerify(t, ORG, 0, q.own), q, now)
      == Audit(t.(endpoints := map[0 := Receiver(Active, {PAID})]), now)
  {
    var u := CommitVerify(BeginVerify(t, ORG, 0, q.own), q, now);
    assert u.endpoints == map[0 := Receiver(Active, {PAID})];
  }

  lemma VerifyIt(x: System, s: Settings) returns (acts: seq<Action>, y: System)
    requires ValidSettings(s) && x.sessions == map[]
    requires x.t.endpoints == map[0 := Receiver(PendingVerification, {PAID})]
    ensures Leads(x, acts, y, s)
    ensures y == x.(t := y.t)
    ensures y.t == Audit(x.t.(endpoints := map[0 := Receiver(Active, {PAID})]), x.now)
  {
    var q := Verification(ORG, 0, Challenge("h", x.now + 1), PendingVerification);
    var begun := BeginStep(x, s, 0, q);
    y := CommitStep(begun, s, 0, q);
    assert begun.sessions - {0} == map[];
    VerifyTables(x.t, q, x.now);
    acts := [Maintain(RunBeginVerify(0, ORG, 0, q.own)), Maintain(RunCommitVerify(0, q))];
    LeadsTwo(x, acts[0], acts[1], y, s);
  }

  lemma CheckStep(x: System, s: Settings, req: Request)
    requires x.clients == map[] && !Ingested(x.t, req.key)
    ensures ClientEnabled(x, 0, StartIngest(req))
    ensures DoServe(x, s, 0, StartIngest(req)) == x.(clients := map[0 := IngestChecked(req)])
  {
  }

  /** A request for a new key passes the projection. */
  lemma ReserveIt(x: System, s: Settings, req: Request) returns (acts: seq<Action>, y: System)
    requires ValidSettings(s) && x.clients == map[] && !Ingested(x.t, req.key)
    requires ProjectedBacklog(x.t, req.key.org, req.eventType) <= s.backlogLimit
    ensures Leads(x, acts, y, s)
    ensures y == x.(clients := map[0 := IngestReserved(req, |Matching(x.t, req.key.org, req.eventType)|)])
  {
    var checked := x.(clients := map[0 := IngestChecked(req)]);
    y := x.(clients := map[0 := IngestReserved(req, |Matching(x.t, req.key.org, req.eventType)|)]);
    CheckStep(x, s, req);
    assert checked.clients[0 := y.clients[0]] == y.clients;
    assert DoServe(checked, s, 0, Reserve) == y;
    acts := [Serve(0, StartIngest(req)), Serve(0, Reserve)];
    LeadsTwo(x, acts[0], acts[1], y, s);
  }

  /** Its insert finds the endpoints that match by then. */
  lemma InsertIt(x: System, s: Settings, req: Request, projected: nat, eps: seq<nat>)
    returns (acts: seq<Action>, y: System)
    requires ValidSettings(s) && x.clients == map[0 := IngestReserved(req, projected)] && !Ingested(x.t, req.key)
    requires Lists(eps, Matching(x.t, req.key.org, req.eventType))
    ensures Leads(x, acts, y, s)
    ensures y.t == InsertEvent(x.t, req, eps, x.now)
    ensures y.clients == map[] && y.replays == x.replays && y.sessions == x.sessions && y.now == x.now
  {
    y := DoServe(x, s, 0, Insert(eps));
    assert x.clients - {0} == map[];
    acts := [Serve(0, Insert(eps))] + [];
    LeadsOne(x, Serve(0, Insert(eps)), [], y, s);
  }

  /** The only endpoint matches exactly if it receives the event. */
  lemma MatchIt(t: Tables, eventType: string)
    requires t.endpoints.Keys == {0}
    ensures Receives(t.endpoints[0], ORG, eventType) ==>
              Matching(t, ORG, eventType) == {0} && Lists([0], Matching(t, ORG, eventType))
    ensures !Receives(t.endpoints[0], ORG, eventType) ==> Matching(t, ORG, eventType) == {}
  {
  }
}
