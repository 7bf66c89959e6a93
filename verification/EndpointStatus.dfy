/**
 What endpoint management does to an endpoint, and what follows for its deliveries: only an endpoint that has
 been verified at its present URL is called.
 */
module EndpointStatus {
  import opened Wrappers
  import opened Tables
  import opened Transactions
  import opened TableInvariant
  import opened Evolution
  import opened Pipeline
  import opened PipelineInvariant
  import opened NoLostWork
  import opened History
  import opened DeletedEndpoints

  // --- One transaction --------------------------------------------------------------------------------------

  predicate Moves(ep: Endpoint, c: Changes) {
    c.url.Some? && c.url.value != ep.url
  }

  /** The status an update leaves: a new URL has to be verified, a switch works between active and disabled. */
  predicate UpdatedStatus(ep: Endpoint, c: Changes, q: EndpointStatus) {
    && (Moves(ep, c) ==> q == PendingVerification)
    && (!Moves(ep, c) && c.enabled == Some(false) && ep.status == Active ==> q == Disabled)
    && (!Moves(ep, c) && c.enabled == Some(true) && ep.status == Disabled ==> q == Active)
    && (!Moves(ep, c) && c.enabled.None? ==> q == ep.status)
    && (!Moves(ep, c) && c.enabled == Some(false) && ep.status != Active ==> q == ep.status)
    && (!Moves(ep, c) && c.enabled == Some(true) && ep.status != Disabled ==> q == ep.status)
  }

  /** Every column of an updated endpoint. */
  lemma UpdatedColumns(t: Tables, org: OrgId, e: nat, c: Changes, now: Time)
    requires e in t.endpoints && t.endpoints[e].org == org && t.endpoints[e].deletedAt.None?
    ensures
      var ep, u := t.endpoints[e], UpdateEndpoint(t, org, e, c, now);
      && e in u.endpoints && u.endpoints == t.endpoints[e := u.endpoints[e]]
      && var q := u.endpoints[e];
      && q.url == (if c.url.Some? then c.url.value else ep.url)
      && q.enabled == (if c.enabled.Some? then c.enabled.value else ep.enabled)
      && q.eventTypes == (if c.eventTypes.Some? then c.eventTypes.value else ep.eventTypes)
      && UpdatedStatus(ep, c, q.status)
      && q == ep.(url := q.url, enabled := q.enabled, eventTypes := q.eventTypes, status := q.status)
  {
  }

  /** Every other row: only a switch from active to off cancels, and only what waits for this endpoint. */
  lemma UpdatedRows(t: Tables, org: OrgId, e: nat, c: Changes, now: Time)
    requires e in t.endpoints && t.endpoints[e].org == org && t.endpoints[e].deletedAt.None?
    ensures
      var ep, u := t.endpoints[e], UpdateEndpoint(t, org, e, c, now);
      && u == t.(endpoints := u.endpoints, deliveries := u.deliveries, audits := t.audits[t.nextAudit := now],
                 nextAudit := t.nextAudit + 1)
      && u.deliveries.Keys == t.deliveries.Keys
      && forall d :: d in t.deliveries ==>
           u.deliveries[d] ==
             if c.enabled == Some(false) && ep.status == Active && !Moves(ep, c)
                && t.deliveries[d].org == org && t.deliveries[d].endpoint == e
                && t.deliveries[d].status in {Pending, Queued, RetryScheduled}
             then t.deliveries[d].(status := Cancelled, leaseUntil := None, nextAttemptAt := None)
             else t.deliveries[d]
  {
  }

  /** A new URL stops the calls at once. */
  lemma MovedIsNotCalled(t: Tables, org: OrgId, e: nat, c: Changes, now: Time)
    requires e in t.endpoints && t.endpoints[e].org == org && t.endpoints[e].deletedAt.None?
    requires Moves(t.endpoints[e], c)
    ensures
      var u := UpdateEndpoint(t, org, e, c, now);
      && !Accepting(u, e) && u.endpoints[e].url == c.url.value && u.endpoints[e].status == PendingVerification
      && u.deliveries == t.deliveries
  {
    UpdatedColumns(t, org, e, c, now);
    UpdatedRows(t, org, e, c, now);
    assert UpdateEndpoint(t, org, e, c, now).deliveries == t.deliveries;
  }

  /** delete, on an endpoint that is not deleted yet. */
  lemma DeleteOutcome(t: Tables, org: OrgId, e: nat, now: Time)
    requires e in t.endpoints && t.endpoints[e].org == org && t.endpoints[e].deletedAt.None?
    ensures
      var u := DeleteEndpoint(t, org, e, now);
      && u == t.(endpoints := t.endpoints[e := t.endpoints[e].(
                   deletedAt := Some(now), status := Deleted, enabled := false)],
                 deliveries := u.deliveries, audits := t.audits[t.nextAudit := now], nextAudit := t.nextAudit + 1)
      && u.deliveries.Keys == t.deliveries.Keys
      && forall d :: d in t.deliveries ==>
           u.deliveries[d] ==
             if t.deliveries[d].org == org && t.deliveries[d].endpoint == e
                && t.deliveries[d].status in {Pending, Queued, RetryScheduled}
             then t.deliveries[d].(status := Cancelled, leaseUntil := None, nextAttemptAt := None)
             else t.deliveries[d]
  {
  }

  /** Management of an endpoint that is missing, deleted or of another organization changes nothing. */
  lemma OutOfReach(t: Tables, org: OrgId, e: nat, c: Changes, h: Challenge, now: Time)
    requires e !in t.endpoints || t.endpoints[e].org != org || t.endpoints[e].deletedAt.Some?
    ensures UpdateEndpoint(t, org, e, c, now) == t && DeleteEndpoint(t, org, e, now) == t
    ensures BeginVerify(t, org, e, h) == t
  {
  }

  /** The first half of verify stores the challenge and nothing else. */
  lemma BeginOutcome(t: Tables, org: OrgId, e: nat, h: Challenge)
    requires e in t.endpoints && t.endpoints[e].org == org && t.endpoints[e].deletedAt.None?
    ensures BeginVerify(t, org, e, h) == t.(endpoints := t.endpoints[e := t.endpoints[e].(challenge := Some(h))])
  {
  }

  /** The second half activates the endpoint and clears the challenge; too late or elsewhere it does nothing. */
  lemma VerifyOutcome(t: Tables, v: Verification, now: Time)
    ensures v.e in t.endpoints && t.endpoints[v.e].org == v.org && now < v.own.expiresAt ==>
              var ep := t.endpoints[v.e];
              CommitVerify(t, v, now) == t.(
                endpoints := t.endpoints[v.e := ep.(
                  challenge := None, status := if v.loaded == Active then ep.status else Active)],
                audits := t.audits[t.nextAudit := now], nextAudit := t.nextAudit + 1)
    ensures v.e !in t.endpoints || t.endpoints[v.e].org != v.org || now >= v.own.expiresAt ==>
              CommitVerify(t, v, now) == t
  {
  }

  /** A new endpoint is enabled, unverified and idle. */
  lemma CreateOutcome(t: Tables, e: nat, org: OrgId, url: string, types: set<string>, now: Time)
    ensures CreateEndpoint(t, e, org, url, types, now)
         == t.(endpoints := t.endpoints[e := Endpoint(
                 org, url, PendingVerification, true, 0, None, None, types)],
               audits := t.audits[t.nextAudit := now], nextAudit := t.nextAudit + 1)
  {
  }

  // --- One step ---------------------------------------------------------------------------------------------

  predicate Reaches(x: System, org: OrgId, e: nat) {
    e in x.t.endpoints && x.t.endpoints[e].org == org && x.t.endpoints[e].deletedAt.None?
  }

  predicate Updates(x: System, a: Action, e: nat) {
    a.Maintain? && a.maintain.RunUpdate? && a.maintain.e == e && Reaches(x, a.maintain.org, e)
  }

  predicate Deletes(x: System, a: Action, e: nat) {
    a.Maintain? && a.maintain.RunDelete? && a.maintain.e == e && Reaches(x, a.maintain.org, e)
  }

  lemma WorkKeepsStatus(x: System, s: Settings, w: nat, b: WorkerAction, e: nat)
    requires ValidSettings(s) && WorkerEnabled(x, w, b) && e in x.t.endpoints
    ensures e in DoWork(x, s, w, b).t.endpoints
    ensures DoWork(x, s, w, b).t.endpoints[e].status == x.t.endpoints[e].status
  {
    WorkKeepsColumns(x, s, w, b, e);
  }

  /** Other management steps leave the status of the endpoint alone. */
  lemma MaintainKeepsStatus(x: System, s: Settings, b: TableAction, e: nat)
    requires TableEnabled(x.t, s, x.now, b) && e in x.t.endpoints
    requires !Activates(x, Maintain(b), e) && !Updates(x, Maintain(b), e) && !Deletes(x, Maintain(b), e)
    ensures e in DoTables(x.t, s, x.now, b).endpoints
    ensures DoTables(x.t, s, x.now, b).endpoints[e].status == x.t.endpoints[e].status
  {
  }

  lemma MaintainStatus(x: System, s: Settings, b: TableAction, e: nat)
    requires TableEnabled(x.t, s, x.now, b) && e in x.t.endpoints
    ensures e in DoTables(x.t, s, x.now, b).endpoints
    ensures
      var q := DoTables(x.t, s, x.now, b).endpoints[e].status;
      && (Activates(x, Maintain(b), e) ==> q == Active)
      && (Updates(x, Maintain(b), e) ==> UpdatedStatus(x.t.endpoints[e], b.changes, q))
      && (Deletes(x, Maintain(b), e) ==> q == Deleted)
  {
    if Activates(x, Maintain(b), e) {
      CommitColumns(x.t, b.verification, x.now);
    } else if Updates(x, Maintain(b), e) {
      UpdatedColumns(x.t, b.org, e, b.changes, x.now);
    } else if Deletes(x, Maintain(b), e) {
      DeleteOutcome(x.t, b.org, e, x.now);
    } else {
      MaintainKeepsStatus(x, s, b, e);
    }
  }

  /** The status of an endpoint changes by the end of a verification, an update and a delete only. */
  lemma StatusStep(x: System, s: Settings, a: Action, e: nat)
    requires ValidSettings(s) && Enabled(x, s, a) && e in x.t.endpoints
    ensures e in Next(x, s, a).t.endpoints
    ensures
      var q := Next(x, s, a).t.endpoints[e].status;
      && (Activates(x, a, e) ==> q == Active)
      && (Updates(x, a, e) ==> UpdatedStatus(x.t.endpoints[e], a.maintain.changes, q))
      && (Deletes(x, a, e) ==> q == Deleted)
      && (!Activates(x, a, e) && !Updates(x, a, e) && !Deletes(x, a, e) ==> q == x.t.endpoints[e].status)
  {
    match a
    case Work(w, b) => WorkKeepsStatus(x, s, w, b, e);
    case Dispatch(p, b) => DispatchKeepsEndpoints(x, s, p, b);
    case Serve(c, b) => ServeKeepsEndpoints(x, s, c, b);
    case Maintain(b) =>
      MaintainStatus(x, s, b, e);
      if !Activates(x, a, e) && !Updates(x, a, e) && !Deletes(x, a, e) {
        MaintainKeepsStatus(x, s, b, e);
      }
    case ReadClock(_) =>
  }

  // --- Runs -------------------------------------------------------------------------------------------------

  /** Waiting for a verification, or deleted. */
  predicate Unverified(t: Tables, e: nat) {
    e in t.endpoints && (t.endpoints[e].status == PendingVerification || t.endpoints[e].status == Deleted)
  }

  /** In steps i .. j - 1 no verification of `e` is completed. */
  predicate NoneActivates(xs: seq<System>, acts: seq<Action>, e: nat, i: nat, j: nat)
    requires j <= |acts| && j < |xs|
  {
    forall n {:trigger acts[n]} :: i <= n < j ==> !Activates(xs[n], acts[n], e)
  }

  lemma {:induction false} StaysUnverified(
    xs: seq<System>, acts: seq<Action>, s: Settings, e: nat, i: nat, j: nat)
    requires Run(xs, acts, s) && i <= j < |xs| && Unverified(xs[i].t, e) && NoneActivates(xs, acts, e, i, j)
    ensures Unverified(xs[j].t, e)
    decreases j
  {
    if i < j {
      StaysUnverified(xs, acts, s, e, i, j - 1);
      assert Enabled(xs[j - 1], s, acts[j - 1]);
      StatusStep(xs[j - 1], s, acts[j - 1], e);
    }
  }

  lemma UnverifiedGetsNoAttempt(t: Tables, u: Tables, e: nat, k: AttemptKey)
    requires Step(t, u) && RowsKnown(t) && Unverified(t, e)
    requires k in u.attempts && k.delivery in u.deliveries && u.deliveries[k.delivery].endpoint == e
    ensures k in t.attempts && k.delivery in t.deliveries && t.deliveries[k.delivery].endpoint == e
  {
    if k.delivery in t.deliveries {
      assert RowStep(t.deliveries[k.delivery], u.deliveries[k.delivery]);
    }
    assert k !in t.attempts ==> OpensFor(t, k);
  }

  /** While an endpoint waits for its verification no attempt starts for it. */
  lemma {:induction false} NoAttemptWhileUnverified(
    xs: seq<System>, acts: seq<Action>, s: Settings, e: nat, i: nat, j: nat, k: AttemptKey)
    requires Run(xs, acts, s) && i <= j < |xs| && Unverified(xs[i].t, e) && NoneActivates(xs, acts, e, i, j)
    requires k in xs[j].t.attempts && k.delivery in xs[j].t.deliveries
    requires xs[j].t.deliveries[k.delivery].endpoint == e
    ensures k in xs[i].t.attempts
    decreases j
  {
    if i < j {
      RunSound(xs, acts, s, j - 1);
      NextSound(xs[j - 1], s, acts[j - 1]);
      StaysUnverified(xs, acts, s, e, i, j - 1);
      UnverifiedGetsNoAttempt(xs[j - 1].t, xs[j].t, e, k);
      NoAttemptWhileUnverified(xs, acts, s, e, i, j - 1, k);
    }
  }

  /**
   After an update to another URL no attempt starts for the endpoint until a verification of it is completed:
   every attempt of its deliveries is older than the update.
   */
  lemma NewUrlIsNotCalled(xs: seq<System>, acts: seq<Action>, s: Settings, e: nat, i: nat, j: nat, k: AttemptKey)
    requires Run(xs, acts, s) && i < j < |xs|
    requires Updates(xs[i], acts[i], e) && Moves(xs[i].t.endpoints[e], acts[i].maintain.changes)
    requires NoneActivates(xs, acts, e, i + 1, j)
    requires k in xs[j].t.attempts && k.delivery in xs[j].t.deliveries
    requires xs[j].t.deliveries[k.delivery].endpoint == e
    ensures k in xs[i].t.attempts
    ensures e in xs[i + 1].t.endpoints && xs[i + 1].t.endpoints[e].url == acts[i].maintain.changes.url.value
  {
    assert Enabled(xs[i], s, acts[i]) && xs[i + 1] == Next(xs[i], s, acts[i]);
    UpdatedColumns(xs[i].t, acts[i].maintain.org, e, acts[i].maintain.changes, xs[i].now);
    NoAttemptWhileUnverified(xs, acts, s, e, i + 1, j, k);
  }
}
