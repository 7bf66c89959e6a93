/**
 The status of a deleted endpoint. The second half of verify tests neither deleted_at nor the status in
 the table: it trusts the object its session loaded in the first half. A verification begun before the
 delete can therefore set the status to active after it.
 */
module DeletedEndpoints {
  import opened Wrappers
  import opened Tables
  import opened Transactions
  import opened TableInvariant
  import opened Evolution
  import opened Pipeline
  import opened PipelineInvariant
  import opened NoLostWork
  import opened History
  import opened Traces

  predicate Gone(t: Tables, e: nat) {
    e in t.endpoints && t.endpoints[e].deletedAt.Some?
  }

  // --- One step -------------------------------------------------------------------------------------------------

  /** A step in which a verify request for `e` passes the checks of its second half. */
  predicate Finishes(x: System, a: Action, e: nat) {
    && a.Maintain? && a.maintain.RunCommitVerify? && a.maintain.verification.e == e
    && e in x.t.endpoints && x.t.endpoints[e].org == a.maintain.verification.org
    && a.maintain.verification.own.expiresAt > x.now
  }

  /** Such a step writes the status only if the request did not load it as active already. */
  predicate Activates(x: System, a: Action, e: nat) {
    Finishes(x, a, e) && a.maintain.verification.loaded != Active
  }

  /** `b` is `a`, apart from the slots in use. */
  predicate SameColumns(a: Endpoint, b: Endpoint) {
    b == a.(activeCount := b.activeCount)
  }

  lemma WorkKeepsColumns(x: System, s: Settings, w: nat, a: WorkerAction, e: nat)
    requires ValidSettings(s) && WorkerEnabled(x, w, a) && e in x.t.endpoints
    ensures
      var u := DoWork(x, s, w, a).t;
      e in u.endpoints && SameColumns(x.t.endpoints[e], u.endpoints[e])
  {
    if a.RunClaim? {
      var d := x.broker[x.workers[w].tag].delivery;
      if d in x.t.deliveries {
        ClaimSlot(x.t, s, x.now, d, a.secretOk);
      }
    }
  }

  /** A deleted endpoint is out of reach of every other management step. */
  lemma MaintainKeepsColumns(t: Tables, s: Settings, now: Time, a: TableAction, e: nat)
    requires TableEnabled(t, s, now, a) && Gone(t, e)
    requires !(a.RunCommitVerify? && a.verification.e == e)
    ensures
      var u := DoTables(t, s, now, a);
      e in u.endpoints && SameColumns(t.endpoints[e], u.endpoints[e])
  {
  }

  lemma CommitColumns(t: Tables, q: Verification, now: Time)
    requires q.e in t.endpoints
    ensures
      var u := CommitVerify(t, q, now);
      && q.e in u.endpoints
      && u.endpoints[q.e] == if t.endpoints[q.e].org == q.org && q.own.expiresAt > now
                             then Verified(t.endpoints[q.e], q.loaded) else t.endpoints[q.e]
  {
  }

  /** Exactly the end of a verification changes a deleted endpoint: the challenge goes, the status may change. */
  lemma DeletedStep(x: System, s: Settings, a: Action, e: nat)
    requires ValidSettings(s) && Enabled(x, s, a) && Gone(x.t, e)
    ensures
      var u := Next(x, s, a).t;
      && Gone(u, e)
      && u.endpoints[e].status == (if Activates(x, a, e) then Active else x.t.endpoints[e].status)
      && u.endpoints[e].challenge == (if Finishes(x, a, e) then None else x.t.endpoints[e].challenge)
  {
    match a
    case Work(w, b) => WorkKeepsColumns(x, s, w, b, e);
    case Dispatch(p, b) => DispatchKeepsEndpoints(x, s, p, b);
    case Serve(c, b) => ServeKeepsEndpoints(x, s, c, b);
    case Maintain(b) =>
      if b.RunCommitVerify? && b.verification.e == e {
        CommitColumns(x.t, b.verification, x.now);
      } else {
        MaintainKeepsColumns(x.t, s, x.now, b, e);
      }
    case ReadClock(_) =>
  }

  // --- Where sessions come from ---------------------------------------------------------------------------------

  lemma WorkKeepsSessions(x: System, s: Settings, w: nat, a: WorkerAction)
    requires ValidSettings(s) && WorkerEnabled(x, w, a)
    ensures DoWork(x, s, w, a).sessions == x.sessions
  {
  }

  lemma DispatchKeepsSessions(x: System, s: Settings, p: nat, a: DispatcherAction)
    requires DispatcherEnabled(x, s, p, a)
    ensures DoDispatch(x, s, p, a).sessions == x.sessions
  {
  }

  /** This step begins verification `q` as session `v`: the endpoint is not deleted and has the loaded status. */
  predicate Begins(x: System, a: Action, v: nat, q: Verification) {
    && a == Maintain(RunBeginVerify(v, q.org, q.e, q.own))
    && Manageable(x.t, q.org, q.e) && x.t.endpoints[q.e].status == q.loaded
  }

  lemma SessionStep(x: System, s: Settings, a: Action, v: nat)
    requires ValidSettings(s) && Enabled(x, s, a) && v in Next(x, s, a).sessions
    ensures
      var q := Next(x, s, a).sessions[v];
      (v in x.sessions && x.sessions[v] == q) || Begins(x, a, v, q)
  {
    match a
    case Work(w, b) => WorkKeepsSessions(x, s, w, b);
    case Dispatch(p, b) => DispatchKeepsSessions(x, s, p, b);
    case _ =>
  }

  /** Every open session was begun by an earlier step. */
  lemma {:induction false} SessionBegan(xs: seq<System>, acts: seq<Action>, s: Settings, n: nat, v: nat)
    returns (b: nat)
    requires Run(xs, acts, s) && n < |xs| && v in xs[n].sessions
    ensures b < n && Begins(xs[b], acts[b], v, xs[n].sessions[v])
  {
    assert n > 0;
    assert Enabled(xs[n - 1], s, acts[n - 1]);
    SessionStep(xs[n - 1], s, acts[n - 1], v);
    if v in xs[n - 1].sessions && xs[n - 1].sessions[v] == xs[n].sessions[v] {
      b := SessionBegan(xs, acts, s, n - 1, v);
    } else {
      b := n - 1;
    }
  }

  lemma StaysGone(xs: seq<System>, acts: seq<Action>, s: Settings, e: nat, i: nat, j: nat)
    requires Run(xs, acts, s) && i <= j < |xs| && Gone(xs[i].t, e)
    ensures Gone(xs[j].t, e)
  {
    RunEvolves(xs, acts, s, i, j);
  }

  /** No verification begins on a deleted endpoint: its sessions were open when it was deleted. */
  lemma {:induction false} SessionIsOld(
    xs: seq<System>, acts: seq<Action>, s: Settings, e: nat, i: nat, j: nat, v: nat)
    requires Run(xs, acts, s) && i <= j < |xs| && Gone(xs[i].t, e)
    requires v in xs[j].sessions && xs[j].sessions[v].e == e
    ensures v in xs[i].sessions && xs[i].sessions[v] == xs[j].sessions[v]
    decreases j
  {
    if i < j {
      StaysGone(xs, acts, s, e, i, j - 1);
      assert Enabled(xs[j - 1], s, acts[j - 1]);
      SessionStep(xs[j - 1], s, acts[j - 1], v);
      SessionIsOld(xs, acts, s, e, i, j - 1, v);
    }
  }

  // --- Runs -----------------------------------------------------------------------------------------------------

  ghost predicate Finished(xs: seq<System>, acts: seq<Action>, e: nat, i: nat, j: nat)
    requires j <= |acts| && j < |xs|
  {
    exists k {:trigger acts[k]} :: i <= k < j && Finishes(xs[k], acts[k], e)
  }

  ghost predicate Activated(xs: seq<System>, acts: seq<Action>, e: nat, i: nat, j: nat)
    requires j <= |acts| && j < |xs|
  {
    exists k {:trigger acts[k]} :: i <= k < j && Activates(xs[k], acts[k], e)
  }

  lemma OneStepMore(xs: seq<System>, acts: seq<Action>, e: nat, i: nat, j: nat)
    requires i < j <= |acts| && j < |xs|
    ensures Finished(xs, acts, e, i, j)
       <==> Finished(xs, acts, e, i, j - 1) || Finishes(xs[j - 1], acts[j - 1], e)
    ensures Activated(xs, acts, e, i, j)
       <==> Activated(xs, acts, e, i, j - 1) || Activates(xs[j - 1], acts[j - 1], e)
  {
    assert acts[j - 1] == acts[j - 1];
  }

  lemma {:induction false} StatusByActivation(
    xs: seq<System>, acts: seq<Action>, s: Settings, e: nat, i: nat, j: nat)
    requires Run(xs, acts, s) && i <= j < |xs| && Gone(xs[i].t, e)
    ensures Gone(xs[j].t, e)
    ensures xs[j].t.endpoints[e].status
         == if Activated(xs, acts, e, i, j) then Active else xs[i].t.endpoints[e].status
    ensures xs[j].t.endpoints[e].challenge
         == if Finished(xs, acts, e, i, j) then None else xs[i].t.endpoints[e].challenge
    decreases j
  {
    if i < j {
      StatusByActivation(xs, acts, s, e, i, j - 1);
      assert Enabled(xs[j - 1], s, acts[j - 1]);
      DeletedStep(xs[j - 1], s, acts[j - 1], e);
      OneStepMore(xs, acts, e, i, j);
    }
  }

  /**
   Step `b` begins a verification of `e`, which is not active then, and step `k` completes that verification
   before its own challenge expires.
   */
  predicate Overtakes(xs: seq<System>, acts: seq<Action>, e: nat, b: nat, k: nat)
    requires b < |acts| && k < |acts| && b < |xs| && k < |xs|
  {
    && acts[k].Maintain? && acts[k].maintain.RunCommitVerify?
    && var q := acts[k].maintain.verification;
    && Begins(xs[b], acts[b], acts[k].maintain.session, q)
    && q.e == e && q.loaded != Active && q.own.expiresAt > xs[k].now
  }

  /** Some verification begun before state `i` is completed after it and before state `j`. */
  ghost predicate Overtaken(xs: seq<System>, acts: seq<Action>, e: nat, i: nat, j: nat)
    requires i <= j <= |acts| && j < |xs|
  {
    exists b: nat, k: nat {:trigger acts[b], acts[k]} :: b < i <= k < j && Overtakes(xs, acts, e, b, k)
  }

  lemma OvertakingActivates(xs: seq<System>, acts: seq<Action>, s: Settings, e: nat, b: nat, k: nat)
    requires Run(xs, acts, s) && b < k < |acts| && Overtakes(xs, acts, e, b, k)
    ensures Activates(xs[k], acts[k], e)
  {
    RunEvolves(xs, acts, s, b, k);
  }

  lemma ActivationOvertakes(xs: seq<System>, acts: seq<Action>, s: Settings, e: nat, i: nat, k: nat)
    returns (b: nat)
    requires Run(xs, acts, s) && i <= k < |acts| && Gone(xs[i].t, e) && Activates(xs[k], acts[k], e)
    ensures b < i && Overtakes(xs, acts, e, b, k)
  {
    assert Enabled(xs[k], s, acts[k]);
    var v := acts[k].maintain.session;
    SessionIsOld(xs, acts, s, e, i, k, v);
    b := SessionBegan(xs, acts, s, i, v);
  }

  /**
   From a state in which the endpoint is deleted, its status is active exactly if a verification that began
   before that state, when the endpoint was not active, has been completed since then, before its own
   challenge expired. Which challenge the table holds makes no difference.
   */
  lemma StatusAfterDelete(xs: seq<System>, acts: seq<Action>, s: Settings, e: nat, i: nat, j: nat)
    requires Run(xs, acts, s) && i <= j < |xs|
    requires Gone(xs[i].t, e) && xs[i].t.endpoints[e].status == Deleted
    ensures Gone(xs[j].t, e)
    ensures xs[j].t.endpoints[e].status == if Overtaken(xs, acts, e, i, j) then Active else Deleted
  {
    StatusByActivation(xs, acts, s, e, i, j);
    if Activated(xs, acts, e, i, j) {
      var k :| i <= k < j && Activates(xs[k], acts[k], e);
      var b := ActivationOvertakes(xs, acts, s, e, i, k);
      assert acts[b] == acts[b] && acts[k] == acts[k];
    }
    if Overtaken(xs, acts, e, i, j) {
      var b: nat, k: nat :| b < i <= k < j && Overtakes(xs, acts, e, b, k);
      OvertakingActivates(xs, acts, s, e, b, k);
      assert acts[k] == acts[k];
    }
  }

  // --- It happens -----------------------------------------------------------------------------------------------

  /** A deletion that overtakes two verifications, of which the first then ends with a replaced challenge. */
  lemma FourTransactions(t: Tables, e: nat, p: Verification, c: Challenge, now: Time)
    requires p.e == e && p.loaded != Active && p.own.expiresAt > now
    requires Manageable(t, p.org, e)
    ensures
      var t1 := BeginVerify(t, p.org, e, p.own);
      var t2 := BeginVerify(t1, p.org, e, c);
      var t3 := DeleteEndpoint(t2, p.org, e, now);
      var t4 := CommitVerify(t3, p, now);
      && Gone(t3, e) && t3.endpoints[e].status == Deleted && t3.endpoints[e].challenge == Some(c)
      && Gone(t4, e) && t4.endpoints[e].status == Active && !t4.endpoints[e].enabled
  {
  }

  /** Begin two verifications, delete the endpoint, complete the first: deleted, and active. */
  lemma DeletedCanBecomeActive(s: Settings) returns (xs: seq<System>, acts: seq<Action>)
    requires ValidSettings(s)
    ensures Run(xs, acts, s) && |acts| == 5
    ensures Gone(xs[4].t, 0) && xs[4].t.endpoints[0].status == Deleted
    ensures acts[4].Maintain? && acts[4].maintain.RunCommitVerify?
    ensures xs[4].t.endpoints[0].challenge != Some(acts[4].maintain.verification.own)
    ensures Gone(xs[5].t, 0) && xs[5].t.endpoints[0].status == Active
  {
    var p := Verification("o", 0, Challenge("h", 10), PendingVerification);
    var q := Verification("o", 0, Challenge("g", 10), PendingVerification);
    var x1 := CreateStep(START, s, 0, "o", "u", {"e"});
    FourTransactions(x1.t, 0, p, q.own, 0);
    var x2 := BeginStep(x1, s, 0, p);
    var x3 := BeginStep(x2, s, 1, q);
    var x4 := DeleteStep(x3, s, "o", 0);
    var x5 := CommitStep(x4, s, 0, p);
    acts := [
      Maintain(RunCreate(0, "o", "u", {"e"})),
      Maintain(RunBeginVerify(0, "o", 0, p.own)), Maintain(RunBeginVerify(1, "o", 0, q.own)),
      Maintain(RunDelete("o", 0)), Maintain(RunCommitVerify(0, p))];
    xs := [START, x1, x2, x3, x4, x5];
    FiveSteps(START, x1, x2, x3, x4, x5, acts, s);
  }

  lemma FiveSteps(x: System, x1: System, x2: System, x3: System, x4: System, x5: System, acts: seq<Action>, s: Settings)
    requires ValidSettings(s) && Initial(x) && |acts| == 5
    requires Enabled(x, s, acts[0]) && Next(x, s, acts[0]) == x1
    requires Enabled(x1, s, acts[1]) && Next(x1, s, acts[1]) == x2
    requires Enabled(x2, s, acts[2]) && Next(x2, s, acts[2]) == x3
    requires Enabled(x3, s, acts[3]) && Next(x3, s, acts[3]) == x4
    requires Enabled(x4, s, acts[4]) && Next(x4, s, acts[4]) == x5
    ensures Run([x, x1, x2, x3, x4, x5], acts, s)
  {
  }
}
