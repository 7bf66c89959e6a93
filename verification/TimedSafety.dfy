/**
 If every call ends early enough before its lease does, the reconciler never closes an attempt whose
 call is still running.
 */
module TimedSafety {
  import opened Wrappers
  import opened Tables
  import opened Transactions
  import opened TableInvariant
  import opened Evolution
  import opened Pipeline
  import opened PipelineInvariant
  import opened NoLostWork

  /** While a call runs no transaction reads a time more than `budget` microseconds after its claim's. */
  ghost predicate Prompt(x: System, budget: nat) {
    forall w :: w in x.workers && x.workers[w].Calling? ==> x.now <= x.workers[w].since + budget
  }

  /** The attempt of a running call is open. */
  predicate CallOpen(x: System, w: nat) {
    && w in x.workers && x.workers[w].Calling?
    && var k := x.workers[w].claim.attempt;
    && k in x.t.attempts && x.t.attempts[k].outcome == Started
  }

  ghost predicate CallsOpen(x: System) {
    forall w {:trigger CallOpen(x, w)} :: w in x.workers && x.workers[w].Calling? ==> CallOpen(x, w)
  }

  /** An open attempt's lease runs from its start. */
  lemma LeaseFromStart(t: Tables, s: Settings, k: AttemptKey)
    requires RowsOk(t, s) && k in t.attempts && t.attempts[k].outcome == Started
    ensures k.delivery in t.deliveries
    ensures t.deliveries[k.delivery].leaseUntil == Some(t.attempts[k].startedAt + s.leaseSeconds * SECOND)
  {
    OpenAttemptIsDelivering(t, s, k);
  }

  lemma ReconcileSparesPromptCalls(x: System, s: Settings, batch: seq<nat>, budget: nat, w: nat)
    requires Sound(x, s) && CallOpen(x, w) && Prompt(x, budget) && budget <= s.leaseSeconds * SECOND
    requires forall d :: d in batch ==> d in StaleRows(x.t, x.now)
    ensures x.workers[w].claim.attempt.delivery !in batch
  {
    assert WorkerOk(x, w);
    LeaseFromStart(x.t, s, x.workers[w].claim.attempt);
  }

  /** Attempts other than `k` are closed by nobody else's finalize. */
  lemma OthersStayOpen(x: System, s: Settings, w: nat, sample: real, v: nat)
    requires ValidSettings(s) && Sound(x, s) && WorkerEnabled(x, w, RunFinalize(sample)) && CallOpen(x, v)
    ensures CallOpen(DoFinalize(x, s, w, sample), v)
  {
    assert SameAttempt(x.workers[v], x.workers[w]) ==> v == w;
  }

  lemma ClaimKeepsCallsOpen(x: System, s: Settings, w: nat, secretOk: bool)
    requires ValidSettings(s) && Sound(x, s) && CallsOpen(x) && WorkerEnabled(x, w, RunClaim(secretOk))
    ensures CallsOpen(DoClaim(x, s, w, secretOk))
  {
    var y := DoClaim(x, s, w, secretOk);
    var d := x.broker[x.workers[w].tag].delivery;
    forall v | v in y.workers && y.workers[v].Calling?
      ensures CallOpen(y, v)
    {
      if v != w {
        assert CallOpen(x, v);
        if IsQueued(x.t, d) {
          QueuedHasNoOpenAttempt(x.t, s, d);
        }
      }
    }
  }

  lemma WorkKeepsCallsOpen(x: System, s: Settings, w: nat, a: WorkerAction)
    requires ValidSettings(s) && Sound(x, s) && CallsOpen(x) && WorkerEnabled(x, w, a)
    ensures CallsOpen(DoWork(x, s, w, a))
  {
    var y := DoWork(x, s, w, a);
    if a.RunClaim? {
      ClaimKeepsCallsOpen(x, s, w, a.secretOk);
    } else {
      forall v | v in y.workers && y.workers[v].Calling?
        ensures CallOpen(y, v)
      {
        assert CallOpen(x, v);
        if a.RunFinalize? {
          OthersStayOpen(x, s, w, a.sample, v);
        }
      }
    }
  }

  /** Tables change without touching the attempts of running calls. */
  ghost predicate KeepsOpen(t: Tables, u: Tables, k: AttemptKey) {
    k in t.attempts && t.attempts[k].outcome == Started ==> k in u.attempts && u.attempts[k].outcome == Started
  }

  lemma MaintainKeepsOpen(t: Tables, s: Settings, now: Time, a: TableAction, k: AttemptKey)
    requires TablesOk(t, s) && TableEnabled(t, s, now, a)
    requires a.RunReconcile? ==> k.delivery !in a.batch
    ensures KeepsOpen(t, DoTables(t, s, now, a), k)
  {
    if k in t.attempts && t.attempts[k].outcome == Started {
      OpenAttemptIsDelivering(t, s, k);
    }
  }

  lemma MaintainKeepsCallsOpen(x: System, s: Settings, a: TableAction, budget: nat)
    requires Sound(x, s) && CallsOpen(x) && TableEnabled(x.t, s, x.now, a)
    requires Prompt(x, budget) && budget <= s.leaseSeconds * SECOND
    ensures CallsOpen(x.(t := DoTables(x.t, s, x.now, a), sessions := DoSessions(x.t, x.sessions, a)))
  {
    var y := x.(t := DoTables(x.t, s, x.now, a), sessions := DoSessions(x.t, x.sessions, a));
    forall v | v in y.workers && y.workers[v].Calling?
      ensures CallOpen(y, v)
    {
      assert CallOpen(x, v);
      if a.RunReconcile? {
        ReconcileSparesPromptCalls(x, s, a.batch, budget, v);
      }
      MaintainKeepsOpen(x.t, s, x.now, a, x.workers[v].claim.attempt);
    }
  }

  lemma DispatchKeepsCallsOpen(x: System, s: Settings, p: nat, a: DispatcherAction)
    requires CallsOpen(x) && DispatcherEnabled(x, s, p, a)
    ensures CallsOpen(DoDispatch(x, s, p, a))
  {
    var y := DoDispatch(x, s, p, a);
    assert y.workers == x.workers && y.t.attempts == x.t.attempts;
    CallsOpenFrame(x, y);
  }

  lemma ServeKeepsCallsOpen(x: System, s: Settings, c: nat, a: ClientAction)
    requires CallsOpen(x) && ClientEnabled(x, c, a)
    ensures CallsOpen(DoServe(x, s, c, a))
  {
    ServeEffect(x, s, c, a);
    CallsOpenFrame(x, DoServe(x, s, c, a));
  }

  lemma CallsOpenFrame(x: System, y: System)
    requires CallsOpen(x) && y.workers == x.workers && y.t.attempts == x.t.attempts
    ensures CallsOpen(y)
  {
    forall v | v in y.workers && y.workers[v].Calling?
      ensures CallOpen(y, v)
    {
      assert CallOpen(x, v);
    }
  }

  lemma NextKeepsCallsOpen(x: System, s: Settings, a: Action, budget: nat)
    requires ValidSettings(s) && Sound(x, s) && CallsOpen(x) && Enabled(x, s, a)
    requires Prompt(x, budget) && budget <= s.leaseSeconds * SECOND
    ensures CallsOpen(Next(x, s, a))
  {
    match a
    case Work(w, b) => WorkKeepsCallsOpen(x, s, w, b);
    case Dispatch(p, b) => DispatchKeepsCallsOpen(x, s, p, b);
    case Serve(c, b) => ServeKeepsCallsOpen(x, s, c, b);
    case Maintain(b) => MaintainKeepsCallsOpen(x, s, b, budget);
    case ReadClock(_) => CallsOpenFrame(x, Next(x, s, a));
  }

  lemma {:induction false} RunCallsOpen(xs: seq<System>, acts: seq<Action>, s: Settings, budget: nat, i: nat)
    requires Run(xs, acts, s) && i < |xs|
    requires budget <= s.leaseSeconds * SECOND && forall n :: 0 <= n < |xs| ==> Prompt(xs[n], budget)
    ensures CallsOpen(xs[i])
  {
    if i > 0 {
      RunCallsOpen(xs, acts, s, budget, i - 1);
      RunSound(xs, acts, s, i - 1);
      NextKeepsCallsOpen(xs[i - 1], s, acts[i - 1], budget);
    }
  }

  // --- Consequences ---------------------------------------------------------------------------------

  /** Reconciling never hits a delivery whose call is still running. */
  lemma ReconcileNeverFencesALiveCall(
    xs: seq<System>, acts: seq<Action>, s: Settings, budget: nat, i: nat, w: nat)
    requires Run(xs, acts, s) && i < |acts| && acts[i].Maintain? && acts[i].maintain.RunReconcile?
    requires budget <= s.leaseSeconds * SECOND && forall n :: 0 <= n < |xs| ==> Prompt(xs[n], budget)
    requires w in xs[i].workers && xs[i].workers[w].Calling?
    ensures xs[i].workers[w].claim.attempt.delivery !in acts[i].maintain.batch
  {
    RunCallsOpen(xs, acts, s, budget, i);
    RunSound(xs, acts, s, i);
    assert CallOpen(xs[i], w);
    ReconcileSparesPromptCalls(xs[i], s, acts[i].maintain.batch, budget, w);
  }

  /** Workers calling endpoint `e` at this moment. */
  function Callers(x: System, e: nat): set<nat> {
    set w | w in x.workers && x.workers[w].Calling? && x.workers[w].claim.endpoint == e
  }

  predicate SameDeliveryCalls(x: System, v: nat, w: nat) {
    && v in x.workers && w in x.workers && x.workers[v].Calling? && x.workers[w].Calling?
    && x.workers[v].claim.attempt.delivery == x.workers[w].claim.attempt.delivery
  }

  /** Two running calls are for different deliveries. */
  lemma OneCallPerDelivery(x: System, s: Settings, v: nat, w: nat)
    requires Sound(x, s) && CallsOpen(x) && SameDeliveryCalls(x, v, w)
    ensures v == w
  {
    assert CallOpen(x, v) && CallOpen(x, w);
    OpenAttemptIsDelivering(x.t, s, x.workers[v].claim.attempt);
    OpenAttemptIsDelivering(x.t, s, x.workers[w].claim.attempt);
    assert SameAttempt(x.workers[v], x.workers[w]);
  }

  /** An injection bounds the size of a set. */
  lemma {:induction false} InjectionBounds(ws: set<nat>, ds: set<nat>, f: map<nat, nat>)
    requires forall w :: w in ws ==> w in f && f[w] in ds
    requires forall v, w :: v in ws && w in ws && f[v] == f[w] ==> v == w
    ensures |ws| <= |ds|
    decreases |ws|
  {
    if ws != {} {
      var w :| w in ws;
      InjectionBounds(ws - {w}, ds - {f[w]}, f);
    }
  }

  /** At most three calls run against one endpoint at any time, and at most one per delivery. */
  lemma AtMostThreeCalls(xs: seq<System>, acts: seq<Action>, s: Settings, budget: nat, i: nat, e: nat)
    requires Run(xs, acts, s) && i < |xs|
    requires budget <= s.leaseSeconds * SECOND && forall n :: 0 <= n < |xs| ==> Prompt(xs[n], budget)
    ensures |Callers(xs[i], e)| <= ENDPOINT_SLOTS
    ensures forall v, w :: SameDeliveryCalls(xs[i], v, w) ==> v == w
  {
    var x := xs[i];
    RunCallsOpen(xs, acts, s, budget, i);
    RunSound(xs, acts, s, i);
    var f := map w | w in Callers(x, e) :: x.workers[w].claim.attempt.delivery;
    forall w | w in Callers(x, e)
      ensures f[w] in InFlight(x.t, e) && e in x.t.endpoints
    {
      assert CallOpen(x, w) && WorkerOk(x, w);
      OpenAttemptIsDelivering(x.t, s, x.workers[w].claim.attempt);
      assert RefsRowOk(x.t, f[w]);
    }
    forall v, w | SameDeliveryCalls(x, v, w)
      ensures v == w
    {
      OneCallPerDelivery(x, s, v, w);
    }
    if Callers(x, e) != {} {
      assert SlotOk(x.t, e);
      forall v, w | v in Callers(x, e) && w in Callers(x, e) && f[v] == f[w]
        ensures v == w
      {
        assert SameDeliveryCalls(x, v, w);
      }
      InjectionBounds(Callers(x, e), InFlight(x.t, e), f);
    }
  }
}
