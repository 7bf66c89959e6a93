/** Bounds on the life of one delivery: how often its status changes and how many calls are made. */
module Progress {
  import opened Wrappers
  import opened Tables
  import opened Transactions
  import opened TableInvariant
  import opened Evolution
  import opened Pipeline
  import opened NoLostWork

  /** Status changes a delivery still has ahead of it when no claim finds its endpoint full. */
  function Remaining(r: Delivery, s: Settings): int {
    match r.status
    case Pending => 1
    case Queued => 3 * (s.maxAttempts - r.attemptCount) - 1
    case RetryScheduled => 3 * (s.maxAttempts - r.attemptCount)
    case Delivering => 3 * (s.maxAttempts - r.attemptCount) + 1
    case _ => 0
  }

  /** A queued delivery put back because its endpoint had no free slot. */
  predicate Deferral(a: Delivery, b: Delivery) {
    a.status == Queued && b.status == RetryScheduled
  }

  lemma EdgeUsesUpMeasure(a: Delivery, b: Delivery, s: Settings, lastA: Option<Attempt>, lastB: Option<Attempt>)
    requires RowStep(a, b) && RowOk(a, s, lastA) && RowOk(b, s, lastB)
    ensures Remaining(b, s) >= 0
    ensures a.status == b.status ==> Remaining(b, s) == Remaining(a, s)
    ensures Deferral(a, b) ==> Remaining(b, s) == Remaining(a, s) + 1
    ensures a.status != b.status && !Deferral(a, b) ==> Remaining(b, s) < Remaining(a, s)
  {
  }

  /** The rows of delivery `d` before and after step `i`, if it exists on both sides. */
  predicate Present(xs: seq<System>, d: nat, i: nat)
  {
    i + 1 < |xs| && d in xs[i].t.deliveries && d in xs[i + 1].t.deliveries
  }

  function StatusChanges(xs: seq<System>, d: nat, n: nat): nat
    requires n < |xs|
  {
    if n == 0 then 0
    else
      var changed := Present(xs, d, n - 1) && xs[n - 1].t.deliveries[d].status != xs[n].t.deliveries[d].status;
      StatusChanges(xs, d, n - 1) + (if changed then 1 else 0)
  }

  function Deferrals(xs: seq<System>, d: nat, n: nat): nat
    requires n < |xs|
  {
    if n == 0 then 0
    else
      var deferred := Present(xs, d, n - 1) && Deferral(xs[n - 1].t.deliveries[d], xs[n].t.deliveries[d]);
      Deferrals(xs, d, n - 1) + (if deferred then 1 else 0)
  }

  /** The action starts an HTTP call for delivery `d`. */
  predicate StartsCall(x: System, a: Action, d: nat) {
    && a.Work? && a.work.RunClaim? && WorkerEnabled(x, a.w, a.work)
    && x.broker[x.workers[a.w].tag].delivery == d && StartsAttempt(x.t, d, a.work.secretOk)
  }

  function Calls(xs: seq<System>, acts: seq<Action>, d: nat, n: nat): nat
    requires n <= |acts| && n < |xs|
  {
    if n == 0 then 0
    else Calls(xs, acts, d, n - 1) + if StartsCall(xs[n - 1], acts[n - 1], d) then 1 else 0
  }

  /** `d` has not been created yet at state `n`. */
  predicate Unborn(xs: seq<System>, d: nat, n: nat)
    requires n < |xs|
  {
    xs[n].t.nextDelivery <= d
  }

  lemma NewbornMeasure(r: Delivery, s: Settings)
    requires Newborn(r)
    ensures Remaining(r, s) == 3 * s.maxAttempts - 1
  {
  }

  ghost predicate Budgeted(xs: seq<System>, s: Settings, d: nat, n: nat)
    requires n < |xs|
  {
    && (Unborn(xs, d, n) ==> StatusChanges(xs, d, n) == 0)
    && StatusChanges(xs, d, n) + (if d in xs[n].t.deliveries then Remaining(xs[n].t.deliveries[d], s) else 0)
       <= 3 * s.maxAttempts - 1 + 2 * Deferrals(xs, d, n)
  }

  lemma BudgetStep(xs: seq<System>, acts: seq<Action>, s: Settings, d: nat, n: nat)
    requires Run(xs, acts, s) && 0 < n < |xs| && Budgeted(xs, s, d, n - 1)
    ensures Budgeted(xs, s, d, n)
  {
    var t, u := xs[n - 1].t, xs[n].t;
    RunSound(xs, acts, s, n - 1);
    NextSound(xs[n - 1], s, acts[n - 1]);
    NumbersInUse(t);
    if d in t.deliveries {
      assert DeliveryOk(t, s, d);
      if d in u.deliveries {
        assert DeliveryOk(u, s, d);
        EdgeUsesUpMeasure(t.deliveries[d], u.deliveries[d], s, Last(t, d), Last(u, d));
      } else {
        EdgeUsesUpMeasure(t.deliveries[d], t.deliveries[d], s, Last(t, d), Last(t, d));
      }
    } else if d in u.deliveries {
      NewbornMeasure(u.deliveries[d], s);
    }
  }

  /**
   In any run a delivery changes status at most 3 * max - 1 times, plus twice for every time a claim
   found its endpoint full.
   */
  lemma {:induction false} StatusChangesBounded(xs: seq<System>, acts: seq<Action>, s: Settings, d: nat, n: nat)
    requires Run(xs, acts, s) && n < |xs|
    ensures StatusChanges(xs, d, n) <= 3 * s.maxAttempts - 1 + 2 * Deferrals(xs, d, n)
    ensures Budgeted(xs, s, d, n)
  {
    if n > 0 {
      StatusChangesBounded(xs, acts, s, d, n - 1);
      BudgetStep(xs, acts, s, d, n);
    }
    RunSound(xs, acts, s, n);
    if d in xs[n].t.deliveries {
      assert DeliveryOk(xs[n].t, s, d);
      EdgeUsesUpMeasure(xs[n].t.deliveries[d], xs[n].t.deliveries[d], s, Last(xs[n].t, d), Last(xs[n].t, d));
    }
  }

  lemma StartedCallIsCounted(x: System, s: Settings, a: Action, d: nat)
    requires ValidSettings(s) && Enabled(x, s, a) && StartsCall(x, a, d)
    ensures d in Next(x, s, a).t.deliveries
    ensures Next(x, s, a).t.deliveries[d].attemptCount == x.t.deliveries[d].attemptCount + 1
  {
  }

  ghost predicate Counted(xs: seq<System>, acts: seq<Action>, d: nat, n: nat)
    requires n <= |acts| && n < |xs|
  {
    && (d in xs[n].t.deliveries ==> Calls(xs, acts, d, n) <= xs[n].t.deliveries[d].attemptCount)
    && (Unborn(xs, d, n) ==> Calls(xs, acts, d, n) == 0)
  }

  lemma CallStep(xs: seq<System>, acts: seq<Action>, s: Settings, d: nat, n: nat)
    requires Run(xs, acts, s) && 0 < n < |xs| && Counted(xs, acts, d, n - 1)
    ensures Counted(xs, acts, d, n)
    ensures Calls(xs, acts, d, n) > Calls(xs, acts, d, n - 1) ==> d in xs[n].t.deliveries
  {
    var x, a := xs[n - 1], acts[n - 1];
    RunSound(xs, acts, s, n - 1);
    NextSound(x, s, a);
    NumbersInUse(x.t);
    if StartsCall(x, a, d) {
      StartedCallIsCounted(x, s, a, d);
    } else if d in x.t.deliveries && d in xs[n].t.deliveries {
      assert RowStep(x.t.deliveries[d], xs[n].t.deliveries[d]);
    }
  }

  /** At most `max` HTTP calls are ever made for a delivery, and each has its own attempt number. */
  lemma {:induction false} CallsBounded(xs: seq<System>, acts: seq<Action>, s: Settings, d: nat, n: nat)
    requires Run(xs, acts, s) && n < |xs|
    ensures Calls(xs, acts, d, n) <= s.maxAttempts
    ensures d in xs[n].t.deliveries ==> Calls(xs, acts, d, n) <= xs[n].t.deliveries[d].attemptCount
    ensures Counted(xs, acts, d, n)
  {
    if n > 0 {
      CallsBounded(xs, acts, s, d, n - 1);
      CallStep(xs, acts, s, d, n);
    }
    RunSound(xs, acts, s, n);
    if d in xs[n].t.deliveries {
      assert DeliveryOk(xs[n].t, s, d);
    }
  }
}
