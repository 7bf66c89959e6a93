/** Sequences of actions, and the runs they make. */
module Traces {
  import opened Wrappers
  import opened Tables
  import opened Transactions
  import opened Pipeline
  import opened NoLostWork

  /** An initial state at time 0. */
  const START := System(EMPTY, 0, [], map[], map[], map[], map[], [], map[], map[])

  /** Performing `acts` from `x` is possible and ends in `y`. */
  ghost predicate Leads(x: System, acts: seq<Action>, y: System, s: Settings)
    requires ValidSettings(s)
    decreases |acts|
  {
    if acts == [] then x == y
    else Enabled(x, s, acts[0]) && Leads(Next(x, s, acts[0]), acts[1..], y, s)
  }

  lemma LeadsOne(x: System, a: Action, acts: seq<Action>, y: System, s: Settings)
    requires ValidSettings(s) && Enabled(x, s, a) && Leads(Next(x, s, a), acts, y, s)
    ensures Leads(x, [a] + acts, y, s)
  {
    assert ([a] + acts)[1..] == acts;
  }

  lemma {:induction false} LeadsConcat(x: System, a: seq<Action>, y: System, b: seq<Action>, z: System, s: Settings)
    requires ValidSettings(s) && Leads(x, a, y, s) && Leads(y, b, z, s)
    ensures Leads(x, a + b, z, s)
    decreases |a|
  {
    if a == [] {
      assert a + b == b;
    } else {
      LeadsConcat(Next(x, s, a[0]), a[1..], y, b, z, s);
      LeadsOne(x, a[0], a[1..] + b, z, s);
      assert a + b == [a[0]] + (a[1..] + b);
    }
  }

  lemma LeadsTwo(x: System, a: Action, b: Action, y: System, s: Settings)
    requires ValidSettings(s) && Enabled(x, s, a) && Enabled(Next(x, s, a), s, b)
    requires y == Next(Next(x, s, a), s, b)
    ensures Leads(x, [a, b], y, s)
  {
    LeadsOne(Next(x, s, a), b, [], y, s);
    LeadsOne(x, a, [b], y, s);
    assert [b] + [] == [b] && [a] + [b] == [a, b];
  }

  lemma {:induction false} LeadsSound(x: System, acts: seq<Action>, y: System, s: Settings)
    requires ValidSettings(s) && Leads(x, acts, y, s) && Sound(x, s)
    ensures Sound(y, s)
    decreases |acts|
  {
    if acts != [] {
      NextSound(x, s, acts[0]);
      LeadsSound(Next(x, s, acts[0]), acts[1..], y, s);
    }
  }

  /** What starts in the initial state is a run. */
  lemma TraceIsRun(x: System, acts: seq<Action>, y: System, s: Settings) returns (xs: seq<System>)
    requires ValidSettings(s) && Initial(x) && Leads(x, acts, y, s)
    ensures Run(xs, acts, s) && xs[|acts|] == y
  {
    xs := Path(x, acts, y, s);
  }

  lemma {:induction false} Path(x: System, acts: seq<Action>, y: System, s: Settings) returns (xs: seq<System>)
    requires ValidSettings(s) && Leads(x, acts, y, s)
    ensures |xs| == |acts| + 1 && xs[0] == x && xs[|acts|] == y
    ensures forall i {:trigger acts[i]} :: 0 <= i < |acts| ==>
              Enabled(xs[i], s, acts[i]) && xs[i + 1] == Next(xs[i], s, acts[i])
    decreases |acts|
  {
    if acts == [] {
      xs := [x];
    } else {
      var tail := Path(Next(x, s, acts[0]), acts[1..], y, s);
      xs := [x] + tail;
      forall i {:trigger acts[i]} | 0 <= i < |acts|
        ensures Enabled(xs[i], s, acts[i]) && xs[i + 1] == Next(xs[i], s, acts[i])
      {
        if i > 0 {
          assert acts[i] == acts[1..][i - 1] && xs[i] == tail[i - 1] && xs[i + 1] == tail[i];
        }
      }
    }
  }

  // --- Single management steps ------------------------------------------------------------------------------

  lemma CreateStep(x: System, s: Settings, e: nat, org: OrgId, url: string, types: set<string>)
    returns (y: System)
    requires ValidSettings(s) && e !in x.t.endpoints
    ensures
      var a := Maintain(RunCreate(e, org, url, types));
      Enabled(x, s, a) && y == Next(x, s, a)
    ensures y == x.(t := CreateEndpoint(x.t, e, org, url, types, x.now))
  {
    y := x.(t := CreateEndpoint(x.t, e, org, url, types, x.now));
  }

  lemma BeginStep(x: System, s: Settings, v: nat, q: Verification) returns (y: System)
    requires ValidSettings(s) && v !in x.sessions
    requires Manageable(x.t, q.org, q.e) && x.t.endpoints[q.e].status == q.loaded
    ensures
      var a := Maintain(RunBeginVerify(v, q.org, q.e, q.own));
      Enabled(x, s, a) && y == Next(x, s, a)
    ensures y == x.(t := BeginVerify(x.t, q.org, q.e, q.own), sessions := x.sessions[v := q])
  {
    y := x.(t := BeginVerify(x.t, q.org, q.e, q.own), sessions := x.sessions[v := q]);
  }

  lemma CommitStep(x: System, s: Settings, v: nat, q: Verification) returns (y: System)
    requires ValidSettings(s) && v in x.sessions && x.sessions[v] == q
    ensures Enabled(x, s, Maintain(RunCommitVerify(v, q))) && y == Next(x, s, Maintain(RunCommitVerify(v, q)))
    ensures y == x.(t := CommitVerify(x.t, q, x.now), sessions := x.sessions - {v})
  {
    y := x.(t := CommitVerify(x.t, q, x.now), sessions := x.sessions - {v});
  }

  lemma UpdateStep(x: System, s: Settings, org: OrgId, e: nat, changes: Changes) returns (y: System)
    requires ValidSettings(s)
    ensures Enabled(x, s, Maintain(RunUpdate(org, e, changes)))
    ensures y == Next(x, s, Maintain(RunUpdate(org, e, changes)))
    ensures y == x.(t := UpdateEndpoint(x.t, org, e, changes, x.now))
  {
    y := x.(t := UpdateEndpoint(x.t, org, e, changes, x.now));
  }

  lemma DeleteStep(x: System, s: Settings, org: OrgId, e: nat) returns (y: System)
    requires ValidSettings(s)
    ensures Enabled(x, s, Maintain(RunDelete(org, e))) && y == Next(x, s, Maintain(RunDelete(org, e)))
    ensures y == x.(t := DeleteEndpoint(x.t, org, e, x.now))
  {
    y := x.(t := DeleteEndpoint(x.t, org, e, x.now));
  }
}
