/**
 Refresh-token rotation (src/webhook_platform/identity). A token's id is its insertion number. Hashes
 stand for the secrets: a newly drawn secret never repeats one, nor a new family id a family.
 */
module RefreshTokens {
  import opened Wrappers

  type Time = int

  datatype Token = Token(
    hash: string, user: string, family: string, expiresAt: Time, revokedAt: Option<Time>,
    replacedBy: Option<nat>)

  /** An unrevoked token of the family. */
  predicate Live(ts: seq<Token>, family: string, i: nat) {
    i < |ts| && ts[i].family == family && ts[i].revokedAt.None?
  }

  function LiveTokens(ts: seq<Token>, family: string): set<nat> {
    set i: nat | 0 <= i < |ts| && Live(ts, family, i)
  }

  ghost predicate Dead(ts: seq<Token>, family: string) {
    forall i :: !Live(ts, family, i)
  }

  predicate UnusedHash(ts: seq<Token>, hash: string) {
    forall i :: 0 <= i < |ts| ==> ts[i].hash != hash
  }

  predicate UnusedFamily(ts: seq<Token>, family: string) {
    forall i :: 0 <= i < |ts| ==> ts[i].family != family
  }

  /** What the service keeps true of the table: every family is one chain of replacements. */
  ghost predicate Chains(ts: seq<Token>) {
    && (forall i, j :: 0 <= i < j < |ts| ==> ts[i].hash != ts[j].hash)
    && (forall i: nat {:trigger Linked(ts, i)} :: i < |ts| ==> Linked(ts, i))
    && (forall i, j :: 0 <= i < j < |ts| && ts[i].family == ts[j].family ==> ts[i].replacedBy.Some?)
  }

  /** A replaced token is revoked, and its replacement is the next token of its family. */
  ghost predicate Linked(ts: seq<Token>, i: nat)
    requires i < |ts|
  {
    ts[i].replacedBy.Some? ==>
      var r := ts[i].replacedBy.value;
      && ts[i].revokedAt.Some?
      && i < r < |ts|
      && ts[r].family == ts[i].family && ts[r].user == ts[i].user
      && forall k :: i < k < r ==> ts[k].family != ts[i].family
  }

  // --- The statements of the repository -------------------------------------------------------------------

  function Issue(ts: seq<Token>, user: string, family: string, hash: string, expiresAt: Time): seq<Token> {
    ts + [Token(hash, user, family, expiresAt, None, None)]
  }

  function Revoke(ts: seq<Token>, i: nat, at: Time, replacement: Option<nat>): seq<Token>
    requires i < |ts|
  {
    ts[i := ts[i].(revokedAt := Some(at), replacedBy := replacement)]
  }

  /** Revoke those of the given tokens that are not revoked yet. */
  function RevokeAll(ts: seq<Token>, ids: set<nat>, at: Time): seq<Token> {
    seq(|ts|, i requires 0 <= i < |ts| =>
      if i in ids && ts[i].revokedAt.None? then ts[i].(revokedAt := Some(at)) else ts[i])
  }

  function Find(ts: seq<Token>, hash: string): (r: Option<nat>)
    ensures r.Some? ==> r.value < |ts| && ts[r.value].hash == hash
    ensures r.None? ==> UnusedHash(ts, hash)
  {
    if ts == [] then None
    else if ts[|ts| - 1].hash == hash then Some(|ts| - 1)
    else Find(ts[..|ts| - 1], hash)
  }

  // --- The use cases ----------------------------------------------------------------------------------------

  datatype Issued = Issued(hash: string, expiresAt: Time)

  datatype RefreshError = InvalidRefreshToken | RefreshTokenReused

  /** A refresh with this secret at this time draws a new token. */
  predicate Renews(ts: seq<Token>, hash: string, now: Time) {
    var i := Find(ts, hash);
    i.Some? && ts[i.value].revokedAt.None? && ts[i.value].expiresAt > now
  }

  predicate Reuses(ts: seq<Token>, hash: string) {
    var i := Find(ts, hash);
    i.Some? && ts[i.value].revokedAt.Some?
  }

  function Renewed(ts: seq<Token>, hash: string, next: Issued, at: Time): seq<Token>
    requires Find(ts, hash).Some?
  {
    var i := Find(ts, hash).value;
    Revoke(Issue(ts, ts[i].user, ts[i].family, next.hash, next.expiresAt), i, at, Some(|ts|))
  }

  function LoggedOut(ts: seq<Token>, hash: string, at: Time): seq<Token> {
    var i := Find(ts, hash);
    if i.Some? && ts[i.value].revokedAt.None? then Revoke(ts, i.value, at, None) else ts
  }

  /** The identity repository and use cases; every method is one transaction. */
  class TokenStore {
    var tokens: seq<Token>

    constructor ()
      ensures tokens == []
    {
      tokens := [];
    }

    method CreateRefresh(user: string, family: string, digest: string, expiresAt: Time) returns (id: nat)
      modifies this
      ensures id == |old(tokens)| && tokens == Issue(old(tokens), user, family, digest, expiresAt)
    {
      id := |tokens|;
      tokens := tokens + [Token(digest, user, family, expiresAt, None, None)];
    }

    method RevokeRefresh(id: nat, at: Time, replacedBy: Option<nat>)
      requires id < |tokens|
      modifies this
      ensures tokens == Revoke(old(tokens), id, at, replacedBy)
    {
      var token := tokens[id];
      token := token.(revokedAt := Some(at));
      token := token.(replacedBy := replacedBy);
      tokens := tokens[id := token];
    }

    method RevokeFamily(family: string, at: Time)
      modifies this
      ensures tokens == RevokeAll(old(tokens), LiveTokens(old(tokens), family), at)
      ensures |tokens| == |old(tokens)| && forall k :: 0 <= k < |tokens| ==>
                tokens[k] == if old(tokens)[k].family == family && old(tokens)[k].revokedAt.None?
                             then old(tokens)[k].(revokedAt := Some(at)) else old(tokens)[k]
    {
      ghost var ts, ids := tokens, LiveTokens(tokens, family);
      var i := 0;
      while i < |tokens|
        invariant i <= |tokens| == |ts|
        invariant forall k :: 0 <= k < i ==> tokens[k] == RevokeAll(ts, ids, at)[k]
        invariant forall k :: i <= k < |ts| ==> tokens[k] == ts[k]
      {
        assert i in ids <==> Live(ts, family, i);
        if tokens[i].family == family && tokens[i].revokedAt.None? {
          tokens := tokens[i := tokens[i].(revokedAt := Some(at))];
        }
        i := i + 1;
      }
      assert tokens == RevokeAll(ts, ids, at);
    }

    method Login(user: string, family: string, next: Issued)
      modifies this
      ensures tokens == Issue(old(tokens), user, family, next.hash, next.expiresAt)
      ensures tokens == old(tokens) + [Token(next.hash, user, family, next.expiresAt, None, None)]
    {
      var _ := CreateRefresh(user, family, next.hash, next.expiresAt);
    }

    method Refresh(hash: string, now: Time, next: Issued, at: Time) returns (r: Result<Issued, RefreshError>)
      modifies this
      ensures Renews(old(tokens), hash, now) ==> r == Ok(next) && tokens == Renewed(old(tokens), hash, next, at)
      ensures Reuses(old(tokens), hash) ==>
                && r == Err(RefreshTokenReused)
                && var family := old(tokens)[Find(old(tokens), hash).value].family;
                   tokens == RevokeAll(old(tokens), LiveTokens(old(tokens), family), at)
      ensures !Renews(old(tokens), hash, now) && !Reuses(old(tokens), hash) ==>
                r == Err(InvalidRefreshToken) && tokens == old(tokens)
    {
      var id := Find(tokens, hash);
      if id.None? {
        return Err(InvalidRefreshToken);
      }
      var token := tokens[id.value];
      if token.revokedAt.Some? {
        RevokeFamily(token.family, at);
        return Err(RefreshTokenReused);
      }
      if token.expiresAt <= now {
        return Err(InvalidRefreshToken);
      }
      var replacement := CreateRefresh(token.user, token.family, next.hash, next.expiresAt);
      RevokeRefresh(id.value, at, Some(replacement));
      return Ok(next);
    }

    method Logout(hash: string, at: Time)
      modifies this
      ensures tokens == LoggedOut(old(tokens), hash, at)
      ensures forall k :: 0 <= k < |old(tokens)| ==>
                k < |tokens| && (old(tokens)[k].hash != hash ==> tokens[k] == old(tokens)[k])
      ensures forall k :: 0 <= k < |old(tokens)| && old(tokens)[k].hash == hash && Unique(old(tokens)) ==>
                tokens[k].revokedAt.Some?
    {
      forall k: nat | k < |tokens| && tokens[k].hash == hash && Unique(tokens)
        ensures Find(tokens, hash) == Some(k)
      {
        FindsIt(tokens, hash, k);
      }
      var id := Find(tokens, hash);
      if id.Some? && tokens[id.value].revokedAt.None? {
        RevokeRefresh(id.value, at, None);
      }
    }
  }

  // --- Runs -------------------------------------------------------------------------------------------------
  //
  // Login, refresh and logout hold the row lock of their token and are one step each. Family revocation is
  // two: its UPDATE sees the tokens committed when it starts, waits for their row locks, and commits later;
  // transactions that held a lock before it commit in between.

  datatype Revocation = Revocation(family: string, seen: set<nat>)

  datatype State = State(tokens: seq<Token>, revocations: map<nat, Revocation>)

  datatype Action =
    | Login(user: string, family: string, next: Issued)
    | Refresh(client: nat, hash: string, now: Time, next: Issued, at: Time)
    | CommitRevocation(client: nat, at: Time)
    | Logout(hash: string, at: Time)

  ghost predicate Enabled(x: State, a: Action) {
    match a
    case Login(_, family, next) => UnusedFamily(x.tokens, family) && UnusedHash(x.tokens, next.hash)
    case Refresh(client, _, _, next, _) => client !in x.revocations && UnusedHash(x.tokens, next.hash)
    case CommitRevocation(client, _) => client in x.revocations
    case Logout(_, _) => true
  }

  ghost function Next(x: State, a: Action): State
    requires Enabled(x, a)
  {
    match a
    case Login(user, family, next) => x.(tokens := Issue(x.tokens, user, family, next.hash, next.expiresAt))
    case Refresh(client, hash, now, next, at) =>
      if Renews(x.tokens, hash, now) then x.(tokens := Renewed(x.tokens, hash, next, at))
      else if Reuses(x.tokens, hash) then
        var family := x.tokens[Find(x.tokens, hash).value].family;
        x.(revocations := x.revocations[client := Revocation(family, LiveTokens(x.tokens, family))])
      else x
    case CommitRevocation(client, at) =>
      x.(tokens := RevokeAll(x.tokens, x.revocations[client].seen, at), revocations := x.revocations - {client})
    case Logout(hash, at) => x.(tokens := LoggedOut(x.tokens, hash, at))
  }

  ghost predicate Run(xs: seq<State>, acts: seq<Action>) {
    && |xs| == |acts| + 1 && xs[0] == State([], map[])
    && forall i {:trigger acts[i]} :: 0 <= i < |acts| ==> Enabled(xs[i], acts[i]) && xs[i + 1] == Next(xs[i], acts[i])
  }

  // --- Every family is one chain ----------------------------------------------------------------------------

  lemma IssueKeepsChains(ts: seq<Token>, user: string, family: string, next: Issued)
    requires Chains(ts) && UnusedFamily(ts, family) && UnusedHash(ts, next.hash)
    ensures Chains(Issue(ts, user, family, next.hash, next.expiresAt))
  {
    var us := Issue(ts, user, family, next.hash, next.expiresAt);
    forall i: nat | i < |us|
      ensures Linked(us, i)
    {
      if i < |ts| {
        assert Linked(ts, i);
      }
    }
  }

  /** An unrevoked token is the last of its family. */
  lemma LiveIsLast(ts: seq<Token>, i: nat, j: nat)
    requires Chains(ts) && i < |ts| && ts[i].revokedAt.None? && i < j < |ts|
    ensures ts[j].family != ts[i].family
  {
    assert Linked(ts, i);
  }

  lemma RenewKeepsChains(ts: seq<Token>, hash: string, now: Time, next: Issued, at: Time)
    requires Chains(ts) && Renews(ts, hash, now) && UnusedHash(ts, next.hash)
    ensures Chains(Renewed(ts, hash, next, at))
  {
    var us, p := Renewed(ts, hash, next, at), Find(ts, hash).value;
    forall j | p < j < |ts|
      ensures ts[j].family != ts[p].family
    {
      LiveIsLast(ts, p, j);
    }
    forall i: nat | i < |us|
      ensures Linked(us, i)
    {
      if i < |ts| {
        assert Linked(ts, i);
      }
    }
  }

  lemma RevokeAllKeepsChains(ts: seq<Token>, ids: set<nat>, at: Time)
    requires Chains(ts)
    ensures Chains(RevokeAll(ts, ids, at))
  {
    var us := RevokeAll(ts, ids, at);
    forall i: nat | i < |us|
      ensures Linked(us, i)
    {
      assert Linked(ts, i);
    }
  }

  lemma LogoutKeepsChains(ts: seq<Token>, hash: string, at: Time)
    requires Chains(ts)
    ensures Chains(LoggedOut(ts, hash, at))
  {
    var us := LoggedOut(ts, hash, at);
    var p := Find(ts, hash);
    if p.Some? && ts[p.value].revokedAt.None? {
      assert Linked(ts, p.value);
      forall i: nat | i < |us|
        ensures Linked(us, i)
      {
        assert Linked(ts, i);
      }
    }
  }

  lemma NextKeepsChains(x: State, a: Action)
    requires Chains(x.tokens) && Enabled(x, a)
    ensures Chains(Next(x, a).tokens)
  {
    match a
    case Login(user, family, next) => IssueKeepsChains(x.tokens, user, family, next);
    case Refresh(_, hash, now, next, at) =>
      if Renews(x.tokens, hash, now) {
        RenewKeepsChains(x.tokens, hash, now, next, at);
      }
    case CommitRevocation(client, at) => RevokeAllKeepsChains(x.tokens, x.revocations[client].seen, at);
    case Logout(hash, at) => LogoutKeepsChains(x.tokens, hash, at);
  }

  lemma {:induction false} RunChains(xs: seq<State>, acts: seq<Action>, n: nat)
    requires Run(xs, acts) && n < |xs|
    ensures Chains(xs[n].tokens)
  {
    if n > 0 {
      RunChains(xs, acts, n - 1);
      assert Enabled(xs[n - 1], acts[n - 1]);
      NextKeepsChains(xs[n - 1], acts[n - 1]);
    }
  }

  /**
   In every reachable state a family is one linear chain: each token is replaced by the next of the
   family, has its user, and only the last can be unrevoked.
   */
  lemma FamilyIsOneChain(xs: seq<State>, acts: seq<Action>, n: nat, i: nat, j: nat)
    requires Run(xs, acts) && n < |xs|
    requires i < j < |xs[n].tokens| && xs[n].tokens[i].family == xs[n].tokens[j].family
    requires forall k :: i < k < j ==> xs[n].tokens[k].family != xs[n].tokens[i].family
    ensures xs[n].tokens[i].replacedBy == Some(j)
    ensures xs[n].tokens[i].revokedAt.Some? && xs[n].tokens[i].user == xs[n].tokens[j].user
  {
    RunChains(xs, acts, n);
    assert Linked(xs[n].tokens, i);
  }

  lemma AtMostOneLive(xs: seq<State>, acts: seq<Action>, n: nat, family: string, i: nat, j: nat)
    requires Run(xs, acts) && n < |xs| && Live(xs[n].tokens, family, i)
    requires j < |xs[n].tokens| && xs[n].tokens[j].family == family
    ensures j <= i && (Live(xs[n].tokens, family, j) ==> j == i)
  {
    RunChains(xs, acts, n);
    if j > i {
      LiveIsLast(xs[n].tokens, i, j);
    } else if j < i && Live(xs[n].tokens, family, j) {
      LiveIsLast(xs[n].tokens, j, i);
    }
  }

  // --- What a step leaves -------------------------------------------------------------------------------------

  /** Tokens stay; identity fields never change; a revocation and its replacement are final. */
  ghost predicate Grows(ts: seq<Token>, us: seq<Token>) {
    && |ts| <= |us|
    && forall i {:trigger us[i]} :: 0 <= i < |ts| ==>
         && us[i].hash == ts[i].hash && us[i].family == ts[i].family && us[i].user == ts[i].user
         && us[i].expiresAt == ts[i].expiresAt
         && (ts[i].revokedAt.Some? ==> us[i] == ts[i])
  }

  lemma NextGrows(x: State, a: Action)
    requires Enabled(x, a)
    ensures Grows(x.tokens, Next(x, a).tokens)
  {
  }

  lemma {:induction false} RunGrows(xs: seq<State>, acts: seq<Action>, m: nat, n: nat)
    requires Run(xs, acts) && m <= n < |xs|
    ensures Grows(xs[m].tokens, xs[n].tokens)
    decreases n
  {
    if m < n {
      RunGrows(xs, acts, m, n - 1);
      assert Enabled(xs[n - 1], acts[n - 1]);
      NextGrows(xs[n - 1], acts[n - 1]);
    }
  }

  /** A family nobody holds a live token of stays so: only a live token, or a new family, gets a new one. */
  lemma DeadStepStaysDead(x: State, a: Action, family: string)
    requires Enabled(x, a) && Dead(x.tokens, family) && !UnusedFamily(x.tokens, family)
    ensures Dead(Next(x, a).tokens, family) && !UnusedFamily(Next(x, a).tokens, family)
  {
    var ts, us := x.tokens, Next(x, a).tokens;
    NextGrows(x, a);
    var k :| 0 <= k < |ts| && ts[k].family == family;
    assert us[k].family == family;
    forall i: nat
      ensures !Live(us, family, i)
    {
      if i < |ts| {
        assert !Live(ts, family, i) && us[i].family == ts[i].family;
      } else if a.Refresh? && Renews(ts, a.hash, a.now) {
        assert !Live(ts, family, Find(ts, a.hash).value);
      }
    }
  }

  lemma {:induction false} DeadStaysDead(xs: seq<State>, acts: seq<Action>, m: nat, n: nat, family: string)
    requires Run(xs, acts) && m <= n < |xs|
    requires Dead(xs[m].tokens, family) && !UnusedFamily(xs[m].tokens, family)
    ensures Dead(xs[n].tokens, family) && !UnusedFamily(xs[n].tokens, family)
    decreases n
  {
    if m < n {
      DeadStaysDead(xs, acts, m, n - 1, family);
      assert Enabled(xs[n - 1], acts[n - 1]);
      DeadStepStaysDead(xs[n - 1], acts[n - 1], family);
    }
  }

  // --- What a secret is good for --------------------------------------------------------------------------------

  ghost predicate Unique(ts: seq<Token>) {
    forall i, j :: 0 <= i < j < |ts| ==> ts[i].hash != ts[j].hash
  }

  lemma AppendThenUpdate(ts: seq<Token>, i: nat, t: Token, u: Token)
    requires i < |ts|
    ensures (ts + [u])[i := t] == ts[i := t] + [u]
  {
  }

  /** The secret of token `i`: renewed if unrevoked and unexpired, a reuse if revoked, refused otherwise. */
  lemma RefreshOutcome(ts: seq<Token>, i: nat, now: Time, next: Issued, at: Time)
    requires Unique(ts) && i < |ts|
    ensures Renews(ts, ts[i].hash, now) <==> ts[i].revokedAt.None? && now < ts[i].expiresAt
    ensures Reuses(ts, ts[i].hash) <==> ts[i].revokedAt.Some?
    ensures Find(ts, ts[i].hash) == Some(i)
    ensures Renewed(ts, ts[i].hash, next, at)
         == ts[i := ts[i].(revokedAt := Some(at), replacedBy := Some(|ts|))]
            + [Token(next.hash, ts[i].user, ts[i].family, next.expiresAt, None, None)]
  {
    FindsIt(ts, ts[i].hash, i);
    AppendThenUpdate(ts, i, ts[i].(revokedAt := Some(at), replacedBy := Some(|ts|)),
                     Token(next.hash, ts[i].user, ts[i].family, next.expiresAt, None, None));
  }

  /** Logout revokes the token of the secret, unless it is revoked already, and no other. */
  lemma LogoutOutcome(ts: seq<Token>, i: nat, at: Time)
    requires Unique(ts) && i < |ts|
    ensures LoggedOut(ts, ts[i].hash, at)
         == if ts[i].revokedAt.Some? then ts else ts[i := ts[i].(revokedAt := Some(at), replacedBy := None)]
  {
    FindsIt(ts, ts[i].hash, i);
  }

  lemma StrangeSecret(ts: seq<Token>, hash: string, now: Time, at: Time)
    requires UnusedHash(ts, hash)
    ensures !Renews(ts, hash, now) && !Reuses(ts, hash) && LoggedOut(ts, hash, at) == ts
  {
  }

  predicate Usable(ts: seq<Token>, hash: string, now: Time, i: nat) {
    i < |ts| && ts[i].hash == hash && ts[i].revokedAt.None? && now < ts[i].expiresAt
  }

  /** A token is drawn by a login, or for the secret of an unrevoked and unexpired token; nothing else draws one. */
  lemma DrawnExactly(xs: seq<State>, acts: seq<Action>, n: nat)
    requires Run(xs, acts) && n < |acts|
    ensures |xs[n + 1].tokens| > |xs[n].tokens| <==>
              acts[n].Login? || (acts[n].Refresh? && exists i :: Usable(xs[n].tokens, acts[n].hash, acts[n].now, i))
  {
    RunChains(xs, acts, n);
    var x, a := xs[n], acts[n];
    assert Enabled(x, a) && xs[n + 1] == Next(x, a);
    if a.Refresh? {
      var p := Find(x.tokens, a.hash);
      if p.Some? {
        RefreshOutcome(x.tokens, p.value, a.now, a.next, a.at);
        assert Renews(x.tokens, a.hash, a.now) ==> Usable(x.tokens, a.hash, a.now, p.value);
      }
      forall i: nat | i < |x.tokens| && x.tokens[i].hash == a.hash
        ensures p == Some(i)
      {
        FindsIt(x.tokens, a.hash, i);
      }
    }
  }

  /** After a logout the secret draws no token again, in any continuation. */
  lemma LoggedOutForGood(xs: seq<State>, acts: seq<Action>, m: nat, n: nat, i: nat)
    requires Run(xs, acts) && m < n < |acts| && i < |xs[m].tokens|
    requires acts[m].Logout? && acts[m].hash == xs[m].tokens[i].hash
    requires acts[n].Refresh? && acts[n].hash == acts[m].hash
    ensures |xs[n + 1].tokens| == |xs[n].tokens| && Reuses(xs[n].tokens, acts[n].hash)
  {
    RunChains(xs, acts, m);
    RunChains(xs, acts, n);
    assert Enabled(xs[m], acts[m]) && xs[m + 1] == Next(xs[m], acts[m]);
    LogoutOutcome(xs[m].tokens, i, acts[m].at);
    RunGrows(xs, acts, m + 1, n);
    assert xs[n].tokens[i] == xs[m + 1].tokens[i];
    assert Enabled(xs[n], acts[n]) && xs[n + 1] == Next(xs[n], acts[n]);
    RefreshOutcome(xs[n].tokens, i, acts[n].now, acts[n].next, acts[n].at);
  }

  // --- One secret, one renewal ----------------------------------------------------------------------------------

  lemma {:induction false} FindsIt(ts: seq<Token>, hash: string, i: nat)
    requires i < |ts| && ts[i].hash == hash
    requires forall j, k :: 0 <= j < k < |ts| ==> ts[j].hash != ts[k].hash
    ensures Find(ts, hash) == Some(i)
  {
    if i < |ts| - 1 {
      FindsIt(ts[..|ts| - 1], hash, i);
    }
  }

  /** No secret is ever exchanged twice, whoever presents it. */
  lemma RenewedOnce(xs: seq<State>, acts: seq<Action>, m: nat, n: nat)
    requires Run(xs, acts) && m < n < |acts| && acts[m].Refresh? && acts[n].Refresh?
    requires acts[m].hash == acts[n].hash && Renews(xs[m].tokens, acts[m].hash, acts[m].now)
    ensures !Renews(xs[n].tokens, acts[n].hash, acts[n].now) && Reuses(xs[n].tokens, acts[n].hash)
  {
    var i := Find(xs[m].tokens, acts[m].hash).value;
    assert Enabled(xs[m], acts[m]) && xs[m + 1].tokens[i].revokedAt.Some?;
    RunGrows(xs, acts, m + 1, n);
    RunChains(xs, acts, n);
    assert xs[n].tokens[i] == xs[m + 1].tokens[i];
    FindsIt(xs[n].tokens, acts[n].hash, i);
  }

  // --- Reuse ------------------------------------------------------------------------------------------------------

  /** Step m finds a revoked token of this family reused; step n commits the revocation it started. */
  ghost predicate Revokes(xs: seq<State>, acts: seq<Action>, m: nat, n: nat, family: string) {
    && Run(xs, acts) && m < n < |acts|
    && acts[m].Refresh? && Reuses(xs[m].tokens, acts[m].hash)
    && xs[m].tokens[Find(xs[m].tokens, acts[m].hash).value].family == family
    && acts[n].CommitRevocation? && acts[n].client == acts[m].client
    && forall k :: m < k < n && acts[k].CommitRevocation? ==> acts[k].client != acts[m].client
  }

  lemma {:induction false} RevocationWaits(xs: seq<State>, acts: seq<Action>, m: nat, n: nat, family: string, k: nat)
    requires Revokes(xs, acts, m, n, family) && m < k <= n
    ensures acts[m].client in xs[k].revocations
    ensures xs[k].revocations[acts[m].client] == Revocation(family, LiveTokens(xs[m].tokens, family))
    decreases k
  {
    assert Enabled(xs[m], acts[m]);
    if k > m + 1 {
      RevocationWaits(xs, acts, m, n, family, k - 1);
      assert Enabled(xs[k - 1], acts[k - 1]) && xs[k] == Next(xs[k - 1], acts[k - 1]);
    }
  }

  /**
   Exactly the tokens issued while the revocation was waiting escape it: after its commit a token of the
   family is live if and only if it was live before and is younger than the detection.
   */
  lemma RevocationMissesOnlyNewTokens(
    xs: seq<State>, acts: seq<Action>, m: nat, n: nat, family: string, i: nat)
    requires Revokes(xs, acts, m, n, family)
    ensures Live(xs[n + 1].tokens, family, i) <==> Live(xs[n].tokens, family, i) && i >= |xs[m].tokens|
  {
    RevocationWaits(xs, acts, m, n, family, n);
    assert Enabled(xs[n], acts[n]) && xs[n + 1] == Next(xs[n], acts[n]);
    RunGrows(xs, acts, m, n);
    if i < |xs[m].tokens| {
      assert xs[n].tokens[i].family == xs[m].tokens[i].family;
      if Live(xs[n].tokens, family, i) {
        assert Live(xs[m].tokens, family, i);
      }
    } else {
      assert !Live(xs[m].tokens, family, i);
    }
  }

  /** The family ends with the reuse, forever, if no refresh overtakes the revocation. */
  lemma ReuseKillsFamily(
    xs: seq<State>, acts: seq<Action>, m: nat, n: nat, family: string, k: nat)
    requires Revokes(xs, acts, m, n, family) && n < k < |xs|
    requires forall i :: |xs[m].tokens| <= i < |xs[n].tokens| ==> xs[n].tokens[i].family != family
    ensures Dead(xs[k].tokens, family)
  {
    var us := xs[n + 1].tokens;
    forall i: nat
      ensures !Live(us, family, i)
    {
      RevocationMissesOnlyNewTokens(xs, acts, m, n, family, i);
    }
    RunGrows(xs, acts, m, n + 1);
    var p := Find(xs[m].tokens, acts[m].hash).value;
    assert xs[n + 1].tokens[p].family == family;
    DeadStaysDead(xs, acts, n + 1, k, family);
  }

  /** With the whole use case as one step nothing overtakes it. */
  lemma ImmediateReuseKillsFamily(xs: seq<State>, acts: seq<Action>, m: nat, family: string, k: nat)
    requires Revokes(xs, acts, m, m + 1, family) && m + 1 < k < |xs|
    ensures Dead(xs[k].tokens, family)
  {
    assert Enabled(xs[m], acts[m]) && xs[m + 1] == Next(xs[m], acts[m]);
    ReuseKillsFamily(xs, acts, m, m + 1, family, k);
  }

  // --- A run in which a refresh overtakes the revocation ----------------------------------------------------

  lemma FiveSteps(x: State, x1: State, x2: State, x3: State, x4: State, x5: State, acts: seq<Action>)
    requires x == State([], map[]) && |acts| == 5
    requires Enabled(x, acts[0]) && Next(x, acts[0]) == x1
    requires Enabled(x1, acts[1]) && Next(x1, acts[1]) == x2
    requires Enabled(x2, acts[2]) && Next(x2, acts[2]) == x3
    requires Enabled(x3, acts[3]) && Next(x3, acts[3]) == x4
    requires Enabled(x4, acts[4]) && Next(x4, acts[4]) == x5
    ensures Run([x, x1, x2, x3, x4, x5], acts)
  {
  }

  /** The first token of a family is renewed. */
  lemma FirstRenewal(t: Token, hash: string, now: Time, next: Issued, at: Time)
    requires t.hash == hash && t.revokedAt.None? && t.expiresAt > now
    ensures Find([t], hash) == Some(0) && Renews([t], hash, now)
    ensures Renewed([t], hash, next, at)
         == [t.(revokedAt := Some(at), replacedBy := Some(1)),
             Token(next.hash, t.user, t.family, next.expiresAt, None, None)]
  {
  }

  lemma FindInTwo(t: Token, u: Token, hash: string)
    requires t.hash != u.hash && hash in {t.hash, u.hash}
    ensures Find([t, u], hash) == Some(if hash == u.hash then 1 else 0)
  {
    assert [t, u][..1] == [t];
  }

  lemma SecondRenewal(t: Token, u: Token, next: Issued, at: Time)
    requires t.hash != u.hash && u.revokedAt.None?
    ensures Find([t, u], u.hash) == Some(1)
    ensures Renewed([t, u], u.hash, next, at)
         == [t, u.(revokedAt := Some(at), replacedBy := Some(2)),
             Token(next.hash, u.user, u.family, next.expiresAt, None, None)]
  {
    FindInTwo(t, u, u.hash);
  }

  /**
   A refresh that overtakes the revocation keeps the family alive: a reuse is detected, its revocation
   commits, and a token of the family is still live.
   */
  lemma OvertakenRevocation() returns (xs: seq<State>, acts: seq<Action>)
    ensures Revokes(xs, acts, 2, 4, "f") && !Dead(xs[5].tokens, "f")
  {
    var first, second, third := Issued("a", 10), Issued("b", 10), Issued("c", 10);
    acts := [Login("u", "f", first), Refresh(0, "a", 0, second, 0), Refresh(1, "a", 1, Issued("d", 10), 1),
             Refresh(0, "b", 1, third, 1), CommitRevocation(1, 2)];
    var a, b := Token("a", "u", "f", 10, None, None), Token("b", "u", "f", 10, None, None);
    var c, a1 := Token("c", "u", "f", 10, None, None), Token("a", "u", "f", 10, Some(0), Some(1));
    var b1 := Token("b", "u", "f", 10, Some(1), Some(2));
    var x1, x2 := State([a], map[]), State([a1, b], map[]);
    FirstRenewal(a, "a", 0, second, 0);
    FindInTwo(a1, b, "a");
    SecondRenewal(a1, b, third, 1);
    var x3 := Next(x2, acts[2]);
    var x4 := State([a1, b1, c], x3.revocations);
    assert Next(x3, acts[3]) == x4;
    var x5 := Next(x4, acts[4]);
    xs := [State([], map[]), x1, x2, x3, x4, x5];
    FiveSteps(xs[0], x1, x2, x3, x4, x5, acts);
    assert Live(x5.tokens, "f", 2);
  }
}
