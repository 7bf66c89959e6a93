/** What retention cleanup removes, when it commits, and when repeating it finishes. */
module Retention {
  import opened Wrappers
  import opened Tables
  import opened Transactions
  import opened TableInvariant
  import opened Sets

  function Cutoff(s: Settings, now: Time): Time {
    now - s.metadataDays * DAY
  }

  // --- One pass -------------------------------------------------------------------------------------------

  lemma CleanupShape(t: Tables, w: Sweep)
    ensures
      var u := Cleanup(t, w);
      && u.deliveries.Keys <= t.deliveries.Keys && t.deliveries.Keys - w.deliveries <= u.deliveries.Keys
      && (forall d :: d in u.deliveries ==> u.deliveries[d] == t.deliveries[d])
      && u.events.Keys <= t.events.Keys && (forall e :: e in u.events ==> u.events[e] == t.events[e])
      && u.endpoints == t.endpoints && u.outbox == t.outbox
  {
  }

  /** Only expired rows go, and nothing that stays refers to them. */
  lemma CleanupRemovesOnlyExpired(t: Tables, s: Settings, now: Time, w: Sweep)
    requires TablesOk(t, s) && Sweepable(t, s, now, w)
    ensures
      var u := Cleanup(t, w);
      && (forall d :: d in t.deliveries && d !in u.deliveries ==>
            t.deliveries[d].createdAt < Cutoff(s, now) && Terminal(t.deliveries[d].status))
      && (forall e :: e in t.events && e !in u.events ==>
            t.events[e].createdAt < Cutoff(s, now) && !HasDelivery(u, e))
      && (forall d :: d in u.deliveries ==> d in t.deliveries && u.deliveries[d] == t.deliveries[d])
      && (forall e :: e in u.events ==> e in t.events && u.events[e] == t.events[e])
      && u.endpoints == t.endpoints && u.outbox == t.outbox
  {
    var u := Cleanup(t, w);
    CleanupShape(t, w);
    forall e | e in t.events && e !in u.events
      ensures t.events[e].createdAt < Cutoff(s, now) && !HasDelivery(u, e)
    {
      assert e in ExpiredEvents(DropDeliveries(t, w.deliveries), Cutoff(s, now));
      assert u.deliveries == DropDeliveries(t, w.deliveries).deliveries;
    }
  }

  /** Attempts go with their delivery only; those that stay lose at most an expired preview. */
  lemma CleanupKeepsAttempts(t: Tables, s: Settings, now: Time, w: Sweep)
    requires TablesOk(t, s) && Sweepable(t, s, now, w)
    ensures
      var u := Cleanup(t, w);
      && (forall k :: k in u.attempts ==> k.delivery in u.deliveries)
      && (forall k :: k in t.attempts && k.delivery in u.deliveries ==>
            k in u.attempts && (u.attempts[k] == t.attempts[k]
              || (u.attempts[k] == t.attempts[k].(preview := false)
                  && ExpiredPreview(t.attempts[k], now - s.previewDays * DAY))))
      && (forall a :: a in t.audits && a !in u.audits ==> t.audits[a] < now - s.auditDays * DAY)
  {
  }

  /** Every reference of a remaining delivery still resolves. */
  lemma CleanupKeepsReferences(t: Tables, s: Settings, now: Time, w: Sweep, d: nat)
    requires TablesOk(t, s) && Sweepable(t, s, now, w) && d in Cleanup(t, w).deliveries
    ensures
      var u := Cleanup(t, w);
      && u.deliveries[d].event in u.events && u.deliveries[d].endpoint in u.endpoints
      && (u.deliveries[d].replayOf.Some? ==> u.deliveries[d].replayOf.value in u.deliveries)
  {
    CleanupKeeps(t, s, now, w);
    assert RefsRowOk(Cleanup(t, w), d);
  }

  // --- Full passes ----------------------------------------------------------------------------------------

  /** ORDER BY and LIMIT with nobody else's locks in the way: everything expired, or `limit` rows of it. */
  predicate Picks<T(==)>(expired: set<T>, pick: set<T>, limit: nat) {
    pick <= expired && |pick| <= limit && (|pick| < limit ==> pick == expired)
  }

  predicate Older(t: Tables, a: nat, b: nat)
    requires a in t.deliveries && b in t.deliveries
  {
    t.deliveries[a].createdAt < t.deliveries[b].createdAt
    || (t.deliveries[a].createdAt == t.deliveries[b].createdAt && a < b)
  }

  predicate OldestFirst(t: Tables, expired: set<nat>, pick: set<nat>)
    requires expired <= t.deliveries.Keys && pick <= expired
  {
    forall a, b :: a in pick && b in expired && b !in pick ==> Older(t, a, b)
  }

  predicate FullPass(t: Tables, s: Settings, now: Time, limit: nat, w: Sweep) {
    && Sweepable(t, s, now, w)
    && Picks(ExpiredPreviews(t, now - s.previewDays * DAY), w.previews, limit)
    && Picks(ExpiredAudits(t, now - s.auditDays * DAY), w.audits, limit)
    && Picks(ExpiredDeliveries(t, Cutoff(s, now)), w.deliveries, limit)
    && OldestFirst(t, ExpiredDeliveries(t, Cutoff(s, now)), w.deliveries)
    && Picks(ExpiredEvents(DropDeliveries(t, w.deliveries), Cutoff(s, now)), w.events, limit)
  }

  /** Nothing is left that a pass would remove. */
  predicate Clean(t: Tables, s: Settings, now: Time) {
    && ExpiredPreviews(t, now - s.previewDays * DAY) == {}
    && ExpiredAudits(t, now - s.auditDays * DAY) == {}
    && ExpiredDeliveries(t, Cutoff(s, now)) == {}
    && ExpiredEvents(t, Cutoff(s, now)) == {}
  }

  /** A pass returns 0 exactly when there was nothing to remove; then it changes nothing. */
  lemma ZeroMeansClean(t: Tables, s: Settings, now: Time, limit: nat, w: Sweep)
    requires FullPass(t, s, now, limit, w) && limit >= 1
    ensures Total(w) == 0 <==> Clean(t, s, now)
    ensures Total(w) == 0 ==> Cleanup(t, w) == t
  {
    if w.deliveries == {} {
      assert DropDeliveries(t, {}) == t;
    }
    if Total(w) == 0 {
      assert w == Sweep({}, {}, {}, {});
      assert ClearPreviews(t, {}) == t && DropAudits(t, {}) == t && DropEvents(t, {}) == t;
    }
  }

  /**
   A pass that returns 0 leaves no preview, audit row, finished delivery or unused event older than its
   retention time.
   */
  lemma NothingOldIsLeft(t: Tables, s: Settings, now: Time, limit: nat, w: Sweep)
    requires FullPass(t, s, now, limit, w) && limit >= 1 && Total(w) == 0
    ensures forall k :: k in t.attempts && t.attempts[k].preview && t.attempts[k].endedAt.Some? ==>
              t.attempts[k].endedAt.value >= now - s.previewDays * 86_400_000_000
    ensures forall a :: a in t.audits ==> t.audits[a] >= now - s.auditDays * 86_400_000_000
    ensures forall d :: d in t.deliveries && t.deliveries[d].status in {Succeeded, DeadLettered, Cancelled} ==>
              t.deliveries[d].createdAt >= now - s.metadataDays * 86_400_000_000
    ensures forall e :: e in t.events ==>
              t.events[e].createdAt >= now - s.metadataDays * 86_400_000_000
              || exists d :: d in t.deliveries && t.deliveries[d].event == e
  {
    ZeroMeansClean(t, s, now, limit, w);
    forall k | k in t.attempts && t.attempts[k].preview && t.attempts[k].endedAt.Some?
      ensures t.attempts[k].endedAt.value >= now - s.previewDays * 86_400_000_000
    {
      assert k !in ExpiredPreviews(t, now - s.previewDays * DAY);
    }
    forall a | a in t.audits
      ensures t.audits[a] >= now - s.auditDays * 86_400_000_000
    {
      assert a !in ExpiredAudits(t, now - s.auditDays * DAY);
    }
    forall d | d in t.deliveries && t.deliveries[d].status in {Succeeded, DeadLettered, Cancelled}
      ensures t.deliveries[d].createdAt >= now - s.metadataDays * 86_400_000_000
    {
      assert d !in ExpiredDeliveries(t, Cutoff(s, now));
    }
    forall e | e in t.events && t.events[e].createdAt < now - s.metadataDays * 86_400_000_000
      ensures exists d :: d in t.deliveries && t.deliveries[d].event == e
    {
      assert e !in ExpiredEvents(t, Cutoff(s, now));
    }
  }

  lemma StillUsed(t: Tables, gone: set<nat>, d: nat)
    requires d in t.deliveries && d !in gone
    ensures HasDelivery(DropDeliveries(t, gone), t.deliveries[d].event)
  {
    assert d in DropDeliveries(t, gone).deliveries;
  }

  /** Whatever a pass takes is older than its retention time; deliveries are finished, events are unused. */
  lemma TakesOnlyOld(t: Tables, s: Settings, now: Time, w: Sweep)
    requires Sweepable(t, s, now, w)
    ensures forall k :: k in w.previews ==>
              k in t.attempts && t.attempts[k].preview && t.attempts[k].endedAt.Some?
              && t.attempts[k].endedAt.value < now - s.previewDays * 86_400_000_000
    ensures forall a :: a in w.audits ==> a in t.audits && t.audits[a] < now - s.auditDays * 86_400_000_000
    ensures forall d :: d in w.deliveries ==>
              d in t.deliveries && t.deliveries[d].status in {Succeeded, DeadLettered, Cancelled}
              && t.deliveries[d].createdAt < now - s.metadataDays * 86_400_000_000
    ensures forall e :: e in w.events ==>
              e in t.events && t.events[e].createdAt < now - s.metadataDays * 86_400_000_000
              && forall d :: d in t.deliveries && t.deliveries[d].event == e ==> d in w.deliveries
  {
    forall e, d | e in w.events && d in t.deliveries && t.deliveries[d].event == e
      ensures d in w.deliveries
    {
      assert e in ExpiredEvents(DropDeliveries(t, w.deliveries), Cutoff(s, now));
      if d !in w.deliveries {
        StillUsed(t, w.deliveries, d);
      }
    }
  }

  /** A committed pass removes what it takes, with the attempts of its deliveries, and clears the previews. */
  lemma CommittedPass(t: Tables, w: Sweep)
    requires forall d :: d in t.deliveries && d !in w.deliveries && t.deliveries[d].replayOf.Some? ==>
               t.deliveries[d].replayOf.value !in w.deliveries
    ensures
      var u := Cleanup(t, w);
      && u == t.(deliveries := t.deliveries - w.deliveries, events := t.events - w.events,
                 audits := t.audits - w.audits, attempts := u.attempts)
      && (forall k :: k in u.attempts <==> k in t.attempts && k.delivery !in w.deliveries)
      && (forall k :: k in u.attempts ==>
            u.attempts[k] == if k in w.previews then t.attempts[k].(preview := false) else t.attempts[k])
  {
  }

  // --- A measure --------------------------------------------------------------------------------------------

  function OldEvents(t: Tables, cutoff: Time): set<nat> {
    set e | e in t.events && t.events[e].createdAt < cutoff
  }

  /** Rows that are, or may become, removable at this clock reading. */
  function Excess(t: Tables, s: Settings, now: Time): nat {
    |ExpiredPreviews(t, now - s.previewDays * DAY)| + |ExpiredAudits(t, now - s.auditDays * DAY)|
    + |ExpiredDeliveries(t, Cutoff(s, now))| + |OldEvents(t, Cutoff(s, now))|
  }

  lemma PreviewsShrink(t: Tables, w: Sweep, cutoff: Time)
    requires w.previews <= ExpiredPreviews(t, cutoff) && !Orphans(t, w.deliveries)
    ensures |ExpiredPreviews(Cleanup(t, w), cutoff)| + |w.previews| <= |ExpiredPreviews(t, cutoff)|
  {
    Removal(ExpiredPreviews(t, cutoff), w.previews, ExpiredPreviews(Cleanup(t, w), cutoff));
  }

  lemma AuditsShrink(t: Tables, w: Sweep, cutoff: Time)
    requires w.audits <= ExpiredAudits(t, cutoff) && !Orphans(t, w.deliveries)
    ensures |ExpiredAudits(Cleanup(t, w), cutoff)| + |w.audits| <= |ExpiredAudits(t, cutoff)|
  {
    Removal(ExpiredAudits(t, cutoff), w.audits, ExpiredAudits(Cleanup(t, w), cutoff));
  }

  lemma DeliveriesShrink(t: Tables, w: Sweep, cutoff: Time)
    requires w.deliveries <= ExpiredDeliveries(t, cutoff) && !Orphans(t, w.deliveries)
    ensures |ExpiredDeliveries(Cleanup(t, w), cutoff)| + |w.deliveries| <= |ExpiredDeliveries(t, cutoff)|
  {
    Removal(ExpiredDeliveries(t, cutoff), w.deliveries, ExpiredDeliveries(Cleanup(t, w), cutoff));
  }

  lemma EventsShrink(t: Tables, w: Sweep, cutoff: Time)
    requires w.events <= OldEvents(t, cutoff) && !Orphans(t, w.deliveries)
    ensures |OldEvents(Cleanup(t, w), cutoff)| + |w.events| <= |OldEvents(t, cutoff)|
  {
    Removal(OldEvents(t, cutoff), w.events, OldEvents(Cleanup(t, w), cutoff));
  }

  /** Every row a committed pass counts is one row less to remove. */
  lemma PassReducesExcess(t: Tables, s: Settings, now: Time, w: Sweep)
    requires Sweepable(t, s, now, w) && !Orphans(t, w.deliveries)
    ensures Excess(Cleanup(t, w), s, now) + Total(w) <= Excess(t, s, now)
  {
    PreviewsShrink(t, w, now - s.previewDays * DAY);
    AuditsShrink(t, w, now - s.auditDays * DAY);
    DeliveriesShrink(t, w, Cutoff(s, now));
    EventsShrink(t, w, Cutoff(s, now));
  }

  // --- Repetition -------------------------------------------------------------------------------------------

  /** Full passes, one after the other, at one clock reading. */
  ghost predicate Passes(ts: seq<Tables>, ws: seq<Sweep>, s: Settings, now: Time, limit: nat) {
    && |ts| == |ws| + 1
    && forall i {:trigger ws[i]} :: 0 <= i < |ws| ==>
         FullPass(ts[i], s, now, limit, ws[i]) && ts[i + 1] == Cleanup(ts[i], ws[i])
  }

  predicate ReplaysExpired(t: Tables, d: nat, cutoff: Time)
    requires d in t.deliveries
  {
    t.deliveries[d].replayOf.Some? && t.deliveries[d].replayOf.value in ExpiredDeliveries(t, cutoff)
  }

  // --- Which rows a pass takes ------------------------------------------------------------------------------

  /** Expired deliveries that come before `d` in the order of the query. */
  function OlderExpired(t: Tables, cutoff: Time, d: nat): set<nat>
    requires d in t.deliveries
  {
    set q | q in ExpiredDeliveries(t, cutoff) && Older(t, q, d)
  }

  function Rank(t: Tables, cutoff: Time, d: nat): nat
    requires d in t.deliveries
  {
    |OlderExpired(t, cutoff, d)|
  }

  lemma OlderIsStrictOrder(t: Tables, a: nat, b: nat)
    requires a in t.deliveries && b in t.deliveries
    ensures !(Older(t, a, b) && Older(t, b, a)) && !Older(t, a, a)
    ensures a != b ==> Older(t, a, b) || Older(t, b, a)
  {
  }

  /** A pass takes exactly the expired deliveries whose rank is below the limit. */
  lemma PicksByRank(t: Tables, s: Settings, now: Time, limit: nat, w: Sweep, d: nat)
    requires FullPass(t, s, now, limit, w) && d in ExpiredDeliveries(t, Cutoff(s, now))
    ensures d in w.deliveries <==> Rank(t, Cutoff(s, now), d) < limit
    ensures d !in w.deliveries ==> |w.deliveries| == limit && w.deliveries <= OlderExpired(t, Cutoff(s, now), d)
  {
    var expired, older := ExpiredDeliveries(t, Cutoff(s, now)), OlderExpired(t, Cutoff(s, now), d);
    if d in w.deliveries {
      forall q | q in older
        ensures q in w.deliveries - {d}
      {
        OlderIsStrictOrder(t, q, d);
      }
      Removal(w.deliveries, {d}, older);
    } else {
      assert forall q :: q in w.deliveries ==> Older(t, q, d);
      SubsetSize(w.deliveries, older);
    }
  }

  lemma OlderAfter(t: Tables, s: Settings, now: Time, w: Sweep, d: nat)
    requires !Orphans(t, w.deliveries) && d in t.deliveries && d !in w.deliveries
    ensures d in Cleanup(t, w).deliveries
    ensures OlderExpired(Cleanup(t, w), Cutoff(s, now), d) == OlderExpired(t, Cutoff(s, now), d) - w.deliveries
  {
    ExpiredAfter(t, s, now, w);
  }

  /** A committed pass moves every remaining expired delivery `limit` places forward. */
  lemma RankFalls(t: Tables, s: Settings, now: Time, limit: nat, w: Sweep, d: nat)
    requires FullPass(t, s, now, limit, w) && !Orphans(t, w.deliveries)
    requires d in ExpiredDeliveries(t, Cutoff(s, now)) && d !in w.deliveries
    ensures d in ExpiredDeliveries(Cleanup(t, w), Cutoff(s, now))
    ensures Rank(Cleanup(t, w), Cutoff(s, now), d) + limit == Rank(t, Cutoff(s, now), d)
  {
    var u := Cleanup(t, w);
    PicksByRank(t, s, now, limit, w, d);
    ExpiredAfter(t, s, now, w);
    var before, after := OlderExpired(t, Cutoff(s, now), d), OlderExpired(u, Cutoff(s, now), d);
    OlderAfter(t, s, now, w, d);
    assert before == after + w.deliveries;
  }

  lemma ExpiredAfter(t: Tables, s: Settings, now: Time, w: Sweep)
    requires !Orphans(t, w.deliveries)
    ensures ExpiredDeliveries(Cleanup(t, w), Cutoff(s, now)) == ExpiredDeliveries(t, Cutoff(s, now)) - w.deliveries
    ensures Cleanup(t, w).deliveries == t.deliveries - w.deliveries
  {
  }

  // --- When repetition finishes -----------------------------------------------------------------------------

  /** Cut into batches of `limit`, oldest first, no replay of an expired delivery comes in a later one. */
  predicate InBatch(t: Tables, cutoff: Time, limit: nat, d: nat)
    requires d in t.deliveries && limit >= 1
  {
    ReplaysExpired(t, d, cutoff) ==>
      && ExpiredDelivery(t.deliveries[d], cutoff)
      && Rank(t, cutoff, d) / limit <= Rank(t, cutoff, t.deliveries[d].replayOf.value) / limit
  }

  ghost predicate ReplaysInBatch(t: Tables, cutoff: Time, limit: nat)
    requires limit >= 1
  {
    forall d {:trigger InBatch(t, cutoff, limit, d)} :: d in t.deliveries ==> InBatch(t, cutoff, limit, d)
  }

  lemma BatchNumbers(a: nat, b: nat, limit: nat)
    requires limit >= 1
    ensures a < limit <==> a / limit == 0
    ensures a < limit ==> a / limit <= b / limit
    ensures b < limit ==> (a / limit <= b / limit <==> a < limit)
    ensures (a + limit) / limit == a / limit + 1
  {
    LaterBatch(a, limit);
  }

  lemma MoreMultiples(limit: nat, p: nat, q: nat)
    requires p > q
    ensures limit * p >= limit * q + limit
  {
    var k := p - q - 1;
    assert limit * k >= 0;
    assert limit * p == limit * q + limit + limit * k;
  }

  lemma Quotient(limit: nat, p: nat, t: nat, q: nat, r: nat)
    requires limit * p + t == limit * q + r && t < limit && r < limit
    ensures p == q
  {
    if p > q {
      MoreMultiples(limit, p, q);
    } else if q > p {
      MoreMultiples(limit, q, p);
    }
  }

  lemma LaterBatch(a: nat, limit: nat)
    requires limit >= 1
    ensures (a + limit) / limit == a / limit + 1
  {
    var q, n := a / limit, a + limit;
    assert limit * (q + 1) == limit * q + limit;
    Quotient(limit, n / limit, n % limit, q + 1, a % limit);
  }

  lemma BatchedPassCommits(t: Tables, s: Settings, now: Time, limit: nat, w: Sweep)
    requires FullPass(t, s, now, limit, w) && limit >= 1 && ReplaysInBatch(t, Cutoff(s, now), limit)
    ensures !Orphans(t, w.deliveries)
  {
    var cutoff := Cutoff(s, now);
    forall d | d in t.deliveries && t.deliveries[d].replayOf.Some? && t.deliveries[d].replayOf.value in w.deliveries
      ensures d in w.deliveries
    {
      var p := t.deliveries[d].replayOf.value;
      assert InBatch(t, cutoff, limit, d);
      PicksByRank(t, s, now, limit, w, p);
      PicksByRank(t, s, now, limit, w, d);
      BatchNumbers(Rank(t, cutoff, d), Rank(t, cutoff, p), limit);
    }
  }

  lemma InBatchAfter(t: Tables, s: Settings, now: Time, limit: nat, w: Sweep, d: nat)
    requires FullPass(t, s, now, limit, w) && limit >= 1 && !Orphans(t, w.deliveries)
    requires d in t.deliveries && d !in w.deliveries
    ensures d in Cleanup(t, w).deliveries
    ensures InBatch(Cleanup(t, w), Cutoff(s, now), limit, d) <==> InBatch(t, Cutoff(s, now), limit, d)
  {
    var u, cutoff := Cleanup(t, w), Cutoff(s, now);
    ExpiredAfter(t, s, now, w);
    if ReplaysExpired(t, d, cutoff) {
      var p := t.deliveries[d].replayOf.value;
      assert p !in w.deliveries;
      RankFalls(t, s, now, limit, w, p);
      BatchNumbers(Rank(u, cutoff, p), 0, limit);
      if ExpiredDelivery(t.deliveries[d], cutoff) {
        RankFalls(t, s, now, limit, w, d);
        BatchNumbers(Rank(u, cutoff, d), 0, limit);
      }
    }
  }

  lemma InBatchTaken(t: Tables, s: Settings, now: Time, limit: nat, w: Sweep, d: nat)
    requires FullPass(t, s, now, limit, w) && limit >= 1 && d in w.deliveries
    ensures d in t.deliveries && InBatch(t, Cutoff(s, now), limit, d)
  {
    var cutoff := Cutoff(s, now);
    PicksByRank(t, s, now, limit, w, d);
    if ReplaysExpired(t, d, cutoff) {
      BatchNumbers(Rank(t, cutoff, d), Rank(t, cutoff, t.deliveries[d].replayOf.value), limit);
    }
  }

  /** A committed pass neither makes nor breaks the condition. */
  lemma CommittedPassKeepsCondition(t: Tables, s: Settings, now: Time, limit: nat, w: Sweep)
    requires FullPass(t, s, now, limit, w) && limit >= 1 && !Orphans(t, w.deliveries)
    ensures ReplaysInBatch(Cleanup(t, w), Cutoff(s, now), limit) <==> ReplaysInBatch(t, Cutoff(s, now), limit)
  {
    var u, cutoff := Cleanup(t, w), Cutoff(s, now);
    ExpiredAfter(t, s, now, w);
    forall d | d in t.deliveries
      ensures d in w.deliveries ==> InBatch(t, cutoff, limit, d)
      ensures d !in w.deliveries ==>
                d in u.deliveries && (InBatch(u, cutoff, limit, d) <==> InBatch(t, cutoff, limit, d))
    {
      if d in w.deliveries {
        InBatchTaken(t, s, now, limit, w, d);
      } else {
        InBatchAfter(t, s, now, limit, w, d);
      }
    }
  }

  lemma {:induction false} ConditionLasts(
    ts: seq<Tables>, ws: seq<Sweep>, s: Settings, now: Time, limit: nat, n: nat)
    requires Passes(ts, ws, s, now, limit) && limit >= 1 && n <= |ws|
    ensures ReplaysInBatch(ts[n], Cutoff(s, now), limit) <==> ReplaysInBatch(ts[0], Cutoff(s, now), limit)
  {
    if n > 0 {
      ConditionLasts(ts, ws, s, now, limit, n - 1);
      var t, w := ts[n - 1], ws[n - 1];
      if !Orphans(t, w.deliveries) {
        CommittedPassKeepsCondition(t, s, now, limit, w);
      }
    }
  }

  lemma {:induction false} PassesReduce(ts: seq<Tables>, ws: seq<Sweep>, s: Settings, now: Time, limit: nat, n: nat)
    requires Passes(ts, ws, s, now, limit) && limit >= 1 && n <= |ws|
    requires ReplaysInBatch(ts[0], Cutoff(s, now), limit)
    ensures Clean(ts[n], s, now) || Excess(ts[n], s, now) + n <= Excess(ts[0], s, now)
  {
    if n > 0 {
      PassesReduce(ts, ws, s, now, limit, n - 1);
      var t, w := ts[n - 1], ws[n - 1];
      ConditionLasts(ts, ws, s, now, limit, n - 1);
      BatchedPassCommits(t, s, now, limit, w);
      PassReducesExcess(t, s, now, w);
      ZeroMeansClean(t, s, now, limit, w);
    }
  }

  lemma UncleanWithoutCondition(t: Tables, s: Settings, now: Time, limit: nat)
    requires limit >= 1 && !ReplaysInBatch(t, Cutoff(s, now), limit)
    ensures !Clean(t, s, now)
  {
    var d :| d in t.deliveries && !InBatch(t, Cutoff(s, now), limit, d);
    assert t.deliveries[d].replayOf.value in ExpiredDeliveries(t, Cutoff(s, now));
  }

  /**
   Cleanup repeated at a fixed clock reaches a pass that returns 0 if and only if no replay of an expired
   delivery is still unexpired or comes in a later batch than its source.
   */
  lemma FixpointIffReplaysInBatch(
    ts: seq<Tables>, ws: seq<Sweep>, s: Settings, now: Time, limit: nat, n: nat)
    requires Passes(ts, ws, s, now, limit) && limit >= 1 && Excess(ts[0], s, now) < n < |ws|
    ensures Total(ws[n]) == 0 <==> ReplaysInBatch(ts[0], Cutoff(s, now), limit)
    ensures Total(ws[n]) == 0 ==> Clean(ts[n], s, now) && ts[n + 1] == ts[n]
  {
    ZeroMeansClean(ts[n], s, now, limit, ws[n]);
    if ReplaysInBatch(ts[0], Cutoff(s, now), limit) {
      PassesReduce(ts, ws, s, now, limit, n);
    } else {
      ConditionLasts(ts, ws, s, now, limit, n);
      UncleanWithoutCondition(ts[n], s, now, limit);
    }
  }

  /** Without the condition no pass ever returns 0, however many are made. */
  lemma NeverCleans(ts: seq<Tables>, ws: seq<Sweep>, s: Settings, now: Time, limit: nat, n: nat)
    requires Passes(ts, ws, s, now, limit) && limit >= 1 && n < |ws|
    requires !ReplaysInBatch(ts[0], Cutoff(s, now), limit)
    ensures Total(ws[n]) > 0
  {
    ConditionLasts(ts, ws, s, now, limit, n);
    UncleanWithoutCondition(ts[n], s, now, limit);
    ZeroMeansClean(ts[n], s, now, limit, ws[n]);
  }

  /** With it every pass commits. */
  lemma EveryPassCommits(ts: seq<Tables>, ws: seq<Sweep>, s: Settings, now: Time, limit: nat, n: nat)
    requires Passes(ts, ws, s, now, limit) && limit >= 1 && n < |ws|
    requires ReplaysInBatch(ts[0], Cutoff(s, now), limit)
    ensures !Orphans(ts[n], ws[n].deliveries)
  {
    ConditionLasts(ts, ws, s, now, limit, n);
    BatchedPassCommits(ts[n], s, now, limit, ws[n]);
  }

  // --- One batch ----------------------------------------------------------------------------------------------

  ghost predicate ReplaysExpireToo(t: Tables, cutoff: Time) {
    forall d :: d in t.deliveries && ReplaysExpired(t, d, cutoff) ==> ExpiredDelivery(t.deliveries[d], cutoff)
  }

  lemma OneBatch(t: Tables, cutoff: Time, limit: nat)
    requires limit >= 1 && |ExpiredDeliveries(t, cutoff)| <= limit
    ensures ReplaysInBatch(t, cutoff, limit) <==> ReplaysExpireToo(t, cutoff)
  {
    forall d | d in t.deliveries && ReplaysExpired(t, d, cutoff)
      ensures InBatch(t, cutoff, limit, d) <==> ExpiredDelivery(t.deliveries[d], cutoff)
    {
      if ExpiredDelivery(t.deliveries[d], cutoff) {
        RankInBatch(t, cutoff, limit, d);
        BatchNumbers(Rank(t, cutoff, d), Rank(t, cutoff, t.deliveries[d].replayOf.value), limit);
      }
    }
    forall d | d in t.deliveries && !ReplaysExpired(t, d, cutoff)
      ensures InBatch(t, cutoff, limit, d)
    {
    }
    if !ReplaysExpireToo(t, cutoff) {
      var d :| d in t.deliveries && ReplaysExpired(t, d, cutoff) && !ExpiredDelivery(t.deliveries[d], cutoff);
      assert !InBatch(t, cutoff, limit, d);
    }
  }

  lemma RankInBatch(t: Tables, cutoff: Time, limit: nat, d: nat)
    requires d in ExpiredDeliveries(t, cutoff) && |ExpiredDeliveries(t, cutoff)| <= limit
    ensures Rank(t, cutoff, d) < limit
  {
    OlderIsStrictOrder(t, d, d);
    Removal(ExpiredDeliveries(t, cutoff), {d}, OlderExpired(t, cutoff, d));
  }

  /** If one batch has room for everything expired: cleanup finishes exactly when replays expire too. */
  lemma FixpointIffReplaysExpire(
    ts: seq<Tables>, ws: seq<Sweep>, s: Settings, now: Time, limit: nat, n: nat)
    requires Passes(ts, ws, s, now, limit) && limit >= 1 && Excess(ts[0], s, now) < n < |ws|
    requires |ExpiredDeliveries(ts[0], Cutoff(s, now))| <= limit
    ensures Total(ws[n]) == 0 <==> ReplaysExpireToo(ts[0], Cutoff(s, now))
  {
    FixpointIffReplaysInBatch(ts, ws, s, now, limit, n);
    OneBatch(ts[0], Cutoff(s, now), limit);
  }

  // --- Passes exist -----------------------------------------------------------------------------------------

  lemma {:induction false} PickExists<T>(expired: set<T>, limit: nat) returns (pick: set<T>)
    ensures Picks(expired, pick, limit)
    decreases limit
  {
    if limit == 0 || expired == {} {
      pick := {};
    } else {
      var x :| x in expired;
      var rest := PickExists(expired - {x}, limit - 1);
      pick := rest + {x};
      assert expired == (expired - {x}) + {x};
    }
  }

  lemma {:induction false} OldestExists(t: Tables, rows: set<nat>) returns (o: nat)
    requires rows <= t.deliveries.Keys && rows != {}
    ensures o in rows && forall d :: d in rows && d != o ==> Older(t, o, d)
    decreases |rows|
  {
    var x :| x in rows;
    if rows == {x} {
      o := x;
    } else {
      assert rows == (rows - {x}) + {x};
      var y := OldestExists(t, rows - {x});
      o := if Older(t, x, y) then x else y;
    }
  }

  lemma {:induction false} OldestPickExists(t: Tables, expired: set<nat>, limit: nat) returns (pick: set<nat>)
    requires expired <= t.deliveries.Keys
    ensures Picks(expired, pick, limit) && OldestFirst(t, expired, pick)
    decreases limit
  {
    if limit == 0 || expired == {} {
      pick := {};
    } else {
      var o := OldestExists(t, expired);
      var rest := OldestPickExists(t, expired - {o}, limit - 1);
      pick := rest + {o};
      assert expired == (expired - {o}) + {o};
    }
  }

  /** Every table has a full pass for every limit, */
  lemma FullPassExists(t: Tables, s: Settings, now: Time, limit: nat) returns (w: Sweep)
    ensures FullPass(t, s, now, limit, w)
  {
    var previews := PickExists(ExpiredPreviews(t, now - s.previewDays * DAY), limit);
    var audits := PickExists(ExpiredAudits(t, now - s.auditDays * DAY), limit);
    var deliveries := OldestPickExists(t, ExpiredDeliveries(t, Cutoff(s, now)), limit);
    var events := PickExists(ExpiredEvents(DropDeliveries(t, deliveries), Cutoff(s, now)), limit);
    w := Sweep(previews, audits, deliveries, events);
  }

  /** and any number of them, one after the other. */
  lemma {:induction false} PassesExist(t: Tables, s: Settings, now: Time, limit: nat, n: nat)
    returns (ts: seq<Tables>, ws: seq<Sweep>)
    ensures Passes(ts, ws, s, now, limit) && |ws| == n && ts[0] == t
  {
    if n == 0 {
      ts, ws := [t], [];
    } else {
      var us, vs := PassesExist(t, s, now, limit, n - 1);
      var w := FullPassExists(us[n - 1], s, now, limit);
      ts, ws := us + [Cleanup(us[n - 1], w)], vs + [w];
      forall i {:trigger ws[i]} | 0 <= i < n
        ensures FullPass(ts[i], s, now, limit, ws[i]) && ts[i + 1] == Cleanup(ts[i], ws[i])
      {
        if i < n - 1 {
          assert vs[i] == ws[i];
        }
      }
    }
  }

  // --- When a pass aborts -----------------------------------------------------------------------------------

  /** The order decides which expired deliveries are picked. */
  lemma PickIsDetermined(t: Tables, s: Settings, now: Time, limit: nat, v: Sweep, w: Sweep)
    requires FullPass(t, s, now, limit, v) && FullPass(t, s, now, limit, w)
    ensures v.deliveries == w.deliveries
  {
    forall d | d in ExpiredDeliveries(t, Cutoff(s, now))
      ensures d in v.deliveries <==> d in w.deliveries
    {
      PicksByRank(t, s, now, limit, v, d);
      PicksByRank(t, s, now, limit, w, d);
    }
  }

  /** If one batch takes all expired deliveries, it commits exactly when their replays are expired too. */
  lemma CommitsIffReplaysExpired(t: Tables, s: Settings, now: Time, limit: nat, w: Sweep)
    requires FullPass(t, s, now, limit, w) && |ExpiredDeliveries(t, Cutoff(s, now))| <= limit
    ensures !Orphans(t, w.deliveries) <==> ReplaysExpireToo(t, Cutoff(s, now))
  {
    forall d | d in ExpiredDeliveries(t, Cutoff(s, now))
      ensures d in w.deliveries
    {
      RankInBatch(t, Cutoff(s, now), limit, d);
      PicksByRank(t, s, now, limit, w, d);
    }
  }

  /** A pass that aborts leaves everything as it was, so the next one aborts too, and every later one. */
  lemma {:induction false} AbortRepeats(
    ts: seq<Tables>, ws: seq<Sweep>, s: Settings, now: Time, limit: nat, n: nat)
    requires Passes(ts, ws, s, now, limit) && n < |ws| && Orphans(ts[0], ws[0].deliveries)
    ensures ts[n + 1] == ts[0] && Orphans(ts[n], ws[n].deliveries)
  {
    if n > 0 {
      AbortRepeats(ts, ws, s, now, limit, n - 1);
      PickIsDetermined(ts[0], s, now, limit, ws[n], ws[0]);
    } else {
      assert ts[1] == Cleanup(ts[0], ws[0]);
    }
  }
}
