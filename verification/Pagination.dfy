/**
 Keyset paging: the ordered queries of the repositories and the limit + 1 pages of the use cases
 (src/webhook_platform/deliveries). Deliveries, events and endpoints are listed newest first, attempts
 oldest first.
 */
module Pagination {
  import opened Wrappers
  import opened Sets

  /** The sort key of a row; the id decides between equal timestamps. */
  datatype Key = Key(createdAt: int, id: nat)

  datatype Order = NewestFirst | OldestFirst

  predicate Earlier(a: Key, b: Key) {
    a.createdAt < b.createdAt || (a.createdAt == b.createdAt && a.id < b.id)
  }

  /** `a` is listed before `b`. */
  predicate Precedes(o: Order, a: Key, b: Key) {
    if o == NewestFirst then Earlier(b, a) else Earlier(a, b)
  }

  predicate Ordered(o: Order, xs: seq<Key>) {
    forall i, j :: 0 <= i < j < |xs| ==> Precedes(o, xs[i], xs[j])
  }

  predicate IsFirst(o: Order, k: Key, s: set<Key>) {
    k in s && forall x :: x in s && x != k ==> Precedes(o, k, x)
  }

  lemma {:induction false} FirstExists(o: Order, s: set<Key>) returns (k: Key)
    requires s != {}
    ensures IsFirst(o, k, s)
    decreases |s|
  {
    k :| k in s;
    if s != {k} {
      var f := FirstExists(o, s - {k});
      if !Precedes(o, k, f) {
        k := f;
      } else {
        assert forall x :: x in s && x != k && x != f ==> Precedes(o, f, x);
      }
    }
  }

  /** ORDER BY created_at, id: the rows in listing order. */
  ghost function Listing(o: Order, s: set<Key>): seq<Key>
    decreases |s|
  {
    if s == {} then []
    else
      FirstHint(o, s);
      var k :| IsFirst(o, k, s);
      [k] + Listing(o, s - {k})
  }

  lemma FirstHint(o: Order, s: set<Key>)
    requires s != {}
    ensures exists k :: IsFirst(o, k, s)
  {
    var k := FirstExists(o, s);
  }

  /** The listing of a nonempty set starts with its first element and goes on with the rest. */
  lemma ListingHead(o: Order, s: set<Key>) returns (k: Key)
    requires s != {}
    ensures IsFirst(o, k, s) && Listing(o, s) == [k] + Listing(o, s - {k})
  {
    FirstHint(o, s);
    k := Listing(o, s)[0];
  }

  lemma OrderedCons(o: Order, k: Key, xs: seq<Key>)
    requires Ordered(o, xs) && forall x :: x in xs ==> Precedes(o, k, x)
    ensures Ordered(o, [k] + xs)
  {
  }

  lemma {:induction false} ListingIsOrdered(o: Order, s: set<Key>)
    ensures Ordered(o, Listing(o, s)) && |Listing(o, s)| == |s|
    ensures forall x :: x in Listing(o, s) <==> x in s
    decreases |s|
  {
    if s != {} {
      var k := ListingHead(o, s);
      ListingIsOrdered(o, s - {k});
      OrderedCons(o, k, Listing(o, s - {k}));
    }
  }

  lemma OrderedHead(o: Order, a: seq<Key>, b: seq<Key>)
    requires Ordered(o, a) && Ordered(o, b) && (forall x :: x in a <==> x in b) && a != []
    ensures b != [] && a[0] == b[0]
  {
    assert a[0] in a;
    var i :| 0 <= i < |b| && b[i] == a[0];
    assert b[0] in b;
    var j :| 0 <= j < |a| && a[j] == b[0];
  }

  /** There is only one way to list a set in order. */
  lemma {:induction false} OrderedIsUnique(o: Order, a: seq<Key>, b: seq<Key>)
    requires Ordered(o, a) && Ordered(o, b) && (forall x :: x in a <==> x in b)
    ensures a == b
  {
    if a != [] {
      OrderedHead(o, a, b);
      forall x
        ensures x in a[1..] <==> x in b[1..]
      {
        InTail(o, a, x);
        InTail(o, b, x);
      }
      OrderedIsUnique(o, a[1..], b[1..]);
    } else if b != [] {
      OrderedHead(o, b, a);
    }
  }

  lemma InTail(o: Order, a: seq<Key>, x: Key)
    requires a != [] && Ordered(o, a)
    ensures x in a[1..] <==> x in a && x != a[0]
  {
    if x in a[1..] {
      var i :| 0 <= i < |a[1..]| && a[1..][i] == x;
      assert a[i + 1] == x;
    }
    if x in a && x != a[0] {
      var i :| 0 <= i < |a| && a[i] == x;
      assert a[1..][i - 1] == x;
    }
  }

  /** Newest first means: the later timestamp first, and of equal ones the greater id; oldest first the reverse. */
  lemma ListingOrder(o: Order, s: set<Key>, i: nat, j: nat)
    requires i < j < |Listing(o, s)|
    ensures
      var a, b := Listing(o, s)[i], Listing(o, s)[j];
      && (o == NewestFirst ==> a.createdAt > b.createdAt || (a.createdAt == b.createdAt && a.id > b.id))
      && (o == OldestFirst ==> a.createdAt < b.createdAt || (a.createdAt == b.createdAt && a.id < b.id))
  {
    ListingIsOrdered(o, s);
  }

  // --- Pages --------------------------------------------------------------------------------------------

  /** Rows strictly after the cursor. */
  function Remaining(o: Order, table: set<Key>, cursor: Option<Key>): set<Key> {
    set k | k in table && (cursor.None? || Precedes(o, cursor.value, k))
  }

  function Take(xs: seq<Key>, n: nat): seq<Key> {
    if |xs| <= n then xs else xs[..n]
  }

  /** The repository query: matching rows after the cursor, in order, at most `limit`. */
  ghost function Query(o: Order, table: set<Key>, cursor: Option<Key>, limit: nat): seq<Key> {
    Take(Listing(o, Remaining(o, table, cursor)), limit)
  }

  /** One page: ask for one row too many to know whether there is a next page. */
  ghost function Page(o: Order, table: set<Key>, cursor: Option<Key>, limit: nat): seq<Key> {
    Take(Query(o, table, cursor, limit + 1), limit)
  }

  ghost function NextCursor(o: Order, table: set<Key>, cursor: Option<Key>, limit: nat): Option<Key>
    requires limit >= 1
  {
    var rows := Query(o, table, cursor, limit + 1);
    if |rows| > limit then Some(rows[limit - 1]) else None
  }

  lemma PageIsPrefix(o: Order, table: set<Key>, cursor: Option<Key>, limit: nat)
    requires limit >= 1
    ensures Page(o, table, cursor, limit) == Take(Listing(o, Remaining(o, table, cursor)), limit)
    ensures NextCursor(o, table, cursor, limit).Some? <==> |Remaining(o, table, cursor)| > limit
    ensures NextCursor(o, table, cursor, limit).Some? ==>
              && |Page(o, table, cursor, limit)| == limit
              && NextCursor(o, table, cursor, limit).value == Page(o, table, cursor, limit)[limit - 1]
  {
    ListingIsOrdered(o, Remaining(o, table, cursor));
  }

  /** What remains after the next cursor is what the page left over. */
  lemma NextPageContinues(o: Order, table: set<Key>, cursor: Option<Key>, limit: nat)
    requires limit >= 1 && NextCursor(o, table, cursor, limit).Some?
    ensures
      var next := NextCursor(o, table, cursor, limit);
      && |Listing(o, Remaining(o, table, cursor))| > limit
      && Listing(o, Remaining(o, table, next)) == Listing(o, Remaining(o, table, cursor))[limit..]
      && |Remaining(o, table, next)| < |Remaining(o, table, cursor)|
  {
    var all := Listing(o, Remaining(o, table, cursor));
    var next := NextCursor(o, table, cursor, limit);
    ListingIsOrdered(o, Remaining(o, table, cursor));
    ListingIsOrdered(o, Remaining(o, table, next));
    PageIsPrefix(o, table, cursor, limit);
    assert next.value == all[limit - 1] && all[limit - 1] in all;
    forall x
      ensures x in all[limit..] <==> x in Remaining(o, table, next)
    {
      AfterIndex(o, all, limit - 1, x);
    }
    OrderedIsUnique(o, all[limit..], Listing(o, Remaining(o, table, next)));
  }

  lemma AfterIndex(o: Order, xs: seq<Key>, i: nat, x: Key)
    requires Ordered(o, xs) && i < |xs|
    ensures x in xs[i + 1..] <==> x in xs && Precedes(o, xs[i], x)
  {
    if x in xs && Precedes(o, xs[i], x) {
      var j :| 0 <= j < |xs| && xs[j] == x;
      assert j > i;
      assert xs[i + 1..][j - i - 1] == x;
    }
    if x in xs[i + 1..] {
      var j :| 0 <= j < |xs[i + 1..]| && xs[i + 1..][j] == x;
      assert xs[i + 1 + j] == x;
    }
  }

  /** All pages of an unchanging table, one after the other. */
  ghost function Traverse(o: Order, table: set<Key>, cursor: Option<Key>, limit: nat): seq<Key>
    requires limit >= 1
    decreases |Remaining(o, table, cursor)|
  {
    var next := NextCursor(o, table, cursor, limit);
    if next.None? then Page(o, table, cursor, limit)
    else
      NextPageContinues(o, table, cursor, limit);
      Page(o, table, cursor, limit) + Traverse(o, table, next, limit)
  }

  /** Following next_cursor to the end returns the whole sorted list, for every page size. */
  lemma {:induction false} PagesAreTheList(o: Order, table: set<Key>, cursor: Option<Key>, limit: nat)
    requires limit >= 1
    ensures Traverse(o, table, cursor, limit) == Listing(o, Remaining(o, table, cursor))
    decreases |Remaining(o, table, cursor)|
  {
    var all := Listing(o, Remaining(o, table, cursor));
    PageIsPrefix(o, table, cursor, limit);
    ListingIsOrdered(o, Remaining(o, table, cursor));
    if NextCursor(o, table, cursor, limit).Some? {
      NextPageContinues(o, table, cursor, limit);
      PagesAreTheList(o, table, NextCursor(o, table, cursor, limit), limit);
      assert all == all[..limit] + all[limit..];
    }
  }

  /** From the beginning: every row of the table, each once, in order. */
  lemma FullTraversal(o: Order, table: set<Key>, limit: nat)
    requires limit >= 1
    ensures Traverse(o, table, None, limit) == Listing(o, table)
  {
    assert Remaining(o, table, None) == table;
    PagesAreTheList(o, table, None, limit);
  }

  // --- A table that changes between pages -----------------------------------------------------------------

  /** The pages when page number i is read from tables[i]. */
  ghost function Output(o: Order, tables: seq<set<Key>>, cursor: Option<Key>, limit: nat): seq<Key>
    requires limit >= 1
  {
    if tables == [] then []
    else
      var next := NextCursor(o, tables[0], cursor, limit);
      Page(o, tables[0], cursor, limit) + if next.None? then [] else Output(o, tables[1..], next, limit)
  }

  /** The traversal reaches a page without next_cursor. */
  ghost predicate Ends(o: Order, tables: seq<set<Key>>, cursor: Option<Key>, limit: nat)
    requires limit >= 1
  {
    tables != [] &&
    var next := NextCursor(o, tables[0], cursor, limit);
    next.None? || Ends(o, tables[1..], next, limit)
  }

  predicate After(o: Order, cursor: Option<Key>, k: Key) {
    cursor.None? || Precedes(o, cursor.value, k)
  }

  lemma PageIsOrdered(o: Order, table: set<Key>, cursor: Option<Key>, limit: nat)
    requires limit >= 1
    ensures Ordered(o, Page(o, table, cursor, limit))
    ensures forall x :: x in Page(o, table, cursor, limit) ==> x in table && After(o, cursor, x)
  {
    var all := Listing(o, Remaining(o, table, cursor));
    ListingIsOrdered(o, Remaining(o, table, cursor));
    PageIsPrefix(o, table, cursor, limit);
    assert forall x :: x in Page(o, table, cursor, limit) ==> x in all;
  }

  lemma LastOfPrefix(o: Order, all: seq<Key>, n: nat, x: Key)
    requires Ordered(o, all) && 1 <= n < |all|
    ensures x in all[..n] <==> x in all && !Precedes(o, all[n - 1], x)
    ensures x in all[..n] ==> x == all[n - 1] || Precedes(o, x, all[n - 1])
  {
    if x in all[..n] {
      var i :| 0 <= i < n && all[..n][i] == x;
      assert all[i] == x;
    }
    if x in all && !Precedes(o, all[n - 1], x) {
      var j :| 0 <= j < |all| && all[j] == x;
      assert all[..n][j] == x;
    }
  }

  /** A page holds exactly the remaining rows up to the next cursor, which is the last of them. */
  lemma PageRows(o: Order, table: set<Key>, cursor: Option<Key>, limit: nat)
    requires limit >= 1
    ensures Ordered(o, Page(o, table, cursor, limit))
    ensures
      var next := NextCursor(o, table, cursor, limit);
      && (forall x :: x in Page(o, table, cursor, limit) <==>
            x in table && After(o, cursor, x) && (next.None? || !Precedes(o, next.value, x)))
      && (next.Some? ==>
            && next.value in table && After(o, cursor, next.value)
            && forall x :: x in Page(o, table, cursor, limit) ==> x == next.value || Precedes(o, x, next.value))
  {
    var all := Listing(o, Remaining(o, table, cursor));
    PageIsOrdered(o, table, cursor, limit);
    ListingIsOrdered(o, Remaining(o, table, cursor));
    PageIsPrefix(o, table, cursor, limit);
    var next := NextCursor(o, table, cursor, limit);
    if next.Some? {
      assert next.value in all;
      forall x
        ensures x in all[..limit] <==> x in all && !Precedes(o, next.value, x)
        ensures x in all[..limit] ==> x == next.value || Precedes(o, x, next.value)
      {
        LastOfPrefix(o, all, limit, x);
      }
    }
  }

  /** Whatever happens to the table, rows come strictly in order, so none comes twice. */
  lemma {:induction false} NoRowTwice(o: Order, tables: seq<set<Key>>, cursor: Option<Key>, limit: nat)
    requires limit >= 1
    ensures Ordered(o, Output(o, tables, cursor, limit))
    ensures forall x :: x in Output(o, tables, cursor, limit) ==> After(o, cursor, x)
    decreases |tables|
  {
    if tables != [] {
      PageRows(o, tables[0], cursor, limit);
      var next := NextCursor(o, tables[0], cursor, limit);
      if next.Some? {
        NoRowTwice(o, tables[1..], next, limit);
        var page, others := Page(o, tables[0], cursor, limit), Output(o, tables[1..], next, limit);
        forall i, j | 0 <= i < |page| && 0 <= j < |others|
          ensures Precedes(o, page[i], others[j])
        {
          assert page[i] in page && others[j] in others;
        }
        OrderedConcat(o, page, others);
        forall x | x in others
          ensures After(o, cursor, x)
        {
        }
      }
    }
  }

  lemma OrderedConcat(o: Order, a: seq<Key>, b: seq<Key>)
    requires Ordered(o, a) && Ordered(o, b)
    requires forall i, j :: 0 <= i < |a| && 0 <= j < |b| ==> Precedes(o, a[i], b[j])
    ensures Ordered(o, a + b)
  {
  }

  /** A row that stays for the whole traversal is returned, whatever is inserted or deleted around it. */
  lemma {:induction false} StableRowsAppear(o: Order, tables: seq<set<Key>>, cursor: Option<Key>, limit: nat, k: Key)
    requires limit >= 1 && Ends(o, tables, cursor, limit)
    requires (forall i :: 0 <= i < |tables| ==> k in tables[i]) && After(o, cursor, k)
    ensures k in Output(o, tables, cursor, limit)
    decreases |tables|
  {
    PageRows(o, tables[0], cursor, limit);
    var next := NextCursor(o, tables[0], cursor, limit);
    if next.Some? && Precedes(o, next.value, k) {
      StableRowsAppear(o, tables[1..], next, limit, k);
    }
  }

  /** Every returned row was in the table when its page was read. */
  lemma {:induction false} RowsAreReal(o: Order, tables: seq<set<Key>>, cursor: Option<Key>, limit: nat, k: Key)
    requires limit >= 1 && k in Output(o, tables, cursor, limit)
    ensures exists i :: 0 <= i < |tables| && k in tables[i]
    decreases |tables|
  {
    PageRows(o, tables[0], cursor, limit);
    if k !in Page(o, tables[0], cursor, limit) {
      RowsAreReal(o, tables[1..], NextCursor(o, tables[0], cursor, limit), limit, k);
      var i :| 0 <= i < |tables[1..]| && k in tables[1..][i];
      assert k in tables[i + 1];
    }
  }

  /** If only finitely many rows ever exist, the traversal ends: more pages than rows cannot be needed. */
  lemma {:induction false} TraversalEnds(
    o: Order, tables: seq<set<Key>>, cursor: Option<Key>, limit: nat, universe: set<Key>)
    requires limit >= 1 && |tables| > |Remaining(o, universe, cursor)|
    requires forall i :: 0 <= i < |tables| ==> tables[i] <= universe
    ensures Ends(o, tables, cursor, limit)
    decreases |tables|
  {
    PageRows(o, tables[0], cursor, limit);
    var next := NextCursor(o, tables[0], cursor, limit);
    if next.Some? {
      var before, after := Remaining(o, universe, cursor), Remaining(o, universe, next);
      assert next.value in before && next.value !in after;
      assert after <= before - {next.value};
      SubsetSize(after, before - {next.value});
      TraversalEnds(o, tables[1..], next, limit, universe);
    }
  }
}
