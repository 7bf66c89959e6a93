/**
 Paging end to end: a client sends back the text it was given, the service decodes it, reads one page
 and encodes the last row of the page again. Rows are keyed by a UTC timestamp and an id of 36 characters,
 compared character by character.
 */
module OpaquePaging {
  import opened Wrappers
  import opened Sets
  import opened Pagination
  import opened Cursors
  import CanonicalJson

  const ID_LENGTH: nat := 36

  datatype Row = Row(createdAt: Stamp, id: string)

  predicate Stored(r: Row) {
    ValidStamp(r.createdAt) && r.createdAt.offset == Some(0) && |r.id| == ID_LENGTH
  }

  // --- The order of rows ----------------------------------------------------------------------------------

  function DateOf(t: Stamp): int {
    (t.year * 12 + t.month) * 32 + t.day
  }

  function TimeOf(t: Stamp): int {
    ((t.hour * 60 + t.minute) * 60 + t.second) * 1_000_000 + t.micro
  }

  /** A number that orders timestamps of one offset by time. */
  function Instant(t: Stamp): int {
    DateOf(t) * 86_400_000_000 + TimeOf(t)
  }

  predicate SameDate(a: Stamp, b: Stamp) {
    a.year == b.year && a.month == b.month && a.day == b.day
  }

  predicate EarlierDate(a: Stamp, b: Stamp) {
    a.year < b.year || (a.year == b.year && (a.month < b.month || (a.month == b.month && a.day < b.day)))
  }

  predicate SameTime(a: Stamp, b: Stamp) {
    a.hour == b.hour && a.minute == b.minute && a.second == b.second && a.micro == b.micro
  }

  predicate EarlierTime(a: Stamp, b: Stamp) {
    || a.hour < b.hour
    || (a.hour == b.hour && (a.minute < b.minute
         || (a.minute == b.minute && (a.second < b.second || (a.second == b.second && a.micro < b.micro)))))
  }

  predicate EarlierStamp(a: Stamp, b: Stamp) {
    EarlierDate(a, b) || (SameDate(a, b) && EarlierTime(a, b))
  }

  lemma DateOrder(a: Stamp, b: Stamp)
    requires ValidStamp(a) && ValidStamp(b)
    ensures DateOf(a) < DateOf(b) <==> EarlierDate(a, b)
    ensures DateOf(a) == DateOf(b) <==> SameDate(a, b)
  {
  }

  lemma TimeOrder(a: Stamp, b: Stamp)
    requires ValidStamp(a) && ValidStamp(b)
    ensures TimeOf(a) < TimeOf(b) <==> EarlierTime(a, b)
    ensures TimeOf(a) == TimeOf(b) <==> SameTime(a, b)
    ensures 0 <= TimeOf(a) < 86_400_000_000
  {
  }

  lemma InstantOrder(a: Stamp, b: Stamp)
    requires ValidStamp(a) && ValidStamp(b) && a.offset == b.offset
    ensures Instant(a) < Instant(b) <==> EarlierStamp(a, b)
    ensures Instant(a) == Instant(b) <==> a == b
  {
    DateOrder(a, b);
    DateOrder(b, a);
    TimeOrder(a, b);
    TimeOrder(b, a);
  }

  /** The characters of an id as digits. */
  function Number(id: string): nat {
    if id == "" then 0 else Number(id[..|id| - 1]) * 0x110000 + id[|id| - 1] as int
  }

  lemma {:induction false} LessLast(a: string, b: string)
    requires |a| == |b| > 0
    ensures
      var i, j := a[..|a| - 1], b[..|b| - 1];
      CanonicalJson.Less(a, b) <==> CanonicalJson.Less(i, j) || (i == j && a[|a| - 1] < b[|b| - 1])
  {
    if |a| > 1 {
      LessLast(a[1..], b[1..]);
      assert a[1..][..|a| - 2] == a[..|a| - 1][1..] && b[1..][..|b| - 2] == b[..|b| - 1][1..];
      var i, j := a[..|a| - 1], b[..|b| - 1];
      assert i == [a[0]] + i[1..] && j == [b[0]] + j[1..];
    }
  }

  /** Ids of one length are ordered as their numbers are. */
  lemma {:induction false} NumberOrder(a: string, b: string)
    requires |a| == |b|
    ensures Number(a) < Number(b) <==> CanonicalJson.Less(a, b)
    ensures Number(a) == Number(b) <==> a == b
  {
    if a != "" {
      NumberOrder(a[..|a| - 1], b[..|b| - 1]);
      LessLast(a, b);
      assert a == a[..|a| - 1] + [a[|a| - 1]] && b == b[..|b| - 1] + [b[|b| - 1]];
    }
  }

  function KeyOf(r: Row): Key {
    Key(Instant(r.createdAt), Number(r.id))
  }

  /** ORDER BY created_at, id */
  predicate EarlierRow(a: Row, b: Row) {
    EarlierStamp(a.createdAt, b.createdAt) || (a.createdAt == b.createdAt && CanonicalJson.Less(a.id, b.id))
  }

  predicate RowPrecedes(o: Order, a: Row, b: Row) {
    if o == NewestFirst then EarlierRow(b, a) else EarlierRow(a, b)
  }

  /** Keys tell rows apart and order them. */
  lemma KeysAreFaithful(a: Row, b: Row)
    requires Stored(a) && Stored(b)
    ensures KeyOf(a) == KeyOf(b) <==> a == b
    ensures Earlier(KeyOf(a), KeyOf(b)) <==> EarlierRow(a, b)
  {
    InstantOrder(a.createdAt, b.createdAt);
    NumberOrder(a.id, b.id);
  }

  // --- Requests --------------------------------------------------------------------------------------------

  predicate AllStored(rows: set<Row>) {
    forall r :: r in rows ==> Stored(r)
  }

  function Keys(rows: set<Row>): set<Key> {
    set r | r in rows :: KeyOf(r)
  }

  ghost predicate Names(k: Key, r: Row) {
    Stored(r) && KeyOf(r) == k
  }

  ghost predicate Named(k: Key) {
    exists r :: Names(k, r)
  }

  ghost function RowOf(k: Key): (r: Row)
    requires Named(k)
    ensures Names(k, r)
  {
    var r :| Names(k, r);
    r
  }

  lemma RowOfKey(r: Row)
    requires Stored(r)
    ensures Named(KeyOf(r)) && RowOf(KeyOf(r)) == r
  {
    assert Names(KeyOf(r), r);
    KeysAreFaithful(RowOf(KeyOf(r)), r);
  }

  ghost predicate AllNamed(ks: seq<Key>) {
    forall i :: 0 <= i < |ks| ==> Named(ks[i])
  }

  ghost function AsRows(ks: seq<Key>): seq<Row>
    requires AllNamed(ks)
  {
    seq(|ks|, i requires 0 <= i < |ks| => RowOf(ks[i]))
  }

  /** The decoded cursor as the query uses it. */
  ghost function Position(text: Option<string>): Result<Option<Key>, CursorError> {
    match DecodeCursor(text)
    case Err(e) => Err(e)
    case Ok(None) => Ok(None)
    case Ok(Some(c)) => Ok(Some(KeyOf(Row(c.0, c.1))))
  }

  /** The text for the next page. */
  ghost function NextText(o: Order, rows: set<Row>, cursor: Option<Key>, limit: nat): Option<string>
    requires limit >= 1 && AllStored(rows)
  {
    var next := NextCursor(o, Keys(rows), cursor, limit);
    if next.None? then None
    else
      NextIsNamed(o, rows, cursor, limit);
      var r := RowOf(next.value);
      Some(EncodeCursor(r.createdAt, r.id))
  }

  lemma PageIsNamed(o: Order, rows: set<Row>, cursor: Option<Key>, limit: nat)
    requires limit >= 1 && AllStored(rows)
    ensures AllNamed(Page(o, Keys(rows), cursor, limit))
  {
    var page := Page(o, Keys(rows), cursor, limit);
    PageRows(o, Keys(rows), cursor, limit);
    forall i | 0 <= i < |page|
      ensures Named(page[i])
    {
      assert page[i] in page;
      var r :| r in rows && KeyOf(r) == page[i];
      assert Names(page[i], r);
    }
  }

  lemma NextIsNamed(o: Order, rows: set<Row>, cursor: Option<Key>, limit: nat)
    requires limit >= 1 && AllStored(rows) && NextCursor(o, Keys(rows), cursor, limit).Some?
    ensures Named(NextCursor(o, Keys(rows), cursor, limit).value)
  {
    PageRows(o, Keys(rows), cursor, limit);
    var r :| r in rows && KeyOf(r) == NextCursor(o, Keys(rows), cursor, limit).value;
    assert Names(KeyOf(r), r);
  }

  /** The text given out for the next page leads to exactly where the page ended. */
  lemma NextTextReads(o: Order, rows: set<Row>, cursor: Option<Key>, limit: nat)
    requires limit >= 1 && AllStored(rows)
    ensures Position(NextText(o, rows, cursor, limit)) == Ok(NextCursor(o, Keys(rows), cursor, limit))
  {
    var next := NextCursor(o, Keys(rows), cursor, limit);
    if next.Some? {
      NextIsNamed(o, rows, cursor, limit);
      var r := RowOf(next.value);
      CursorRoundTrip(r.createdAt, r.id);
      assert Row(r.createdAt, r.id) == r;
    }
  }

  // --- A client that follows the texts ------------------------------------------------------------------------

  ghost predicate TablesStored(tables: seq<set<Row>>) {
    forall i :: 0 <= i < |tables| ==> AllStored(tables[i])
  }

  ghost function KeyTables(tables: seq<set<Row>>): seq<set<Key>> {
    seq(|tables|, i requires 0 <= i < |tables| => Keys(tables[i]))
  }

  /** All rows received, page number i being read from tables[i]; an error ends the traversal. */
  ghost function Crawl(o: Order, tables: seq<set<Row>>, text: Option<string>, limit: nat): seq<Row>
    requires limit >= 1 && TablesStored(tables)
  {
    if tables == [] || Position(text).Err? then []
    else
      var cursor := Position(text).value;
      var next := NextText(o, tables[0], cursor, limit);
      PageIsNamed(o, tables[0], cursor, limit);
      AsRows(Page(o, Keys(tables[0]), cursor, limit)) + if next.None? then [] else Crawl(o, tables[1..], next, limit)
  }

  lemma AsRowsConcat(a: seq<Key>, b: seq<Key>)
    requires AllNamed(a) && AllNamed(b)
    ensures AllNamed(a + b) && AsRows(a + b) == AsRows(a) + AsRows(b)
  {
    forall i | 0 <= i < |a + b|
      ensures Named((a + b)[i])
    {
      if i < |a| {
        assert Named(a[i]);
      } else {
        assert Named(b[i - |a|]);
      }
    }
  }

  lemma CrawlStep(o: Order, tables: seq<set<Row>>, text: Option<string>, limit: nat, cursor: Option<Key>)
    requires limit >= 1 && TablesStored(tables) && Position(text) == Ok(cursor) && tables != []
    ensures AllNamed(Page(o, Keys(tables[0]), cursor, limit)) && TablesStored(tables[1..])
    ensures Position(NextText(o, tables[0], cursor, limit)) == Ok(NextCursor(o, Keys(tables[0]), cursor, limit))
    ensures
      var next := NextText(o, tables[0], cursor, limit);
      Crawl(o, tables, text, limit)
      == AsRows(Page(o, Keys(tables[0]), cursor, limit))
         + if next.None? then [] else Crawl(o, tables[1..], next, limit)
  {
    PageIsNamed(o, tables[0], cursor, limit);
    NextTextReads(o, tables[0], cursor, limit);
  }

  lemma OutputStep(o: Order, tables: seq<set<Row>>, cursor: Option<Key>, limit: nat)
    requires limit >= 1 && tables != []
    ensures
      var next := NextCursor(o, Keys(tables[0]), cursor, limit);
      Output(o, KeyTables(tables), cursor, limit)
      == Page(o, Keys(tables[0]), cursor, limit)
         + if next.None? then [] else Output(o, KeyTables(tables[1..]), next, limit)
  {
    assert KeyTables(tables)[1..] == KeyTables(tables[1..]);
  }

  /** Following texts is following cursors. */
  lemma {:induction false} CrawlFollowsCursors(
    o: Order, tables: seq<set<Row>>, text: Option<string>, limit: nat, cursor: Option<Key>)
    requires limit >= 1 && TablesStored(tables) && Position(text) == Ok(cursor)
    ensures AllNamed(Output(o, KeyTables(tables), cursor, limit))
    ensures Crawl(o, tables, text, limit) == AsRows(Output(o, KeyTables(tables), cursor, limit))
    decreases |tables|
  {
    if tables != [] {
      var next := NextCursor(o, Keys(tables[0]), cursor, limit);
      var rest := if next.None? then [] else Output(o, KeyTables(tables[1..]), next, limit);
      CrawlStep(o, tables, text, limit, cursor);
      OutputStep(o, tables, cursor, limit);
      if next.Some? {
        CrawlFollowsCursors(o, tables[1..], NextText(o, tables[0], cursor, limit), limit, next);
      }
      AsRowsConcat(Page(o, Keys(tables[0]), cursor, limit), rest);
    }
  }

  /** Whatever happens to the table between pages, a client receives rows in order, so none twice. */
  lemma CrawlIsOrdered(o: Order, tables: seq<set<Row>>, limit: nat, i: nat, j: nat)
    requires limit >= 1 && TablesStored(tables) && i < j < |Crawl(o, tables, None, limit)|
    ensures RowPrecedes(o, Crawl(o, tables, None, limit)[i], Crawl(o, tables, None, limit)[j])
  {
    var keys := Output(o, KeyTables(tables), None, limit);
    CrawlFollowsCursors(o, tables, None, limit, None);
    NoRowTwice(o, KeyTables(tables), None, limit);
    KeysAreFaithful(RowOf(keys[i]), RowOf(keys[j]));
    KeysAreFaithful(RowOf(keys[j]), RowOf(keys[i]));
  }

  /** The client gets to a page without a next text. */
  ghost predicate Finishes(o: Order, tables: seq<set<Row>>, limit: nat)
    requires limit >= 1
  {
    Ends(o, KeyTables(tables), None, limit)
  }

  /** A row that is there all the time is received. */
  lemma CrawlFindsStableRows(o: Order, tables: seq<set<Row>>, limit: nat, r: Row)
    requires limit >= 1 && TablesStored(tables) && Finishes(o, tables, limit)
    requires tables != [] && forall i :: 0 <= i < |tables| ==> r in tables[i]
    ensures r in Crawl(o, tables, None, limit)
  {
    var keys := Output(o, KeyTables(tables), None, limit);
    CrawlFollowsCursors(o, tables, None, limit, None);
    assert r in tables[0];
    StableRowsAppear(o, KeyTables(tables), None, limit, KeyOf(r));
    var i :| 0 <= i < |keys| && keys[i] == KeyOf(r);
    RowOfKey(r);
    assert AsRows(keys)[i] == r;
  }

  /** Every row received was there when its page was read. */
  lemma CrawlFindsRealRows(o: Order, tables: seq<set<Row>>, limit: nat, r: Row)
    requires limit >= 1 && TablesStored(tables) && r in Crawl(o, tables, None, limit)
    ensures exists i :: 0 <= i < |tables| && r in tables[i]
  {
    var keys := Output(o, KeyTables(tables), None, limit);
    CrawlFollowsCursors(o, tables, None, limit, None);
    var j :| 0 <= j < |keys| && AsRows(keys)[j] == r;
    assert keys[j] in keys;
    RowsAreReal(o, KeyTables(tables), None, limit, keys[j]);
    var i :| 0 <= i < |tables| && keys[j] in KeyTables(tables)[i];
    var q :| q in tables[i] && KeyOf(q) == keys[j];
    KeysAreFaithful(q, r);
  }

  lemma KeyCount(rows: set<Row>)
    ensures |Keys(rows)| <= |rows|
  {
    if rows != {} {
      var r :| r in rows;
      KeyCount(rows - {r});
      assert Keys(rows) <= Keys(rows - {r}) + {KeyOf(r)};
      SubsetSize(Keys(rows), Keys(rows - {r}) + {KeyOf(r)});
    }
  }

  /** A client that asks for page after page of an unchanging table receives exactly its rows, in order. */
  lemma CrawlIsComplete(o: Order, tables: seq<set<Row>>, rows: set<Row>, limit: nat, r: Row)
    requires limit >= 1 && AllStored(rows) && |tables| > |rows|
    requires forall i :: 0 <= i < |tables| ==> tables[i] == rows
    ensures TablesStored(tables) && Finishes(o, tables, limit)
    ensures r in Crawl(o, tables, None, limit) <==> r in rows
  {
    assert Remaining(o, Keys(rows), None) == Keys(rows);
    KeyCount(rows);
    TraversalEnds(o, KeyTables(tables), None, limit, Keys(rows));
    if r in rows {
      CrawlFindsStableRows(o, tables, limit, r);
    }
    if r in Crawl(o, tables, None, limit) {
      CrawlFindsRealRows(o, tables, limit, r);
    }
  }
}
