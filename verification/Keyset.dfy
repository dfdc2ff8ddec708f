/**
 * Keyset pagination of the user list (internal/user/sqlc/gen/user.sql.go,
 * ListUsersPage): newest first, `LIMIT` rows strictly below a cursor.
 */
module Keyset {
  import opened Clock
  import opened Wrappers

  /** The sort key of a row: `(created_at, id)`; a uuid is compared as a number. */
  datatype Key = Key(createdAt: Time, id: nat)

  /** Row comparison `a < b`. */
  predicate Below(a: Key, b: Key) {
    a.createdAt < b.createdAt || (a.createdAt == b.createdAt && a.id < b.id)
  }

  /**
   * The WHERE clause. No timestamp means every row; a timestamp without an id makes
   * the comparison unknown, hence not true, where the timestamps tie.
   */
  predicate Matches(k: Key, createdAt: Option<Time>, id: Option<nat>) {
    createdAt.None? || k.createdAt < createdAt.value
    || (k.createdAt == createdAt.value && id.Some? && k.id < id.value)
  }

  /** The keys currently in the table. */
  type Table = set<Key>

  function Selected(t: Table, createdAt: Option<Time>, id: Option<nat>): Table {
    set k | k in t && Matches(k, createdAt, id)
  }

  lemma {:induction false} MaxExists(t: Table)
    requires t != {}
    ensures exists k :: k in t && forall j :: j in t && j != k ==> Below(j, k)
  {
    var k :| k in t;
    if t == {k} {
    } else {
      MaxExists(t - {k});
      var m :| m in t - {k} && forall j :: j in t - {k} && j != m ==> Below(j, m);
      var best := if Below(m, k) then k else m;
      forall j | j in t && j != best ensures Below(j, best) {
        assert j == k || j in t - {k};
      }
    }
  }

  /** The newest key. */
  ghost function Newest(t: Table): (k: Key)
    requires t != {}
    ensures k in t && forall j :: j in t && j != k ==> Below(j, k)
  {
    MaxExists(t);
    var k :| k in t && forall j :: j in t && j != k ==> Below(j, k);
    k
  }

  /** `ORDER BY created_at DESC, id DESC`. */
  ghost function Ordered(t: Table): seq<Key> {
    if t == {} then [] else [Newest(t)] + Ordered(t - {Newest(t)})
  }

  /** The rows one query returns. */
  ghost function Page(t: Table, createdAt: Option<Time>, id: Option<nat>, limit: nat): seq<Key> {
    var rows := Ordered(Selected(t, createdAt, id));
    if limit < |rows| then rows[..limit] else rows
  }

  predicate Descending(s: seq<Key>) {
    forall i, j :: 0 <= i < j < |s| ==> Below(s[j], s[i])
  }

  lemma {:induction false} OrderedLists(t: Table)
    ensures Descending(Ordered(t)) && |Ordered(t)| == |t|
    ensures forall k :: k in t <==> k in Ordered(t)
  {
    if t != {} {
      var k := Newest(t);
      OrderedLists(t - {k});
      var rest := Ordered(t - {k});
      assert Ordered(t) == [k] + rest;
      forall i, j | 0 <= i < j < |Ordered(t)| ensures Below(Ordered(t)[j], Ordered(t)[i]) {
        assert Ordered(t)[j] == rest[j - 1] && rest[j - 1] in t - {k};
      }
    }
  }

  /** What the driver yields for one row: its columns, or a scan error. */
  datatype Row = Row(key: Key) | Unreadable(error: string)

  /** The rows before the first that cannot be scanned. */
  function Keys(rows: seq<Row>): Result<seq<Key>, string> {
    if rows == [] then Success([])
    else
      match Keys(rows[..|rows| - 1])
      case Failure(e) => Failure(e)
      case Success(keys) =>
        match rows[|rows| - 1]
        case Unreadable(e) => Failure(e)
        case Row(key) => Success(keys + [key])
  }

  /**
   * ListUsersPage: a failed query gives its error; otherwise rows are appended one by
   * one, and the first scan error, or else the cursor's own, discards everything.
   */
  method ListUsersPage(queryErr: Option<string>, rows: seq<Row>, rowsErr: Option<string>)
    returns (r: Result<seq<Key>, string>)
    ensures r == if queryErr.Some? then Failure(queryErr.value)
                 else if Keys(rows).Success? && rowsErr.Some? then Failure(rowsErr.value)
                 else Keys(rows)
  {
    if queryErr.Some? {
      return Failure(queryErr.value);
    }
    var items := [];
    var n := 0;
    while n < |rows|
      invariant 0 <= n <= |rows| && Keys(rows[..n]) == Success(items)
    {
      assert rows[..n + 1][..n] == rows[..n];
      if rows[n].Unreadable? {
        KeysStop(rows, n);
        return Failure(rows[n].error);
      }
      items := items + [rows[n].key];
      n := n + 1;
    }
    assert rows[..n] == rows;
    if rowsErr.Some? {
      return Failure(rowsErr.value);
    }
    r := Success(items);
  }

  /** Rows after the first error do not matter. */
  lemma {:induction false} KeysStop(rows: seq<Row>, n: nat)
    requires n < |rows| && Keys(rows[..n]).Success? && rows[n].Unreadable?
    ensures Keys(rows) == Failure(rows[n].error)
    decreases |rows|
  {
    var m := |rows| - 1;
    if n < m {
      assert rows[..m][..n] == rows[..n];
      KeysStop(rows[..m], n);
    }
  }

  function RowsOf(keys: seq<Key>): seq<Row> {
    seq(|keys|, i requires 0 <= i < |keys| => Row(keys[i]))
  }

  /** A page read without errors is the page. */
  lemma {:induction false} RowsRoundTrip(keys: seq<Key>)
    ensures Keys(RowsOf(keys)) == Success(keys)
    decreases |keys|
  {
    if keys != [] {
      var n := |keys| - 1;
      RowsRoundTrip(keys[..n]);
      assert RowsOf(keys)[..n] == RowsOf(keys[..n]);
      assert keys == keys[..n] + [keys[n]];
    }
  }

  // ---------- one page ----------

  /** A page is descending, selected, and leaves out only rows below all it lists. */
  lemma PageProperties(t: Table, createdAt: Option<Time>, id: Option<nat>, limit: nat)
    ensures var p := Page(t, createdAt, id, limit);
            && Descending(p) && |p| <= limit
            && (forall k :: k in p ==> k in t && Matches(k, createdAt, id))
            && (|p| < limit ==> forall k :: k in t && Matches(k, createdAt, id) ==> k in p)
            && (forall k, j :: k in t && Matches(k, createdAt, id) && k !in p && j in p ==> Below(k, j))
  {
    var all := Selected(t, createdAt, id);
    var rows, p := Ordered(all), Page(t, createdAt, id, limit);
    OrderedLists(all);
    forall k | k in p ensures k in t && Matches(k, createdAt, id) {
      assert k in rows;
      assert k in all;
    }
    if |p| < limit {
      assert p == rows;
      forall k | k in t && Matches(k, createdAt, id) ensures k in p {
        assert k in all;
      }
    }
    forall k, j | k in t && Matches(k, createdAt, id) && k !in p && j in p ensures Below(k, j) {
      assert k in all;
      var a :| 0 <= a < |rows| && rows[a] == k;
      var b :| 0 <= b < |p| && p[b] == j;
      assert |p| <= a && rows[b] == j;
    }
  }

  /**
   * A timestamp without an id selects strictly older rows only: a reader who pages by
   * the last row's timestamp alone loses the rows that share it.
   */
  lemma TimestampAloneSkipsTies(t: Table, createdAt: Time, limit: nat, k: Key)
    ensures var p := Page(t, Some(createdAt), None, limit);
            && (k in p ==> k in t && k.createdAt < createdAt)
            && (|p| < limit && k in t && k.createdAt < createdAt ==> k in p)
            && (k.createdAt == createdAt ==> k !in p)
  {
    PageProperties(t, Some(createdAt), None, limit);
  }

  // ---------- following pages while the table changes ----------

  /** A scan's cursor: nothing yet, or the last row seen. */
  datatype Cursor = Start | After(last: Key)

  function CursorTime(c: Cursor): Option<Time> {
    if c.Start? then None else Some(c.last.createdAt)
  }

  function CursorId(c: Cursor): Option<nat> {
    if c.Start? then None else Some(c.last.id)
  }

  /** With the last row as cursor the WHERE clause is the row comparison. */
  lemma CursorMatches(k: Key, c: Cursor)
    ensures Matches(k, CursorTime(c), CursorId(c)) <==> c.Start? || Below(k, c.last)
  {
  }

  ghost function NextPage(t: Table, c: Cursor, limit: nat): seq<Key> {
    Page(t, CursorTime(c), CursorId(c), limit)
  }

  function Advance(c: Cursor, page: seq<Key>): Cursor {
    if page == [] then c else After(page[|page| - 1])
  }

  /** The scan over the tables it finds at its successive queries; it stops at a short page. */
  ghost function Scan(tables: seq<Table>, c: Cursor, limit: nat): seq<Key>
    decreases |tables|
  {
    if tables == [] then []
    else
      var page := NextPage(tables[0], c, limit);
      if |page| < limit then page else page + Scan(tables[1..], Advance(c, page), limit)
  }

  /** Whether the scan reaches a short page, and so knows it is finished, within these queries. */
  ghost predicate Finishes(tables: seq<Table>, c: Cursor, limit: nat)
    decreases |tables|
  {
    tables != [] &&
    var page := NextPage(tables[0], c, limit);
    (|page| < limit || Finishes(tables[1..], Advance(c, page), limit))
  }

  ghost predicate BelowCursor(k: Key, c: Cursor) {
    c.Start? || Below(k, c.last)
  }

  /** Everything a scan lists is below its cursor, in strictly descending order, and was in the table at some query. */
  lemma {:induction false} ScanDescends(tables: seq<Table>, c: Cursor, limit: nat)
    ensures Descending(Scan(tables, c, limit))
    ensures forall k :: k in Scan(tables, c, limit) ==>
              BelowCursor(k, c) && exists n :: 0 <= n < |tables| && k in tables[n]
    decreases |tables|
  {
    if tables != [] {
      var page := NextPage(tables[0], c, limit);
      PageProperties(tables[0], CursorTime(c), CursorId(c), limit);
      forall k ensures Matches(k, CursorTime(c), CursorId(c)) <==> BelowCursor(k, c) {
        CursorMatches(k, c);
      }
      if limit <= |page| {
        var c' := Advance(c, page);
        var rest := Scan(tables[1..], c', limit);
        ScanDescends(tables[1..], c', limit);
        ScanJoins(page, rest, c, c');
        forall k | k in page + rest ensures exists n :: 0 <= n < |tables| && k in tables[n] {
          if k in page {
            assert k in tables[0];
          } else {
            var n :| 0 <= n < |tables[1..]| && k in tables[1..][n];
            assert k in tables[n + 1];
          }
        }
      }
    }
  }

  lemma ScanJoins(page: seq<Key>, rest: seq<Key>, c: Cursor, c': Cursor)
    requires Descending(page) && Descending(rest) && c' == Advance(c, page)
    requires forall k :: k in page ==> BelowCursor(k, c)
    requires forall k :: k in rest ==> BelowCursor(k, c')
    ensures Descending(page + rest)
    ensures forall k :: k in page + rest ==> BelowCursor(k, c)
  {
    if page == [] {
      assert page + rest == rest;
    } else {
      var last := page[|page| - 1];
      forall i, j | 0 <= i < j < |page + rest| ensures Below((page + rest)[j], (page + rest)[i]) {
        if i < |page| <= j {
          assert rest[j - |page|] in rest;
          assert i < |page| - 1 ==> Below(last, page[i]);
        }
      }
      assert last in page;
    }
  }

  /** The pages a scan reads, one per query. */
  ghost function Pages(tables: seq<Table>, c: Cursor, limit: nat): seq<seq<Key>>
    decreases |tables|
  {
    if tables == [] then []
    else
      var page := NextPage(tables[0], c, limit);
      if |page| < limit then [page] else [page] + Pages(tables[1..], Advance(c, page), limit)
  }

  function Flatten(pages: seq<seq<Key>>): seq<Key> {
    if pages == [] then [] else pages[0] + Flatten(pages[1..])
  }

  /** A scan lists its pages one after the other, and every row of a page was in the table that page was read from. */
  lemma {:induction false} PagesAreCurrent(tables: seq<Table>, c: Cursor, limit: nat)
    ensures Scan(tables, c, limit) == Flatten(Pages(tables, c, limit))
    ensures |Pages(tables, c, limit)| <= |tables|
    ensures forall n, k :: 0 <= n < |Pages(tables, c, limit)| && k in Pages(tables, c, limit)[n] ==> k in tables[n]
    decreases |tables|
  {
    if tables != [] {
      var page := NextPage(tables[0], c, limit);
      PageProperties(tables[0], CursorTime(c), CursorId(c), limit);
      if |page| < limit {
        assert [page][1..] == [];
      } else {
        PagesAreCurrent(tables[1..], Advance(c, page), limit);
        assert Pages(tables, c, limit)[1..] == Pages(tables[1..], Advance(c, page), limit);
      }
    }
  }

  /** A row present at every query, below the cursor, is listed by a scan that finishes. */
  lemma {:induction false} ScanFinds(tables: seq<Table>, c: Cursor, limit: nat, k: Key)
    requires Finishes(tables, c, limit)
    requires forall n :: 0 <= n < |tables| ==> k in tables[n]
    requires BelowCursor(k, c)
    ensures k in Scan(tables, c, limit)
    decreases |tables|
  {
    var page := NextPage(tables[0], c, limit);
    PageProperties(tables[0], CursorTime(c), CursorId(c), limit);
    CursorMatches(k, c);
    if limit <= |page| && k !in page {
      var c' := Advance(c, page);
      assert page != [] ==> Below(k, page[|page| - 1]);
      ScanFinds(tables[1..], c', limit, k);
    }
  }

  /** How often a key occurs in a listing. */
  function Times(k: Key, s: seq<Key>): nat {
    multiset(s)[k]
  }

  lemma {:induction false} DescendingHasNoRepeats(s: seq<Key>, k: Key)
    requires Descending(s) && k in s
    ensures Times(k, s) == 1
    decreases |s|
  {
    var n := |s| - 1;
    var front := s[..n];
    assert s == front + [s[n]];
    if k == s[n] {
      assert forall i :: 0 <= i < n ==> Below(s[n], s[i]) && front[i] != k;
      assert k !in front;
    } else {
      DescendingHasNoRepeats(front, k);
    }
  }

  /**
   * Complete and free of duplicates: following pages with the last row as cursor
   * lists every user present for the whole scan exactly once, in strictly
   * descending order, whatever is inserted or deleted between pages.
   */
  lemma ScanIsComplete(tables: seq<Table>, limit: nat, k: Key)
    requires Finishes(tables, Start, limit)
    requires forall n :: 0 <= n < |tables| ==> k in tables[n]
    ensures Times(k, Scan(tables, Start, limit)) == 1
    ensures Descending(Scan(tables, Start, limit))
  {
    ScanDescends(tables, Start, limit);
    ScanFinds(tables, Start, limit, k);
    DescendingHasNoRepeats(Scan(tables, Start, limit), k);
  }

  // ---------- a fixed table ----------

  /** `n` queries against one unchanging table. */
  function Fixed(t: Table, n: nat): seq<Table> {
    if n == 0 then [] else [t] + Fixed(t, n - 1)
  }

  ghost function Unseen(t: Table, c: Cursor): Table {
    Selected(t, CursorTime(c), CursorId(c))
  }

  /** A full page shrinks what is left to see by exactly its length. */
  lemma PageConsumes(t: Table, c: Cursor, limit: nat)
    requires 1 <= limit && |NextPage(t, c, limit)| == limit
    ensures |Unseen(t, Advance(c, NextPage(t, c, limit)))| == |Unseen(t, c)| - limit
  {
    var page := NextPage(t, c, limit);
    var c' := Advance(c, page);
    PageProperties(t, CursorTime(c), CursorId(c), limit);
    var seen := set k | k in page;
    forall k ensures k in Unseen(t, c') <==> k in Unseen(t, c) && k !in seen {
      CursorMatches(k, c);
      CursorMatches(k, c');
      var last := page[limit - 1];
      assert last in page;
      CursorMatches(last, c);
      if k in page {
        var i :| 0 <= i < |page| && page[i] == k;
        assert i < limit - 1 ==> Below(last, k);
      }
    }
    assert Unseen(t, c') == Unseen(t, c) - seen;
    assert seen <= Unseen(t, c);
    DistinctCount(page);
  }

  lemma {:induction false} DistinctCount(s: seq<Key>)
    requires Descending(s)
    ensures |set k | k in s| == |s|
    decreases |s|
  {
    if s != [] {
      var n := |s| - 1;
      var front := s[..n];
      DistinctCount(front);
      assert forall i :: 0 <= i < n ==> Below(s[n], s[i]) && front[i] != s[n];
      assert (set k | k in s) == (set k | k in front) + {s[n]};
    } else {
      assert (set k | k in s) == {};
    }
  }

  /** On a fixed table with a positive limit the scan ends within one query more than the full pages it holds. */
  lemma {:induction false} FixedTableTerminates(t: Table, c: Cursor, limit: nat, queries: nat)
    requires 1 <= limit && |Unseen(t, c)| < queries * limit
    ensures Finishes(Fixed(t, queries), c, limit)
    decreases queries
  {
    var page := NextPage(t, c, limit);
    PageProperties(t, CursorTime(c), CursorId(c), limit);
    assert queries != 0;
    assert Fixed(t, queries)[1..] == Fixed(t, queries - 1);
    if |page| == limit {
      PageConsumes(t, c, limit);
      assert (queries - 1) * limit == queries * limit - limit;
      FixedTableTerminates(t, Advance(c, page), limit, queries - 1);
    }
  }

  /** The listing of a fixed table is the whole table in order, after at most |table| / limit + 1 queries. */
  lemma FixedTableListedWhole(t: Table, limit: nat, k: Key)
    requires 1 <= limit
    ensures var tables := Fixed(t, |t| / limit + 1);
            && Finishes(tables, Start, limit)
            && Descending(Scan(tables, Start, limit))
            && (k in t <==> k in Scan(tables, Start, limit))
  {
    var n := |t| / limit + 1;
    var tables := Fixed(t, n);
    assert Unseen(t, Start) == t;
    assert |t| < n * limit;
    FixedTableTerminates(t, Start, limit, n);
    ScanDescends(tables, Start, limit);
    FixedIsConstant(t, n);
    if k in t {
      ScanFinds(tables, Start, limit, k);
    }
  }

  lemma {:induction false} FixedIsConstant(t: Table, n: nat)
    ensures |Fixed(t, n)| == n && forall i :: 0 <= i < n ==> Fixed(t, n)[i] == t
  {
    if n != 0 {
      FixedIsConstant(t, n - 1);
    }
  }

  /** With limit 0 no query is ever short: the scan lists nothing and never ends. */
  lemma {:induction false} ZeroLimitNeverEnds(tables: seq<Table>, c: Cursor)
    ensures !Finishes(tables, c, 0) && Scan(tables, c, 0) == []
    decreases |tables|
  {
    if tables != [] {
      PageProperties(tables[0], CursorTime(c), CursorId(c), 0);
      ZeroLimitNeverEnds(tables[1..], Advance(c, NextPage(tables[0], c, 0)));
    }
  }
}
