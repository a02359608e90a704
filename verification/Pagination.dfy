/** Keyset pagination: internal/store/pagination.go over the queries of
    internal/store/logs.go and internal/store/notifications.go.

    A table is the set of the rows that match the filter; a row's time and id
    are all that paging looks at. Encoding of cursors as text is left out. */
module Pagination {
  import opened Options

  datatype Row = Row(at: int, id: int)

  datatype Page = Page(items: seq<Row>, next: Option<Row>)

  const DEFAULT_LIMIT := 50
  const MAX_LIMIT := 200

  /** `r` comes after `c` in descending order of (time, id). */
  predicate Below(r: Row, c: Row) { r.at < c.at || (r.at == c.at && r.id < c.id) }

  function Under(table: set<Row>, cursor: Option<Row>): set<Row> {
    set r | r in table
            && (cursor.Some? ==> r.at < cursor.value.at || (r.at == cursor.value.at && r.id < cursor.value.id))
  }

  lemma HasTop(rows: set<Row>)
    requires rows != {}
    ensures exists m :: m in rows && forall r | r in rows :: r == m || Below(r, m)
  {
    var x :| x in rows;
    var rest := rows - {x};
    assert rows == rest + {x};
    if rest != {} {
      HasTop(rest);
      var m :| m in rest && forall r | r in rest :: r == m || Below(r, m);
      var top := if Below(x, m) then m else x;
      forall r | r in rows ensures r == top || Below(r, top) { assert r == x || r in rest; }
    }
  }

  function Top(rows: set<Row>): (m: Row)
    requires rows != {}
    ensures m in rows && forall r | r in rows :: r == m || Below(r, m)
  {
    HasTop(rows);
    var m :| m in rows && forall r | r in rows :: r == m || Below(r, m);
    m
  }

  /** ORDER BY at DESC, id DESC. */
  function SortDesc(rows: set<Row>): seq<Row> {
    if rows == {} then [] else [Top(rows)] + SortDesc(rows - {Top(rows)})
  }

  /** One query: ORDER BY ... LIMIT n below the cursor. */
  function Select(table: set<Row>, cursor: Option<Row>, n: nat): seq<Row> {
    var sorted := SortDesc(Under(table, cursor));
    if |sorted| <= n then sorted else sorted[..n]
  }

  /** Fetches one row more than it returns, to know whether there are more. */
  function FetchPage(table: set<Row>, cursor: Option<Row>, limit: nat): Page
    requires limit > 0
  {
    var items := Select(table, cursor, limit + 1);
    if |items| > limit then Page(items[..limit], Some(items[limit - 1])) else Page(items, None)
  }

  function PageLimit(asked: int): nat { if asked <= 0 || asked > MAX_LIMIT then DEFAULT_LIMIT else asked }

  function RequestLogPage(table: set<Row>, cursor: Option<Row>, asked: int): Page {
    FetchPage(table, cursor, PageLimit(asked))
  }

  function DeadNotificationPage(table: set<Row>, cursor: Option<Row>): Page {
    FetchPage(table, cursor, DEFAULT_LIMIT)
  }

  // ----------------------------------------------------------- one page

  predicate Descending(rows: seq<Row>) {
    forall i, j | 0 <= i < j < |rows| ::
      rows[j].at < rows[i].at || (rows[j].at == rows[i].at && rows[j].id < rows[i].id)
  }

  lemma {:induction false} SortedRows(rows: set<Row>)
    ensures Descending(SortDesc(rows))
    ensures forall r :: r in SortDesc(rows) <==> r in rows
    ensures |SortDesc(rows)| == |rows|
  {
    if rows != {} {
      var rest := rows - {Top(rows)};
      SortedRows(rest);
      forall j | 0 <= j < |SortDesc(rest)| ensures Below(SortDesc(rest)[j], Top(rows)) {
        assert SortDesc(rest)[j] in rest;
      }
    }
  }

  lemma UnderTop(rows: set<Row>)
    requires rows != {}
    ensures Under(rows, Some(Top(rows))) == rows - {Top(rows)}
  {}

  lemma UnderRest(rows: set<Row>, last: Row)
    requires rows != {} && last in rows - {Top(rows)}
    ensures Under(rows, Some(last)) == Under(rows - {Top(rows)}, Some(last))
  {
    assert Below(last, Top(rows));
  }

  /** What follows the first n rows is what lies below the n-th. */
  lemma {:induction false} RestLiesBelow(rows: set<Row>, n: nat)
    requires 0 < n <= |SortDesc(rows)|
    ensures SortDesc(rows)[n..] == SortDesc(Under(rows, Some(SortDesc(rows)[n - 1])))
  {
    var top := Top(rows);
    var rest := rows - {top};
    if n == 1 {
      UnderTop(rows);
    } else {
      RestLiesBelow(rest, n - 1);
      var last := SortDesc(rows)[n - 1];
      assert last == SortDesc(rest)[n - 2];
      SortedRows(rest);
      assert last in rest;
      UnderRest(rows, last);
    }
  }

  /** A page holds the `limit` topmost rows below the cursor; there is a next
      cursor exactly if rows are left, and it points at the last row returned. */
  ghost predicate IsTopmost(rows: set<Row>, limit: nat, p: Page) {
    && Descending(p.items)
    && (p.next.None? <==> |rows| <= limit)
    && (p.next.None? ==> forall r :: r in p.items <==> r in rows)
    && (p.next.Some? ==> |p.items| == limit > 0 && p.next.value == p.items[limit - 1])
    && (p.next.Some? ==> forall r :: r in p.items <==> r in rows && !Below(r, p.next.value))
  }

  lemma PageIsTopmost(table: set<Row>, cursor: Option<Row>, limit: nat)
    requires limit > 0
    ensures IsTopmost(Under(table, cursor), limit, FetchPage(table, cursor, limit))
  {
    var rows := Under(table, cursor);
    var sorted := SortDesc(rows);
    SortedRows(rows);
    var p := FetchPage(table, cursor, limit);
    if p.next.Some? {
      assert p.items == sorted[..limit];
      forall r ensures r in p.items <==> r in rows && !Below(r, p.next.value) { PrefixIsAbove(sorted, limit, r); }
    }
  }

  lemma PrefixIsAbove(sorted: seq<Row>, n: nat, r: Row)
    requires Descending(sorted) && 0 < n <= |sorted|
    ensures r in sorted[..n] <==> r in sorted && !Below(r, sorted[n - 1])
  {
    if r in sorted {
      var i :| 0 <= i < |sorted| && sorted[i] == r;
      if i < n {
        assert sorted[..n][i] == r;
      } else if r in sorted[..n] {
        assert false;
      }
    }
  }

  /** The page and what lies below its last row make up the list. */
  lemma PageSplits(table: set<Row>, cursor: Option<Row>, limit: nat)
    requires limit > 0
    ensures var p := FetchPage(table, cursor, limit);
            SortDesc(Under(table, cursor)) == p.items + (if p.next.None? then [] else SortDesc(Under(table, p.next)))
  {
    var rows, p := Under(table, cursor), FetchPage(table, cursor, limit);
    FetchedPrefix(table, cursor, limit);
    if p.next.Some? {
      NextIsBelow(table, cursor, limit);
      UnderTwice(table, cursor, p.next.value);
      RestLiesBelow(rows, limit);
      var sorted := SortDesc(rows);
      assert sorted == sorted[..limit] + sorted[limit..];
    }
  }

  lemma FetchedPrefix(table: set<Row>, cursor: Option<Row>, limit: nat)
    requires limit > 0
    ensures var p, sorted := FetchPage(table, cursor, limit), SortDesc(Under(table, cursor));
            if p.next.None? then p.items == sorted
            else |sorted| > limit && p.items == sorted[..limit] && p.next.value == sorted[limit - 1]
  {}

  lemma UnderTwice(table: set<Row>, cursor: Option<Row>, last: Row)
    requires last in Under(table, cursor)
    ensures Under(Under(table, cursor), Some(last)) == Under(table, Some(last))
  {}

  lemma NextIsBelow(table: set<Row>, cursor: Option<Row>, limit: nat)
    requires limit > 0
    ensures var p := FetchPage(table, cursor, limit);
            p.next.Some? ==> p.items[limit - 1] == p.next.value && p.next.value in Under(table, cursor)
  {
    PageIsTopmost(table, cursor, limit);
    var p := FetchPage(table, cursor, limit);
    if p.next.Some? { assert p.items[limit - 1] in p.items; }
  }

  lemma Progress(table: set<Row>, cursor: Option<Row>, limit: nat)
    requires limit > 0
    ensures var p := FetchPage(table, cursor, limit); p.next.Some? ==> Under(table, p.next) < Under(table, cursor)
  {
    NextIsBelow(table, cursor, limit);
    var p := FetchPage(table, cursor, limit);
    if p.next.Some? {
      assert p.next.value in Under(table, cursor) && p.next.value !in Under(table, p.next);
    }
  }

  // ------------------------------------------------- following the cursor

  /** Reads page after page of a table that does not change. */
  function Crawl(table: set<Row>, cursor: Option<Row>, limit: nat): seq<seq<Row>>
    requires limit > 0
    decreases |Under(table, cursor)|
  {
    var p := FetchPage(table, cursor, limit);
    if p.next.None? then [p.items]
    else
      Progress(table, cursor, limit);
      SmallerSet(Under(table, p.next), Under(table, cursor));
      [p.items] + Crawl(table, p.next, limit)
  }

  lemma SmallerSet<T>(a: set<T>, b: set<T>)
    requires a < b
    ensures |a| < |b|
  {
    assert |b| == |a| + |b - a| by { assert b == a + (b - a); }
  }

  function Concat(pages: seq<seq<Row>>): seq<Row> {
    if pages == [] then [] else pages[0] + Concat(pages[1..])
  }

  /** Following the cursor ends, after as many pages as needed and no more, and
      gives the whole descending list: nothing skipped, nothing repeated. */
  lemma {:induction false} CrawlReadsEverything(table: set<Row>, cursor: Option<Row>, limit: nat)
    requires limit > 0
    ensures Concat(Crawl(table, cursor, limit)) == SortDesc(Under(table, cursor))
    decreases |Under(table, cursor)|
  {
    PageSplits(table, cursor, limit);
    var p := FetchPage(table, cursor, limit);
    if p.next.Some? {
      Progress(table, cursor, limit);
      SmallerSet(Under(table, p.next), Under(table, cursor));
      CrawlReadsEverything(table, p.next, limit);
    }
  }

  lemma PageTakes(table: set<Row>, cursor: Option<Row>, limit: nat)
    requires limit > 0 && FetchPage(table, cursor, limit).next.Some?
    ensures var next := FetchPage(table, cursor, limit).next;
            0 < |Under(table, next)| == |Under(table, cursor)| - limit
  {
    PageSplits(table, cursor, limit);
    PageIsTopmost(table, cursor, limit);
    SortedRows(Under(table, cursor));
    SortedRows(Under(table, FetchPage(table, cursor, limit).next));
  }

  lemma LastPage(table: set<Row>, cursor: Option<Row>, limit: nat)
    requires limit > 0 && FetchPage(table, cursor, limit).next.None?
    ensures |Under(table, cursor)| <= limit
  {
    PageIsTopmost(table, cursor, limit);
  }

  /** k pages of `limit` rows hold n rows, and no fewer pages do. */
  predicate Needed(n: nat, k: int, limit: nat) { (k - 1) * limit < n <= k * limit || (n == 0 && k == 1) }

  lemma OneMore(n: nat, k: int, limit: nat)
    requires n > 0 && Needed(n, k, limit)
    ensures Needed(n + limit, k + 1, limit)
  {
    assert (k + 1) * limit == k * limit + limit && k * limit == (k - 1) * limit + limit;
  }

  /** The number of pages is the least that can hold the rows. */
  lemma {:induction false} PagesNeeded(table: set<Row>, cursor: Option<Row>, limit: nat)
    requires limit > 0
    ensures Needed(|Under(table, cursor)|, |Crawl(table, cursor, limit)|, limit)
    decreases |Under(table, cursor)|
  {
    var next := FetchPage(table, cursor, limit).next;
    if next.Some? {
      PageTakes(table, cursor, limit);
      PagesNeeded(table, next, limit);
      OneMore(|Under(table, next)|, |Crawl(table, next, limit)|, limit);
    } else {
      LastPage(table, cursor, limit);
      OnePage(|Under(table, cursor)|, limit);
    }
  }

  lemma OnePage(n: nat, limit: nat)
    requires n <= limit
    ensures Needed(n, 1, limit)
  {}

  /** Reads page after page while the table changes: `tables[i]` is what the i-th
      query sees. Also says whether the last page was reached. */
  function Follow(tables: seq<set<Row>>, cursor: Option<Row>, limit: nat): (seq<Row>, bool)
    requires limit > 0
  {
    if tables == [] then ([], false)
    else
      var p := FetchPage(tables[0], cursor, limit);
      if p.next.None? then (p.items, true)
      else
        var (rows, done) := Follow(tables[1..], p.next, limit);
        (p.items + rows, done)
  }

  /** Whatever is inserted or deleted meanwhile, no row comes twice or out of order. */
  lemma {:induction false} NoRowComesTwice(tables: seq<set<Row>>, cursor: Option<Row>, limit: nat)
    requires limit > 0
    ensures Descending(Follow(tables, cursor, limit).0)
    ensures forall x | x in Follow(tables, cursor, limit).0 :: cursor.Some? ==> Below(x, cursor.value)
    decreases |tables|
  {
    if tables != [] {
      PageIsTopmost(tables[0], cursor, limit);
      NextIsBelow(tables[0], cursor, limit);
      var p := FetchPage(tables[0], cursor, limit);
      if p.next.Some? {
        NoRowComesTwice(tables[1..], p.next, limit);
        PageBefore(p.items, Follow(tables[1..], p.next, limit).0, p.next.value);
      }
    }
  }

  /** A row that is there all the time is not skipped, and no row is made up. */
  lemma {:induction false} StableRowsAreRead(tables: seq<set<Row>>, cursor: Option<Row>, limit: nat, r: Row)
    requires limit > 0
    ensures (forall t | t in tables :: r in Under(t, cursor)) && Follow(tables, cursor, limit).1 ==>
              r in Follow(tables, cursor, limit).0
    ensures r in Follow(tables, cursor, limit).0 ==> exists t | t in tables :: r in t
    decreases |tables|
  {
    if tables != [] {
      PageIsTopmost(tables[0], cursor, limit);
      var p := FetchPage(tables[0], cursor, limit);
      assert tables[0] in tables;
      if p.next.Some? {
        StableRowsAreRead(tables[1..], p.next, limit, r);
        assert forall t | t in tables[1..] :: t in tables;
      }
    }
  }

  lemma PageBefore(items: seq<Row>, later: seq<Row>, last: Row)
    requires Descending(items) && Descending(later)
    requires items != [] && items[|items| - 1] == last && forall x | x in later :: Below(x, last)
    ensures Descending(items + later)
  {
    var all := items + later;
    forall i, j | 0 <= i < j < |all| ensures Below(all[j], all[i]) {
      if j >= |items| {
        assert all[j] == later[j - |items|] && all[j] in later;
        assert i < |items| - 1 ==> Below(last, items[i]);
      }
    }
  }

  /** Between two queries rows change only at or above the cursor. */
  ghost predicate ChangesStayAbove(tables: seq<set<Row>>, cursor: Option<Row>, limit: nat)
    requires limit > 0
    decreases |tables|
  {
    |tables| > 1 ==>
      var next := FetchPage(tables[0], cursor, limit).next;
      next.Some? ==> Under(tables[1], next) == Under(tables[0], next) && ChangesStayAbove(tables[1..], next, limit)
  }

  /** Then the reader gets the list as it was at the first query, exactly. */
  lemma {:induction false} InsertionsAboveAreInvisible(tables: seq<set<Row>>, cursor: Option<Row>, limit: nat)
    requires limit > 0 && ChangesStayAbove(tables, cursor, limit)
    requires Follow(tables, cursor, limit).1
    ensures Follow(tables, cursor, limit).0 == SortDesc(Under(tables[0], cursor))
    decreases |tables|
  {
    PageSplits(tables[0], cursor, limit);
    var p := FetchPage(tables[0], cursor, limit);
    if p.next.Some? {
      assert tables[1..] != [];
      InsertionsAboveAreInvisible(tables[1..], p.next, limit);
    }
  }

  /** A page asked for with 1 to 200 rows holds that many while there are as many,
      any other request and the dead letters get 50; a cursor comes exactly with
      a page that leaves rows behind. */
  lemma PageIsAsLongAsAsked(table: set<Row>, cursor: Option<Row>, asked: int)
    ensures var left, want := |Under(table, cursor)|, if 1 <= asked <= 200 then asked else 50;
            var page, dead := RequestLogPage(table, cursor, asked), DeadNotificationPage(table, cursor);
            && |page.items| == (if left < want then left else want) && (page.next.Some? <==> left > want)
            && |dead.items| == (if left < 50 then left else 50) && (dead.next.Some? <==> left > 50)
  {
    SortedRows(Under(table, cursor));
  }

  /** Every page size a client can ask for works; the page itself is never longer than 200. */
  lemma ClientsReadEverything(table: set<Row>, asked: int)
    ensures 0 < PageLimit(asked) <= MAX_LIMIT
    ensures Concat(Crawl(table, None, PageLimit(asked))) == SortDesc(table)
    ensures |RequestLogPage(table, None, asked).items| <= MAX_LIMIT
    ensures Concat(Crawl(table, None, DEFAULT_LIMIT)) == SortDesc(table)
              && |DeadNotificationPage(table, None).items| <= DEFAULT_LIMIT
  {
    CrawlReadsEverything(table, None, DEFAULT_LIMIT);
    PageIsTopmost(table, None, DEFAULT_LIMIT);
    CrawlReadsEverything(table, None, PageLimit(asked));
    PageIsTopmost(table, None, PageLimit(asked));
    assert Under(table, None) == table;
  }
}
