/**
 Keyset pagination over a table that may change between requests: the query, the page
 boundaries, and what a whole traversal returns. Cursors are rows here; their text form is
 in module Paging.
*/
module Keyset {
  import opened Wrappers

  /** The sort key of an analyses row: creation time in packed microseconds, then the id's 128 bits. */
  datatype Row = Row(createdAt: nat, id: nat)

  predicate Newer(a: Row, b: Row) {
    a.createdAt > b.createdAt || (a.createdAt == b.createdAt && a.id > b.id)
  }

  /** The bound a row's cursor stands for: its timestamp has lost the microseconds. */
  function Cut(last: Row): (bound: Row)
    ensures bound == last || Newer(last, bound)
  {
    Row(last.createdAt - last.createdAt % 1000, last.id)
  }

  /** `$2 IS NULL OR (created_at, id) < ($2, $3)`. */
  function Below(table: set<Row>, bound: Option<Row>): set<Row> {
    set r | r in table && (bound.None? || Newer(bound.value, r))
  }

  // ---------------------------------------------------------------- ORDER BY ... LIMIT n

  ghost predicate IsNewest(r: Row, rows: set<Row>) {
    r in rows && forall x | x in rows && x != r :: Newer(r, x)
  }

  ghost function Top(rows: set<Row>): (r: Row)
    requires rows != {}
    ensures IsNewest(r, rows)
  {
    var x :| x in rows;
    var rest := rows - {x};
    if rest == {} then
      assert rows == {x};
      x
    else
      assert rows == rest + {x};
      var r := Top(rest);
      if Newer(x, r) then x else r
  }

  ghost function Newest(rows: set<Row>, n: nat): seq<Row>
    decreases n
  {
    if n == 0 || rows == {} then [] else [Top(rows)] + Newest(rows - {Top(rows)}, n - 1)
  }

  ghost predicate Descending(rows: seq<Row>) {
    forall i, j :: 0 <= i < j < |rows| ==> Newer(rows[i], rows[j])
  }

  /** `top` lists, newest first, the `n` newest of `rows`, or all of them if there are fewer. */
  ghost predicate TopOf(top: seq<Row>, rows: set<Row>, n: nat) {
    && Descending(top)
    && |top| == (if |rows| <= n then |rows| else n)
    && (forall x | x in top :: x in rows)
    && (forall x, y | x in rows && x !in top && y in top :: Newer(y, x))
    && (|rows| <= n ==> forall x | x in rows :: x in top)
  }

  lemma PrependNewest(r: Row, rest: seq<Row>, rows: set<Row>, n: nat)
    requires n > 0 && IsNewest(r, rows) && TopOf(rest, rows - {r}, n - 1)
    ensures TopOf([r] + rest, rows, n)
  {
    assert rows == (rows - {r}) + {r};
    assert forall x :: x in [r] + rest <==> x == r || x in rest;
  }

  lemma {:induction false} NewestIsTop(rows: set<Row>, n: nat)
    ensures TopOf(Newest(rows, n), rows, n)
    decreases n
  {
    if n > 0 && rows != {} {
      NewestIsTop(rows - {Top(rows)}, n - 1);
      PrependNewest(Top(rows), Newest(rows - {Top(rows)}, n - 1), rows, n);
    }
  }

  // ---------------------------------------------------------------- pages

  /** `more` says that a next cursor was handed out. */
  datatype Page = Page(rows: seq<Row>, more: bool)

  /** One row more than asked for is read; its presence decides whether there is a next page. */
  ghost function PageFrom(table: set<Row>, limit: nat, bound: Option<Row>): Page {
    var rows := Newest(Below(table, bound), limit + 1);
    if |rows| > limit then Page(rows[..limit], true) else Page(rows, false)
  }

  function Last(page: Page): Row
    requires page.rows != []
  {
    page.rows[|page.rows| - 1]
  }

  /** What a page of the matching rows holds, and what is left after it. */
  ghost predicate PageOf(page: Page, rows: set<Row>, limit: nat) {
    && Descending(page.rows)
    && (forall x | x in page.rows :: x in rows)
    && (page.more <==> |rows| > limit)
    && (!page.more ==> forall x | x in rows :: x in page.rows)
    && (page.more ==>
          && |page.rows| == limit
          && forall x, y | x in rows && x !in page.rows && y in page.rows :: Newer(y, x))
  }

  /** Another page is promised exactly when rows are left over. */
  lemma PageIsPage(table: set<Row>, limit: nat, bound: Option<Row>)
    ensures PageOf(PageFrom(table, limit, bound), Below(table, bound), limit)
  {
    var matching := Below(table, bound);
    var rows := Newest(matching, limit + 1);
    NewestIsTop(matching, limit + 1);
    if |rows| > limit {
      assert forall x :: x in rows <==> x in rows[..limit] || x == rows[limit];
      assert forall i :: 0 <= i < limit ==> Newer(rows[i], rows[limit]);
    }
  }

  // ---------------------------------------------------------------- traversals

  function Bound(pages: seq<Page>, i: nat): Option<Row>
    requires i <= |pages|
  {
    if i == 0 || pages[i - 1].rows == [] then None else Some(Cut(Last(pages[i - 1])))
  }

  /** Page `i` answers the request made with page `i - 1`'s cursor, against the table of that moment. */
  ghost predicate PageAt(tables: seq<set<Row>>, limit: nat, pages: seq<Page>, i: nat)
    requires i < |pages| == |tables|
  {
    && pages[i] == PageFrom(tables[i], limit, Bound(pages, i))
    && (i > 0 ==> pages[i - 1].more)
  }

  ghost predicate IsTraversal(tables: seq<set<Row>>, limit: nat, pages: seq<Page>) {
    && 1 <= limit
    && |tables| == |pages| > 0
    && forall i :: 0 <= i < |pages| ==> PageAt(tables, limit, pages, i)
  }

  ghost predicate Finished(pages: seq<Page>) {
    pages != [] && !pages[|pages| - 1].more
  }

  function Visited(pages: seq<Page>): seq<Row> {
    if pages == [] then [] else Visited(pages[..|pages| - 1]) + pages[|pages| - 1].rows
  }

  /** Older than the last row of page `i`, yet not older than the cursor that row turned into. */
  ghost predicate InGap(pages: seq<Page>, i: int, r: Row) {
    && 0 <= i < |pages| - 1
    && pages[i].rows != []
    && Newer(Last(pages[i]), r)
    && !Newer(Cut(Last(pages[i])), r)
  }

  /** What the lemmas below need to know about one page of a traversal. */
  ghost predicate PageFacts(tables: seq<set<Row>>, limit: nat, pages: seq<Page>, i: nat)
    requires i < |pages| == |tables|
  {
    && PageOf(pages[i], Below(tables[i], Bound(pages, i)), limit)
    && (i > 0 ==> pages[i - 1].more && pages[i - 1].rows != [])
    && (i > 0 ==> Bound(pages, i) == Some(Cut(Last(pages[i - 1]))))
  }

  lemma TraversalPage(tables: seq<set<Row>>, limit: nat, pages: seq<Page>, i: nat)
    requires IsTraversal(tables, limit, pages) && i < |pages|
    ensures PageFacts(tables, limit, pages, i)
  {
    PageIsPage(tables[i], limit, Bound(pages, i));
    assert PageAt(tables, limit, pages, i);
    if i > 0 {
      assert PageAt(tables, limit, pages, i - 1);
      PageIsPage(tables[i - 1], limit, Bound(pages, i - 1));
    }
  }

  /** A chain of pages whose contents are known; the rest of the reasoning is about these facts alone. */
  ghost predicate IsChain(tables: seq<set<Row>>, limit: nat, pages: seq<Page>) {
    && 1 <= limit
    && |tables| == |pages| > 0
    && forall i :: 0 <= i < |pages| ==> PageFacts(tables, limit, pages, i)
  }

  lemma TraversalIsChain(tables: seq<set<Row>>, limit: nat, pages: seq<Page>)
    requires IsTraversal(tables, limit, pages)
    ensures IsChain(tables, limit, pages)
  {
    forall i | 0 <= i < |pages|
      ensures PageFacts(tables, limit, pages, i)
    {
      TraversalPage(tables, limit, pages, i);
    }
  }

  /** Every row of a page is newer than the cursor bound of every later page's rows. */
  lemma {:induction false} LaterPagesAreOlder(
    tables: seq<set<Row>>, limit: nat, pages: seq<Page>, i: nat, j: nat, y: Row)
    requires IsChain(tables, limit, pages)
    requires i < j < |pages| && y in pages[j].rows
    ensures pages[i].rows != [] && Newer(Cut(Last(pages[i])), y)
    ensures forall x | x in pages[i].rows :: Newer(x, y)
    decreases j
  {
    assert PageFacts(tables, limit, pages, i);
    assert PageFacts(tables, limit, pages, j - 1);
    assert PageFacts(tables, limit, pages, j);
    var last := Last(pages[j - 1]);
    assert Newer(Cut(last), y);
    if i < j - 1 {
      LaterPagesAreOlder(tables, limit, pages, i, j - 1, last);
    }
  }

  lemma {:induction false} VisitedIn(pages: seq<Page>, r: Row)
    ensures r in Visited(pages) <==> exists i :: 0 <= i < |pages| && r in pages[i].rows
  {
    if pages != [] {
      var n := |pages| - 1;
      VisitedIn(pages[..n], r);
      if i :| 0 <= i < |pages| && r in pages[i].rows {
        assert i < n ==> pages[..n][i] == pages[i];
      }
    }
  }

  lemma DescendingAppend(a: seq<Row>, b: seq<Row>)
    requires Descending(a) && Descending(b)
    requires forall x, y | x in a && y in b :: Newer(x, y)
    ensures Descending(a + b)
  {
  }

  lemma {:induction false} PrefixDescends(tables: seq<set<Row>>, limit: nat, pages: seq<Page>, n: nat)
    requires IsChain(tables, limit, pages) && n <= |pages|
    ensures Descending(Visited(pages[..n]))
  {
    if n > 0 {
      assert PageFacts(tables, limit, pages, n - 1);
      assert pages[..n][..n - 1] == pages[..n - 1];
      PrefixDescends(tables, limit, pages, n - 1);
      forall x, y | x in Visited(pages[..n - 1]) && y in pages[n - 1].rows
        ensures Newer(x, y)
      {
        VisitedIn(pages[..n - 1], x);
        var i :| 0 <= i < n - 1 && x in pages[..n - 1][i].rows;
        LaterPagesAreOlder(tables, limit, pages, i, n - 1, y);
      }
      DescendingAppend(Visited(pages[..n - 1]), pages[n - 1].rows);
    }
  }

  lemma {:induction false} DescendingOnce(rows: seq<Row>, r: Row)
    requires Descending(rows)
    ensures multiset(rows)[r] == if r in rows then 1 else 0
  {
    if rows != [] {
      assert rows == [rows[0]] + rows[1..];
      DescendingOnce(rows[1..], r);
    }
  }

  /**
   Whatever is inserted or deleted between requests, and whatever the precision of the
   timestamps, the rows come back newest first and none comes back twice.
   */
  lemma TraversalDescends(tables: seq<set<Row>>, limit: nat, pages: seq<Page>)
    requires IsTraversal(tables, limit, pages)
    ensures Descending(Visited(pages))
    ensures forall r :: multiset(Visited(pages))[r] <= 1
  {
    TraversalIsChain(tables, limit, pages);
    PrefixDescends(tables, limit, pages, |pages|);
    assert pages[..|pages|] == pages;
    forall r
      ensures multiset(Visited(pages))[r] <= 1
    {
      DescendingOnce(Visited(pages), r);
    }
  }

  /** A row that stays put is met, or falls into a gap, by the end of a finished traversal. */
  lemma {:induction false} MetOrSkipped(tables: seq<set<Row>>, limit: nat, pages: seq<Page>, i: nat, r: Row)
    requires IsChain(tables, limit, pages) && Finished(pages)
    requires forall k :: 0 <= k < |tables| ==> r in tables[k]
    requires i < |pages|
    requires i > 0 ==> pages[i - 1].rows != [] && Newer(Cut(Last(pages[i - 1])), r)
    ensures exists k :: 0 <= k < |pages| && (r in pages[k].rows || InGap(pages, k, r))
    decreases |pages| - i
  {
    assert PageFacts(tables, limit, pages, i);
    assert r in Below(tables[i], Bound(pages, i));
    if r !in pages[i].rows && !InGap(pages, i, r) {
      assert i + 1 < |pages|;
      assert PageFacts(tables, limit, pages, i + 1);
      assert Newer(Last(pages[i]), r);
      MetOrSkipped(tables, limit, pages, i + 1, r);
    }
  }

  lemma GapIsNeverVisited(tables: seq<set<Row>>, limit: nat, pages: seq<Page>, i: nat, r: Row)
    requires IsChain(tables, limit, pages) && InGap(pages, i, r)
    ensures r !in Visited(pages)
  {
    assert PageFacts(tables, limit, pages, i);
    VisitedIn(pages, r);
    if k :| 0 <= k < |pages| && r in pages[k].rows {
      if k > i {
        LaterPagesAreOlder(tables, limit, pages, i, k, r);
      } else if k < i {
        LaterPagesAreOlder(tables, limit, pages, k, i, Last(pages[i]));
      }
      assert false;
    }
  }

  /**
   The exact rule: a row present throughout a finished traversal is returned, exactly once,
   if and only if no page boundary's truncated cursor jumps over it.
   */
  lemma VisitedUnlessInGap(tables: seq<set<Row>>, limit: nat, pages: seq<Page>, r: Row)
    requires IsTraversal(tables, limit, pages) && Finished(pages)
    requires forall k :: 0 <= k < |tables| ==> r in tables[k]
    ensures multiset(Visited(pages))[r] == if exists i :: InGap(pages, i, r) then 0 else 1
  {
    TraversalIsChain(tables, limit, pages);
    TraversalDescends(tables, limit, pages);
    DescendingOnce(Visited(pages), r);
    MetOrSkipped(tables, limit, pages, 0, r);
    VisitedIn(pages, r);
    if i :| InGap(pages, i, r) {
      GapIsNeverVisited(tables, limit, pages, i, r);
    }
  }

  // ---------------------------------------------------------------- what the table says beforehand

  /** A page that ends at `x` makes the cursor jump over `r`. */
  predicate Hides(x: Row, r: Row) {
    Newer(x, r) && !Newer(Cut(x), r)
  }

  predicate Hidden(table: set<Row>, r: Row) {
    exists x :: x in table && Hides(x, r)
  }

  /** A gap is left by a row that was in the table when its page was read. */
  lemma GapIsHidden(tables: seq<set<Row>>, limit: nat, pages: seq<Page>, i: int, r: Row)
    requires IsTraversal(tables, limit, pages) && InGap(pages, i, r)
    ensures Hidden(tables[i], r)
  {
    TraversalPage(tables, limit, pages, i);
    assert Last(pages[i]) in Below(tables[i], Bound(pages, i));
    assert Hides(Last(pages[i]), r);
  }

  /** A row that no table met hides is visited exactly once, whatever else comes and goes. */
  lemma UnhiddenIsVisited(tables: seq<set<Row>>, limit: nat, pages: seq<Page>, r: Row)
    requires IsTraversal(tables, limit, pages) && Finished(pages)
    requires forall k :: 0 <= k < |tables| ==> r in tables[k] && !Hidden(tables[k], r)
    ensures multiset(Visited(pages))[r] == 1
  {
    VisitedUnlessInGap(tables, limit, pages, r);
    if i :| InGap(pages, i, r) {
      GapIsHidden(tables, limit, pages, i, r);
    }
  }

  /** Every request meets the same table. */
  predicate Unchanging(tables: seq<set<Row>>, table: set<Row>) {
    forall k :: 0 <= k < |tables| ==> tables[k] == table
  }

  /** `x` and everything newer. */
  function UpTo(table: set<Row>, x: Row): set<Row> {
    set y | y in table && (y == x || Newer(y, x))
  }

  /** A first page just long enough to hold `x` ends with it. */
  lemma PageEndsAt(table: set<Row>, x: Row, r: Row, page: Page)
    requires x in table && r in table && Newer(x, r)
    requires PageOf(page, table, |UpTo(table, x)|)
    ensures page.more && page.rows != [] && Last(page) == x
  {
    var upTo := UpTo(table, x);
    SubsetSize(upTo + {r}, table);
    var shown := RowSet(page.rows);
    DescendingSize(page.rows);
    FullPageShows(table, x, shown);
    assert x in upTo && Last(page) in shown;
    assert x in page.rows;
  }

  /** As many rows as there are up to `x`, none older than a row left out, are the rows up to `x`. */
  lemma FullPageShows(table: set<Row>, x: Row, shown: set<Row>)
    requires shown <= table && |shown| == |UpTo(table, x)|
    requires forall y, z | y in table && y !in shown && z in shown :: Newer(z, y)
    ensures shown == UpTo(table, x)
  {
    var upTo := UpTo(table, x);
    if u :| u in upTo && u !in shown {
      assert shown <= upTo - {u};
      SubsetSize(shown, upTo - {u});
    }
    SameSize(upTo, shown);
  }

  lemma SameSize(a: set<Row>, b: set<Row>)
    requires a <= b && |a| == |b|
    ensures a == b
  {
    assert b == a + (b - a);
  }

  /** Over an unchanging table, the page size that ends a page at a hiding row misses the hidden one. */
  lemma SomePageSizeMisses(tables: seq<set<Row>>, pages: seq<Page>, table: set<Row>, x: Row, r: Row)
    requires IsTraversal(tables, |UpTo(table, x)|, pages) && Finished(pages)
    requires Unchanging(tables, table)
    requires x in table && r in table && Hides(x, r)
    ensures r !in Visited(pages)
  {
    assert PageAt(tables, |UpTo(table, x)|, pages, 0);
    PageIsPage(table, |UpTo(table, x)|, None);
    assert Below(table, None) == table;
    PageEndsAt(table, x, r, pages[0]);
    assert InGap(pages, 0, r);
    TraversalIsChain(tables, |UpTo(table, x)|, pages);
    GapIsNeverVisited(tables, |UpTo(table, x)|, pages, 0, r);
  }

  /** The newest row of its millisecond. */
  predicate Leads(table: set<Row>, z: Row) {
    z in table && forall x | x in table && x != z && x.createdAt / 1000 == z.createdAt / 1000 :: Newer(z, x)
  }

  /** The newest row of its millisecond hides the row. */
  ghost predicate Jumped(table: set<Row>, r: Row) {
    exists z :: Leads(table, z) && Hides(z, r)
  }

  lemma LeaderExists(table: set<Row>, r: Row) returns (z: Row)
    requires r in table
    ensures Leads(table, z) && z.createdAt / 1000 == r.createdAt / 1000 && (z == r || Newer(z, r))
  {
    var peers := set x | x in table && x.createdAt / 1000 == r.createdAt / 1000;
    assert r in peers;
    z := Top(peers);
    forall x | x in table && x != z && x.createdAt / 1000 == z.createdAt / 1000
      ensures Newer(z, x)
    {
      assert x in peers;
    }
  }

  /** A row is hidden by newer rows of its own millisecond only, and those are past its beginning. */
  lemma HiderIsBetween(x: Row, r: Row)
    requires Hides(x, r)
    ensures x.createdAt / 1000 == r.createdAt / 1000 && x.createdAt % 1000 != 0
  {
  }

  /** Nothing hides the leader of a millisecond, and it hides every other row past the beginning. */
  lemma LeaderHides(table: set<Row>, z: Row, x: Row)
    requires Leads(table, z) && x in table && x != z
    ensures !Hides(x, z)
    ensures x.createdAt / 1000 == z.createdAt / 1000 && x.createdAt % 1000 != 0 ==> Hides(z, x)
  {
  }

  lemma LeaderIsUnhidden(table: set<Row>, z: Row)
    requires Leads(table, z)
    ensures !Hidden(table, z)
  {
    forall x | x in table
      ensures !Hides(x, z)
    {
      if x != z {
        LeaderHides(table, z, x);
      }
    }
  }

  /** Past the beginning of its millisecond a row is jumped if it is hidden at all. */
  lemma HiddenBetweenIsJumped(table: set<Row>, r: Row)
    requires r in table && r.createdAt % 1000 != 0
    ensures Jumped(table, r) <==> Hidden(table, r)
  {
    var z := LeaderExists(table, r);
    LeaderIsUnhidden(table, z);
    if z != r {
      LeaderHides(table, z, r);
    }
  }

  /** A table that hides a row makes a leader hide one. */
  lemma HiddenMakesJumped(table: set<Row>, r: Row) returns (y: Row)
    requires r in table && Hidden(table, r)
    ensures y in table && Jumped(table, y)
  {
    var x :| x in table && Hides(x, r);
    HiderIsBetween(x, r);
    var z := LeaderExists(table, x);
    if z == x {
      y := r;
    } else {
      LeaderHides(table, z, x);
      y := x;
    }
  }

  /** A row that is visited on a page of its own, with another below it, ends a page that is not the last. */
  lemma SingleRowEndsPage(tables: seq<set<Row>>, pages: seq<Page>, table: set<Row>, y: Row, r: Row) returns (i: nat)
    requires IsTraversal(tables, 1, pages) && Finished(pages) && y in Visited(pages)
    requires Unchanging(tables, table) && r in table && Newer(y, r)
    ensures i < |pages| - 1 && pages[i].rows != [] && Last(pages[i]) == y
  {
    VisitedIn(pages, y);
    i :| 0 <= i < |pages| && y in pages[i].rows;
    TraversalPage(tables, 1, pages, i);
    SingleRowPageEndsWith(Below(table, Bound(pages, i)), pages[i], y, r);
  }

  lemma SingleRowPageEndsWith(rows: set<Row>, page: Page, y: Row, r: Row)
    requires PageOf(page, rows, 1) && y in page.rows && Newer(y, r) && r in rows
    ensures page.more && page.rows != [] && Last(page) == y
  {
    SubsetSize({y, r}, rows);
  }

  lemma JumpedIsMissed(tables: seq<set<Row>>, pages: seq<Page>, table: set<Row>, r: Row)
    requires IsTraversal(tables, 1, pages) && Finished(pages) && Unchanging(tables, table)
    requires r in table && Jumped(table, r)
    ensures r !in Visited(pages)
  {
    var z :| Leads(table, z) && Hides(z, r);
    LeaderIsUnhidden(table, z);
    UnhiddenIsVisited(tables, 1, pages, z);
    var i := SingleRowEndsPage(tables, pages, table, z, r);
    assert InGap(pages, i, r);
    TraversalIsChain(tables, 1, pages);
    GapIsNeverVisited(tables, 1, pages, i, r);
  }

  /** A visited row that hides another is the leader: the leader would have hidden any other. */
  lemma GapIsJumped(tables: seq<set<Row>>, pages: seq<Page>, table: set<Row>, i: int, r: Row)
    requires IsTraversal(tables, 1, pages) && Finished(pages) && Unchanging(tables, table)
    requires InGap(pages, i, r)
    ensures Jumped(table, r)
  {
    var x := Last(pages[i]);
    TraversalPage(tables, 1, pages, i);
    assert x in Below(table, Bound(pages, i));
    VisitedIn(pages, x);
    HiderIsBetween(x, r);
    var z := LeaderExists(table, x);
    if z != x {
      LeaderHides(table, z, x);
      JumpedIsMissed(tables, pages, table, x);
    }
  }

  /**
   One row a page, an unchanging table: a row is missed exactly when the newest row of its
   millisecond hides it.
  */
  lemma SingleRowPages(tables: seq<set<Row>>, pages: seq<Page>, table: set<Row>, r: Row)
    requires IsTraversal(tables, 1, pages) && Finished(pages) && Unchanging(tables, table) && r in table
    ensures multiset(Visited(pages))[r] == if Jumped(table, r) then 0 else 1
  {
    VisitedUnlessInGap(tables, 1, pages, r);
    if Jumped(table, r) {
      JumpedIsMissed(tables, pages, table, r);
    } else if i :| InGap(pages, i, r) {
      GapIsJumped(tables, pages, table, i, r);
    }
  }

  /** What a gap swallows shares the millisecond of the row before it. */
  lemma GapIsOneMillisecond(pages: seq<Page>, i: int, r: Row)
    requires InGap(pages, i, r)
    ensures r.createdAt / 1000 == Last(pages[i]).createdAt / 1000
  {
  }

  // ---------------------------------------------------------------- ending

  function RowSet(rows: seq<Row>): set<Row> {
    set x | x in rows
  }

  lemma {:induction false} DescendingSize(rows: seq<Row>)
    requires Descending(rows)
    ensures |RowSet(rows)| == |rows|
  {
    if rows != [] {
      DescendingSize(rows[1..]);
      assert RowSet(rows) == {rows[0]} + RowSet(rows[1..]);
    }
  }

  lemma SubsetSize(a: set<Row>, b: set<Row>)
    requires a <= b
    ensures |a| <= |b|
  {
    assert b == a + (b - a);
  }

  /** Each request leaves a full page fewer rows below the cursor, if nothing is inserted. */
  lemma PageShrinksTheRest(tables: seq<set<Row>>, limit: nat, pages: seq<Page>, i: nat)
    requires IsChain(tables, limit, pages) && 0 < i < |pages| && tables[i] <= tables[i - 1]
    ensures |Below(tables[i], Bound(pages, i))| + limit <= |Below(tables[i - 1], Bound(pages, i - 1))|
  {
    assert PageFacts(tables, limit, pages, i - 1);
    assert PageFacts(tables, limit, pages, i);
    var before, after := Below(tables[i - 1], Bound(pages, i - 1)), Below(tables[i], Bound(pages, i));
    var page := pages[i - 1];
    var shown := RowSet(page.rows);
    DescendingSize(page.rows);
    assert forall x | x in after :: Newer(Last(page), x);
    assert forall x | x in shown :: x == Last(page) || Newer(x, Last(page));
    assert shown !! after;
    assert after <= before by {
      assert i > 1 ==> Newer(Cut(Last(pages[i - 2])), Last(page));
    }
    SubsetSize(shown + after, before);
  }

  lemma {:induction false} PagesAreBounded(tables: seq<set<Row>>, limit: nat, pages: seq<Page>, i: nat)
    requires IsChain(tables, limit, pages) && i < |pages|
    requires forall k :: 0 < k < |tables| ==> tables[k] <= tables[k - 1]
    ensures limit * i + |Below(tables[i], Bound(pages, i))| <= |tables[0]|
  {
    if i == 0 {
      assert Below(tables[0], None) == tables[0];
    } else {
      PagesAreBounded(tables, limit, pages, i - 1);
      PageShrinksTheRest(tables, limit, pages, i);
      assert limit * i == limit * (i - 1) + limit;
    }
  }

  /** Without inserts a traversal fills at most as many pages as the first table could, so it ends. */
  lemma TraversalEnds(tables: seq<set<Row>>, limit: nat, pages: seq<Page>)
    requires IsTraversal(tables, limit, pages)
    requires forall k :: 0 < k < |tables| ==> tables[k] <= tables[k - 1]
    ensures limit * (|pages| - 1) <= |tables[0]|
  {
    TraversalIsChain(tables, limit, pages);
    PagesAreBounded(tables, limit, pages, |pages| - 1);
  }

  // ---------------------------------------------------------------- over an unchanging table

  lemma Multiple(limit: nat, n: nat)
    requires 1 <= limit
    ensures n <= limit * n
  {
  }

  /** A traversal that has not ended can go on. */
  lemma NextPage(table: set<Row>, limit: nat, tables: seq<set<Row>>, pages: seq<Page>) returns (next: Page)
    requires Unchanging(tables, table) && IsTraversal(tables, limit, pages) && !Finished(pages)
    ensures IsTraversal(tables + [table], limit, pages + [next])
  {
    next := PageFrom(table, limit, Bound(pages, |pages|));
    forall i | 0 <= i < |pages| + 1
      ensures PageAt(tables + [table], limit, pages + [next], i)
    {
      assert i < |pages| ==> PageAt(tables, limit, pages, i);
      assert Bound(pages + [next], i) == Bound(pages, i);
    }
  }

  /** And it ends. */
  lemma {:induction false} Finish(table: set<Row>, limit: nat, tables: seq<set<Row>>, pages: seq<Page>)
    returns (allTables: seq<set<Row>>, all: seq<Page>)
    requires Unchanging(tables, table) && IsTraversal(tables, limit, pages)
    ensures Unchanging(allTables, table) && IsTraversal(allTables, limit, all) && Finished(all)
    decreases |table| + 1 - |pages|
  {
    TraversalEnds(tables, limit, pages);
    Multiple(limit, |pages| - 1);
    if Finished(pages) {
      allTables, all := tables, pages;
    } else {
      var next := NextPage(table, limit, tables, pages);
      TraversalEnds(tables + [table], limit, pages + [next]);
      Multiple(limit, |pages|);
      allTables, all := Finish(table, limit, tables + [table], pages + [next]);
    }
  }

  lemma TraversalExists(table: set<Row>, limit: nat) returns (tables: seq<set<Row>>, pages: seq<Page>)
    requires 1 <= limit
    ensures Unchanging(tables, table) && IsTraversal(tables, limit, pages) && Finished(pages)
  {
    var first := PageFrom(table, limit, None);
    assert PageAt([table], limit, [first], 0);
    tables, pages := Finish(table, limit, [table], [first]);
  }
}
