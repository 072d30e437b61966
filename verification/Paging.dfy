/**
 `GET /v1/analyses`: newest first, one page per request, continued through an opaque cursor.
 The statements here are about the text a client sends back; Keyset has the order theory.
*/
module Paging {
  import opened Wrappers
  import opened Cursor
  import opened Keyset
  import IsoTime
  import Uuid

  datatype PageView = PageView(analyses: seq<Row>, nextCursor: Option<string>)

  datatype ListError = InvalidRequest(cause: CursorError) | DriverFailure

  /** Rows as the columns hold them: a real instant and a 128-bit id. */
  predicate IsStored(r: Row) {
    IsoTime.IsInstant(r.createdAt) && Uuid.IsUuid(r.id)
  }

  predicate IsTable(table: set<Row>) {
    forall r | r in table :: IsStored(r)
  }

  function CursorOf(last: Row): string
    requires IsStored(last)
  {
    EncodeCursor(AnalysisCursor(IsoTime.ToIso(last.createdAt), Uuid.ToText(last.id)))
  }

  /** Timestamps in the form the list prints; a client that follows cursors sends back no other. */
  predicate PrintedDate(s: string) {
    IsoTime.FromIso(s).Some?
  }

  /** A cursor that was handed out reads back as it was written, whatever other dates are accepted. */
  lemma HandedOutIsAccepted(last: Row, parses: string -> bool)
    requires IsStored(last) && parses(IsoTime.ToIso(last.createdAt))
    ensures DecodeCursor(CursorOf(last), parses)
      == Ok(AnalysisCursor(IsoTime.ToIso(last.createdAt), Uuid.ToText(last.id)))
  {
    IsoTime.IsoHasNoBar(last.createdAt);
    Uuid.TextLooksLikeUuid(last.id);
    CursorRoundTrip(AnalysisCursor(IsoTime.ToIso(last.createdAt), Uuid.ToText(last.id)), parses);
  }

  /** The driver casts both halves of a decoded cursor before it compares. */
  function Bind(c: AnalysisCursor): Option<Row> {
    match (IsoTime.FromIso(c.createdAt), Uuid.FromText(c.id))
    case (Some(createdAt), Some(id)) => Some(Row(createdAt, id))
    case _ => None
  }

  /** `raw` is accepted and bounds the query at `bound`. */
  predicate Means(raw: string, bound: Row) {
    DecodeCursor(raw, PrintedDate).Ok? && Bind(DecodeCursor(raw, PrintedDate).value) == Some(bound)
  }

  lemma TextMeans(iso: string, text: string, bound: Row)
    requires '|' !in iso && IsoTime.FromIso(iso) == Some(bound.createdAt)
    requires Uuid.LooksLikeUuid(text) && Uuid.FromText(text) == Some(bound.id)
    ensures Means(EncodeCursor(AnalysisCursor(iso, text)), bound)
  {
    CursorRoundTrip(AnalysisCursor(iso, text), PrintedDate);
  }

  lemma InstantMeans(t: nat, text: string, id: nat)
    requires IsoTime.IsInstant(t)
    requires Uuid.LooksLikeUuid(text) && Uuid.FromText(text) == Some(id)
    ensures Means(EncodeCursor(AnalysisCursor(IsoTime.ToIso(t), text)), Row(IsoTime.ToMilli(t), id))
  {
    IsoTime.IsoHasNoBar(t);
    IsoTime.IsoRoundTrip(t);
    TextMeans(IsoTime.ToIso(t), text, Row(IsoTime.ToMilli(t), id));
  }

  /** The cursor handed out after a page, read back by the next request, bounds it at the truncated last row. */
  lemma CursorMeansCut(last: Row)
    requires IsStored(last)
    ensures Means(CursorOf(last), Cut(last))
  {
    assert Cut(last) == Row(IsoTime.ToMilli(last.createdAt), last.id);
    Uuid.TextLooksLikeUuid(last.id);
    Uuid.RoundTrip(last.id);
    InstantMeans(last.createdAt, Uuid.ToText(last.id), last.id);
  }

  /** A page a client can be shown. */
  ghost predicate Showable(page: Page) {
    (forall r | r in page.rows :: IsStored(r)) && (page.more ==> page.rows != [])
  }

  ghost function View(page: Page): PageView
    requires Showable(page)
  {
    PageView(page.rows, if page.more then Some(CursorOf(Last(page))) else None)
  }

  ghost function PageWithin(table: set<Row>, limit: nat, bound: Option<Row>): PageView
    requires 1 <= limit && IsTable(table)
  {
    PageIsPage(table, limit, bound);
    View(PageFrom(table, limit, bound))
  }

  ghost function ListAnalyses(table: set<Row>, limit: nat, raw: Option<string>): Result<PageView, ListError>
    requires 1 <= limit && IsTable(table)
  {
    match raw
    case None => Ok(PageWithin(table, limit, None))
    case Some(text) =>
      match DecodeCursor(text, PrintedDate)
      case Err(cause) => Err(InvalidRequest(cause))
      case Ok(c) =>
        match Bind(c)
        case None => Err(DriverFailure)
        case Some(bound) => Ok(PageWithin(table, limit, Some(bound)))
  }

  /** A malformed cursor is refused; a cursor never leads back to the first page. */
  lemma RefusedOrBounded(table: set<Row>, limit: nat, raw: string)
    requires 1 <= limit && IsTable(table)
    ensures var answer := ListAnalyses(table, limit, Some(raw));
      match DecodeCursor(raw, PrintedDate)
      case Err(cause) => answer == Err(InvalidRequest(cause))
      case Ok(c) =>
        match Bind(c)
        case None => answer == Err(DriverFailure)
        case Some(bound) =>
          && answer == Ok(PageWithin(table, limit, Some(bound)))
          && forall r | r in answer.value.analyses :: Newer(bound, r)
  {
    match DecodeCursor(raw, PrintedDate)
    case Err(_) =>
    case Ok(c) =>
      match Bind(c)
      case None =>
      case Some(bound) =>
        PageIsPage(table, limit, Some(bound));
  }

  /** Following a cursor the list handed out never fails, and continues at the truncated last row. */
  lemma ContinuingAPage(table: set<Row>, limit: nat, last: Row)
    requires 1 <= limit && IsTable(table) && IsStored(last)
    ensures ListAnalyses(table, limit, Some(CursorOf(last))) == Ok(PageWithin(table, limit, Some(Cut(last))))
  {
    CursorMeansCut(last);
  }

  // ---------------------------------------------------------------- traversals by a client

  /** Request `i` sends the previous answer's cursor and meets the table as it then is. */
  ghost predicate Answers(tables: seq<set<Row>>, limit: nat, views: seq<PageView>, i: nat)
    requires i < |views| == |tables| && 1 <= limit && IsTable(tables[i])
  {
    if i == 0 then ListAnalyses(tables[0], limit, None) == Ok(views[0])
    else
      && views[i - 1].nextCursor.Some?
      && ListAnalyses(tables[i], limit, views[i - 1].nextCursor) == Ok(views[i])
  }

  ghost predicate IsSession(tables: seq<set<Row>>, limit: nat, views: seq<PageView>) {
    && 1 <= limit
    && |tables| == |views| > 0
    && (forall i :: 0 <= i < |tables| ==> IsTable(tables[i]))
    && forall i :: 0 <= i < |views| ==> Answers(tables, limit, views, i)
  }

  predicate Ended(views: seq<PageView>) {
    views != [] && views[|views| - 1].nextCursor.None?
  }

  function Plain(views: seq<PageView>): (pages: seq<Page>)
    ensures |pages| == |views|
    ensures forall i :: 0 <= i < |views| ==> pages[i] == Page(views[i].analyses, views[i].nextCursor.Some?)
  {
    if views == [] then []
    else [Page(views[0].analyses, views[0].nextCursor.Some?)] + Plain(views[1..])
  }

  function Returned(views: seq<PageView>): seq<Row> {
    Visited(Plain(views))
  }

  lemma NextAnswer(table: set<Row>, limit: nat, previous: Page, next: PageView)
    requires 1 <= limit && IsTable(table)
    requires previous.more && Showable(previous)
    requires ListAnalyses(table, limit, View(previous).nextCursor) == Ok(next)
    ensures next == PageWithin(table, limit, Some(Cut(Last(previous))))
  {
    ContinuingAPage(table, limit, Last(previous));
  }

  /** Each answer is the page below the truncated last row of the one before. */
  ghost predicate Continues(tables: seq<set<Row>>, limit: nat, views: seq<PageView>, i: nat)
    requires i < |views| == |tables| && 1 <= limit && IsTable(tables[i])
  {
    views[i] == PageWithin(tables[i], limit, Bound(Plain(views), i))
  }

  lemma {:induction false} FirstContinues(tables: seq<set<Row>>, limit: nat, views: seq<PageView>)
    requires 0 < |views| == |tables| && 1 <= limit && IsTable(tables[0]) && Answers(tables, limit, views, 0)
    ensures Continues(tables, limit, views, 0)
  {
  }

  lemma {:induction false} NextContinues(tables: seq<set<Row>>, limit: nat, views: seq<PageView>, i: nat)
    requires 0 < i < |views| == |tables| && 1 <= limit && IsTable(tables[i - 1]) && IsTable(tables[i])
    requires Continues(tables, limit, views, i - 1) && Answers(tables, limit, views, i)
    ensures Continues(tables, limit, views, i) && Plain(views)[i - 1].more
  {
    var bound := Bound(Plain(views), i - 1);
    PageIsPage(tables[i - 1], limit, bound);
    NextAnswer(tables[i], limit, PageFrom(tables[i - 1], limit, bound), views[i]);
  }

  lemma {:induction false} SessionStep(tables: seq<set<Row>>, limit: nat, views: seq<PageView>, i: nat)
    requires IsSession(tables, limit, views) && i < |views|
    ensures Continues(tables, limit, views, i)
    ensures i > 0 ==> Plain(views)[i - 1].more
  {
    assert Answers(tables, limit, views, i);
    if i == 0 {
      FirstContinues(tables, limit, views);
    } else {
      SessionStep(tables, limit, views, i - 1);
      NextContinues(tables, limit, views, i);
    }
  }

  /** What the client sees is a traversal in the sense of Keyset. */
  lemma SessionIsTraversal(tables: seq<set<Row>>, limit: nat, views: seq<PageView>)
    requires IsSession(tables, limit, views)
    ensures IsTraversal(tables, limit, Plain(views))
  {
    forall i | 0 <= i < |views|
      ensures PageAt(tables, limit, Plain(views), i)
    {
      SessionStep(tables, limit, views, i);
      PageIsPage(tables[i], limit, Bound(Plain(views), i));
    }
  }

  ghost function Views(pages: seq<Page>): (views: seq<PageView>)
    requires forall i :: 0 <= i < |pages| ==> Showable(pages[i])
    ensures |views| == |pages|
    ensures forall i :: 0 <= i < |pages| ==> views[i] == View(pages[i])
  {
    if pages == [] then []
    else
      assert Showable(pages[0]);
      [View(pages[0])] + Views(pages[1..])
  }

  lemma PageIsAnswer(tables: seq<set<Row>>, limit: nat, pages: seq<Page>, i: nat)
    requires IsTraversal(tables, limit, pages) && i < |pages| && IsTable(tables[i])
    requires forall k :: 0 <= k < |pages| ==> Showable(pages[k])
    ensures Answers(tables, limit, Views(pages), i)
  {
    TraversalPage(tables, limit, pages, i);
    assert PageAt(tables, limit, pages, i);
    if i > 0 {
      assert Showable(pages[i - 1]);
      ContinuingAPage(tables[i], limit, Last(pages[i - 1]));
    }
  }

  /** And every traversal of such tables is what some client sees. */
  lemma TraversalIsSession(tables: seq<set<Row>>, limit: nat, pages: seq<Page>)
    requires IsTraversal(tables, limit, pages) && forall k :: 0 <= k < |tables| ==> IsTable(tables[k])
    ensures forall k :: 0 <= k < |pages| ==> Showable(pages[k])
    ensures IsSession(tables, limit, Views(pages)) && (Finished(pages) ==> Ended(Views(pages)))
  {
    forall k | 0 <= k < |pages|
      ensures Showable(pages[k])
    {
      TraversalPage(tables, limit, pages, k);
      assert IsTable(tables[k]);
    }
    forall i | 0 <= i < |pages|
      ensures Answers(tables, limit, Views(pages), i)
    {
      PageIsAnswer(tables, limit, pages, i);
    }
  }

  /** Rows come back newest first and never twice, whatever else is inserted or deleted meanwhile. */
  lemma NothingIsRepeated(tables: seq<set<Row>>, limit: nat, views: seq<PageView>)
    requires IsSession(tables, limit, views)
    ensures Descending(Returned(views))
    ensures forall r :: multiset(Returned(views))[r] <= 1
    ensures forall i, j :: 0 <= i < j < |Returned(views)| ==>
      || Returned(views)[i].createdAt > Returned(views)[j].createdAt
      || (Returned(views)[i].createdAt == Returned(views)[j].createdAt && Returned(views)[i].id > Returned(views)[j].id)
  {
    SessionIsTraversal(tables, limit, views);
    TraversalDescends(tables, limit, Plain(views));
  }

  /** Row `r` is older than the last row of some page but not older than what its cursor says. */
  ghost predicate Skipped(views: seq<PageView>, r: Row) {
    exists i :: InGap(Plain(views), i, r)
  }

  /** A row present throughout is returned exactly once, or is skipped at a page boundary; never both, never neither. */
  lemma ReturnedUnlessSkipped(tables: seq<set<Row>>, limit: nat, views: seq<PageView>, r: Row)
    requires IsSession(tables, limit, views) && Ended(views)
    requires forall k :: 0 <= k < |tables| ==> r in tables[k]
    ensures multiset(Returned(views))[r] == if Skipped(views, r) then 0 else 1
  {
    SessionIsTraversal(tables, limit, views);
    VisitedUnlessInGap(tables, limit, Plain(views), r);
  }

  /** A row that no table met hides is returned exactly once, whatever else comes and goes. */
  lemma UnhiddenIsReturned(tables: seq<set<Row>>, limit: nat, views: seq<PageView>, r: Row)
    requires IsSession(tables, limit, views) && Ended(views)
    requires forall k :: 0 <= k < |tables| ==> r in tables[k] && !Hidden(tables[k], r)
    ensures multiset(Returned(views))[r] == 1
  {
    SessionIsTraversal(tables, limit, views);
    UnhiddenIsVisited(tables, limit, Plain(views), r);
  }

  /** With whole-millisecond timestamps every row present throughout is returned exactly once. */
  lemma PagingIsExactlyOnce(tables: seq<set<Row>>, limit: nat, views: seq<PageView>, r: Row)
    requires IsSession(tables, limit, views) && Ended(views)
    requires forall k :: 0 <= k < |tables| ==> r in tables[k]
    requires forall k, x :: 0 <= k < |tables| && x in tables[k] ==> IsoTime.WholeMilli(x.createdAt)
    ensures multiset(Returned(views))[r] == 1
  {
    UnhiddenIsReturned(tables, limit, views, r);
  }

  predicate EndsInMillisecondOf(view: PageView, r: Row) {
    view.analyses != [] && r.createdAt / 1000 == view.analyses[|view.analyses| - 1].createdAt / 1000
  }

  /** At microsecond precision, whatever is skipped shares the millisecond of some page's last row. */
  lemma SkippedSharesAMillisecond(tables: seq<set<Row>>, limit: nat, views: seq<PageView>, r: Row)
    requires IsSession(tables, limit, views) && Ended(views)
    requires forall k :: 0 <= k < |tables| ==> r in tables[k]
    requires r !in Returned(views)
    ensures exists i :: 0 <= i < |views| - 1 && EndsInMillisecondOf(views[i], r)
  {
    ReturnedUnlessSkipped(tables, limit, views, r);
    var i :| InGap(Plain(views), i, r);
    GapIsOneMillisecond(Plain(views), i, r);
    assert EndsInMillisecondOf(views[i], r);
  }

  /** With nothing inserted the client is done after at most one request more than the table fills pages. */
  lemma SessionEnds(tables: seq<set<Row>>, limit: nat, views: seq<PageView>)
    requires IsSession(tables, limit, views)
    requires forall k :: 0 < k < |tables| ==> tables[k] <= tables[k - 1]
    ensures limit * (|views| - 1) <= |tables[0]|
  {
    SessionIsTraversal(tables, limit, views);
    TraversalEnds(tables, limit, Plain(views));
  }

  // ---------------------------------------------------------------- which rows a client can miss

  /** A session over an unchanging table that was followed to its end. */
  ghost predicate FullSession(table: set<Row>, limit: nat, tables: seq<set<Row>>, views: seq<PageView>) {
    Unchanging(tables, table) && IsSession(tables, limit, views) && Ended(views)
  }

  /** Some page size makes a client miss the row, although nothing changes meanwhile. */
  ghost predicate CanBeMissed(table: set<Row>, r: Row) {
    exists limit, tables, views :: FullSession(table, limit, tables, views) && r !in Returned(views)
  }

  /** Any page size makes a session that ends. */
  lemma SessionExists(table: set<Row>, limit: nat) returns (tables: seq<set<Row>>, views: seq<PageView>)
    requires 1 <= limit && IsTable(table)
    ensures FullSession(table, limit, tables, views)
  {
    var pages;
    tables, pages := TraversalExists(table, limit);
    TraversalIsSession(tables, limit, pages);
    views := Views(pages);
  }

  /** A page that ends at a hiding row loses the hidden one. */
  lemma MissedBehind(table: set<Row>, x: Row, r: Row, tables: seq<set<Row>>, views: seq<PageView>)
    requires x in table && r in table && Hides(x, r)
    requires FullSession(table, |UpTo(table, x)|, tables, views)
    ensures r !in Returned(views)
  {
    SessionIsTraversal(tables, |UpTo(table, x)|, views);
    SomePageSizeMisses(tables, Plain(views), table, x, r);
  }

  /**
   With any page size, also greater ones than the list accepts, a stored row can be missed if
   and only if the table holds a row that hides it.
  */
  lemma MissedIffHidden(table: set<Row>, r: Row)
    requires IsTable(table) && r in table
    ensures CanBeMissed(table, r) <==> Hidden(table, r)
  {
    if Hidden(table, r) {
      var x :| x in table && Hides(x, r);
      assert x in UpTo(table, x);
      var tables, views := SessionExists(table, |UpTo(table, x)|);
      MissedBehind(table, x, r, tables, views);
    } else {
      forall limit, tables, views | FullSession(table, limit, tables, views)
        ensures r in Returned(views)
      {
        UnhiddenIsReturned(tables, limit, views, r);
      }
    }
  }

  /**
   With one row a page a row is missed exactly when the newest row of its millisecond hides it,
   which for a timestamp between two milliseconds means when any row hides it.
  */
  lemma SingleRowSessions(table: set<Row>, r: Row, tables: seq<set<Row>>, views: seq<PageView>)
    requires FullSession(table, 1, tables, views) && r in table
    ensures multiset(Returned(views))[r] == if Jumped(table, r) then 0 else 1
    ensures !IsoTime.WholeMilli(r.createdAt) ==> (Jumped(table, r) <==> Hidden(table, r))
  {
    SessionIsTraversal(tables, 1, views);
    SingleRowPages(tables, Plain(views), table, r);
    if !IsoTime.WholeMilli(r.createdAt) {
      HiddenBetweenIsJumped(table, r);
    }
  }

  /** The page sizes a request may ask for. */
  predicate IsPageSize(limit: nat) {
    1 <= limit <= 50
  }

  /** Some complete session with this page size omits some row of the table. */
  ghost predicate SkipsARow(table: set<Row>, limit: nat) {
    exists r, tables, views :: r in table && FullSession(table, limit, tables, views) && r !in Returned(views)
  }

  predicate HidesARow(table: set<Row>) {
    exists r :: r in table && Hidden(table, r)
  }

  lemma OmissionIsSkip(table: set<Row>, limit: nat, r: Row, tables: seq<set<Row>>, views: seq<PageView>)
    requires r in table && FullSession(table, limit, tables, views) && multiset(Returned(views))[r] == 0
    ensures SkipsARow(table, limit)
  {
    assert r !in Returned(views);
  }

  lemma SingleRowsSkip(table: set<Row>, r: Row)
    requires IsTable(table) && r in table && Hidden(table, r)
    ensures SkipsARow(table, 1)
  {
    var y := HiddenMakesJumped(table, r);
    var tables, views := SessionExists(table, 1);
    SingleRowSessions(table, y, tables, views);
    OmissionIsSkip(table, 1, y, tables, views);
  }

  /**
   At the page sizes the list accepts: some size skips some row of an unchanging table if and
   only if some row of the table is hidden, and then the smallest size does.
  */
  lemma SomethingIsSkippedIff(table: set<Row>)
    requires IsTable(table)
    ensures (exists limit :: IsPageSize(limit) && SkipsARow(table, limit)) <==> HidesARow(table)
    ensures SkipsARow(table, 1) <==> HidesARow(table)
  {
    if r :| r in table && Hidden(table, r) {
      SingleRowsSkip(table, r);
      assert IsPageSize(1);
    } else {
      forall r, limit, tables, views | r in table && FullSession(table, limit, tables, views)
        ensures r in Returned(views)
      {
        UnhiddenIsReturned(tables, limit, views, r);
      }
    }
  }

  /**
   Two analyses stored within one millisecond, one row a page, nothing else happening: the
   client is given the newer one and never the older one.
  */
  lemma LostBetweenRequests(older: Row, newer: Row) returns (tables: seq<set<Row>>, views: seq<PageView>)
    requires IsStored(older) && IsStored(newer) && Hides(newer, older)
    ensures FullSession({older, newer}, 1, tables, views)
    ensures newer in Returned(views) && older !in Returned(views)
  {
    var table := {older, newer};
    tables, views := SessionExists(table, 1);
    UnhiddenIsReturned(tables, 1, views, newer);
    assert UpTo(table, newer) == {newer};
    MissedBehind(table, newer, older, tables, views);
  }
}
