/**
 * EmailDashboard: the rows the web dashboard shows for the classification
 * results, the summary counts, the search filters with their pagination,
 * and the decision table that labels an attachment by its file name.
 */
module Dashboard {
  import opened Wrappers
  import opened Text
  import opened Attachments
  import opened Classifier

  // ------------------------------------------------------------------- rows

  /** One row of the dashboard's table, read from one classification result. */
  datatype Row = Row(
    emailId: string,
    subject: string,
    senderName: string,
    folder: string,
    classificationType: string,
    confidence: int,
    hasSlip: bool,
    slipComplete: bool,
    totalAttachments: nat)

  function RowOf(e: EmailResult): Row {
    Row(
      e.emailId, e.metadata.subject, e.metadata.senderName, e.metadata.folder,
      TypeName(e.primary.kind), e.primary.confidence,
      e.attachmentAnalysis.hasSlip, e.attachmentAnalysis.slipComplete,
      e.attachmentAnalysis.totalAttachments)
  }

  function RowsOf(rs: seq<EmailResult>): (rows: seq<Row>)
    ensures |rows| == |rs|
    ensures forall i :: 0 <= i < |rs| ==> rows[i] == RowOf(rs[i])
  {
    if rs == [] then [] else RowsOf(rs[..|rs| - 1]) + [RowOf(rs[|rs| - 1])]
  }

  /** load_classification_data: no rows when the results file is missing, else one row per result. */
  function LoadRows(results: Option<seq<EmailResult>>): (rows: seq<Row>)
    ensures results.None? ==> rows == []
    ensures results.Some? ==> |rows| == |results.value|
  {
    match results
    case None => []
    case Some(rs) => RowsOf(rs)
  }

  // ---------------------------------------------------------------- summary

  function CountClass(rows: seq<Row>, name: string): (n: nat)
    ensures n <= |rows|
  {
    if rows == [] then 0
    else CountClass(rows[..|rows| - 1], name) + (if rows[|rows| - 1].classificationType == name then 1 else 0)
  }

  function CountWithAttachments(rows: seq<Row>): (n: nat)
    ensures n <= |rows|
  {
    if rows == [] then 0
    else CountWithAttachments(rows[..|rows| - 1]) + (if rows[|rows| - 1].totalAttachments > 0 then 1 else 0)
  }

  function CountWithSlip(rows: seq<Row>): (n: nat)
    ensures n <= |rows|
  {
    if rows == [] then 0
    else CountWithSlip(rows[..|rows| - 1]) + (if rows[|rows| - 1].hasSlip then 1 else 0)
  }

  function CountCompleteSlip(rows: seq<Row>): (n: nat)
    ensures n <= |rows|
  {
    if rows == [] then 0
    else CountCompleteSlip(rows[..|rows| - 1]) + (if rows[|rows| - 1].slipComplete then 1 else 0)
  }

  datatype Stats = Stats(
    totalEmails: nat,
    cotizacion: nat,
    renovacion: nat,
    endoso: nat,
    sinClasificar: nat,
    withAttachments: nat,
    withSlip: nat,
    completeSlip: nat)

  /** get_summary_stats: nothing for an empty table, else the counts. */
  function SummaryStats(rows: seq<Row>): (st: Option<Stats>)
    ensures st.None? <==> rows == []
    ensures st.Some? ==> st.value.totalEmails == |rows|
  {
    if rows == [] then None
    else Some(Stats(
      |rows|,
      CountClass(rows, "cotizacion"),
      CountClass(rows, "renovacion"),
      CountClass(rows, "endoso"),
      CountClass(rows, "sin_clasificar"),
      CountWithAttachments(rows),
      CountWithSlip(rows),
      CountCompleteSlip(rows)))
  }

  /** Rows of distinct types are counted apart, so the four type counts never exceed the total. */
  lemma {:induction false} TypeCountsWithinTotal(rows: seq<Row>)
    ensures CountClass(rows, "cotizacion") + CountClass(rows, "renovacion") + CountClass(rows, "endoso")
            + CountClass(rows, "sin_clasificar") <= |rows|
  {
    if rows != [] {
      TypeCountsWithinTotal(rows[..|rows| - 1]);
    }
  }

  /** The summary's four type counts add up to at most its total. */
  lemma SummaryWithinTotal(rows: seq<Row>)
    requires rows != []
    ensures var st := SummaryStats(rows).value;
      st.cotizacion + st.renovacion + st.endoso + st.sinClasificar <= st.totalEmails
      && st.withSlip <= st.totalEmails && st.completeSlip <= st.totalEmails
  {
    TypeCountsWithinTotal(rows);
  }

  /** Distinct primary types have distinct names. */
  lemma TypeNameInjective(a: PrimaryType, b: PrimaryType)
    ensures TypeName(a) == TypeName(b) <==> a == b
  {
    match a {
      case Typed(Cotizacion) => assert TypeName(a)[0] == 'c';
      case Typed(Renovacion) => assert TypeName(a)[0] == 'r';
      case Typed(Endoso) => assert TypeName(a)[0] == 'e';
      case Unclassified => assert TypeName(a)[0] == 's';
    }
    match b {
      case Typed(Cotizacion) => assert TypeName(b)[0] == 'c';
      case Typed(Renovacion) => assert TypeName(b)[0] == 'r';
      case Typed(Endoso) => assert TypeName(b)[0] == 'e';
      case Unclassified => assert TypeName(b)[0] == 's';
    }
  }

  /** Counting rows by type name counts the classifier's results by primary type. */
  lemma {:induction false} CountClassOfResults(rs: seq<EmailResult>, t: PrimaryType)
    ensures CountClass(RowsOf(rs), TypeName(t)) == CountType(rs, t)
  {
    if rs != [] {
      CountClassOfResults(rs[..|rs| - 1], t);
      TypeNameInjective(rs[|rs| - 1].primary.kind, t);
    }
  }

  lemma TypeNames()
    ensures TypeName(Typed(Cotizacion)) == "cotizacion" && TypeName(Typed(Renovacion)) == "renovacion"
    ensures TypeName(Typed(Endoso)) == "endoso" && TypeName(Unclassified) == "sin_clasificar"
  {
  }

  /** The summary's type counters are the row counts per type name. */
  lemma SummaryCounts(rows: seq<Row>)
    requires rows != []
    ensures var st := SummaryStats(rows).value;
      && st.cotizacion == CountClass(rows, "cotizacion")
      && st.renovacion == CountClass(rows, "renovacion")
      && st.endoso == CountClass(rows, "endoso")
      && st.sinClasificar == CountClass(rows, "sin_clasificar")
  {
  }

  /**
   * On a results file written by the classifier, the summary agrees with
   * the classifier's own counters, and the four type counts add up to the
   * total exactly.
   */
  lemma SummaryOfResults(rs: seq<EmailResult>)
    requires rs != []
    ensures var st := SummaryStats(LoadRows(Some(rs))).value;
      && st.totalEmails == |rs|
      && st.cotizacion == CountType(rs, Typed(Cotizacion))
      && st.renovacion == CountType(rs, Typed(Renovacion))
      && st.endoso == CountType(rs, Typed(Endoso))
      && st.sinClasificar == CountType(rs, Unclassified)
      && st.cotizacion + st.renovacion + st.endoso + st.sinClasificar == st.totalEmails
  {
    var rows := RowsOf(rs);
    assert LoadRows(Some(rs)) == rows;
    SummaryCounts(rows);
    TypeNames();
    CountClassOfResults(rs, Typed(Cotizacion));
    CountClassOfResults(rs, Typed(Renovacion));
    CountClassOfResults(rs, Typed(Endoso));
    CountClassOfResults(rs, Unclassified);
    CountsSumToTotal(rs);
  }

  // ---------------------------------------------------------------- filters

  /** One filter of search_emails. */
  datatype Filter =
    | QueryIn(query: string)
    | TypeIs(classification: string)
    | FolderIs(folder: string)
    | AttachmentsWanted(want: bool)

  /** Case-insensitive substring test of str.contains(query, case=False). */
  predicate MatchesText(s: string, query: string) {
    Contains(Lower(s), Lower(query))
  }

  predicate Holds(f: Filter, r: Row) {
    match f
    case QueryIn(q) => MatchesText(r.subject, q) || MatchesText(r.senderName, q)
    case TypeIs(c) => r.classificationType == c
    case FolderIs(d) => r.folder == d
    case AttachmentsWanted(w) => if w then r.totalAttachments > 0 else r.totalAttachments == 0
  }

  /** The rows a filter keeps, in their order. */
  function Select(rows: seq<Row>, f: Filter): (s: seq<Row>)
    ensures |s| <= |rows|
  {
    if rows == [] then []
    else Select(rows[..|rows| - 1], f) + (if Holds(f, rows[|rows| - 1]) then [rows[|rows| - 1]] else [])
  }

  /** A classification or folder value that filters: not empty and not "all". */
  predicate Selective(v: string) {
    v != "" && v != "all"
  }

  /** The request's parameters; the date bounds are not part of this model. */
  datatype SearchQuery = SearchQuery(
    query: string,
    classification: string,
    folder: string,
    hasAttachments: Option<bool>,
    page: int,
    perPage: int)

  /** One step of search_emails: a switched-on filter narrows the rows, a switched-off one keeps them. */
  function Stage(rows: seq<Row>, on: bool, f: Filter): seq<Row> {
    if on then Select(rows, f) else rows
  }

  /** The filters search_emails applies, one after the other. */
  function Filtered(rows: seq<Row>, q: SearchQuery): seq<Row> {
    var a := Stage(rows, q.query != "", QueryIn(q.query));
    var b := Stage(a, Selective(q.classification), TypeIs(q.classification));
    var c := Stage(b, Selective(q.folder), FolderIs(q.folder));
    Stage(c, q.hasAttachments.Some?, AttachmentsWanted(q.hasAttachments == Some(true)))
  }

  /** Whether one row passes every filter the query switches on. */
  predicate Keeps(q: SearchQuery, r: Row) {
    && (q.query == "" || Holds(QueryIn(q.query), r))
    && (!Selective(q.classification) || r.classificationType == q.classification)
    && (!Selective(q.folder) || r.folder == q.folder)
    && (q.hasAttachments.None? || Holds(AttachmentsWanted(q.hasAttachments == Some(true)), r))
  }

  /** One pass over the rows with the combined test: the reference for the filter chain. */
  function KeptRows(rows: seq<Row>, q: SearchQuery): seq<Row> {
    if rows == [] then []
    else KeptRows(rows[..|rows| - 1], q) + (if Keeps(q, rows[|rows| - 1]) then [rows[|rows| - 1]] else [])
  }

  lemma SelectSnoc(rows: seq<Row>, x: Row, f: Filter)
    ensures Select(rows + [x], f) == Select(rows, f) + Select([x], f)
  {
    assert (rows + [x])[..|rows|] == rows;
    assert [x][..0] == [];
  }

  /** A step applied to the rows and one more row is the step on each part. */
  lemma StageSplit(rows: seq<Row>, ys: seq<Row>, on: bool, f: Filter)
    requires |ys| <= 1
    ensures Stage(rows + ys, on, f) == Stage(rows, on, f) + Stage(ys, on, f)
  {
    if ys == [] {
      assert rows + ys == rows;
      if on {
        assert Select(ys, f) == [];
      }
    } else if on {
      SelectSnoc(rows, ys[0], f);
      assert ys == [ys[0]];
    }
  }

  lemma StageSingle(x: Row, on: bool, f: Filter)
    ensures Stage([x], on, f) == if !on || Holds(f, x) then [x] else []
  {
    if on {
      assert [x][..0] == [];
    }
  }

  /** A step on a row that is still there or already gone. */
  lemma StageAtMostOne(x: Row, ys: seq<Row>, on: bool, f: Filter)
    requires ys == [] || ys == [x]
    ensures Stage(ys, on, f) == if ys == [x] && (!on || Holds(f, x)) then [x] else []
  {
    if ys == [x] {
      StageSingle(x, on, f);
    }
  }

  /** On a single row the filter chain keeps it exactly when it passes every switched-on filter. */
  lemma FilteredSingle(x: Row, q: SearchQuery)
    ensures Filtered([x], q) == if Keeps(q, x) then [x] else []
  {
    var a := Stage([x], q.query != "", QueryIn(q.query));
    StageAtMostOne(x, [x], q.query != "", QueryIn(q.query));
    var b := Stage(a, Selective(q.classification), TypeIs(q.classification));
    StageAtMostOne(x, a, Selective(q.classification), TypeIs(q.classification));
    var c := Stage(b, Selective(q.folder), FolderIs(q.folder));
    StageAtMostOne(x, b, Selective(q.folder), FolderIs(q.folder));
    var want := AttachmentsWanted(q.hasAttachments == Some(true));
    StageAtMostOne(x, c, q.hasAttachments.Some?, want);
  }

  /** The filter chain distributes over appending one row. */
  lemma FilteredSnoc(rows: seq<Row>, x: Row, q: SearchQuery)
    ensures Filtered(rows + [x], q) == Filtered(rows, q) + Filtered([x], q)
  {
    var a := Stage(rows, q.query != "", QueryIn(q.query));
    var xa := Stage([x], q.query != "", QueryIn(q.query));
    StageSplit(rows, [x], q.query != "", QueryIn(q.query));
    StageSingle(x, q.query != "", QueryIn(q.query));
    var b := Stage(a, Selective(q.classification), TypeIs(q.classification));
    var xb := Stage(xa, Selective(q.classification), TypeIs(q.classification));
    StageSplit(a, xa, Selective(q.classification), TypeIs(q.classification));
    var c := Stage(b, Selective(q.folder), FolderIs(q.folder));
    var xc := Stage(xb, Selective(q.folder), FolderIs(q.folder));
    StageSplit(b, xb, Selective(q.folder), FolderIs(q.folder));
    StageSplit(c, xc, q.hasAttachments.Some?, AttachmentsWanted(q.hasAttachments == Some(true)));
  }

  /** The chain of filters keeps exactly the rows that pass all of them, in their order. */
  lemma {:induction false} FilteredIsKept(rows: seq<Row>, q: SearchQuery)
    ensures Filtered(rows, q) == KeptRows(rows, q)
    decreases |rows|
  {
    if rows != [] {
      var init := rows[..|rows| - 1];
      var x := rows[|rows| - 1];
      calc {
        Filtered(rows, q);
      == { assert rows == init + [x]; FilteredSnoc(init, x, q); }
        Filtered(init, q) + Filtered([x], q);
      == { FilteredIsKept(init, q); FilteredSingle(x, q); }
        KeptRows(init, q) + (if Keeps(q, x) then [x] else []);
      ==
        KeptRows(rows, q);
      }
    }
  }

  /** Filters only remove rows: a row is kept exactly when it is in the table and passes every filter. */
  lemma {:induction false} KeptMembers(rows: seq<Row>, q: SearchQuery, r: Row)
    ensures r in KeptRows(rows, q) <==> r in rows && Keeps(q, r)
    ensures |KeptRows(rows, q)| <= |rows|
    decreases |rows|
  {
    if rows != [] {
      var init := rows[..|rows| - 1];
      KeptMembers(init, q, r);
      assert rows == init + [rows[|rows| - 1]];
    }
  }

  /** An empty query, "all" or "" for type and folder, and no attachment filter keep the whole table. */
  lemma NoFilterKeepsAll(rows: seq<Row>, q: SearchQuery)
    requires q.query == "" && !Selective(q.classification) && !Selective(q.folder) && q.hasAttachments.None?
    ensures Filtered(rows, q) == rows
  {
  }

  // ------------------------------------------------------------- pagination

  /** Python's // : the floor of a / b. */
  function FloorDiv(a: int, b: int): (d: int)
    requires b != 0
    ensures b > 0 ==> d * b <= a < d * b + b
    ensures b < 0 ==> d * b >= a > d * b + b
  {
    if b > 0 then a / b else (-a) / (-b)
  }

  /** Python's index normalisation in a slice: negatives count from the end, then clip to [0, n]. */
  function ClipIndex(i: int, n: nat): (k: nat)
    ensures k <= n
    ensures 0 <= i <= n ==> k == i
    ensures i > n ==> k == n
    ensures i < 0 ==> k == if n + i < 0 then 0 else n + i
  {
    if i < 0 then (if n + i < 0 then 0 else n + i) else if i > n then n else i
  }

  /** Python's s[lo:hi] (iloc) with step 1. */
  function PySlice<T>(s: seq<T>, lo: int, hi: int): seq<T> {
    var a := ClipIndex(lo, |s|);
    var b := ClipIndex(hi, |s|);
    if a < b then s[a..b] else []
  }

  /** (total + per_page - 1) // per_page. */
  function PageCount(total: nat, perPage: int): int
    requires perPage != 0
  {
    FloorDiv(total + perPage - 1, perPage)
  }

  /** For a positive page size the page count is the ceiling of total / per_page. */
  lemma PageCountIsCeiling(total: nat, perPage: int)
    requires perPage >= 1
    ensures var pages := PageCount(total, perPage);
      pages >= 0 && (total > 0 ==> (pages - 1) * perPage < total <= pages * perPage)
    ensures total == 0 ==> PageCount(total, perPage) == 0
  {
  }

  /** The rows of a page: [(page - 1) * per_page, page * per_page) of the filtered list, as iloc takes them. */
  function PageOf(rows: seq<Row>, page: int, perPage: int): seq<Row> {
    var start := (page - 1) * perPage;
    PySlice(rows, start, start + perPage)
  }

  datatype Pagination = Pagination(
    page: int,
    perPage: int,
    total: nat,
    pages: int,
    hasPrev: bool,
    hasNext: bool,
    prevPage: Option<int>,
    nextPage: Option<int>)

  function PaginationOf(total: nat, page: int, perPage: int): (p: Pagination)
    requires perPage != 0
    ensures p.hasPrev <==> page > 1
    ensures p.hasNext <==> page < p.pages
    ensures p.prevPage == if p.hasPrev then Some(page - 1) else None
    ensures p.nextPage == if p.hasNext then Some(page + 1) else None
  {
    var pages := PageCount(total, perPage);
    Pagination(
      page, perPage, total, pages, page > 1, page < pages,
      if page > 1 then Some(page - 1) else None,
      if page < pages then Some(page + 1) else None)
  }

  /** For a positive page and page size, a page is the slice of the filtered rows, clipped to their length. */
  lemma PageIsClippedRange(rows: seq<Row>, page: int, perPage: int)
    requires page >= 1 && perPage >= 1
    ensures var lo := (page - 1) * perPage;
      var hi := page * perPage;
      PageOf(rows, page, perPage)
        == if lo >= |rows| then [] else rows[lo..if hi <= |rows| then hi else |rows|]
  {
    assert (page - 1) * perPage >= 0;
    assert (page - 1) * perPage + perPage == page * perPage;
  }

  lemma MulCancel(x: int, y: int, b: int)
    requires b >= 1 && x * b < y * b
    ensures x < y
  {
    assert y * b - x * b == (y - x) * b;
  }

  lemma DivAtLeast(a: int, b: int, k: nat)
    requires b >= 1 && a >= k * b
    ensures a / b >= k
  {
    var q := a / b;
    assert a == q * b + a % b;
    assert (q + 1) * b == q * b + b;
    MulCancel(k, q + 1, b);
  }

  /** A row index below the total lies on a page no later than the last one. */
  lemma PageWithinCount(total: nat, perPage: int, i: nat)
    requires perPage >= 1 && i < total
    ensures 1 <= i / perPage + 1 <= PageCount(total, perPage)
  {
    var d := i / perPage;
    assert d * perPage <= i;
    assert (d + 1) * perPage == d * perPage + perPage;
    DivAtLeast(total + perPage - 1, perPage, d + 1);
  }

  lemma ProductNonNegative(a: int, b: int)
    requires a >= 0 && b >= 0
    ensures a * b >= 0
  {
  }

  /** Entry m of a slice that starts inside the rows is the row m places after its start. */
  lemma SliceEntry(rows: seq<Row>, lo: int, hi: int, m: int)
    requires 0 <= lo && 0 <= m && lo + m < hi && lo + m < |rows|
    ensures m < |PySlice(rows, lo, hi)|
    ensures PySlice(rows, lo, hi)[m] == rows[lo + m]
  {
  }

  /** Entry m of a page that starts inside the rows is the row m places after the page's start. */
  lemma EntryOfPage(rows: seq<Row>, page: int, perPage: int, m: int)
    requires page >= 1 && perPage >= 1 && 0 <= m < perPage && (page - 1) * perPage + m < |rows|
    ensures m < |PageOf(rows, page, perPage)|
    ensures PageOf(rows, page, perPage)[m] == rows[(page - 1) * perPage + m]
  {
    ProductNonNegative(page - 1, perPage);
    SliceEntry(rows, (page - 1) * perPage, (page - 1) * perPage + perPage, m);
  }

  /** Row i is entry i % per_page of page i / per_page + 1. */
  lemma PageEntry(rows: seq<Row>, perPage: int, i: nat)
    requires perPage >= 1 && i < |rows|
    ensures var page := i / perPage + 1;
      && i % perPage < |PageOf(rows, page, perPage)|
      && PageOf(rows, page, perPage)[i % perPage] == rows[i]
  {
    var d := i / perPage;
    assert (d + 1 - 1) * perPage + i % perPage == i;
    EntryOfPage(rows, d + 1, perPage, i % perPage);
  }

  /** Every filtered row sits on a page: row i is entry i % per_page of page i / per_page + 1. */
  lemma RowOnItsPage(rows: seq<Row>, perPage: int, i: nat)
    requires perPage >= 1 && i < |rows|
    ensures var page := i / perPage + 1;
      && 1 <= page <= PageCount(|rows|, perPage)
      && i % perPage < |PageOf(rows, page, perPage)|
      && PageOf(rows, page, perPage)[i % perPage] == rows[i]
  {
    PageWithinCount(|rows|, perPage, i);
    PageEntry(rows, perPage, i);
  }

  datatype SearchResult = SearchResult(results: seq<Row>, pagination: Pagination)

  /** Why search_emails raises: a filter reads a column the table lacks, or the page size is 0. */
  datatype SearchError = MissingColumn(column: string) | ZeroDivision

  /** Some filter is switched on. */
  predicate FilterOn(q: SearchQuery) {
    q.query != "" || Selective(q.classification) || Selective(q.folder) || q.hasAttachments.Some?
  }

  /** The column the first switched-on filter reads. */
  function FilterColumn(q: SearchQuery): (c: string)
    requires FilterOn(q)
    ensures c in {"subject", "classification_type", "folder", "total_attachments"}
    ensures q.query != "" <==> c == "subject"
  {
    if q.query != "" then "subject"
    else if Selective(q.classification) then "classification_type"
    else if Selective(q.folder) then "folder"
    else "total_attachments"
  }

  /** The four stages of search_emails, taken one after another, keep exactly the rows that pass. */
  lemma StagesKeep(rows: seq<Row>, q: SearchQuery, a: seq<Row>, b: seq<Row>, c: seq<Row>, d: seq<Row>)
    requires a == Stage(rows, q.query != "", QueryIn(q.query))
    requires b == Stage(a, Selective(q.classification), TypeIs(q.classification))
    requires c == Stage(b, Selective(q.folder), FolderIs(q.folder))
    requires d == Stage(c, q.hasAttachments.Some?, AttachmentsWanted(q.hasAttachments == Some(true)))
    ensures d == KeptRows(rows, q)
  {
    FilteredIsKept(rows, q);
  }

  /**
   * search_emails: each switched-on filter narrows the rows in turn, then
   * the requested page is cut out. With no rows the table has no columns,
   * so the first switched-on filter raises; a page size of 0 raises when
   * the page count is computed.
   */
  method SearchEmails(rows: seq<Row>, q: SearchQuery) returns (res: Result<SearchResult, SearchError>)
    ensures res.Err? <==> (rows == [] && FilterOn(q)) || q.perPage == 0
    ensures rows == [] && FilterOn(q) ==> res == Err(MissingColumn(FilterColumn(q)))
    ensures (rows != [] || !FilterOn(q)) && q.perPage == 0 ==> res == Err(ZeroDivision)
    ensures res.Ok? ==>
      && res.value.results == PageOf(KeptRows(rows, q), q.page, q.perPage)
      && res.value.pagination == PaginationOf(|KeptRows(rows, q)|, q.page, q.perPage)
  {
    if rows == [] && FilterOn(q) {
      return Err(MissingColumn(FilterColumn(q)));
    }
    var filtered := rows;
    if q.query != "" {
      filtered := Select(filtered, QueryIn(q.query));
    }
    ghost var a := filtered;
    assert a == Stage(rows, q.query != "", QueryIn(q.query));
    if Selective(q.classification) {
      filtered := Select(filtered, TypeIs(q.classification));
    }
    ghost var b := filtered;
    assert b == Stage(a, Selective(q.classification), TypeIs(q.classification));
    if Selective(q.folder) {
      filtered := Select(filtered, FolderIs(q.folder));
    }
    ghost var c := filtered;
    assert c == Stage(b, Selective(q.folder), FolderIs(q.folder));
    if q.hasAttachments.Some? {
      assert AttachmentsWanted(q.hasAttachments.value) == AttachmentsWanted(q.hasAttachments == Some(true));
      filtered := Select(filtered, AttachmentsWanted(q.hasAttachments.value));
    }
    assert filtered == Stage(c, q.hasAttachments.Some?, AttachmentsWanted(q.hasAttachments == Some(true)));
    StagesKeep(rows, q, a, b, c, filtered);
    if q.perPage == 0 {
      return Err(ZeroDivision);
    }
    var total := |filtered|;
    var pages := FloorDiv(total + q.perPage - 1, q.perPage);
    var start := (q.page - 1) * q.perPage;
    var results := PySlice(filtered, start, start + q.perPage);
    assert results == PageOf(KeptRows(rows, q), q.page, q.perPage);
    res := Ok(SearchResult(results, PaginationOf(total, q.page, q.perPage)));
  }

  // ------------------------------------------------------------- file types

  /**
   * POSIX os.path.splitext's extension ('/' is the only separator): from
   * the last dot of the last path component, unless only dots precede it
   * in that component; else empty.
   */
  function Extension(p: string): (ext: string)
    ensures ext == [] || (ext[0] == '.' && EndsWith(p, ext))
    ensures forall i :: 1 <= i < |ext| ==> ext[i] != '.' && ext[i] != '/'
    ensures ext != [] ==> HasNonDotBefore(p, |p| - |ext|)
    ensures ext == [] ==> forall d :: 0 <= d < |p| && p[d] == '.' && HasNonDotBefore(p, d) ==>
              exists j :: d < j < |p| && (p[j] == '.' || p[j] == '/')
  {
    ExtensionFrom(p, |p|)
  }

  /** The extension of p[..k], looking back from k for the last dot. */
  function ExtensionFrom(p: string, k: nat): (ext: string)
    requires k <= |p|
    ensures ext == [] || (ext[0] == '.' && |ext| <= k && p[k - |ext|..k] == ext)
    ensures forall i :: 1 <= i < |ext| ==> ext[i] != '.' && ext[i] != '/'
    ensures ext != [] ==> HasNonDotBefore(p, k - |ext|)
    ensures ext == [] ==> forall d :: 0 <= d < k && p[d] == '.' && HasNonDotBefore(p, d) ==>
              exists j :: d < j < k && (p[j] == '.' || p[j] == '/')
    decreases k
  {
    if k == 0 then []
    else if p[k - 1] == '/' then []
    else if p[k - 1] == '.' then
      (if HasNonDotBefore(p, k - 1) then ['.'] else [])
    else
      var e := ExtensionFrom(p, k - 1);
      if e == [] then [] else e + [p[k - 1]]
  }

  /** Some character other than '.' lies between the last '/' before j and j. */
  predicate HasNonDotBefore(p: string, j: nat)
    requires j <= |p|
    decreases j
  {
    j > 0 && p[j - 1] != '/' && (p[j - 1] != '.' || HasNonDotBefore(p, j - 1))
  }

  /** What get_file_type_info reports: a category, its badge colour, and the extension. */
  datatype FileTypeInfo = FileTypeInfo(category: string, colorClass: string, extension: string)

  /** One row of the extension table: the extensions it covers, its category and its colour. */
  datatype TableRow = TableRow(extensions: seq<string>, category: string, colorClass: string)

  const ExtensionTable: seq<TableRow> := [
    TableRow([".pdf"], "PDF", "bg-danger"),
    TableRow([".doc", ".docx"], "Word", "bg-primary"),
    TableRow([".xls", ".xlsx"], "Excel", "bg-success"),
    TableRow([".ppt", ".pptx"], "PowerPoint", "bg-warning"),
    TableRow([".jpg", ".jpeg", ".png", ".gif", ".bmp", ".tiff"], "Imagen", "bg-info"),
    TableRow([".zip", ".rar", ".7z"], "Archivo", "bg-dark text-white"),
    TableRow([".txt", ".log"], "Texto", "bg-light text-dark"),
    TableRow([".csv"], "CSV", "bg-success"),
    TableRow([".xml", ".html", ".htm"], "Web", "bg-info")
  ]

  const DefaultCategory: string := "Documento"
  const DefaultColor: string := "bg-secondary"

  /** The elif chain over the table: the first row listing the extension, if any. */
  function TableLookup(table: seq<TableRow>, ext: string): (r: Option<TableRow>)
    ensures r.Some? ==> r.value in table && ext in r.value.extensions
    ensures r.None? ==> forall i :: 0 <= i < |table| ==> ext !in table[i].extensions
  {
    if table == [] then None
    else if ext in table[0].extensions then Some(table[0])
    else TableLookup(table[1..], ext)
  }

  /** The insurance keyword override, in priority order: category and colour. */
  function KeywordOverride(upper: string): Option<(string, string)> {
    if Contains(upper, "SLIP") then Some(("SLIP", "bg-primary"))
    else if Contains(upper, "POLIZA") || Contains(upper, "POLICY") then Some(("Póliza", "bg-warning"))
    else if Contains(upper, "COTIZACION") || Contains(upper, "QUOTE") then Some(("Cotización", "bg-success"))
    else if Contains(upper, "ENDOSO") || Contains(upper, "ENDORSEMENT") then Some(("Endoso", "bg-info"))
    else None
  }

  /** get_file_type_info without the MIME type. */
  function FileTypeOf(filename: string): (info: FileTypeInfo)
    ensures info.extension == Extension(Lower(filename))
  {
    var ext := Extension(Lower(filename));
    var base := match TableLookup(ExtensionTable, ext)
      case Some(row) => (row.category, row.colorClass)
      case None => (DefaultCategory, DefaultColor);
    var chosen := match KeywordOverride(Upper(filename))
      case Some(kw) => kw
      case None => base;
    FileTypeInfo(chosen.0, chosen.1, ext)
  }

  /** No row of the table shares an extension with another, so the order of the elif chain only matters for the keywords. */
  lemma TableRowsDisjoint(e: string)
    ensures forall i, j ::
      0 <= i < j < |ExtensionTable| && e in ExtensionTable[i].extensions ==> e !in ExtensionTable[j].extensions
  {
    forall i, j | 0 <= i < j < |ExtensionTable| && e in ExtensionTable[i].extensions
      ensures e !in ExtensionTable[j].extensions
    {
      RowsApart(e, i, j);
    }
  }

  lemma RowsApart(e: string, i: nat, j: nat)
    requires i < j < |ExtensionTable| && e in ExtensionTable[i].extensions
    ensures e !in ExtensionTable[j].extensions
  {
  }

  /**
   * The keyword rule wins over the extension: SLIP first, then
   * POLIZA/POLICY, then COTIZACION/QUOTE, then ENDOSO/ENDORSEMENT, all
   * looked for in the upper-cased name.
   */
  lemma KeywordPriority(filename: string)
    ensures var u := Upper(filename);
      var info := FileTypeOf(filename);
      && (Contains(u, "SLIP") ==> info.category == "SLIP" && info.colorClass == "bg-primary")
      && (!Contains(u, "SLIP") && (Contains(u, "POLIZA") || Contains(u, "POLICY")) ==>
            info.category == "Póliza" && info.colorClass == "bg-warning")
      && (!Contains(u, "SLIP") && !Contains(u, "POLIZA") && !Contains(u, "POLICY")
          && (Contains(u, "COTIZACION") || Contains(u, "QUOTE")) ==>
            info.category == "Cotización" && info.colorClass == "bg-success")
      && (!Contains(u, "SLIP") && !Contains(u, "POLIZA") && !Contains(u, "POLICY")
          && !Contains(u, "COTIZACION") && !Contains(u, "QUOTE")
          && (Contains(u, "ENDOSO") || Contains(u, "ENDORSEMENT")) ==>
            info.category == "Endoso" && info.colorClass == "bg-info")
  {
  }

  /** Without a keyword the extension decides; an extension the table does not list gives Documento / bg-secondary. */
  lemma ExtensionDecides(filename: string)
    requires KeywordOverride(Upper(filename)).None?
    ensures var info := FileTypeOf(filename);
      var ext := Extension(Lower(filename));
      && (forall i :: 0 <= i < |ExtensionTable| && ext in ExtensionTable[i].extensions ==>
            info.category == ExtensionTable[i].category && info.colorClass == ExtensionTable[i].colorClass)
      && ((forall i :: 0 <= i < |ExtensionTable| ==> ext !in ExtensionTable[i].extensions) ==>
            info.category == DefaultCategory && info.colorClass == DefaultColor)
  {
    var ext := Extension(Lower(filename));
    TableRowsDisjoint(ext);
    var r := TableLookup(ExtensionTable, ext);
    if r.Some? {
      var k :| 0 <= k < |ExtensionTable| && ExtensionTable[k] == r.value;
      forall i | 0 <= i < |ExtensionTable| && ext in ExtensionTable[i].extensions
        ensures ExtensionTable[i] == r.value
      {
        if i != k {
          assert false;
        }
      }
    }
  }
}
