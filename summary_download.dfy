/**
 * The report download: the plan gate in front of it, and the two parts of
 * the PDF layout that decide content rather than looks: the page-break
 * rule and the trend tables, which leave out buckets with no movement.
 */
module SummaryDownload {
  import opened Wrappers
  import opened JsBuiltins
  import opened Calendar
  import opened Records
  import Consts
  import SubscriptionStore
  import FinancialReportStore
  import SummaryActions

  /** The height of an A4 page in points. */
  const A4Height: real := 841.89

  /** The default bottom distance of the page-break test. */
  const DefaultDistance: real := 50.0

  /** Where writing resumes on a new page. */
  const TopOfPage: real := 50.0

  /** The parts of the PDF document the layout reads and changes: its page count and page height. */
  class PdfDoc {
    var pages: nat
    const pageHeight: real

    /** A new portrait A4 document has one page. */
    constructor()
      ensures pages == 1 && pageHeight == A4Height
    {
      pages := 1;
      pageHeight := A4Height;
    }
  }

  /**
   * `checkToAddPage`: when `currentY` is lower than `distance` above the page
   * bottom, exactly one page is added and writing resumes at the top;
   * otherwise nothing changes.
   */
  method CheckToAddPage(currentY: real, doc: PdfDoc, distance: real) returns (y: real)
    modifies doc
    ensures currentY > doc.pageHeight - distance ==> y == TopOfPage && doc.pages == old(doc.pages) + 1
    ensures currentY <= doc.pageHeight - distance ==> y == currentY && doc.pages == old(doc.pages)
  {
    if currentY > doc.pageHeight - distance {
      doc.pages := doc.pages + 1;
      return TopOfPage;
    }
    return currentY;
  }

  /** A bucket the trend table prints: one with income or expenses. */
  predicate HasMovement(b: Bucket) {
    !(b.income == 0.0 && b.expenses == 0.0)
  }

  /** `removedEmptyTransaction`: the buckets with movement, in order. */
  function RemoveEmptyBuckets(data: seq<Bucket>): (r: seq<Bucket>)
    ensures forall i :: 0 <= i < |r| ==> r[i].income != 0.0 || r[i].expenses != 0.0
    ensures multiset(r) <= multiset(data)
  {
    Filter(data, HasMovement)
  }

  /** Every bucket with movement, even in one of the two sums only, is printed, in its order. */
  lemma RemoveEmptyBucketsKeeps(data: seq<Bucket>, i: int)
    requires 0 <= i < |data| && (data[i].income != 0.0 || data[i].expenses != 0.0)
    ensures |Filter(data[..i], HasMovement)| < |RemoveEmptyBuckets(data)|
    ensures RemoveEmptyBuckets(data)[|Filter(data[..i], HasMovement)|] == data[i]
  {
    FilterKeeps(data, HasMovement, i);
  }

  /** The zero buckets the gap filling inserts are never printed. */
  lemma RemoveEmptyBucketsDropsFill(data: seq<Bucket>, date: int)
    ensures Bucket(date, 0.0, 0.0) !in RemoveEmptyBuckets(data)
  {
  }

  /** A series with movement on every bucket prints whole. */
  lemma RemoveEmptyBucketsAllMoving(data: seq<Bucket>)
    requires forall i :: 0 <= i < |data| ==> data[i].income != 0.0 || data[i].expenses != 0.0
    ensures RemoveEmptyBuckets(data) == data
  {
    FilterAll(data, HasMovement);
  }

  /** The name a zoom level has in the API. */
  function DateTruncName(g: DateTrunc): string {
    match g
    case Day => "day"
    case Week => "week"
    case Month => "month"
    case Year => "year"
  }

  /**
   * The description of a zoom level's trend table, never empty. It is
   * spelled out as a match on the level, so that callers need not reason
   * about string matching; `LevelDescriptionAgrees` ties it to
   * `Consts.TrendDescription`.
   */
  function LevelDescription(g: DateTrunc): (r: string)
    ensures g == Day ==> r == Consts.DayTrend
    ensures g == Week ==> r == Consts.WeekTrend
    ensures g == Month ==> r == Consts.MonthTrend
    ensures g == Year ==> r == Consts.YearTrend
    ensures r != ""
  {
    match g
    case Day => Consts.DayTrend
    case Week => Consts.WeekTrend
    case Month => Consts.MonthTrend
    case Year => Consts.YearTrend
  }

  /**
   * Each table's description is what `getTrendDescription` gives for the
   * level's name in the API.
   */
  lemma LevelDescriptionAgrees(g: DateTrunc)
    ensures LevelDescription(g) == Consts.TrendDescription(DateTruncName(g))
  {
  }

  /** One trend table: the zoom level it describes and its rows. */
  datatype TrendTable = TrendTable(level: DateTrunc, rows: seq<Bucket>)
  {
    /** The text printed above the table. */
    function Description(): string
    {
      LevelDescription(level)
    }
  }

  /** The table printed for one period: the level's description above the buckets with movement. */
  function TrendTableOf(p: ActivePeriod): TrendTable
  {
    TrendTable(p.dateTrunc, RemoveEmptyBuckets(p.activePeriodData))
  }

  /**
   * A period's table is headed by the (never empty) description of the
   * period's level and holds exactly its buckets with movement: every row
   * moves, every row comes from the period, and every moving bucket is a row.
   */
  lemma TrendTableOfRows(p: ActivePeriod)
    ensures TrendTableOf(p).Description() == LevelDescription(p.dateTrunc) != ""
    ensures forall i :: 0 <= i < |TrendTableOf(p).rows| ==>
      TrendTableOf(p).rows[i].income != 0.0 || TrendTableOf(p).rows[i].expenses != 0.0
    ensures multiset(TrendTableOf(p).rows) <= multiset(p.activePeriodData)
    ensures forall i :: 0 <= i < |p.activePeriodData| && HasMovement(p.activePeriodData[i]) ==>
      p.activePeriodData[i] in TrendTableOf(p).rows
  {
    forall i | 0 <= i < |p.activePeriodData| && HasMovement(p.activePeriodData[i])
      ensures p.activePeriodData[i] in TrendTableOf(p).rows
    {
      RemoveEmptyBucketsKeeps(p.activePeriodData, i);
    }
  }

  /**
   * Places one table: the description at `currentY`, the table 15 points
   * below it, then the page-break test 50 points below the table's end.
   * The table library breaks a long table over pages by itself:
   * `tablePages(y, rows)` stands for the number of pages it adds for a table
   * of `rows` started at `y`, and `tableEnd(y, rows)` for where the table
   * ends on its last page.
   */
  method PlaceTable(doc: PdfDoc, currentY: real, rows: seq<Bucket>,
                    tableEnd: (real, seq<Bucket>) -> real, tablePages: (real, seq<Bucket>) -> nat)
    returns (y: real)
    modifies doc
    ensures tableEnd(currentY + 15.0, rows) + 50.0 > doc.pageHeight - DefaultDistance ==>
      y == TopOfPage && doc.pages == old(doc.pages) + tablePages(currentY + 15.0, rows) + 1
    ensures tableEnd(currentY + 15.0, rows) + 50.0 <= doc.pageHeight - DefaultDistance ==>
      y == tableEnd(currentY + 15.0, rows) + 50.0 && doc.pages == old(doc.pages) + tablePages(currentY + 15.0, rows)
    ensures old(doc.pages) + tablePages(currentY + 15.0, rows) <= doc.pages <= old(doc.pages) + tablePages(currentY + 15.0, rows) + 1
    ensures y == TopOfPage || y <= doc.pageHeight - DefaultDistance
  {
    var tableY := currentY + 15.0;
    doc.pages := doc.pages + tablePages(tableY, rows);
    y := CheckToAddPage(tableEnd(tableY, rows) + 50.0, doc, DefaultDistance);
  }

  /** One period of the trend section: its description, then its table. */
  method PlacePeriod(doc: PdfDoc, period: ActivePeriod, currentY: real,
                     tableEnd: (real, seq<Bucket>) -> real, tablePages: (real, seq<Bucket>) -> nat)
    returns (table: TrendTable, start: real, y: real)
    modifies doc
    ensures table == TrendTableOf(period) && start == currentY + 15.0
    ensures old(doc.pages) + tablePages(start, table.rows) <= doc.pages <= old(doc.pages) + tablePages(start, table.rows) + 1
    ensures y == TopOfPage || y <= doc.pageHeight - DefaultDistance
  {
    table := TrendTableOf(period);
    start := currentY + 15.0;
    y := PlaceTable(doc, currentY, table.rows, tableEnd, tablePages);
  }

  /** The pages the table library adds for tables started at `starts`, in total. */
  function TablePages(starts: seq<real>, tables: seq<TrendTable>, tablePages: (real, seq<Bucket>) -> nat): nat
    requires |starts| == |tables|
  {
    if starts == [] then 0
    else TablePages(starts[..|starts| - 1], tables[..|tables| - 1], tablePages)
         + tablePages(starts[|starts| - 1], tables[|tables| - 1].rows)
  }

  lemma TablePagesSnoc(starts: seq<real>, tables: seq<TrendTable>, y: real, t: TrendTable, tablePages: (real, seq<Bucket>) -> nat)
    requires |starts| == |tables|
    ensures TablePages(starts + [y], tables + [t], tablePages) == TablePages(starts, tables, tablePages) + tablePages(y, t.rows)
  {
    assert (starts + [y])[..|starts|] == starts && (tables + [t])[..|tables|] == tables;
  }

  /**
   * The trend section's loop: a table per period, in order, each followed
   * by the page-break test. `starts[i]` is where table `i` starts. Besides
   * the pages the table library adds, each period adds at most one page,
   * and writing resumes at the top of a page or above its bottom margin.
   */
  method TrendSection(doc: PdfDoc, periods: seq<ActivePeriod>, startY: real,
                      tableEnd: (real, seq<Bucket>) -> real, tablePages: (real, seq<Bucket>) -> nat)
    returns (tables: seq<TrendTable>, starts: seq<real>, currentY: real)
    modifies doc
    ensures |tables| == |periods| && |starts| == |periods|
    ensures forall i :: 0 <= i < |periods| ==> tables[i] == TrendTableOf(periods[i])
    ensures periods != [] ==> starts[0] == startY + 15.0
    ensures old(doc.pages) + TablePages(starts, tables, tablePages) <= doc.pages
    ensures doc.pages <= old(doc.pages) + TablePages(starts, tables, tablePages) + |periods|
    ensures periods != [] ==> currentY == TopOfPage || currentY <= doc.pageHeight - DefaultDistance
    ensures periods == [] ==> currentY == startY
  {
    tables := [];
    starts := [];
    currentY := startY;
    ghost var pages0 := doc.pages;
    ghost var added := 0;
    for i := 0 to |periods|
      invariant |tables| == i && |starts| == i
      invariant forall j {:trigger TrendTableOf(periods[j])} :: 0 <= j < i ==> tables[j] == TrendTableOf(periods[j])
      invariant i > 0 ==> starts[0] == startY + 15.0
      invariant added == TablePages(starts, tables, tablePages)
      invariant pages0 + added <= doc.pages <= pages0 + added + i
      invariant i > 0 ==> currentY == TopOfPage || currentY <= doc.pageHeight - DefaultDistance
      invariant i == 0 ==> currentY == startY
    {
      var table, start;
      table, start, currentY := PlacePeriod(doc, periods[i], currentY, tableEnd, tablePages);
      TablePagesSnoc(starts, tables, start, table, tablePages);
      added := added + tablePages(start, table.rows);
      starts := starts + [start];
      tables := tables + [table];
    }
  }

  /**
   * The period line of the PDF. The date library's `format` throws on an
   * invalid date, so an invalid end gives no line (`None`): the download fails.
   */
  function PeriodLine(period: FinancialReportStore.ReportValue, format: int -> string): (r: Option<string>)
    requires period.PeriodValue?
    ensures r.Some? <==> period.from.ValidDate? && period.to.ValidDate?
  {
    if period.from.ValidDate? && period.to.ValidDate? then
      Some("Period: from " + format(period.from.day) + " to " + format(period.to.day) + " ")
    else None
  }

  /**
   * As written, the summary query records `new Date('')` when the page has
   * no `from` parameter, which is an invalid date, so the PDF period line
   * cannot be printed.
   */
  lemma SummaryPeriodAsWrittenBreaksPdf(to: string, newDate: string -> DateValue, format: int -> string)
    requires newDate("") == InvalidDate
    ensures var from := SummaryActions.ParamOrEmpty(None);
      PeriodLine(SummaryActions.SummaryPeriodAsWritten(from, to, newDate), format) == None
  {
  }

  /** With the default period for missing parameters, the period line always prints. */
  lemma SummaryPeriodPrints(from: string, to: string, today: int, newDate: string -> DateValue, format: int -> string)
    ensures PeriodLine(SummaryActions.SummaryPeriod(from, to, today, newDate), format).Some?
  {
  }

  datatype DownloadType = Pdf | Json

  /** What a click on a download entry produces. */
  datatype DownloadAction = NoDownload | DownloadJson | DownloadPdf

  /**
   * `handleDownload`: the free plan downloads nothing and opens the upgrade
   * dialog; any other plan downloads the chosen format, leaving the store alone.
   */
  method HandleDownload(kind: DownloadType, sub: SubscriptionStore.Store) returns (action: DownloadAction)
    modifies sub
    ensures sub.plan == old(sub.plan) && sub.subscriptionId == old(sub.subscriptionId)
    ensures sub.plan == SubscriptionStore.Free ==> action == NoDownload && sub.open
    ensures sub.plan != SubscriptionStore.Free ==>
      && sub.open == old(sub.open)
      && action == (if kind == Json then DownloadJson else DownloadPdf)
  {
    if sub.plan == SubscriptionStore.Free {
      sub.SetOpen(true);
      return NoDownload;
    }
    if kind == Json {
      action := DownloadJson;
    } else {
      action := DownloadPdf;
    }
  }
}
