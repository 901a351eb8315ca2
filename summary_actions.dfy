/**
 * The summary queries of the dashboard, without their HTTP transport: the
 * query-string key of each query, the rule that enables a query, and what
 * each successful response writes into the financial-report store.
 */
module SummaryActions {
  import opened Wrappers
  import opened JsBuiltins
  import opened Calendar
  import opened Records
  import ChartState
  import FinancialReportStore

  // ---------------------------------------------------------------------
  // Query parameters and the query string

  /** `params.get(name) || ''`: an absent parameter reads as the empty string. */
  function ParamOrEmpty(p: Option<string>): (s: string)
    ensures p.None? ==> s == ""
    ensures p.Some? ==> s == p.value
  {
    if p.Some? then p.value else ""
  }

  /** The filter of `createQueryString`: a value is kept when it is truthy. */
  predicate HasValue(kv: (string, Option<string>)) {
    kv.1.Some? && kv.1.value != ""
  }

  /** The pair kept from `params`, in order. */
  function KeptPairs(params: seq<(string, Option<string>)>): seq<(string, Option<string>)> {
    Filter(params, HasValue)
  }

  /** `key=encode(value)` for each kept pair. */
  function Pieces(kept: seq<(string, Option<string>)>, encode: string -> string): (r: seq<string>)
    ensures |r| == |kept|
    ensures forall i :: 0 <= i < |kept| ==> r[i] == kept[i].0 + "=" + encode(kept[i].1.GetOr(""))
  {
    if kept == [] then []
    else [kept[0].0 + "=" + encode(kept[0].1.GetOr(""))] + Pieces(kept[1..], encode)
  }

  /**
   * `createQueryString`: the kept pairs as `key=encode(value)`, joined by
   * `&`. Each piece holds at least its `=`, so the string is empty exactly
   * when no pair is kept.
   */
  function CreateQueryString(params: seq<(string, Option<string>)>, encode: string -> string): (r: string)
    ensures r == "" <==> KeptPairs(params) == []
  {
    var pieces := Pieces(KeptPairs(params), encode);
    assert pieces != [] ==> |pieces[0]| > 0;
    Join(pieces, '&')
  }

  /** With no truthy value the query string is empty. */
  lemma CreateQueryStringEmpty(params: seq<(string, Option<string>)>, encode: string -> string)
    requires forall i :: 0 <= i < |params| ==> !HasValue(params[i])
    ensures CreateQueryString(params, encode) == ""
  {
    FilterNone(params, HasValue);
  }

  /**
   * Every pair with a truthy value contributes its piece, at its place among
   * the kept pairs; so kept pairs keep their input order.
   */
  lemma CreateQueryStringKeeps(params: seq<(string, Option<string>)>, encode: string -> string, i: int)
    requires 0 <= i < |params| && HasValue(params[i])
    ensures var n := |KeptPairs(params[..i])|;
      n < |Pieces(KeptPairs(params), encode)|
      && Pieces(KeptPairs(params), encode)[n] == params[i].0 + "=" + encode(params[i].1.value)
  {
    FilterKeeps(params, HasValue, i);
  }

  /** Keys and an encoder that never produce `&` leave one `&` between each two kept pairs. */
  lemma CreateQueryStringAmpersands(params: seq<(string, Option<string>)>, encode: string -> string)
    requires forall i :: 0 <= i < |params| ==> '&' !in params[i].0
    requires forall v :: '&' !in encode(v)
    ensures var n := |KeptPairs(params)|;
      CountChar('&', CreateQueryString(params, encode)) == if n == 0 then 0 else n - 1
  {
    QueryPiecesFree(params, encode);
    CountJoin(Pieces(KeptPairs(params), encode), '&');
  }

  /** Under the same conditions, splitting on `&` recovers the pieces: the string encodes exactly the kept pairs. */
  lemma CreateQueryStringSplit(params: seq<(string, Option<string>)>, encode: string -> string)
    requires forall i :: 0 <= i < |params| ==> '&' !in params[i].0
    requires forall v :: '&' !in encode(v)
    requires KeptPairs(params) != []
    ensures Split(CreateQueryString(params, encode), '&') == Pieces(KeptPairs(params), encode)
  {
    QueryPiecesFree(params, encode);
    SplitJoin(Pieces(KeptPairs(params), encode), '&');
  }

  lemma QueryPiecesFree(params: seq<(string, Option<string>)>, encode: string -> string)
    requires forall i :: 0 <= i < |params| ==> '&' !in params[i].0
    requires forall v :: '&' !in encode(v)
    ensures forall i :: 0 <= i < |Pieces(KeptPairs(params), encode)| ==> '&' !in Pieces(KeptPairs(params), encode)[i]
  {
    var kept := KeptPairs(params);
    assert multiset(kept) <= multiset(params);
    forall i | 0 <= i < |kept| ensures '&' !in kept[i].0 {
      assert kept[i] in multiset(params);
      var j :| 0 <= j < |params| && params[j] == kept[i];
    }
  }

  /**
   * `enabled: !!(from && to)`: a range query runs exactly when both ends are
   * truthy, so a missing parameter (read as `''`) keeps it from running.
   */
  function QueryEnabled(from: string, to: string): (r: bool)
    ensures r <==> ChartState.Truthy(Some(from)) && ChartState.Truthy(Some(to))
    ensures from == ParamOrEmpty(None) || to == ParamOrEmpty(None) ==> !r
  {
    from != "" && to != ""
  }

  /** The charts pass formatted dates, which are never empty, so their queries always run. */
  lemma ChartQueriesEnabled(f: ChartState.DateFilter, format: int -> string)
    requires forall d :: format(d) != ""
    ensures QueryEnabled(format(f.from), format(f.to))
  {
  }

  // ---------------------------------------------------------------------
  // Store writes

  /** A successful response of one summary query, already converted to display units. */
  datatype QueryResult =
    | SummaryResult(summary: Summary)
    | TopIncomesResult(topIncomes: seq<TopTransaction>)
    | TopExpensesResult(topExpenses: seq<TopTransaction>)
    | TopIncomeCategoriesResult(topIncomeCategories: seq<Category>)
    | TopExpenseCategoriesResult(topExpenseCategories: seq<Category>)
    | ActivePeriodsResult(activePeriods: seq<ActivePeriod>)
    | CategoriesBudgetResult(categoriesBudget: seq<CategoryBudget>)
    | BillsResult(data: Option<BillsSummary>)

  /** The responses that leave the store untouched: an empty top list or series, or no bills response. */
  predicate SkipsWrite(q: QueryResult) {
    match q
    case SummaryResult(_) => false
    case TopIncomesResult(l) => l == []
    case TopExpensesResult(l) => l == []
    case TopIncomeCategoriesResult(l) => l == []
    case TopExpenseCategoriesResult(l) => l == []
    case ActivePeriodsResult(l) => l == []
    case CategoriesBudgetResult(_) => false
    case BillsResult(d) => d.None?
  }

  /** The store field a response other than the summary writes. */
  function TargetKey(q: QueryResult): FinancialReportStore.ReportKey {
    match q
    case SummaryResult(_) => FinancialReportStore.SummaryData
    case TopIncomesResult(_) => FinancialReportStore.TopIncomesData
    case TopExpensesResult(_) => FinancialReportStore.TopExpensesData
    case TopIncomeCategoriesResult(_) => FinancialReportStore.TopIncomeCategoryData
    case TopExpenseCategoriesResult(_) => FinancialReportStore.TopExpensesCategoryData
    case ActivePeriodsResult(_) => FinancialReportStore.ActivePeriods
    case CategoriesBudgetResult(_) => FinancialReportStore.CategoriesBudgetData
    case BillsResult(_) => FinancialReportStore.BillsData
  }

  /** The value written to `TargetKey(q)`. */
  function Payload(q: QueryResult): FinancialReportStore.ReportValue {
    match q
    case SummaryResult(s) => FinancialReportStore.SummaryValue(s)
    case TopIncomesResult(l) => FinancialReportStore.TransactionsValue(l)
    case TopExpensesResult(l) => FinancialReportStore.TransactionsValue(l)
    case TopIncomeCategoriesResult(l) => FinancialReportStore.CategoriesValue(l)
    case TopExpenseCategoriesResult(l) => FinancialReportStore.CategoriesValue(l)
    case ActivePeriodsResult(l) => FinancialReportStore.PeriodsValue(l)
    case CategoriesBudgetResult(l) => FinancialReportStore.BudgetValue(l)
    case BillsResult(d) => FinancialReportStore.BillsValue(if d.Some? then d.value.billsData else None)
  }

  /**
   * The period the summary query records, as written: `new Date(from)` and
   * `new Date(to)` of the raw parameters, which are `''` when absent.
   */
  function SummaryPeriodAsWritten(from: string, to: string, newDate: string -> DateValue): (v: FinancialReportStore.ReportValue)
    ensures v.PeriodValue? && v.from == newDate(from) && v.to == newDate(to)
  {
    FinancialReportStore.PeriodValue(newDate(from), newDate(to))
  }

  /**
   * The period the summary query should record: each end from its
   * parameter when that is a valid date, otherwise the default last 30
   * days, so the recorded period is always a pair of valid dates.
   */
  function SummaryPeriod(from: string, to: string, today: int, newDate: string -> DateValue): (v: FinancialReportStore.ReportValue)
    ensures v.PeriodValue? && v.from.ValidDate? && v.to.ValidDate?
    ensures newDate(from).ValidDate? && from != "" ==> v.from == newDate(from)
    ensures newDate(to).ValidDate? && to != "" ==> v.to == newDate(to)
    ensures from == "" && to == "" ==> v == FinancialReportStore.InitialReport(today)[FinancialReportStore.Period]
  {
    var f := ChartState.ParamState(Some(to), Some(from), today, newDate);
    FinancialReportStore.PeriodValue(ValidDate(f.from), ValidDate(f.to))
  }

  /**
   * What a response merges into the store. The summary writes its data and
   * the `period` the query records (`SummaryPeriodAsWritten` as the code
   * stands, `SummaryPeriod` corrected); the budget always writes, even `[]`;
   * the top lists and the series write only when non-empty; the bills
   * write whatever `billsData` the response holds, when there is a response.
   */
  function ReportPatch(q: QueryResult, period: FinancialReportStore.ReportValue): (patch: FinancialReportStore.Report)
    requires period.PeriodValue?
    ensures FinancialReportStore.ValidPartial(patch)
    ensures patch == map[] <==> SkipsWrite(q)
    ensures !SkipsWrite(q) && !q.SummaryResult? ==> patch == map[TargetKey(q) := Payload(q)]
    ensures q.SummaryResult? ==> patch.Keys == {FinancialReportStore.SummaryData, FinancialReportStore.Period}
    ensures q.SummaryResult? ==>
      && patch[FinancialReportStore.SummaryData] == Payload(q)
      && patch[FinancialReportStore.Period] == period
  {
    if SkipsWrite(q) then map[]
    else if q.SummaryResult? then
      var m := map[FinancialReportStore.SummaryData := Payload(q), FinancialReportStore.Period := period];
      assert FinancialReportStore.SummaryData in m;
      m
    else
      var m := map[TargetKey(q) := Payload(q)];
      assert TargetKey(q) in m;
      m
  }

  /** An empty top list leaves the previous entry in place: the store keeps the last non-empty list. */
  lemma EmptyListKeepsEntry(report: FinancialReportStore.Report, q: QueryResult, period: FinancialReportStore.ReportValue)
    requires SkipsWrite(q) && period.PeriodValue?
    ensures FinancialReportStore.Merge(report, ReportPatch(q, period)) == report
  {
    FinancialReportStore.MergeEmpty(report);
  }

  /** The budget query overwrites its entry, even with an empty list. */
  lemma BudgetAlwaysOverwrites(report: FinancialReportStore.Report, budgets: seq<CategoryBudget>, period: FinancialReportStore.ReportValue)
    requires period.PeriodValue?
    ensures var r := FinancialReportStore.Merge(report, ReportPatch(CategoriesBudgetResult(budgets), period));
      FinancialReportStore.CategoriesBudgetData in r
      && r[FinancialReportStore.CategoriesBudgetData] == FinancialReportStore.BudgetValue(budgets)
  {
  }

  /**
   * As written, a summary response on a page without a `from` parameter
   * leaves the store's period starting at `new Date('')`, an invalid date,
   * whatever period the store held before.
   */
  lemma SummaryWriteAsWritten(report: FinancialReportStore.Report, s: Summary, to: string, newDate: string -> DateValue)
    requires newDate("") == InvalidDate
    ensures var r := FinancialReportStore.Merge(report,
        ReportPatch(SummaryResult(s), SummaryPeriodAsWritten(ParamOrEmpty(None), to, newDate)));
      FinancialReportStore.Period in r && r[FinancialReportStore.Period].PeriodValue?
      && r[FinancialReportStore.Period].from == InvalidDate
  {
  }

  /** With the corrected period, a summary response always leaves two valid dates in the store. */
  lemma SummaryWriteCorrected(report: FinancialReportStore.Report, s: Summary, from: string, to: string, today: int, newDate: string -> DateValue)
    ensures var r := FinancialReportStore.Merge(report,
        ReportPatch(SummaryResult(s), SummaryPeriod(from, to, today, newDate)));
      FinancialReportStore.Period in r && r[FinancialReportStore.Period].PeriodValue?
      && r[FinancialReportStore.Period].from.ValidDate? && r[FinancialReportStore.Period].to.ValidDate?
  {
  }

  /**
   * The success handler of each query: it calls the store's setter under
   * the conditions above, the summary recording `period` (computed from
   * the raw `from`/`to` search parameters by `SummaryPeriodAsWritten` or
   * `SummaryPeriod`).
   */
  method QuerySucceeded(store: FinancialReportStore.Store, q: QueryResult, period: FinancialReportStore.ReportValue)
    requires store.Valid() && period.PeriodValue?
    modifies store
    ensures store.financialReport == FinancialReportStore.Merge(old(store.financialReport), ReportPatch(q, period))
    ensures SkipsWrite(q) ==> store.financialReport == old(store.financialReport)
    ensures store.Valid()
  {
    match q
    case SummaryResult(s) =>
      store.SetFinancialReport(map[FinancialReportStore.SummaryData := FinancialReportStore.SummaryValue(s),
                                   FinancialReportStore.Period := period]);
    case CategoriesBudgetResult(l) =>
      store.SetFinancialReport(map[FinancialReportStore.CategoriesBudgetData := FinancialReportStore.BudgetValue(l)]);
    case BillsResult(d) =>
      if d.Some? {
        store.SetFinancialReport(map[FinancialReportStore.BillsData := FinancialReportStore.BillsValue(d.value.billsData)]);
      }
    case _ =>
      if !SkipsWrite(q) {
        store.SetFinancialReport(map[TargetKey(q) := Payload(q)]);
      }
    if SkipsWrite(q) {
      FinancialReportStore.MergeEmpty(old(store.financialReport));
    }
  }
}
