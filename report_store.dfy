/**
 * The financial-report store: the latest results of the summary queries,
 * collected for the report download. The report is a record whose fields
 * are all optional except the period; it is modelled as a map from field
 * to value, and the store's setter as a shallow merge of a partial report.
 */
module FinancialReportStore {
  import opened Wrappers
  import opened Calendar
  import opened Records
  import Consts

  datatype ReportKey =
    | SummaryData | TopIncomesData | TopExpensesData | TopIncomeCategoryData
    | TopExpensesCategoryData | CategoriesBudgetData | ActivePeriods | BillsData | Period

  datatype ReportValue =
    | SummaryValue(summary: Summary)
    | TransactionsValue(transactions: seq<TopTransaction>)
    | CategoriesValue(categories: seq<Category>)
    | BudgetValue(budgets: seq<CategoryBudget>)
    | PeriodsValue(periods: seq<ActivePeriod>)
    | BillsValue(bills: Option<seq<BillRow>>)
    | PeriodValue(from: DateValue, to: DateValue)

  /** A (partial) report: the fields present and their values. */
  type Report = map<ReportKey, ReportValue>

  /** Each field holds the kind of value its declared type allows. */
  predicate WellTyped(k: ReportKey, v: ReportValue) {
    match k
    case SummaryData => v.SummaryValue?
    case TopIncomesData | TopExpensesData => v.TransactionsValue?
    case TopIncomeCategoryData | TopExpensesCategoryData => v.CategoriesValue?
    case CategoriesBudgetData => v.BudgetValue?
    case ActivePeriods => v.PeriodsValue?
    case BillsData => v.BillsValue?
    case Period => v.PeriodValue?
  }

  /** A partial report: every present field is well typed. */
  predicate ValidPartial(data: Report) {
    forall k :: k in data ==> WellTyped(k, data[k])
  }

  /** A full report: a valid partial report that has its period. */
  predicate ValidReport(report: Report) {
    ValidPartial(report) && Period in report
  }

  /**
   * `{...state, ...data}`: every field of `data` takes `data`'s value, and
   * every other field keeps its presence and value from `state`.
   */
  function Merge(state: Report, data: Report): (r: Report)
    ensures forall k :: k in data ==> k in r && r[k] == data[k]
    ensures forall k :: k !in data ==> (k in r <==> k in state)
    ensures forall k :: k !in data && k in state ==> r[k] == state[k]
  {
    state + data
  }

  /** A merge of well-typed parts is well typed, and keeps the period. */
  lemma MergeValid(state: Report, data: Report)
    requires ValidReport(state) && ValidPartial(data)
    ensures ValidReport(Merge(state, data))
  {
  }

  /** Applying the same partial report twice is applying it once. */
  lemma MergeIdempotent(state: Report, data: Report)
    ensures Merge(Merge(state, data), data) == Merge(state, data)
  {
    var once := Merge(state, data);
    assert Merge(once, data).Keys == once.Keys;
  }

  /** Merging the empty partial report changes nothing. */
  lemma MergeEmpty(state: Report)
    ensures Merge(state, map[]) == state
  {
    assert Merge(state, map[]).Keys == state.Keys;
  }

  /** Two merges in a row are one merge of the combined partial report. */
  lemma MergeCompose(state: Report, a: Report, b: Report)
    ensures Merge(Merge(state, a), b) == Merge(state, Merge(a, b))
  {
    assert Merge(Merge(state, a), b).Keys == Merge(state, Merge(a, b)).Keys;
  }

  /** The report before any query: only a period, the 30 days up to today. */
  function InitialReport(today: int): (r: Report)
    ensures ValidReport(r) && r.Keys == {Period}
    ensures r[Period] == PeriodValue(ValidDate(today - Consts.Last30Days), ValidDate(today))
  {
    map[Period := PeriodValue(ValidDate(today - Consts.Last30Days), ValidDate(today))]
  }

  class Store {
    var financialReport: Report

    predicate Valid()
      reads this
    {
      ValidReport(financialReport)
    }

    constructor(today: int)
      ensures financialReport == InitialReport(today)
      ensures Valid()
    {
      financialReport := InitialReport(today);
    }

    /** `setFinancialReport`: the report becomes the merge of the old report and `data`. */
    method SetFinancialReport(data: Report)
      requires Valid() && ValidPartial(data)
      modifies this
      ensures financialReport == Merge(old(financialReport), data)
      ensures Valid()
    {
      MergeValid(financialReport, data);
      financialReport := Merge(financialReport, data);
    }
  }
}
