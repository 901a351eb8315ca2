/**
 * The records the dashboard client receives from the summary API and keeps
 * in its financial-report store. Money is in display units (the API's integer
 * milli-units already divided by 1000), so it is modelled as `real`; dates
 * are day numbers (see module Calendar).
 */
module Records {
  import opened Wrappers
  import opened Calendar

  /** One bucket of the trend series: a date and the sums that fall on its unit. */
  datatype Bucket = Bucket(date: int, income: real, expenses: real)

  /** One entry of a top-category list, or the synthetic "Other" rollup. */
  datatype Category = Category(name: string, value: real)

  /** One entry of a top-transaction list. */
  datatype TopTransaction = TopTransaction(date: int, amount: real, payee: string)

  /** One row of the categories-budget report. */
  datatype CategoryBudget = CategoryBudget(name: string, budget: real, income: real, expense: real)

  /** The trend series for one zoom level. */
  datatype ActivePeriod = ActivePeriod(dateTrunc: DateTrunc, activePeriodData: seq<Bucket>)

  datatype BillStatus = Pending | Overdue | Paid

  /** One row of the bills summary, already split into year and month. */
  datatype BillRow = BillRow(name: string, amount: real, status: BillStatus, dueDate: int, year: int, month: int)

  /** The bills summary: rows and the distinct years present; either may be absent. */
  datatype BillsSummary = BillsSummary(billsData: Option<seq<BillRow>>, uniqueYears: Option<seq<int>>)

  /** The summary cards: amounts of the current period and their percentage changes. */
  datatype Summary = Summary(
    incomeAmount: real, expensesAmount: real, remainingAmount: real,
    incomeChange: real, expensesChange: real, remainingChange: real)
}
