# cashflow-cloud dashboard client, modelled in Dafny

This project models the client side of the cashflow-cloud finance dashboard and
proves properties of the model. The modelled code keeps, selects and prepares
the data the dashboard shows:

- the trend series from the server is padded with zero buckets for every
  calendar day, week, month or year that has no movement (`Utils`);
- each chart holds its own state: a date filter seeded from the `from` and
  `to` search parameters, a rank, a category, a year or a zoom level
  (`ChartState`, `BudgetChart`, `BillChart`, `IncomeExpenseChart`);
- the top-category charts keep `rank - 1` categories and add an "Other"
  entry for the rest (`CategoryChart`);
- the top-transaction charts cut their list to a prefix (`TopChart`);
- the date-filter buttons form a small state machine of presets, a
  calendar, Apply and Reset, behind a free-plan gate (`FilterButtons`);
- the summary queries build query strings and decide what each response
  writes into the financial-report store (`SummaryActions`);
- that store merges partial reports shallowly (`FinancialReportStore`);
- the subscription and edit-bill stores are setters (`SubscriptionStore`,
  `EditBillStore`);
- the report download has a plan gate, a page-break rule and an
  empty-bucket filter for the trend tables (`SummaryDownload`);
- the shared constants are plan limits, presets and trend wording (`Consts`).

Modelling choices:

- **Dates** are integer day numbers: day 0 is Thursday 1 January 1970.
  `Calendar` gives each granularity a unit key (`UnitOf`) and a first day
  (`UnitStart`). Weeks start on Sunday. Months follow the proleptic Gregorian
  calendar. The date library's `eachDayOfInterval` … `eachYearOfInterval` and
  `isSameDay` … `isSameYear` are expressed with these.
- **A JavaScript `Date` object** is class `FilterButtons.JsDate`, wherever the
  code compares dates by reference.
- **Parsing a string with `new Date`** is a function parameter `newDate`.
- **Money** is `real`, in the display units the client works in.
- **JavaScript built-ins** have their ECMAScript meaning (`JsBuiltins`). This
  includes `slice` with negative indices, `filter`, `find`, `findIndex`,
  `join` and `split`.
- **React state.** Each `useState` cell or zustand store whose setters change
  it is a class. The class's fields are the cell's contents and its methods
  are the handlers. A memo that only computes is a function.

## Model

| member | source | states |
|---|---|---|
| Utils.CalculatePercentageChange | lib/utils.ts:48-54 | From a zero previous value the change is 0 exactly when the current value is also 0, and 100 otherwise. From a non-zero previous value, growing `previous` by `r` percent gives `current`. |
| Utils.PercentageChangeExamples | lib/utils.ts:53 | 100 against 50 gives 100, 50 against 100 gives -50, and equal values give 0. |
| Utils.PercentageChangeSign | lib/utils.ts:53 | Over a positive base the change is positive iff the value rose. Over a negative base it is positive iff the value fell. |
| Utils.FillMissing | lib/utils.ts:56-127 | All four functions (days, weeks starting on Sunday, months, years): an empty active list gives an empty series whatever the interval. Otherwise there is one bucket per unit overlapping `[start, end]`. |
| Utils.SlotCases | lib/utils.ts:71-72 | The bucket for a unit is either the first active bucket in that unit, found at index `j` with none in the unit before it, or a zero bucket when no active bucket is in the unit. |
| Utils.SlotInUnit | lib/utils.ts:71-72 | The bucket chosen for a unit is always dated inside that unit. |
| Utils.FillMissingSlot | lib/utils.ts:70-73 | Slot `i` is either the first active bucket of the `i`-th unit from the start, returned unchanged, or, when that unit has no active bucket, `{date: first day of the unit, income: 0, expenses: 0}`. |
| Utils.FillMissingOrdered | lib/utils.ts:65-73 | The `i`-th bucket is dated in the `i`-th unit, so the dates of the series strictly increase. |
| Utils.FillMissingOnlyFirst | lib/utils.ts:71 | An active bucket that appears in the series sits in its own unit's slot. That unit overlaps `[start, end]`, and `find` picks this bucket first among its unit. So buckets outside the interval, and later buckets of a unit, never appear. |
| Utils.FillMissingKeepsFirst | lib/utils.ts:71-72 | The first active bucket of any unit inside the interval does appear, in that unit's slot. |
| Utils.FillMissingDaysExample | lib/utils.ts:56-76 | Worked example: 31 days with movement on days 15 and 20 give 31 buckets. Days 15 and 20 hold the two active buckets; every other day is a zero bucket dated that day. |
| Calendar.UnitCount | lib/utils.ts:65-68 | The number of units of a granularity that overlap `[start, end]` is at least 1 and equals the difference of the end and start unit keys plus one. |
| Calendar.UnitStartIsFirst | lib/utils.ts:121 | The day an interval enumeration yields for a unit lies in that unit, and no earlier day does. |
| Calendar.UnitCountOverlap | lib/utils.ts:65-68 | A unit overlaps `[start, end]` iff its key lies between the start day's and the end day's keys. Every such key has a day in the interval and no other key has one, so `UnitCount` counts exactly the overlapping units. |
| Calendar.UnitOfMonotone | lib/utils.ts:124 | A later day never belongs to an earlier unit, for all four granularities. |
| Utils.DisplayedRange | lib/utils.ts:133-145 | Without `from`, both defaults are shown (the 30 days up to today), even when `to` is present. With `from` and no `to`, the range ends today. With both, both are shown. |
| Utils.FormatDateRange | lib/utils.ts:133-145 | The text is the two displayed days, each through `format`, joined by " - ": 30 days ago to today without `from`, `from` to today without `to`, and `from` to `to` with both. |
| Utils.FormatDateRangeIgnoresTo | lib/utils.ts:137-139 | With no `from`, the range text does not depend on `to`. |
| Utils.Trim | lib/utils.ts:166 | The trimmed string is the slice of the input between its leading and its trailing white space. Everything cut off on either side is JavaScript white space, and the result neither starts nor ends with white space. |
| Utils.TrimStart | lib/utils.ts:166 | Leading trim: the result is a suffix of the input, everything cut off is white space, and the result does not start with white space. |
| Utils.TrimEnd | lib/utils.ts:166 | Trailing trim: the result is a prefix of the input, everything cut off is white space, and the result does not end with white space. |
| Utils.ParseDateWithFormats | lib/utils.ts:164-172 | The result is the parse of the earliest format, in list order, that gives a valid date on the trimmed string. It is null iff every format fails. |
| Utils.IsValidDate | lib/utils.ts:187 | An absent or empty parameter is never a valid date. Any other parameter is valid iff `new Date` of it is a valid date. |
| CategoryChart.RollUp | components/global/expense-category-chart.tsx:78-88 | An empty list gives `[]`. With at most `rank - 1` entries the list is returned unchanged, with no "Other". Otherwise the result has exactly `rank` entries: the first `rank - 1` of the list, in order, then "Other" with the sum of the rest. A rank below 1 counts from the end, as `slice` does. The income chart runs the same code (income-category-chart.tsx:79-89). |
| CategoryChart.SumConcat | components/global/expense-category-chart.tsx:83 | The `reduce` sum of a concatenation is the sum of the two parts. |
| CategoryChart.RollUpConservesTotal | components/global/expense-category-chart.tsx:81-87 | At any rank the entries of the chart sum to the total of the list. |
| CategoryChart.RollUpExample | components/global/expense-category-chart.tsx:81-87 | Rank 5 over values 50, 40, 30, 20, 10, 5, 2 keeps the first four entries and adds "Other" with 17. |
| TopChart.ChartDataByRank | components/global/top-income-chart.tsx:56-60 | Missing or empty data gives `undefined`. Otherwise the result is a prefix of the list, in its order: of length `min(len, topRank)` for `topRank >= 0`, and the whole list when `topRank >= len`. A negative rank counts from the end. The expense chart runs the same code (top-expense-chart.tsx:58-62). |
| TopChart.ChartDataByRankGrows | components/global/top-income-chart.tsx:59 | A larger rank selects a list that extends the smaller rank's list. |
| BudgetChart.FilteredChartData | components/global/categories-budget-chart.tsx:64-69 | No rows gives `undefined`; an empty selection returns the rows unchanged. Otherwise every returned row's name is selected, and the result is a sub-multiset of the rows. |
| BudgetChart.FilteredChartDataKeepsRow | components/global/categories-budget-chart.tsx:68 | Every row whose name is selected is kept, at the position given by the number of selected rows before it. |
| BudgetChart.FilteredChartDataKeepsSelected | components/global/categories-budget-chart.tsx:68 | Any two selected rows keep their relative order: the result is the subsequence of selected rows. |
| BudgetChart.FilteredChartDataNoMatch | components/global/categories-budget-chart.tsx:68 | A selection matching no row gives `[]`, not `undefined`. |
| BudgetChart.FilteredChartDataAllSelected | components/global/categories-budget-chart.tsx:67-68 | Selecting every row's name is the same as selecting nothing. |
| BudgetChart.CategoryFilterState.constructor | components/global/categories-budget-chart.tsx:43 | The category selection starts empty. |
| BudgetChart.CategoryFilterState.OnCategoryFilterChange | components/global/categories-budget-chart.tsx:71-73 | The selection becomes the given names. |
| BillChart.FilteredChartData | components/global/bill-chart.tsx:16-18 | Missing data gives `[]`. Every returned bill has the selected year, and the result is a sub-multiset of the bills. |
| BillChart.FilteredChartDataKeepsRow | components/global/bill-chart.tsx:17 | Every bill of the selected year is kept, at the position given by the number of that year's bills before it. |
| BillChart.FilteredChartDataKeepsYear | components/global/bill-chart.tsx:17 | Any two bills of the selected year keep their relative order. |
| BillChart.FilteredChartDataOtherYear | components/global/bill-chart.tsx:17 | A year without bills gives `[]`. |
| BillChart.YearArray | components/global/bill-chart.tsx:20-22 | The years offered are `uniqueYears` exactly as sent, or `[]` when absent. |
| BillChart.YearFilterState.constructor | components/global/bill-chart.tsx:14 | The year filter starts at the current UTC year. |
| BillChart.YearFilterState.OnYearFilterChange | components/global/bill-chart.tsx:24-26 | The year filter becomes the chosen year. |
| IncomeExpenseChart.GetChartDataByTrunc | components/global/income-expense-chart.tsx:68-75 | No periods gives `undefined`. With no zoom level chosen, the first period's series is returned. Otherwise the series of the first period at the chosen level is returned, and `undefined` iff no period has that level. |
| IncomeExpenseChart.FirstLevelSameAsUnset | components/global/income-expense-chart.tsx:70-74 | Choosing the first period's level shows the same series as choosing none. |
| IncomeExpenseChart.ZoomState.constructor | components/global/income-expense-chart.tsx:63 | No zoom level is chosen at first. |
| IncomeExpenseChart.ZoomState.OnZoomLevels | components/global/income-expense-chart.tsx:77-81 | A non-empty list of offered levels selects its first level. An empty list changes nothing. |
| IncomeExpenseChart.ZoomState.SetDateTruncFilter | components/global/zoom-filter.tsx:17-24 | The zoom selector sets the level without a plan check. |
| ChartState.ParamState | components/global/income-expense-chart.tsx:31-40 | Each end of the initial filter comes from its parameter when that is a valid date. Otherwise `to` is today and `from` is 30 days before today. |
| ChartState.SyncDates | components/global/income-expense-chart.tsx:45-52 | After a parameter change, each end is replaced only when its parameter is a valid date, and otherwise keeps its previous value. The "either parameter present" guard makes no difference. |
| ChartState.SyncDatesIdempotent | components/global/income-expense-chart.tsx:45-52 | Running the parameter effect twice is the same as running it once. |
| ChartState.SyncAfterMount | components/global/income-expense-chart.tsx:42-52 | The effect's run after mounting leaves the initial filter unchanged. |
| ChartState.DateFilterState.constructor | components/global/income-expense-chart.tsx:42 | The filter cell starts at the initial filter. |
| ChartState.DateFilterState.OnSearchParams | components/global/income-expense-chart.tsx:45-52 | The filter becomes the synchronised filter of its previous value. |
| ChartState.DateFilterState.OnDateFilterChange | components/global/income-expense-chart.tsx:91-94 | The filter becomes the range passed in. |
| ChartState.RankState.constructor | components/global/income-category-chart.tsx:57 | Ranks start at 5, one of the ranks the selector offers. The same holds at expense-category-chart.tsx:56, top-income-chart.tsx:35 and top-expense-chart.tsx:37. |
| ChartState.RankState.OnRankChange | components/global/top-filter.tsx:27-35 | On the free plan the upgrade dialog opens and the rank stays. Otherwise the rank becomes the chosen one and the dialog is untouched. The plan and subscription id never change. |
| FilterButtons.MakePresets | lib/const.ts:320-348 | Five presets with their captions, in order. Each starts its number of days before the current date. Every preset ends at the one shared current-date object, and each start is a new object. |
| FilterButtons.FilterButtons.constructor | components/global/filterButtons.tsx:24 | The selection starts as the chart's two filter dates, with no active preset. |
| FilterButtons.FilterButtons.HandleReset | components/global/filterButtons.tsx:26-30 | Reset fires `onReset` and leaves both the selection and the active preset undefined. |
| FilterButtons.FilterButtons.HandleFilterBtnClick | components/global/filterButtons.tsx:32-48 | On the free plan: only the dialog opens, and nothing else changes. Clicking the active preset clears the selection and the active preset and fires `onReset`. Clicking another preset whose dates are not the very objects selected selects them, fires `onFilter` and makes it active. Otherwise nothing changes. |
| FilterButtons.FilterButtons.HandleApply | components/global/filterButtons.tsx:50-62 | On the free plan only the dialog opens. Otherwise `onFilter` fires iff exactly two dates are selected, with those two dates. |
| FilterButtons.FilterButtons.OnSelect | components/global/filterButtons.tsx:93-96 | A calendar selection replaces the selection and clears the active preset. |
| FilterButtons.FilterButtons.RangeText | components/global/filterButtons.tsx:79 | The range button shows the default 30 days up to today with nothing selected, the first date to today with one date, and the first two dates otherwise. |
| FilterButtons.ClickTwice | components/global/filterButtons.tsx:38-47 | Requires a paid plan, and that the preset's two dates are not already selected unless it is the active preset. Then clicking it twice fires `onReset` on one of the two clicks, and ends either with that preset active or with nothing selected. |
| FilterButtons.DeliverCallback | components/global/income-expense-chart.tsx:114-119 | `onFilter` sets the chart's filter to the two dates. `onReset` restores `ParamState` of the `to` and `from` search parameters. No callback leaves the filter alone. |
| SummaryActions.Pieces | features/summary/actions/index.ts:21 | One `key=encode(value)` piece per kept pair, in order. |
| SummaryActions.CreateQueryString | features/summary/actions/index.ts:18-23 | The query string is empty iff no parameter has a truthy value. |
| SummaryActions.CreateQueryStringEmpty | features/summary/actions/index.ts:20-22 | When no value is truthy, the query string is empty. |
| SummaryActions.CreateQueryStringKeeps | features/summary/actions/index.ts:20-21 | Every pair with a truthy value contributes its piece. The piece sits at the pair's place among the kept pairs, so input order is kept. |
| SummaryActions.CreateQueryStringAmpersands | features/summary/actions/index.ts:21-22 | With keys and an encoder that never produce `&`, the string holds one `&` fewer than there are kept pairs, or none when no pair is kept. |
| SummaryActions.CreateQueryStringSplit | features/summary/actions/index.ts:21-22 | Under the same conditions, splitting on `&` gives back exactly the pieces of the kept pairs. |
| SummaryActions.ParamOrEmpty | features/summary/actions/index.ts:12-13 | An absent parameter reads as the empty string. |
| SummaryActions.QueryEnabled | features/summary/actions/index.ts:91 | A range query is enabled iff both ends are truthy strings, so an absent parameter (read as `''`) disables it. The same guard is at lines 128, 165 and 201. |
| SummaryActions.ChartQueriesEnabled | features/summary/actions/index.ts:91 | Range queries run only when both ends are non-empty. The charts pass formatted dates, so their queries always run. |
| SummaryActions.SummaryPeriodAsWritten | features/summary/actions/index.ts:44-47 | As written, the summary query records `new Date` of the raw `from` and `to` strings as the period. |
| SummaryActions.SummaryPeriod | features/summary/actions/index.ts:44-47 | Corrected: the recorded period is always two valid dates. A valid non-empty parameter is used as given. Two missing parameters give the store's initial period of 30 days up to today. |
| SummaryActions.ReportPatch | features/summary/actions/index.ts:44-296 | The write a response makes is a valid partial report, and it is empty iff the response skips writing. The summary writes its data and the recorded `period`, which the caller gives as `SummaryPeriodAsWritten` (as the code stands) or `SummaryPeriod` (corrected). The top lists and series write only when non-empty. The budget always writes. The bills write the response's `billsData` whenever there is a response. |
| SummaryActions.EmptyListKeepsEntry | features/summary/actions/index.ts:82-84 | An empty top list or series leaves the whole report unchanged, so the previous entry stays. The same holds at lines 120-122, 157-159, 193-195 and 233-235. |
| SummaryActions.BudgetAlwaysOverwrites | features/summary/actions/index.ts:270 | After a budget response the budget entry holds that response, even `[]`. |
| SummaryActions.SummaryWriteAsWritten | features/summary/actions/index.ts:44-47 | As written, a summary response on a page without `from` leaves the store's period starting at an invalid date, whatever the store held before. |
| SummaryActions.SummaryWriteCorrected | features/summary/actions/index.ts:44-47 | With the corrected period, a summary response always leaves two valid dates as the store's period. |
| SummaryActions.QuerySucceeded | features/summary/actions/index.ts:44-296 | Each success handler leaves the store equal to the old report merged with that response's write, for either recorded period. A skipped write leaves the store unchanged, and the store stays valid. |
| FinancialReportStore.Merge | features/summary/hooks/use-financial-report-store.tsx:50-56 | Every field present in `data` takes `data`'s value. Every other field keeps its presence and value from the old report. |
| FinancialReportStore.MergeValid | features/summary/hooks/use-financial-report-store.tsx:26-40 | Merging a well-typed partial report into a full report gives a full report that still has its period. |
| FinancialReportStore.MergeIdempotent | features/summary/hooks/use-financial-report-store.tsx:50-56 | Applying the same partial report twice equals applying it once. |
| FinancialReportStore.MergeEmpty | features/summary/hooks/use-financial-report-store.tsx:50-56 | `set({})` leaves the report unchanged. |
| FinancialReportStore.MergeCompose | features/summary/hooks/use-financial-report-store.tsx:50-56 | `set(a)` then `set(b)` equals `set({...a, ...b})`. |
| FinancialReportStore.InitialReport | features/summary/hooks/use-financial-report-store.tsx:44-49 | The initial report holds only the period: 30 days before today up to today. |
| FinancialReportStore.Store.constructor | features/summary/hooks/use-financial-report-store.tsx:43-49 | The store starts at the initial report, which is a valid full report. |
| FinancialReportStore.Store.SetFinancialReport | features/summary/hooks/use-financial-report-store.tsx:50-56 | The report becomes the merge of the old report with `data`, and stays a valid full report. |
| SubscriptionStore.Store.constructor | features/subscription/hooks/use-subscription-store.ts:14-22 | The store starts on the free plan, with the dialog closed and no subscription id. |
| SubscriptionStore.Store.SetSubscriptionId | features/subscription/hooks/use-subscription-store.ts:16-17 | Only the subscription id changes. |
| SubscriptionStore.Store.SetOpen | features/subscription/hooks/use-subscription-store.ts:19 | Only the dialog flag changes. |
| SubscriptionStore.Store.SetPlan | features/subscription/hooks/use-subscription-store.ts:21 | Only the plan changes. By its type, the plan is always free, pro or unlimited. |
| EditBillStore.Store.constructor | features/bills/hooks/edit-bill-store.ts:9-11 | The sheet starts closed with no id. |
| EditBillStore.Store.SetOpen | features/bills/hooks/edit-bill-store.ts:12 | Both fields take this call's arguments, and a call without an id clears it. The state therefore depends only on the last call. |
| SummaryDownload.PdfDoc.constructor | components/global/summary-download.tsx:52 | A new A4 portrait document has one page of height 841.89 points. |
| SummaryDownload.CheckToAddPage | components/global/summary-download.tsx:23-29 | Below `pageHeight - distance`, exactly one page is added and writing resumes at 50. Otherwise the position is returned and the page count is unchanged. |
| SummaryDownload.RemoveEmptyBuckets | components/global/summary-download.tsx:244-246 | Every printed bucket has income or expenses. The printed buckets are a sub-multiset of the series. |
| SummaryDownload.RemoveEmptyBucketsKeeps | components/global/summary-download.tsx:245 | Every bucket with movement, even in only one of its two sums, is printed in its order. |
| SummaryDownload.RemoveEmptyBucketsDropsFill | components/global/summary-download.tsx:244-246 | Zero buckets, which is what gap filling inserts, are never printed. |
| SummaryDownload.RemoveEmptyBucketsAllMoving | components/global/summary-download.tsx:244-246 | A series with movement in every bucket is printed whole. |
| SummaryDownload.LevelDescription | components/global/summary-download.tsx:247 | Each zoom level's description is its trend constant, and it is never empty. |
| SummaryDownload.LevelDescriptionAgrees | components/global/summary-download.tsx:247 | Each level's description is what `getTrendDescription` gives for the level's name in the API. |
| SummaryDownload.TrendTableOfRows | components/global/summary-download.tsx:243-260 | A period's table is headed by its level's non-empty description. Its rows are exactly the period's buckets with movement: every row moves, the rows are a sub-multiset of the series, and every moving bucket is a row. |
| SummaryDownload.PlaceTable | components/global/summary-download.tsx:247-266 | The table starts 15 points below the description. The page count grows by the pages the table library adds (`tablePages`), plus one more exactly when the table's end (`tableEnd`) plus 50 passes the bottom margin. Writing then resumes at the top of a page, or 50 points below the table. |
| SummaryDownload.PlacePeriod | components/global/summary-download.tsx:243-266 | One period's table is `TrendTableOf` of the period, started 15 points below the current position. Besides the table library's pages at most one page is added. |
| SummaryDownload.TrendSection | components/global/summary-download.tsx:241-267 | One table per period, in order, each `TrendTableOf` its period. The first table starts 15 points below the section's start. Besides the pages the table library adds for all the tables, at most one page is added per period, and writing resumes at the top of a page or above the bottom margin. |
| SummaryDownload.PeriodLine | components/global/summary-download.tsx:66-68 | The period line is produced iff both ends are valid dates (the date library's `format` throws otherwise). |
| SummaryDownload.SummaryPeriodAsWrittenBreaksPdf | features/summary/actions/index.ts:44-47 | As written, a page without a `from` parameter records a period the PDF cannot print. |
| SummaryDownload.SummaryPeriodPrints | components/global/summary-download.tsx:66 | With the corrected period, the period line always prints. |
| SummaryDownload.HandleDownload | components/global/summary-download.tsx:295-309 | The free plan downloads nothing and opens the dialog. Any other plan downloads the chosen format and leaves the dialog alone. |
| Consts.ProLimitsAboveFree | lib/const.ts:130-136 | The free account and category limits are positive and strictly below the pro limits. |
| Consts.PresetsIncreasing | lib/const.ts:322-348 | Five presets that go back 7, 90, 180, 365 and 1825 days, strictly increasing in list order. |
| Consts.TrendDescription | lib/const.ts:373-386 | Day, week, month and year map to their four descriptions, and the result is `''` exactly for any other input. |
| Consts.TrendDescriptionsDistinct | lib/const.ts:367-370 | The four trend descriptions are pairwise distinct. |

## Left out

- HTTP transport, React Query caching, query keys and the Hono client are not modelled. Each query is modelled by its successful response, `SummaryActions.QueryResult`. Error responses throw before any store write.
- Rendering is not modelled: the recharts variants, skeletons, tooltips, toasts and the React lifecycle. A handler is modelled as one method call.
- The chart-type selectors (`onTypeChange`) and their plan gate are left out. They only choose a rendering variant.
- Floating-point rounding of money and `Intl` formatting are left out. Amounts are `real`.
- Time zones and local time are not modelled. A date is a day number, and "today" is a parameter.
- `new Date(string)`, the date library's `parse`, its `format` and `encodeURIComponent` are parameters (`newDate`, `parse`, `format`, `encode`). Their own behaviour is not modelled.
- Utils.FillMissing: requires `start <= end` when the active list is non-empty. The date library's behaviour on a reversed interval depends on its version.
- Calendar: the date library's four interval enumerations and its `isSame*` tests are replaced by day-number arithmetic. Weeks start on Sunday, the library's default.
- The jsPDF layout is left out apart from the page break and the trend tables' content. The table library (`autoTable`) is two parameters: `tablePages`, the pages it adds for a table, and `tableEnd`, where the table ends on its last page. The other sections, the fonts and the JSON download are left out.
- The category charts' `push` onto the fresh `slice` copy is modelled as concatenation. The fetched list is a value, so it visibly stays unchanged.
- The server-side aggregation, zoom-level choice and sort order of the top lists are not part of this model: their code is not among the modelled files.
- The create-account, create-bill, create-category and create-transaction stores are left out. Each is one boolean flag, written like `open` in `EditBillStore`.
- The rank selector keeps its own copy of the rank next to the chart's cell. Both always receive the same value, so `ChartState.RankState` models them as one cell.
- The summary's success handler computes the recorded period from the raw `from` and `to` parameters. `SummaryActions.QuerySucceeded` takes that period as a parameter, so one method covers both the code as written (`SummaryPeriodAsWritten`) and the corrected period (`SummaryPeriod`).

## Findings

| source | as written | input that shows it | evidently intended | confidence | as-written member | corrected member |
|---|---|---|---|---|---|---|
| features/summary/actions/index.ts:44-47 | The summary query stores `period: {from: new Date(from), to: new Date(to)}`, where an absent parameter reads as `''`. `new Date('')` is an invalid date, so the report's period line (`format(from, 'PPP')`, components/global/summary-download.tsx:66) throws and the PDF download fails. | Open the dashboard without `from`/`to` search parameters and download the PDF report. | Missing parameters fall back to the default 30-day period, as the store's initial period and the charts' date filters do. | medium, not executed | SummaryDownload.SummaryPeriodAsWrittenBreaksPdf | SummaryActions.SummaryPeriod |
