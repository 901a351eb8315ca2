/** The bills chart: the bill rows of one year, and the years the year selector offers. */
module BillChart {
  import opened Wrappers
  import opened JsBuiltins
  import opened Records

  function InYear(year: int): BillRow -> bool {
    (b: BillRow) => b.year == year
  }

  /** `filteredChartData`: the rows of year `yearFilter`, or `[]` when no rows arrived. */
  function FilteredChartData(data: Option<BillsSummary>, yearFilter: int): (r: seq<BillRow>)
    ensures data.None? || data.value.billsData.None? ==> r == []
    ensures forall i :: 0 <= i < |r| ==> r[i].year == yearFilter
    ensures data.Some? && data.value.billsData.Some? ==> multiset(r) <= multiset(data.value.billsData.value)
  {
    if data.Some? && data.value.billsData.Some? then Filter(data.value.billsData.value, InYear(yearFilter))
    else []
  }

  /** Every row of the selected year is kept, at its place among that year's rows before it. */
  lemma FilteredChartDataKeepsRow(rows: seq<BillRow>, uniqueYears: Option<seq<int>>, yearFilter: int, i: int)
    requires 0 <= i < |rows| && rows[i].year == yearFilter
    ensures var r := FilteredChartData(Some(BillsSummary(Some(rows), uniqueYears)), yearFilter);
      var n := |Filter(rows[..i], InYear(yearFilter))|;
      n < |r| && r[n] == rows[i]
  {
    FilterKeeps(rows, InYear(yearFilter), i);
  }

  /** Two rows of the selected year keep their relative order. */
  lemma FilteredChartDataKeepsYear(rows: seq<BillRow>, uniqueYears: Option<seq<int>>, yearFilter: int, i: int, i': int)
    requires 0 <= i < i' < |rows| && rows[i].year == yearFilter && rows[i'].year == yearFilter
    ensures var r := FilteredChartData(Some(BillsSummary(Some(rows), uniqueYears)), yearFilter);
      var n, n' := |Filter(rows[..i], InYear(yearFilter))|, |Filter(rows[..i'], InYear(yearFilter))|;
      n < n' < |r| && r[n] == rows[i] && r[n'] == rows[i']
  {
    FilterOrder(rows, InYear(yearFilter), i, i');
  }

  /** A year with no bill shows an empty chart. */
  lemma FilteredChartDataOtherYear(data: Option<BillsSummary>, yearFilter: int)
    requires data.Some? && data.value.billsData.Some?
    requires forall i :: 0 <= i < |data.value.billsData.value| ==> data.value.billsData.value[i].year != yearFilter
    ensures FilteredChartData(data, yearFilter) == []
  {
    FilterNone(data.value.billsData.value, InYear(yearFilter));
  }

  /** `yearArray`: the distinct years as sent, or `[]` when absent. */
  function YearArray(data: Option<BillsSummary>): (r: seq<int>)
    ensures data.Some? && data.value.uniqueYears.Some? ==> r == data.value.uniqueYears.value
    ensures data.None? || data.value.uniqueYears.None? ==> r == []
  {
    if data.Some? && data.value.uniqueYears.Some? then data.value.uniqueYears.value else []
  }

  /** The year selection cell: the current UTC year at first. */
  class YearFilterState {
    var yearFilter: int

    constructor(currentUtcYear: int)
      ensures yearFilter == currentUtcYear
    {
      yearFilter := currentUtcYear;
    }

    method OnYearFilterChange(year: int)
      modifies this
      ensures yearFilter == year
    {
      yearFilter := year;
    }
  }
}
