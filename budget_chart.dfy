/** The categories-budget chart: the budget rows narrowed to the selected category names. */
module BudgetChart {
  import opened Wrappers
  import opened JsBuiltins
  import opened Records

  function NameIn(filter: seq<string>): CategoryBudget -> bool {
    (b: CategoryBudget) => b.name in filter
  }

  /**
   * `filteredChartData`: no rows gives `undefined`; an empty selection
   * keeps every row; otherwise the rows whose name is selected.
   */
  function FilteredChartData(budgets: seq<CategoryBudget>, categoryFilter: seq<string>): (r: Option<seq<CategoryBudget>>)
    ensures r.None? <==> budgets == []
    ensures budgets != [] && categoryFilter == [] ==> r == Some(budgets)
    ensures r.Some? && categoryFilter != [] ==> forall i :: 0 <= i < |r.value| ==> r.value[i].name in categoryFilter
    ensures r.Some? ==> multiset(r.value) <= multiset(budgets)
  {
    if |budgets| == 0 then None
    else if |categoryFilter| == 0 then Some(budgets)
    else Some(Filter(budgets, NameIn(categoryFilter)))
  }

  /** Every selected row is kept, at its place among the selected rows before it. */
  lemma FilteredChartDataKeepsRow(budgets: seq<CategoryBudget>, categoryFilter: seq<string>, i: int)
    requires 0 <= i < |budgets| && budgets[i].name in categoryFilter
    ensures var r := FilteredChartData(budgets, categoryFilter).value;
      var n := |Filter(budgets[..i], NameIn(categoryFilter))|;
      n < |r| && r[n] == budgets[i]
  {
    FilterKeeps(budgets, NameIn(categoryFilter), i);
  }

  /**
   * Two selected rows keep their relative order: the result is the
   * subsequence of selected rows.
   */
  lemma FilteredChartDataKeepsSelected(budgets: seq<CategoryBudget>, categoryFilter: seq<string>, i: int, i': int)
    requires 0 <= i < i' < |budgets|
    requires budgets[i].name in categoryFilter && budgets[i'].name in categoryFilter
    ensures var r := FilteredChartData(budgets, categoryFilter).value;
      var n, n' := |Filter(budgets[..i], NameIn(categoryFilter))|, |Filter(budgets[..i'], NameIn(categoryFilter))|;
      n < n' < |r| && r[n] == budgets[i] && r[n'] == budgets[i']
  {
    FilterOrder(budgets, NameIn(categoryFilter), i, i');
  }

  /** A selection that matches no row gives an empty list, which the chart shows as a chart, not as "no data". */
  lemma FilteredChartDataNoMatch(budgets: seq<CategoryBudget>, categoryFilter: seq<string>)
    requires budgets != [] && categoryFilter != []
    requires forall i :: 0 <= i < |budgets| ==> budgets[i].name !in categoryFilter
    ensures FilteredChartData(budgets, categoryFilter) == Some([])
  {
    FilterNone(budgets, NameIn(categoryFilter));
  }

  /** Selecting every row's name is the same as selecting nothing. */
  lemma FilteredChartDataAllSelected(budgets: seq<CategoryBudget>, categoryFilter: seq<string>)
    requires forall i :: 0 <= i < |budgets| ==> budgets[i].name in categoryFilter
    ensures FilteredChartData(budgets, categoryFilter) == FilteredChartData(budgets, [])
  {
    FilterAll(budgets, NameIn(categoryFilter));
  }

  /** The category selection cell of the chart, empty at first. */
  class CategoryFilterState {
    var categoryFilter: seq<string>

    constructor()
      ensures categoryFilter == []
    {
      categoryFilter := [];
    }

    method OnCategoryFilterChange(names: seq<string>)
      modifies this
      ensures categoryFilter == names
    {
      categoryFilter := names;
    }
  }
}
