/**
 * The income/expense trend chart: the server sends one series per zoom
 * level it offers; the chart shows the series of the chosen zoom level,
 * and the first offered level is chosen whenever the offer arrives.
 */
module IncomeExpenseChart {
  import opened Wrappers
  import opened JsBuiltins
  import opened Calendar
  import opened Records

  function HasTrunc(g: DateTrunc): ActivePeriod -> bool {
    (p: ActivePeriod) => p.dateTrunc == g
  }

  /**
   * `getChartDataByTrunc`: nothing without periods; the first period's
   * series while no zoom level is chosen; else the series of the first
   * period at the chosen level, or nothing when no period has that level.
   */
  function GetChartDataByTrunc(periods: seq<ActivePeriod>, dateTruncFilter: Option<DateTrunc>): (r: Option<seq<Bucket>>)
    ensures periods == [] ==> r == None
    ensures periods != [] && dateTruncFilter.None? ==> r == Some(periods[0].activePeriodData)
    ensures periods != [] && dateTruncFilter.Some? ==>
      (r.None? <==> forall i :: 0 <= i < |periods| ==> periods[i].dateTrunc != dateTruncFilter.value)
    ensures periods != [] && dateTruncFilter.Some? && r.Some? ==>
      exists i :: && 0 <= i < |periods|
                  && periods[i].dateTrunc == dateTruncFilter.value
                  && r.value == periods[i].activePeriodData
                  && forall i' :: 0 <= i' < i ==> periods[i'].dateTrunc != dateTruncFilter.value
  {
    if |periods| == 0 then None
    else if dateTruncFilter.None? then Some(periods[0].activePeriodData)
    else
      match Find(periods, HasTrunc(dateTruncFilter.value))
      case Some(p) => Some(p.activePeriodData)
      case None => None
  }

  /** When the first period is at the chosen level, choosing it or choosing nothing shows the same series. */
  lemma FirstLevelSameAsUnset(periods: seq<ActivePeriod>)
    requires periods != []
    ensures GetChartDataByTrunc(periods, Some(periods[0].dateTrunc)) == GetChartDataByTrunc(periods, None)
  {
    assert HasTrunc(periods[0].dateTrunc)(periods[0]);
  }

  /** The zoom-level cell of the chart. */
  class ZoomState {
    var dateTruncFilter: Option<DateTrunc>

    /** No zoom level is chosen before the first response. */
    constructor()
      ensures dateTruncFilter == None
    {
      dateTruncFilter := None;
    }

    /** The zoom-default effect: a non-empty offer selects its first level; an empty one changes nothing. */
    method OnZoomLevels(chartZoomLevel: seq<DateTrunc>)
      modifies this
      ensures chartZoomLevel != [] ==> dateTruncFilter == Some(chartZoomLevel[0])
      ensures chartZoomLevel == [] ==> dateTruncFilter == old(dateTruncFilter)
    {
      if |chartZoomLevel| > 0 {
        dateTruncFilter := Some(chartZoomLevel[0]);
      }
    }

    /** The zoom selector's callback. */
    method SetDateTruncFilter(value: Option<DateTrunc>)
      modifies this
      ensures dateTruncFilter == value
    {
      dateTruncFilter := value;
    }
  }
}
