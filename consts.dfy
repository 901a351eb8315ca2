/** The shared constants of the dashboard: plan limits, date presets, report wording. */
module Consts {

  /** The default look-back of every date filter, in days. */
  const Last30Days: int := 30

  // Plan limits: how many records a plan may create.
  const MaxFreeAccount: int := 3
  const MaxFreeTransactions: int := 50
  const MaxFreeCategory: int := 5
  const MaxFreeBills: int := 10
  const MaxProAccount: int := 25
  const MaxProCategory: int := 100

  /** Upgrading from the free plan to pro raises both the account and the category limit. */
  lemma ProLimitsAboveFree()
    ensures MaxFreeAccount < MaxProAccount && MaxFreeCategory < MaxProCategory
    ensures 0 < MaxFreeAccount && 0 < MaxFreeCategory
  {
  }

  /** The date-filter presets, in display order: their labels and how many days back each starts. */
  const PresetLabels: seq<string> :=
    ["last 7 days", "last 3 months", "last 6 months", "last 12 months", "last 5 years"]
  const PresetDaysBack: seq<int> := [7, 90, 180, 365, 365 * 5]

  /** Each preset reaches strictly further back than the one before it. */
  lemma PresetsIncreasing()
    ensures |PresetLabels| == |PresetDaysBack| == 5
    ensures forall i, j :: 0 <= i < j < |PresetDaysBack| ==> 0 < PresetDaysBack[i] < PresetDaysBack[j]
    ensures PresetDaysBack[4] == 1825
  {
  }

  // Report wording for the trend tables.
  const DayTrend: string := "Daily financial movements."
  const WeekTrend: string := "Weekly income and expense aggregation."
  const MonthTrend: string := "Monthly income and expense patterns."
  const YearTrend: string := "Yearly financial performance overview."

  /** The description printed above the trend table of one zoom level. */
  function TrendDescription(trend: string): (r: string)
    ensures trend == "day" ==> r == DayTrend
    ensures trend == "week" ==> r == WeekTrend
    ensures trend == "month" ==> r == MonthTrend
    ensures trend == "year" ==> r == YearTrend
    ensures r == "" <==> trend != "day" && trend != "week" && trend != "month" && trend != "year"
  {
    match trend
    case "day" => DayTrend
    case "week" => WeekTrend
    case "month" => MonthTrend
    case "year" => YearTrend
    case _ => ""
  }

  /** The four descriptions tell the four zoom levels apart. */
  lemma TrendDescriptionsDistinct()
    ensures DayTrend != WeekTrend && DayTrend != MonthTrend && DayTrend != YearTrend
    ensures WeekTrend != MonthTrend && WeekTrend != YearTrend && MonthTrend != YearTrend
  {
    assert DayTrend[0] == 'D' && WeekTrend[0] == 'W' && MonthTrend[0] == 'M' && YearTrend[0] == 'Y';
  }
}
