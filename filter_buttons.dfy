/**
 * The date-filter buttons of the charts: five preset ranges, a two-date
 * calendar, and Apply/Reset. JavaScript `Date` objects are compared by
 * reference here, so they are modelled as objects of class `JsDate`.
 */
module FilterButtons {
  import opened Wrappers
  import Consts
  import Utils
  import SubscriptionStore
  import ChartState
  import Calendar

  /** A JavaScript `Date`: an object holding a day. */
  class JsDate {
    const day: int

    constructor(day: int)
      ensures this.day == day
    {
      this.day := day;
    }
  }

  /** One preset button: its caption and range. */
  datatype Preset = Preset(caption: string, from: JsDate, to: JsDate)

  /** The callback a click fires, if any. */
  datatype Callback = NoCallback | OnFilter(from: JsDate, to: JsDate) | OnReset

  /**
   * The preset list, built once from the current date: every preset ends at
   * that very `Date` object and starts the preset's number of days earlier.
   */
  method MakePresets(currentDate: JsDate) returns (presets: seq<Preset>)
    ensures |presets| == |Consts.PresetLabels|
    ensures forall i :: 0 <= i < |presets| ==>
      && presets[i].caption == Consts.PresetLabels[i]
      && presets[i].to == currentDate
      && presets[i].from.day == currentDate.day - Consts.PresetDaysBack[i]
      && fresh(presets[i].from)
  {
    presets := [];
    for i := 0 to |Consts.PresetLabels|
      invariant |presets| == i
      invariant forall j :: 0 <= j < i ==>
        && presets[j].caption == Consts.PresetLabels[j]
        && presets[j].to == currentDate
        && presets[j].from.day == currentDate.day - Consts.PresetDaysBack[j]
        && fresh(presets[j].from)
    {
      var from := new JsDate(currentDate.day - Consts.PresetDaysBack[i]);
      presets := presets + [Preset(Consts.PresetLabels[i], from, currentDate)];
    }
  }

  /**
   * `date?.[0] === from && date?.[1] === to`: the selection holds exactly
   * these two objects in its first two places.
   */
  predicate SameSelection(date: Option<seq<JsDate>>, from: JsDate, to: JsDate) {
    date.Some? && |date.value| >= 2 && date.value[0] == from && date.value[1] == to
  }

  /** `date?.[k]` as a day. */
  function SelectedDay(date: Option<seq<JsDate>>, k: nat): (d: Option<int>)
    ensures d.Some? <==> date.Some? && k < |date.value|
  {
    if date.Some? && k < |date.value| then Some(date.value[k].day) else None
  }

  class FilterButtons {
    /** The calendar selection. */
    var date: Option<seq<JsDate>>
    /** The index of the active preset (the chart's `btnIdxRef.current`). */
    var btnIdx: Option<int>

    /** The selection starts as the chart's current range, with no active preset. */
    constructor(filterFrom: JsDate, filterTo: JsDate)
      ensures date == Some([filterFrom, filterTo]) && btnIdx == None
    {
      date := Some([filterFrom, filterTo]);
      btnIdx := None;
    }

    /** `handleReset`: fires `onReset` and clears both the selection and the active preset. */
    method HandleReset() returns (cb: Callback)
      modifies this
      ensures cb == OnReset && date == None && btnIdx == None
    {
      cb := OnReset;
      date := None;
      btnIdx := None;
    }

    /**
     * `handleFilterBtnClick(item, idx)`. On the free plan only the upgrade
     * dialog opens. Clicking the active preset deactivates it and resets.
     * Clicking another preset whose dates are not the very objects selected
     * selects them, fires `onFilter` and activates it; otherwise nothing happens.
     */
    method HandleFilterBtnClick(sub: SubscriptionStore.Store, item: Preset, idx: int) returns (cb: Callback)
      modifies this, sub
      ensures sub.plan == old(sub.plan) && sub.subscriptionId == old(sub.subscriptionId)
      ensures sub.plan == SubscriptionStore.Free ==>
        && sub.open && cb == NoCallback
        && date == old(date) && btnIdx == old(btnIdx)
      ensures sub.plan != SubscriptionStore.Free ==> sub.open == old(sub.open)
      ensures sub.plan != SubscriptionStore.Free && old(btnIdx) == Some(idx) ==>
        cb == OnReset && date == None && btnIdx == None
      ensures sub.plan != SubscriptionStore.Free && old(btnIdx) != Some(idx) && !SameSelection(old(date), item.from, item.to) ==>
        cb == OnFilter(item.from, item.to) && date == Some([item.from, item.to]) && btnIdx == Some(idx)
      ensures sub.plan != SubscriptionStore.Free && old(btnIdx) != Some(idx) && SameSelection(old(date), item.from, item.to) ==>
        cb == NoCallback && date == old(date) && btnIdx == old(btnIdx)
    {
      if sub.plan == SubscriptionStore.Free {
        sub.SetOpen(true);
        return NoCallback;
      }
      if btnIdx == Some(idx) {
        date := None;
        btnIdx := None;
        return OnReset;
      } else if !SameSelection(date, item.from, item.to) {
        date := Some([item.from, item.to]);
        cb := OnFilter(item.from, item.to);
        btnIdx := Some(idx);
        return;
      }
      return NoCallback;
    }

    /**
     * `handleApply`: on the free plan only the upgrade dialog opens;
     * otherwise `onFilter` fires exactly when two dates are selected.
     * The selection and the active preset never change.
     */
    method HandleApply(sub: SubscriptionStore.Store) returns (cb: Callback)
      modifies sub
      ensures sub.plan == old(sub.plan) && sub.subscriptionId == old(sub.subscriptionId)
      ensures sub.plan == SubscriptionStore.Free ==> sub.open && cb == NoCallback
      ensures sub.plan != SubscriptionStore.Free ==>
        && sub.open == old(sub.open)
        && (cb != NoCallback <==> date.Some? && |date.value| == 2)
        && (cb != NoCallback ==> cb == OnFilter(date.value[0], date.value[1]))
    {
      if sub.plan == SubscriptionStore.Free {
        sub.SetOpen(true);
        return NoCallback;
      }
      if date.None? || |date.value| != 2 {
        return NoCallback;
      }
      cb := OnFilter(date.value[0], date.value[1]);
    }

    /** The calendar's `onSelect`: the selection is replaced and no preset is active any more. */
    method OnSelect(selectedDates: Option<seq<JsDate>>)
      modifies this
      ensures date == selectedDates && btnIdx == None
    {
      date := selectedDates;
      btnIdx := None;
    }

    /**
     * The text of the range button, from the first two selected dates:
     * the default 30 days up to today with nothing selected, a range up to
     * today with one date, and the first two dates otherwise.
     */
    function RangeText(today: int, format: int -> string): (r: string)
      reads this
      ensures date.None? || |date.value| == 0 ==> r == format(today - Consts.Last30Days) + " - " + format(today)
      ensures date.Some? && |date.value| == 1 ==> r == format(date.value[0].day) + " - " + format(today)
      ensures date.Some? && |date.value| >= 2 ==> r == format(date.value[0].day) + " - " + format(date.value[1].day)
    {
      Utils.FormatDateRange(SelectedDay(date, 0), SelectedDay(date, 1), today, format)
    }
  }

  /** Clicking the same preset twice on a paid plan ends with no selection and no active preset, whatever came first. */
  method ClickTwice(fb: FilterButtons, sub: SubscriptionStore.Store, item: Preset, idx: int) returns (first: Callback, second: Callback)
    requires sub.plan != SubscriptionStore.Free
    requires !SameSelection(fb.date, item.from, item.to) || fb.btnIdx == Some(idx)
    modifies fb, sub
    ensures second == OnReset || first == OnReset
    ensures first == OnReset ==> fb.date == Some([item.from, item.to]) && fb.btnIdx == Some(idx)
    ensures first != OnReset ==> fb.date == None && fb.btnIdx == None
  {
    first := fb.HandleFilterBtnClick(sub, item, idx);
    second := fb.HandleFilterBtnClick(sub, item, idx);
  }

  /**
   * How a chart takes the callbacks: `onFilter` becomes its new date filter,
   * and `onReset` restores `paramState`, the range the `to` and `from`
   * search parameters give.
   */
  method DeliverCallback(cb: Callback, chart: ChartState.DateFilterState,
                         to: Option<string>, from: Option<string>, today: int, newDate: string -> Calendar.DateValue)
    modifies chart
    ensures cb.OnFilter? ==> chart.datefilter == ChartState.DateFilter(cb.from.day, cb.to.day)
    ensures cb.OnReset? ==> chart.datefilter == ChartState.ParamState(to, from, today, newDate)
    ensures cb.NoCallback? ==> chart.datefilter == old(chart.datefilter)
  {
    match cb
    case OnFilter(from, to) => chart.OnDateFilterChange(ChartState.DateFilter(from.day, to.day));
    case OnReset => chart.OnDateFilterChange(ChartState.ParamState(to, from, today, newDate));
    case NoCallback =>
  }
}
