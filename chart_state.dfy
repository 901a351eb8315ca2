/**
 * The state every dated chart keeps: a date filter seeded from the `from`
 * and `to` search parameters, re-synchronised when they change, and (for
 * the top-N charts) the rank chosen in the rank selector.
 */
module ChartState {
  import opened Wrappers
  import opened Calendar
  import Consts
  import Utils
  import SubscriptionStore

  /** The date filter of a chart, as day numbers. */
  datatype DateFilter = DateFilter(from: int, to: int)

  /** JavaScript truthiness of a search parameter: present and non-empty. */
  predicate Truthy(p: Option<string>) {
    p.Some? && p.value != ""
  }

  /** The day a parameter names when it is a valid date, else `fallback`. */
  function ParamDay(p: Option<string>, newDate: string -> DateValue, fallback: int): (d: int)
    ensures Utils.IsValidDate(p, newDate) ==> d == newDate(p.value).day
    ensures !Utils.IsValidDate(p, newDate) ==> d == fallback
  {
    if Utils.IsValidDate(p, newDate) then newDate(p.value).day else fallback
  }

  /**
   * The initial filter: each end comes from its parameter when that is a
   * valid date; otherwise `to` is today and `from` is 30 days before today.
   */
  function ParamState(to: Option<string>, from: Option<string>, today: int, newDate: string -> DateValue): (r: DateFilter)
    ensures r.to == ParamDay(to, newDate, today)
    ensures r.from == ParamDay(from, newDate, today - Consts.Last30Days)
    ensures !Truthy(to) && !Truthy(from) ==> r == DateFilter(today - Consts.Last30Days, today)
  {
    DateFilter(ParamDay(from, newDate, today - Consts.Last30Days), ParamDay(to, newDate, today))
  }

  /**
   * The effect run when the parameters change: if either is truthy, each
   * end is replaced by its parameter when valid and kept otherwise. The
   * guard is redundant: an untruthy parameter is never a valid date.
   */
  function SyncDates(prev: DateFilter, to: Option<string>, from: Option<string>, newDate: string -> DateValue): (r: DateFilter)
    ensures r.from == ParamDay(from, newDate, prev.from)
    ensures r.to == ParamDay(to, newDate, prev.to)
  {
    if Truthy(to) || Truthy(from) then
      DateFilter(ParamDay(from, newDate, prev.from), ParamDay(to, newDate, prev.to))
    else prev
  }

  /** Running the effect twice on the same parameters is running it once. */
  lemma SyncDatesIdempotent(prev: DateFilter, to: Option<string>, from: Option<string>, newDate: string -> DateValue)
    ensures SyncDates(SyncDates(prev, to, from, newDate), to, from, newDate) == SyncDates(prev, to, from, newDate)
  {
  }

  /** The effect's first run after mounting leaves the initial filter as it is. */
  lemma SyncAfterMount(to: Option<string>, from: Option<string>, today: int, newDate: string -> DateValue)
    ensures SyncDates(ParamState(to, from, today, newDate), to, from, newDate) == ParamState(to, from, today, newDate)
  {
  }

  /** The date-filter cell of a chart and its two writers. */
  class DateFilterState {
    var datefilter: DateFilter

    constructor(to: Option<string>, from: Option<string>, today: int, newDate: string -> DateValue)
      ensures datefilter == ParamState(to, from, today, newDate)
    {
      datefilter := ParamState(to, from, today, newDate);
    }

    /** The search-parameter effect. */
    method OnSearchParams(to: Option<string>, from: Option<string>, newDate: string -> DateValue)
      modifies this
      ensures datefilter == SyncDates(old(datefilter), to, from, newDate)
    {
      datefilter := SyncDates(datefilter, to, from, newDate);
    }

    /** The callback the filter buttons call with a new range (or, on reset, the initial one). */
    method OnDateFilterChange(f: DateFilter)
      modifies this
      ensures datefilter == f
    {
      datefilter := f;
    }
  }

  /** The default rank of the top-N charts. */
  const DefaultRank: int := 5

  /** The ranks the rank selector offers. */
  const RankOptions: seq<int> := [3, 5, 7, 9, 10]

  /** The rank cell of a top-N chart, written through the rank selector. */
  class RankState {
    var rank: int

    /** A top-N chart starts at rank 5, one of the offered ranks. */
    constructor()
      ensures rank == DefaultRank && rank in RankOptions
    {
      rank := DefaultRank;
    }

    /**
     * A choice in the rank selector: on the free plan the upgrade dialog
     * opens and the rank stays; otherwise the chosen rank is taken.
     */
    method OnRankChange(sub: SubscriptionStore.Store, value: int)
      modifies this, sub
      ensures sub.plan == SubscriptionStore.Free ==> sub.open && rank == old(rank)
      ensures sub.plan != SubscriptionStore.Free ==> rank == value && sub.open == old(sub.open)
      ensures sub.plan == old(sub.plan) && sub.subscriptionId == old(sub.subscriptionId)
    {
      if sub.plan == SubscriptionStore.Free {
        sub.SetOpen(true);
      } else {
        rank := value;
      }
    }
  }
}
