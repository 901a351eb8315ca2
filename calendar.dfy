/**
 * The calendar arithmetic the dashboard takes from its date library, on
 * integer day numbers: day 0 is Thursday 1 January 1970, day 1 the next day.
 * Each granularity (day, week, month, year) cuts the day line into units
 * numbered by an integer key:
 *   - a day is its own key;
 *   - weeks start on Sunday (the library's default week start);
 *   - a month's key is 12 * year + (month - 1), proleptic Gregorian;
 *   - a year's key is the year itself.
 * `UnitStart(g, k)` is the first day of unit `k`, the date the library's
 * `eachDayOfInterval`/`eachWeekOfInterval`/... functions yield for it.
 */
module Calendar {

  /** The zoom levels of the trend chart, which are also the bucket granularities. */
  datatype DateTrunc = Day | Week | Month | Year

  /** What a JavaScript `Date` holds: a day, or an invalid time value (NaN). */
  datatype DateValue = ValidDate(day: int) | InvalidDate

  function IsLeapYear(y: int): bool {
    y % 4 == 0 && (y % 100 != 0 || y % 400 == 0)
  }

  /** The length of month `k`, counted in months from January 1970. */
  function DaysInMonth(k: int): (n: int)
    ensures 28 <= n <= 31
  {
    var y, m := 1970 + k / 12, k % 12;
    if m == 1 then (if IsLeapYear(y) then 29 else 28)
    else if m == 3 || m == 5 || m == 8 || m == 10 then 30
    else 31
  }

  /** The day number of the first day of month `k` (month 0 is January 1970). */
  function MonthStart(k: int): int
    decreases if k < 0 then -k else k
  {
    if k == 0 then 0
    else if k > 0 then MonthStart(k - 1) + DaysInMonth(k - 1)
    else MonthStart(k + 1) - DaysInMonth(k)
  }

  lemma MonthStartStep(k: int)
    ensures MonthStart(k + 1) == MonthStart(k) + DaysInMonth(k)
  {
  }

  /** Month starts are strictly increasing. */
  lemma {:induction false} MonthStartIncreasing(a: int, b: int)
    requires a < b
    ensures MonthStart(a) < MonthStart(b)
    decreases b - a
  {
    MonthStartStep(a);
    if a + 1 < b {
      MonthStartIncreasing(a + 1, b);
    }
  }

  /** Walks forward from month `k` to the month holding day `d`. */
  function SearchUp(d: int, k: int): (r: int)
    requires MonthStart(k) <= d
    ensures MonthStart(r) <= d < MonthStart(r + 1)
    decreases d - MonthStart(k)
  {
    MonthStartStep(k);
    if d < MonthStart(k + 1) then k else SearchUp(d, k + 1)
  }

  /** Walks backward from month `k` to the month holding day `d`. */
  function SearchDown(d: int, k: int): (r: int)
    requires d < MonthStart(k + 1)
    ensures MonthStart(r) <= d < MonthStart(r + 1)
    decreases MonthStart(k + 1) - d
  {
    MonthStartStep(k);
    if MonthStart(k) <= d then k else SearchDown(d, k - 1)
  }

  /** The month (counted from January 1970) that holds day `d`. */
  function MonthOf(d: int): (k: int)
    ensures MonthStart(k) <= d < MonthStart(k + 1)
  {
    if d >= 0 then SearchUp(d, 0) else SearchDown(d, -1)
  }

  /** Every day lies in exactly one month. */
  lemma MonthOfUnique(d: int, k: int)
    requires MonthStart(k) <= d < MonthStart(k + 1)
    ensures MonthOf(d) == k
  {
    var m := MonthOf(d);
    if m < k {
      if m + 1 < k { MonthStartIncreasing(m + 1, k); }
    } else if m > k {
      if k + 1 < m { MonthStartIncreasing(k + 1, m); }
    }
  }

  /** The key of the unit of granularity `g` that holds day `d`. */
  function UnitOf(g: DateTrunc, d: int): int {
    match g
    case Day => d
    case Week => (d + 4) / 7
    case Month => 12 * 1970 + MonthOf(d)
    case Year => (12 * 1970 + MonthOf(d)) / 12
  }

  /** The first day of the unit of granularity `g` with key `k`. */
  function UnitStart(g: DateTrunc, k: int): int {
    match g
    case Day => k
    case Week => 7 * k - 4
    case Month => MonthStart(k - 12 * 1970)
    case Year => MonthStart(12 * k - 12 * 1970)
  }

  /** A later day never lies in an earlier unit. */
  lemma UnitOfMonotone(g: DateTrunc, a: int, b: int)
    requires a <= b
    ensures UnitOf(g, a) <= UnitOf(g, b)
  {
    if g.Month? || g.Year? {
      var ma, mb := MonthOf(a), MonthOf(b);
      if ma > mb {
        if mb + 1 < ma { MonthStartIncreasing(mb + 1, ma); }
        assert false;
      }
    }
  }

  /** A unit's first day lies in that unit and no day of the unit comes before it. */
  lemma UnitStartIsFirst(g: DateTrunc, k: int, d: int)
    ensures UnitOf(g, UnitStart(g, k)) == k
    ensures UnitOf(g, d) == k ==> UnitStart(g, k) <= d
  {
    match g
    case Day =>
    case Week =>
    case Month =>
      var m := k - 12 * 1970;
      MonthStartStep(m);
      MonthOfUnique(MonthStart(m), m);
    case Year =>
      var m := 12 * k - 12 * 1970;
      MonthStartStep(m);
      MonthOfUnique(MonthStart(m), m);
      if UnitOf(g, d) == k && MonthOf(d) != m {
        MonthStartIncreasing(m, MonthOf(d));
      }
  }

  /** Days in different units are ordered like their units. */
  lemma UnitOrder(g: DateTrunc, a: int, b: int)
    requires UnitOf(g, a) < UnitOf(g, b)
    ensures a < b
  {
    if b <= a {
      UnitOfMonotone(g, b, a);
    }
  }

  /** The number of units of granularity `g` that overlap the days `[start, end]`. */
  function UnitCount(g: DateTrunc, start: int, end: int): (n: nat)
    requires start <= end
    ensures n >= 1
    ensures n == UnitOf(g, end) - UnitOf(g, start) + 1
  {
    UnitOfMonotone(g, start, end);
    UnitOf(g, end) - UnitOf(g, start) + 1
  }

  /**
   * The units that overlap `[start, end]` are exactly those with a key from
   * the start's unit to the end's unit, so `UnitCount` counts them: every
   * such key has a day in the interval, and no other key has one.
   */
  lemma UnitCountOverlap(g: DateTrunc, start: int, end: int, k: int)
    requires start <= end
    ensures (exists d :: start <= d <= end && UnitOf(g, d) == k) <==> UnitOf(g, start) <= k <= UnitOf(g, end)
  {
    if exists d :: start <= d <= end && UnitOf(g, d) == k {
      var d :| start <= d <= end && UnitOf(g, d) == k;
      UnitOfMonotone(g, start, d);
      UnitOfMonotone(g, d, end);
    }
    if UnitOf(g, start) <= k <= UnitOf(g, end) {
      if k == UnitOf(g, start) {
        assert start <= start <= end && UnitOf(g, start) == k;
      } else {
        var d := UnitStart(g, k);
        UnitStartIsFirst(g, k, end);
        UnitOrder(g, start, d);
        if k < UnitOf(g, end) {
          UnitOrder(g, d, end);
        }
        assert start <= d <= end && UnitOf(g, d) == k;
      }
    }
  }
}
