/**
 * The date and number helpers of the dashboard client: percentage change
 * between two periods, gap filling of a sparse trend series, the text of a
 * date-range button, and date parsing against a list of formats.
 */
module Utils {
  import opened Wrappers
  import opened JsBuiltins
  import opened Calendar
  import opened Records
  import Consts

  // ---------------------------------------------------------------------
  // Percentage change

  /**
   * The change from `previous` to `current` in percent of `previous`. From a
   * zero previous value the change is defined as 0 when nothing changed and
   * as a full 100 otherwise (whatever the sign or size of `current`).
   */
  function CalculatePercentageChange(current: real, previous: real): (r: real)
    ensures previous == 0.0 ==> (r == 0.0 <==> current == 0.0)
    ensures previous == 0.0 && current != 0.0 ==> r == 100.0
    ensures previous != 0.0 ==> previous + previous * r / 100.0 == current
  {
    if previous == 0.0 then
      (if previous == current then 0.0 else 100.0)
    else
      var r := (current - previous) / previous * 100.0;
      assert previous * r / 100.0 == current - previous;
      r
  }

  /** Two worked values, and no change for equal inputs. */
  lemma PercentageChangeExamples(x: real)
    ensures CalculatePercentageChange(100.0, 50.0) == 100.0
    ensures CalculatePercentageChange(50.0, 100.0) == -50.0
    ensures CalculatePercentageChange(x, x) == 0.0
  {
  }

  /**
   * The sign of the change: over a positive base a rise is positive; over a
   * negative base (expenses are negative) a rise is negative, so spending
   * more shows as a positive change.
   */
  lemma PercentageChangeSign(current: real, previous: real)
    ensures previous > 0.0 ==> (CalculatePercentageChange(current, previous) > 0.0 <==> current > previous)
    ensures previous < 0.0 ==> (CalculatePercentageChange(current, previous) > 0.0 <==> current < previous)
  {
    var r := CalculatePercentageChange(current, previous);
    if previous != 0.0 {
      assert previous * r == (current - previous) * 100.0;
      if previous > 0.0 {
        assert r > 0.0 ==> previous * r > 0.0;
        assert r <= 0.0 ==> previous * r <= 0.0;
      } else {
        assert r > 0.0 ==> previous * r < 0.0;
        assert r <= 0.0 ==> previous * r >= 0.0;
      }
    }
  }

  // ---------------------------------------------------------------------
  // Gap filling of the trend series

  function ZeroBucket(date: int): Bucket {
    Bucket(date, 0.0, 0.0)
  }

  /** The test the date library's `isSameDay`/`isSameWeek`/... applies to a bucket. */
  function InUnit(g: DateTrunc, k: int): Bucket -> bool {
    (b: Bucket) => UnitOf(g, b.date) == k
  }

  /** The bucket for unit `k`: the first active bucket in that unit, or a zero bucket. */
  function Slot(g: DateTrunc, active: seq<Bucket>, k: int): Bucket {
    match Find(active, InUnit(g, k))
    case Some(b) => b
    case None => ZeroBucket(UnitStart(g, k))
  }

  /**
   * `fillMissingDays`, `fillMissingWeek`, `fillMissingMonths` and
   * `fillMissingYears`, which differ only in the unit: an empty active list
   * gives an empty series; otherwise there is one bucket per unit overlapping
   * `[start, end]`, in calendar order.
   */
  function FillMissing(g: DateTrunc, active: seq<Bucket>, start: int, end: int): (r: seq<Bucket>)
    requires |active| > 0 ==> start <= end
    ensures |active| == 0 ==> r == []
    ensures |active| > 0 ==> |r| == UnitCount(g, start, end)
  {
    if |active| == 0 then []
    else
      var first := UnitOf(g, start);
      seq(UnitCount(g, start, end), i => Slot(g, active, first + i))
  }

  /** The two cases of a slot: the first bucket of the unit (at index `j`), or none and a zero bucket. */
  lemma SlotCases(g: DateTrunc, active: seq<Bucket>, k: int) returns (j: int)
    ensures || (&& j == -1
                && (forall j' :: 0 <= j' < |active| ==> UnitOf(g, active[j'].date) != k)
                && Slot(g, active, k) == ZeroBucket(UnitStart(g, k)))
            || (&& 0 <= j < |active|
                && UnitOf(g, active[j].date) == k
                && (forall j' :: 0 <= j' < j ==> UnitOf(g, active[j'].date) != k)
                && Slot(g, active, k) == active[j])
  {
    j := FindIndex(active, InUnit(g, k));
  }

  /** A slot's bucket is dated inside its unit. */
  lemma SlotInUnit(g: DateTrunc, active: seq<Bucket>, k: int)
    ensures UnitOf(g, Slot(g, active, k).date) == k
  {
    var j := SlotCases(g, active, k);
    if j == -1 {
      UnitStartIsFirst(g, k, k);
    }
  }

  lemma FillMissingAt(g: DateTrunc, active: seq<Bucket>, start: int, end: int, i: int)
    requires |active| > 0 && start <= end
    requires 0 <= i < |FillMissing(g, active, start, end)|
    ensures FillMissing(g, active, start, end)[i] == Slot(g, active, UnitOf(g, start) + i)
  {
  }

  /**
   * Slot `i` of the series belongs to the `i`-th unit from the start and
   * holds either the first active bucket of that unit, unchanged (its index
   * is `j`), or, when the unit has none (`j == -1`), a zero bucket dated at
   * the unit's first day.
   */
  lemma FillMissingSlot(g: DateTrunc, active: seq<Bucket>, start: int, end: int, i: int) returns (j: int)
    requires |active| > 0 && start <= end
    requires 0 <= i < |FillMissing(g, active, start, end)|
    ensures || (&& j == -1
                && (forall j' :: 0 <= j' < |active| ==> UnitOf(g, active[j'].date) != UnitOf(g, start) + i)
                && FillMissing(g, active, start, end)[i] == Bucket(UnitStart(g, UnitOf(g, start) + i), 0.0, 0.0))
            || (&& 0 <= j < |active|
                && UnitOf(g, active[j].date) == UnitOf(g, start) + i
                && (forall j' :: 0 <= j' < j ==> UnitOf(g, active[j'].date) != UnitOf(g, start) + i)
                && FillMissing(g, active, start, end)[i] == active[j])
  {
    FillMissingAt(g, active, start, end, i);
    j := SlotCases(g, active, UnitOf(g, start) + i);
  }

  /** The `i`-th bucket is dated in the `i`-th unit, so the series is in strict calendar order. */
  lemma FillMissingOrdered(g: DateTrunc, active: seq<Bucket>, start: int, end: int)
    requires |active| > 0 && start <= end
    ensures forall i :: 0 <= i < |FillMissing(g, active, start, end)| ==>
      UnitOf(g, FillMissing(g, active, start, end)[i].date) == UnitOf(g, start) + i
    ensures forall i, i' :: 0 <= i < i' < |FillMissing(g, active, start, end)| ==>
      FillMissing(g, active, start, end)[i].date < FillMissing(g, active, start, end)[i'].date
  {
    var r := FillMissing(g, active, start, end);
    forall i | 0 <= i < |r| ensures UnitOf(g, r[i].date) == UnitOf(g, start) + i {
      FillMissingAt(g, active, start, end, i);
      SlotInUnit(g, active, UnitOf(g, start) + i);
    }
    forall i, i' | 0 <= i < i' < |r| ensures r[i].date < r[i'].date {
      UnitOrder(g, r[i].date, r[i'].date);
    }
  }

  /**
   * An active bucket survives only in its own unit's slot, only if that unit
   * overlaps `[start, end]`, and only if it is the first active bucket of its
   * unit; a later bucket of the same unit, or one outside the interval,
   * never appears.
   */
  lemma FillMissingOnlyFirst(g: DateTrunc, active: seq<Bucket>, start: int, end: int, i: int, j: int)
    requires |active| > 0 && start <= end
    requires 0 <= j < |active|
    requires 0 <= i < |FillMissing(g, active, start, end)| && FillMissing(g, active, start, end)[i] == active[j]
    ensures UnitOf(g, active[j].date) == UnitOf(g, start) + i
    ensures UnitOf(g, start) <= UnitOf(g, active[j].date) <= UnitOf(g, end)
    ensures 0 <= FindIndex(active, InUnit(g, UnitOf(g, active[j].date))) <= j
    ensures active[FindIndex(active, InUnit(g, UnitOf(g, active[j].date)))] == active[j]
  {
    var k := UnitOf(g, start) + i;
    FillMissingAt(g, active, start, end, i);
    assert Slot(g, active, k) == active[j];
    SlotInUnit(g, active, k);
    assert InUnit(g, k)(active[j]);
  }

  /** The first active bucket of a unit inside the interval reaches that unit's slot. */
  lemma FillMissingKeepsFirst(g: DateTrunc, active: seq<Bucket>, start: int, end: int, j: int)
    requires start <= end && 0 <= j < |active|
    requires UnitOf(g, start) <= UnitOf(g, active[j].date) <= UnitOf(g, end)
    requires forall j' :: 0 <= j' < j ==> UnitOf(g, active[j'].date) != UnitOf(g, active[j].date)
    ensures FillMissing(g, active, start, end)[UnitOf(g, active[j].date) - UnitOf(g, start)] == active[j]
  {
    var i := UnitOf(g, active[j].date) - UnitOf(g, start);
    var j0 := FillMissingSlot(g, active, start, end, i);
    assert InUnit(g, UnitOf(g, active[j].date))(active[j]);
  }

  /**
   * A worked day series: 31 days with income on the 15th and an expense on
   * the 20th give 31 buckets, all zero but those two.
   */
  lemma FillMissingDaysExample(start: int)
    ensures var active := [Bucket(start + 14, 500.0, 0.0), Bucket(start + 19, 0.0, 200.0)];
      var r := FillMissing(Day, active, start, start + 30);
      && |r| == 31
      && r[14] == active[0] && r[19] == active[1]
      && forall i :: 0 <= i < 31 && i != 14 && i != 19 ==> r[i] == ZeroBucket(start + i)
  {
    var active := [Bucket(start + 14, 500.0, 0.0), Bucket(start + 19, 0.0, 200.0)];
    var r := FillMissing(Day, active, start, start + 30);
    forall i | 0 <= i < 31 && i != 14 && i != 19 ensures r[i] == ZeroBucket(start + i) {
      assert !InUnit(Day, start + i)(active[0]) && !InUnit(Day, start + i)(active[1]);
      assert r[i] == Slot(Day, active, start + i);
    }
    assert InUnit(Day, start + 14)(active[0]);
    assert InUnit(Day, start + 19)(active[1]) && !InUnit(Day, start + 19)(active[0]);
  }

  // ---------------------------------------------------------------------
  // The text of the date-range button

  /**
   * The two dates the range button shows. Without a `from` both defaults
   * are shown (the last 30 days up to today), even when a `to` is present;
   * with a `from` the `to` defaults to today.
   */
  function DisplayedRange(from: Option<int>, to: Option<int>, today: int): (r: (int, int))
    ensures from.None? ==> r == (today - Consts.Last30Days, today)
    ensures from.Some? ==> r.0 == from.value
    ensures from.Some? && to.Some? ==> r.1 == to.value
    ensures from.Some? && to.None? ==> r.1 == today
  {
    if from.None? then (today - Consts.Last30Days, today)
    else if to.None? then (from.value, today)
    else (from.value, to.value)
  }

  /**
   * `formatDateRange`: the displayed range, each end rendered by `format`,
   * joined by " - ": the default 30 days without `from`, up to today
   * without `to`.
   */
  function FormatDateRange(from: Option<int>, to: Option<int>, today: int, format: int -> string): (r: string)
    ensures from.None? ==> r == format(today - Consts.Last30Days) + " - " + format(today)
    ensures from.Some? && to.None? ==> r == format(from.value) + " - " + format(today)
    ensures from.Some? && to.Some? ==> r == format(from.value) + " - " + format(to.value)
  {
    var (a, b) := DisplayedRange(from, to, today);
    format(a) + " - " + format(b)
  }

  /** An absent `from` makes the text independent of `to`. */
  lemma FormatDateRangeIgnoresTo(to: Option<int>, today: int, format: int -> string)
    ensures FormatDateRange(None, to, today, format) == FormatDateRange(None, None, today, format)
  {
  }

  // ---------------------------------------------------------------------
  // Parsing

  /** The characters `String.prototype.trim` removes: white space and line terminators. */
  predicate IsJsSpace(c: char) {
    || c == ' ' || c == '\t' || c == '\n' || c == '\r' || c == '\U{000B}' || c == '\U{000C}'
    || c == '\U{00A0}' || c == '\U{1680}' || ('\U{2000}' <= c <= '\U{200A}')
    || c == '\U{2028}' || c == '\U{2029}' || c == '\U{202F}' || c == '\U{205F}'
    || c == '\U{3000}' || c == '\U{FEFF}'
  }

  /** Every character of `u` is white space. */
  predicate AllJsSpace(u: string) {
    forall i :: 0 <= i < |u| ==> IsJsSpace(u[i])
  }

  /** The number of white-space characters `s` starts with. */
  function LeadingSpaces(s: string): (n: nat)
    ensures n <= |s| && AllJsSpace(s[..n])
    ensures n == |s| || !IsJsSpace(s[n])
  {
    if s != [] && IsJsSpace(s[0]) then
      var n := 1 + LeadingSpaces(s[1..]);
      assert s[..n] == [s[0]] + s[1..][..n - 1];
      n
    else 0
  }

  /** Where the white space `s` ends with starts. */
  function TrailingStart(s: string): (m: nat)
    ensures m <= |s| && AllJsSpace(s[m..])
    ensures m == 0 || !IsJsSpace(s[m - 1])
  {
    if s != [] && IsJsSpace(s[|s| - 1]) then
      var m := TrailingStart(s[..|s| - 1]);
      assert s[m..] == s[..|s| - 1][m..] + [s[|s| - 1]];
      m
    else |s|
  }

  /** `s.trimStart()`: the suffix of `s` left after its leading white space. */
  function TrimStart(s: string): (r: string)
    ensures |r| <= |s| && r == s[|s| - |r|..]
    ensures AllJsSpace(s[..|s| - |r|])
    ensures r == [] || !IsJsSpace(r[0])
  {
    s[LeadingSpaces(s)..]
  }

  /** `s.trimEnd()`: the prefix of `s` left before its trailing white space. */
  function TrimEnd(s: string): (r: string)
    ensures |r| <= |s| && r == s[..|r|]
    ensures AllJsSpace(s[|r|..])
    ensures r == [] || !IsJsSpace(r[|r| - 1])
  {
    s[..TrailingStart(s)]
  }

  /**
   * `s.trim()`: the slice of `s` left once the white space at both ends is
   * removed. What is cut off is all white space, and what is left neither
   * starts nor ends with white space.
   */
  function Trim(s: string): (r: string)
    ensures |r| <= |s|
    ensures |s| - |TrimStart(s)| + |r| <= |s|
    ensures r == s[|s| - |TrimStart(s)|..|s| - |TrimStart(s)| + |r|]
    ensures AllJsSpace(s[..|s| - |TrimStart(s)|]) && AllJsSpace(s[|s| - |TrimStart(s)| + |r|..])
    ensures r == [] || (!IsJsSpace(r[0]) && !IsJsSpace(r[|r| - 1]))
  {
    var t := TrimStart(s);
    var r := TrimEnd(t);
    assert s[|s| - |t| + |r|..] == t[|r|..];
    r
  }

  /**
   * The day that the first format, in list order, parses `s` to; `None` if
   * no format gives a valid date.
   */
  function FirstValidParse(s: string, formats: seq<string>, parse: (string, string) -> DateValue): Option<int> {
    if formats == [] then None
    else match parse(s, formats[0])
      case ValidDate(d) => Some(d)
      case InvalidDate => FirstValidParse(s, formats[1..], parse)
  }

  /**
   * `parseDateWithFormats`: tries the formats in order on the trimmed
   * string and returns the first valid parse, or `None` (null) when every
   * format fails. `parse` stands for the date library's `parse`.
   */
  method ParseDateWithFormats(dateString: string, formats: seq<string>, parse: (string, string) -> DateValue)
    returns (r: Option<int>)
    ensures r == FirstValidParse(Trim(dateString), formats, parse)
    ensures r.None? <==> forall i :: 0 <= i < |formats| ==> parse(Trim(dateString), formats[i]).InvalidDate?
    ensures r.Some? ==> exists i :: && 0 <= i < |formats|
                                    && parse(Trim(dateString), formats[i]) == ValidDate(r.value)
                                    && forall i' :: 0 <= i' < i ==> parse(Trim(dateString), formats[i']).InvalidDate?
  {
    var s := Trim(dateString);
    var i := 0;
    while i < |formats|
      invariant 0 <= i <= |formats|
      invariant forall i' :: 0 <= i' < i ==> parse(s, formats[i']).InvalidDate?
      invariant FirstValidParse(s, formats[i..], parse) == FirstValidParse(s, formats, parse)
    {
      var parsed := parse(s, formats[i]);
      if parsed.ValidDate? {
        return Some(parsed.day);
      }
      assert formats[i..][1..] == formats[i + 1..];
      i := i + 1;
    }
    return None;
  }

  /**
   * `isValidDate`: a query parameter is a valid date when it is present,
   * non-empty, and `new Date(param)` (here `newDate`) is not an invalid date.
   */
  function IsValidDate(param: Option<string>, newDate: string -> DateValue): (r: bool)
    ensures param.None? || param == Some("") ==> !r
    ensures param.Some? && param.value != "" ==> (r <==> newDate(param.value).ValidDate?)
  {
    param.Some? && param.value != "" && newDate(param.value).ValidDate?
  }
}
