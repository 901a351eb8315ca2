/**
 * The top-income and top-expense transaction charts: the fetched list,
 * already ordered by the server, cut to its first `topRank` entries.
 */
module TopChart {
  import opened Wrappers
  import opened JsBuiltins
  import opened Records

  /**
   * `ChartDataByRank`: missing or empty data gives `undefined`; otherwise
   * `slice(0, topRank)`, a prefix of the list in its own order.
   */
  function ChartDataByRank(fetched: Option<seq<TopTransaction>>, topRank: int): (r: Option<seq<TopTransaction>>)
    ensures r.None? <==> fetched.None? || fetched.value == []
    ensures r.Some? ==> r.value <= fetched.value
    ensures r.Some? && 0 <= topRank ==>
      |r.value| == if topRank < |fetched.value| then topRank else |fetched.value|
    ensures r.Some? && topRank >= |fetched.value| ==> r.value == fetched.value
    ensures r.Some? && topRank < 0 ==>
      |r.value| == if |fetched.value| + topRank < 0 then 0 else |fetched.value| + topRank
  {
    var list := fetched.GetOr([]);
    if |list| == 0 then None else Some(Slice(list, 0, topRank))
  }

  /** A larger rank shows more, and what a smaller rank shows is the start of it. */
  lemma ChartDataByRankGrows(fetched: Option<seq<TopTransaction>>, k: int, k': int)
    requires 0 <= k <= k'
    ensures ChartDataByRank(fetched, k).Some? <==> ChartDataByRank(fetched, k').Some?
    ensures ChartDataByRank(fetched, k).Some? ==>
      ChartDataByRank(fetched, k).value <= ChartDataByRank(fetched, k').value
  {
    if ChartDataByRank(fetched, k).Some? {
      var a, b := ChartDataByRank(fetched, k).value, ChartDataByRank(fetched, k').value;
      assert a == fetched.value[..|a|] && b == fetched.value[..|b|];
      assert |a| <= |b|;
      assert a == b[..|a|];
    }
  }
}
