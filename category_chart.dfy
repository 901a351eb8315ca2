/**
 * The rank rollup of the income-category and expense-category charts: the
 * first `rank - 1` categories are kept, and the rest are summed into one
 * synthetic "Other" entry. Both charts run the same code on their own list.
 */
module CategoryChart {
  import opened JsBuiltins
  import opened Records

  /** `reduce((acc, curr) => acc + curr.value, 0)`, a left fold. */
  function SumValues(cats: seq<Category>): real {
    if cats == [] then 0.0 else SumValues(cats[..|cats| - 1]) + cats[|cats| - 1].value
  }

  lemma {:induction false} SumConcat(a: seq<Category>, b: seq<Category>)
    ensures SumValues(a + b) == SumValues(a) + SumValues(b)
    decreases |b|
  {
    if b == [] {
      assert a + b == a;
    } else {
      assert (a + b)[..|a + b| - 1] == a + b[..|b| - 1];
      SumConcat(a, b[..|b| - 1]);
    }
  }

  const OtherName: string := "Other"

  /**
   * `chartDataByRank`: an empty list stays empty; otherwise the first
   * `rank - 1` entries (by `slice`, so a rank below 1 counts from the end)
   * followed, when anything is left over, by "Other" with the left-overs' sum.
   */
  function RollUp(cats: seq<Category>, rank: int): (r: seq<Category>)
    ensures cats == [] ==> r == []
    ensures rank >= 1 && |cats| <= rank - 1 ==> r == cats
    ensures rank >= 1 && |cats| > rank - 1 ==>
      && |r| == rank
      && r[..rank - 1] == cats[..rank - 1]
      && r[rank - 1] == Category(OtherName, SumValues(cats[rank - 1..]))
    ensures rank < 1 && cats != [] ==>
      var n := RelIndex(rank - 1, |cats|);
      r == cats[..n] + [Category(OtherName, SumValues(cats[n..]))]
  {
    if |cats| == 0 then []
    else
      var top := Slice(cats, 0, rank - 1);
      var other := SliceFrom(cats, rank - 1);
      if |other| > 0 then
        assert rank >= 1 ==> (top + [Category(OtherName, SumValues(other))])[..rank - 1] == top;
        top + [Category(OtherName, SumValues(other))]
      else top
  }

  /** The rollup conserves the total: the chart shows the same sum as the list, at any rank. */
  lemma RollUpConservesTotal(cats: seq<Category>, rank: int)
    ensures SumValues(RollUp(cats, rank)) == SumValues(cats)
  {
    if cats != [] {
      var top, other := Slice(cats, 0, rank - 1), SliceFrom(cats, rank - 1);
      SliceSplit(cats, rank - 1);
      SumConcat(top, other);
      if |other| > 0 {
        SumConcat(top, [Category(OtherName, SumValues(other))]);
        assert SumValues([Category(OtherName, SumValues(other))]) == SumValues(other) by {
          assert [Category(OtherName, SumValues(other))][..0] == [];
        }
      } else {
        assert top == cats;
      }
    }
  }

  /** Seven categories at the default rank 5: four kept, and "Other" sums the last three. */
  lemma RollUpExample()
    ensures var cats := [Category("a", 50.0), Category("b", 40.0), Category("c", 30.0), Category("d", 20.0),
                         Category("e", 10.0), Category("f", 5.0), Category("g", 2.0)];
      RollUp(cats, 5) == cats[..4] + [Category(OtherName, 17.0)]
  {
    var cats := [Category("a", 50.0), Category("b", 40.0), Category("c", 30.0), Category("d", 20.0),
                 Category("e", 10.0), Category("f", 5.0), Category("g", 2.0)];
    var tail := cats[4..];
    assert tail[..2][..1] == [tail[0]];
    assert SumValues(tail[..1]) == 10.0;
    assert SumValues(tail[..2]) == 15.0;
    assert SumValues(tail) == 17.0;
    assert RollUp(cats, 5)[..4] == cats[..4];
  }
}
