/**
 * The JavaScript built-ins the dashboard code leans on, with their
 * ECMAScript semantics: Array.prototype.slice (negative indices count from
 * the end, out-of-range indices are clamped), filter, find, join, and
 * String.prototype.split on a one-character separator.
 */
module JsBuiltins {
  import opened Wrappers

  /** The index `slice` uses for argument `k` on an array of length `len`. */
  function RelIndex(k: int, len: nat): (r: nat)
    ensures r <= len
    ensures 0 <= k <= len ==> r == k
    ensures k > len ==> r == len
    ensures k < 0 && len + k >= 0 ==> r == len + k
    ensures len + k < 0 ==> r == 0
  {
    if k < 0 then (if len + k < 0 then 0 else len + k)
    else if k > len then len
    else k
  }

  /** `s.slice(start, end)`. */
  function Slice<T>(s: seq<T>, start: int, end: int): (r: seq<T>)
    ensures |r| <= |s|
    ensures start == 0 && 0 <= end ==> r == s[..if end < |s| then end else |s|]
    ensures start == 0 && end < 0 ==> r == s[..if |s| + end < 0 then 0 else |s| + end]
  {
    var from, to := RelIndex(start, |s|), RelIndex(end, |s|);
    if from < to then s[from..to] else []
  }

  /** `s.slice(start)`. */
  function SliceFrom<T>(s: seq<T>, start: int): (r: seq<T>)
    ensures 0 <= start ==> r == s[if start < |s| then start else |s|..]
    ensures start < 0 ==> r == s[if |s| + start < 0 then 0 else |s| + start..]
  {
    s[RelIndex(start, |s|)..]
  }

  /** Whatever `k` is, `s.slice(0, k)` and `s.slice(k)` split `s` in two. */
  lemma SliceSplit<T>(s: seq<T>, k: int)
    ensures Slice(s, 0, k) + SliceFrom(s, k) == s
  {
    var i := RelIndex(k, |s|);
    assert Slice(s, 0, k) == s[..i];
    assert SliceFrom(s, k) == s[i..];
    assert s[..i] + s[i..] == s;
  }

  /** `s.filter(p)`: the elements satisfying `p`, in their original order. */
  function Filter<T>(s: seq<T>, p: T -> bool): (r: seq<T>)
    ensures |r| <= |s|
    ensures forall i :: 0 <= i < |r| ==> p(r[i])
    ensures multiset(r) <= multiset(s)
  {
    if s == [] then []
    else
      assert s == [s[0]] + s[1..];
      (if p(s[0]) then [s[0]] else []) + Filter(s[1..], p)
  }

  /** Filtering distributes over concatenation. */
  lemma {:induction false} FilterAppend<T>(a: seq<T>, b: seq<T>, p: T -> bool)
    ensures Filter(a + b, p) == Filter(a, p) + Filter(b, p)
  {
    if a == [] {
      assert a + b == b;
    } else {
      assert (a + b)[0] == a[0] && (a + b)[1..] == a[1..] + b;
      FilterAppend(a[1..], b, p);
    }
  }

  /**
   * Every element satisfying `p` survives the filter, at the position given
   * by the number of survivors before it; so survivors keep their order.
   */
  lemma FilterKeeps<T>(s: seq<T>, p: T -> bool, i: int)
    requires 0 <= i < |s| && p(s[i])
    ensures |Filter(s[..i], p)| < |Filter(s, p)|
    ensures Filter(s, p)[|Filter(s[..i], p)|] == s[i]
  {
    assert s == s[..i] + ([s[i]] + s[i + 1..]);
    FilterAppend(s[..i], [s[i]] + s[i + 1..], p);
    assert Filter([s[i]] + s[i + 1..], p) == [s[i]] + Filter(s[i + 1..], p) by {
      assert ([s[i]] + s[i + 1..])[1..] == s[i + 1..];
    }
  }

  /** The survivors of a longer prefix include those of a shorter one. */
  lemma FilterPrefixGrows<T>(s: seq<T>, p: T -> bool, i: int, i': int)
    requires 0 <= i < i' <= |s|
    ensures |Filter(s[..i], p)| + (if p(s[i]) then 1 else 0) <= |Filter(s[..i'], p)|
  {
    assert s[..i'] == s[..i] + ([s[i]] + s[i + 1..i']);
    FilterAppend(s[..i], [s[i]] + s[i + 1..i'], p);
    assert ([s[i]] + s[i + 1..i'])[1..] == s[i + 1..i'];
  }

  /** Positions of survivors grow with their positions in `s`: the filter is a subsequence. */
  lemma FilterOrder<T>(s: seq<T>, p: T -> bool, i: int, i': int)
    requires 0 <= i < i' < |s| && p(s[i]) && p(s[i'])
    ensures |Filter(s[..i], p)| < |Filter(s[..i'], p)| < |Filter(s, p)|
    ensures Filter(s, p)[|Filter(s[..i], p)|] == s[i] && Filter(s, p)[|Filter(s[..i'], p)|] == s[i']
  {
    FilterPrefixGrows(s, p, i, i');
    FilterKeeps(s, p, i);
    FilterKeeps(s, p, i');
  }

  /** Nothing survives when nothing satisfies `p`. */
  lemma {:induction false} FilterNone<T>(s: seq<T>, p: T -> bool)
    requires forall i :: 0 <= i < |s| ==> !p(s[i])
    ensures Filter(s, p) == []
  {
    if s != [] {
      assert forall i :: 0 <= i < |s[1..]| ==> !p(s[1..][i]) by {
        forall i | 0 <= i < |s[1..]| ensures !p(s[1..][i]) {
          assert s[1..][i] == s[i + 1];
        }
      }
      FilterNone(s[1..], p);
    }
  }

  /** Everything survives when everything satisfies `p`. */
  lemma {:induction false} FilterAll<T>(s: seq<T>, p: T -> bool)
    requires forall i :: 0 <= i < |s| ==> p(s[i])
    ensures Filter(s, p) == s
  {
    if s != [] {
      assert forall i :: 0 <= i < |s[1..]| ==> p(s[1..][i]) by {
        forall i | 0 <= i < |s[1..]| ensures p(s[1..][i]) {
          assert s[1..][i] == s[i + 1];
        }
      }
      FilterAll(s[1..], p);
      assert [s[0]] + s[1..] == s;
    }
  }

  /** `s.findIndex(p)`: the first position whose element satisfies `p`, or -1. */
  function FindIndex<T>(s: seq<T>, p: T -> bool): (r: int)
    ensures -1 <= r < |s|
    ensures r == -1 <==> forall i :: 0 <= i < |s| ==> !p(s[i])
    ensures r >= 0 ==> p(s[r]) && forall i :: 0 <= i < r ==> !p(s[i])
  {
    if s == [] then -1
    else if p(s[0]) then 0
    else
      var k := FindIndex(s[1..], p);
      if k == -1 then -1 else k + 1
  }

  /** `s.find(p)`: the first element satisfying `p`, or `undefined`. */
  function Find<T>(s: seq<T>, p: T -> bool): (r: Option<T>)
    ensures r.None? <==> forall i :: 0 <= i < |s| ==> !p(s[i])
    ensures r.Some? ==> exists i :: 0 <= i < |s| && s[i] == r.value && p(s[i]) && forall i' :: 0 <= i' < i ==> !p(s[i'])
  {
    var k := FindIndex(s, p);
    if k == -1 then None else Some(s[k])
  }

  /** `parts.join(sep)` for a one-character separator. */
  function Join(parts: seq<string>, sep: char): (r: string)
    decreases |parts|
  {
    if parts == [] then ""
    else if |parts| == 1 then parts[0]
    else parts[0] + [sep] + Join(parts[1..], sep)
  }

  /** `s.split(sep)` for a one-character separator (never empty). */
  function Split(s: string, sep: char): (r: seq<string>)
    ensures |r| >= 1
  {
    if s == [] then [""]
    else if s[0] == sep then [""] + Split(s[1..], sep)
    else
      var rest := Split(s[1..], sep);
      [[s[0]] + rest[0]] + rest[1..]
  }

  /** The number of occurrences of `c` in `s`. */
  function CountChar(c: char, s: string): (n: nat)
    ensures n <= |s|
    ensures n == 0 <==> c !in s
  {
    if s == [] then 0 else (if s[0] == c then 1 else 0) + CountChar(c, s[1..])
  }

  lemma {:induction false} CountCharAppend(c: char, a: string, b: string)
    ensures CountChar(c, a + b) == CountChar(c, a) + CountChar(c, b)
  {
    if a != [] {
      assert (a + b)[1..] == a[1..] + b;
      CountCharAppend(c, a[1..], b);
    } else {
      assert a + b == b;
    }
  }

  /** A piece without the separator splits to itself, and a separator ends it. */
  lemma {:induction false} SplitPiece(p: string, sep: char, t: string)
    requires sep !in p
    ensures Split(p, sep) == [p]
    ensures Split(p + [sep] + t, sep) == [p] + Split(t, sep)
  {
    if p == [] {
      assert p + [sep] + t == [sep] + t;
      assert ([sep] + t)[1..] == t;
    } else {
      SplitPiece(p[1..], sep, t);
      assert (p + [sep] + t)[1..] == p[1..] + [sep] + t;
      assert [p[0]] + p[1..] == p;
    }
  }

  /**
   * Splitting a join on its separator gives the parts back, provided no part
   * holds the separator and there is at least one part.
   */
  lemma {:induction false} SplitJoin(parts: seq<string>, sep: char)
    requires |parts| >= 1
    requires forall i :: 0 <= i < |parts| ==> sep !in parts[i]
    ensures Split(Join(parts, sep), sep) == parts
    decreases |parts|
  {
    if |parts| == 1 {
      SplitPiece(parts[0], sep, "");
    } else {
      SplitPiece(parts[0], sep, Join(parts[1..], sep));
      SplitJoin(parts[1..], sep);
      assert [parts[0]] + parts[1..] == parts;
    }
  }

  /** A join of `n >= 1` separator-free parts holds exactly `n - 1` separators. */
  lemma {:induction false} CountJoin(parts: seq<string>, sep: char)
    requires forall i :: 0 <= i < |parts| ==> sep !in parts[i]
    ensures CountChar(sep, Join(parts, sep)) == if parts == [] then 0 else |parts| - 1
    decreases |parts|
  {
    if |parts| > 1 {
      CountJoin(parts[1..], sep);
      CountCharAppend(sep, parts[0] + [sep], Join(parts[1..], sep));
      CountCharAppend(sep, parts[0], [sep]);
      assert CountChar(sep, [sep]) == 1 by {
        assert [sep][1..] == [];
      }
    }
  }
}
