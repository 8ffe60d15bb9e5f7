/**
 * Numeric helpers over sequences of reals that the indicator library,
 * the strategies and the backtest engine share: sums, means, extrema and
 * Python's slicing rule.
 */
module Series {
  import opened Wrappers

  /** The sum of a sequence, accumulated from the front like `cumsum`. */
  function Sum(s: seq<real>): real
  {
    if s == [] then 0.0 else Sum(s[..|s| - 1]) + s[|s| - 1]
  }

  /** The arithmetic mean of a non-empty sequence (`np.mean`, `Series.mean`). */
  function Mean(s: seq<real>): real
    requires |s| > 0
  {
    Sum(s) / |s| as real
  }

  /** `Series.mean()` of a possibly empty window: NaN (here None) when empty. */
  function MeanOrNone(s: seq<real>): (r: Option<real>)
    ensures r.Some? <==> |s| > 0
  {
    if |s| == 0 then None else Some(Mean(s))
  }

  /** Every element lies in [lo, hi]. */
  predicate Within(s: seq<real>, lo: real, hi: real)
  {
    forall i :: 0 <= i < |s| ==> lo <= s[i] <= hi
  }

  lemma {:induction false} SumBounds(s: seq<real>, lo: real, hi: real)
    requires Within(s, lo, hi)
    ensures |s| as real * lo <= Sum(s) <= |s| as real * hi
  {
    if s != [] {
      var init, last := s[..|s| - 1], s[|s| - 1];
      assert Within(init, lo, hi) by {
        forall i | 0 <= i < |init| ensures lo <= init[i] <= hi {
          assert init[i] == s[i];
        }
      }
      SumBounds(init, lo, hi);
      assert Sum(s) == Sum(init) + last;
      assert lo <= last <= hi;
      var n := |init| as real;
      assert |s| as real * lo == n * lo + lo && |s| as real * hi == n * hi + hi;
    }
  }

  /** A quotient by a positive number lies in [lo, hi] when the numerator lies in [lo, hi] times the divisor. */
  lemma QuotientWithin(num: real, den: real, lo: real, hi: real)
    requires den > 0.0 && lo * den <= num <= hi * den
    ensures lo <= num / den <= hi
  {
    assert (num / den) * den == num;
  }

  /** A mean lies between any lower and upper bound of its elements. */
  lemma MeanBounds(s: seq<real>, lo: real, hi: real)
    requires |s| > 0 && Within(s, lo, hi)
    ensures lo <= Mean(s) <= hi
  {
    SumBounds(s, lo, hi);
    var n := |s| as real;
    QuotientWithin(Sum(s), n, lo, hi);
  }

  /** The largest element (`max(...)`, `Series.max()`). */
  function Max(s: seq<real>): (m: real)
    requires |s| > 0
    ensures m in s
    ensures forall i :: 0 <= i < |s| ==> s[i] <= m
  {
    if |s| == 1 then s[0]
    else
      var m := Max(s[..|s| - 1]);
      assert forall i :: 0 <= i < |s| - 1 ==> s[..|s| - 1][i] == s[i];
      if s[|s| - 1] > m then s[|s| - 1] else m
  }

  /** The smallest element (`Series.min()`). */
  function Min(s: seq<real>): (m: real)
    requires |s| > 0
    ensures m in s
    ensures forall i :: 0 <= i < |s| ==> m <= s[i]
  {
    if |s| == 1 then s[0]
    else
      var m := Min(s[..|s| - 1]);
      assert forall i :: 0 <= i < |s| - 1 ==> s[..|s| - 1][i] == s[i];
      if s[|s| - 1] < m then s[|s| - 1] else m
  }

  /** Python's reading of a slice bound: negative counts from the end, then clamped to [0, n]. */
  function SliceBound(i: int, n: nat): (r: nat)
    ensures r <= n
  {
    if i < 0 then (if i + n < 0 then 0 else i + n)
    else if i > n then n
    else i
  }

  /** Python's `s[a:b]` (and pandas `iloc[a:b]`) for integer bounds. */
  function Slice<T>(s: seq<T>, a: int, b: int): (r: seq<T>)
    ensures |r| <= |s|
    ensures 0 <= a <= b <= |s| ==> r == s[a..b]
  {
    var lo := SliceBound(a, |s|);
    var hi := SliceBound(b, |s|);
    if lo < hi then s[lo..hi] else []
  }
}
