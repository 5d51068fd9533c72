/** A time series is an ordered sequence of (timestamp, value) samples; the
    Java code stores each one as a two-element `double[]`. */
module TimeSeries {

  datatype Sample = Sample(t: real, v: real)

  type Series = seq<Sample>

  /** Sum of the values of a series, as `mapToDouble(x -> x[1]).sum()`
      computes it (exactly, over the reals). */
  function ValueSum(s: Series): real
  {
    if |s| == 0 then 0.0 else s[0].v + ValueSum(s[1..])
  }

  /** The sum splits over concatenation. */
  lemma {:induction false} ValueSumAppend(a: Series, b: Series)
    ensures ValueSum(a + b) == ValueSum(a) + ValueSum(b)
  {
    if |a| == 0 {
      assert a + b == b;
    } else {
      assert (a + b)[1..] == a[1..] + b;
      ValueSumAppend(a[1..], b);
    }
  }

  /** Values bounded by `lo` and `hi` give a sum between `n * lo` and `n * hi`. */
  lemma {:induction false} ValueSumBounds(s: Series, lo: real, hi: real)
    requires forall k :: 0 <= k < |s| ==> lo <= s[k].v <= hi
    ensures (|s| as real) * lo <= ValueSum(s) <= (|s| as real) * hi
  {
    if |s| > 0 {
      ValueSumBounds(s[1..], lo, hi);
      assert (|s| as real) * lo == (|s[1..]| as real) * lo + lo;
      assert (|s| as real) * hi == (|s[1..]| as real) * hi + hi;
    }
  }

  /** Timestamps never decrease along the series. */
  ghost predicate TimesNonDecreasing(s: Series)
  {
    forall k :: 0 <= k < |s| - 1 ==> s[k].t <= s[k + 1].t
  }
}
