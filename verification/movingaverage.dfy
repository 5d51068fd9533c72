/** `filterSignal`: the sliding-window mean. Output `i` averages the window
    `s[i .. i + w)` and carries the timestamp of the window's first sample.
    The index range is `[0, |s| - w)`, so the output has `|s| - w` samples
    (one fewer than the number of complete windows). */
module MovingAverage {
  import opened TimeSeries

  /** Number of outputs: `IntStream.range(0, size - windowSize)` is empty when
      the bound is not positive. */
  function OutputCount(n: nat, w: nat): nat
  {
    if n > w then n - w else 0
  }

  /** `w = 0` divides by zero in the source and is excluded. */
  function FilterSignal(s: Series, w: nat): (r: Series)
    requires w >= 1
    ensures |r| == OutputCount(|s|, w)
    ensures forall i :: 0 <= i < |r| ==> i + w < |s| && r[i].t == s[i].t
    ensures forall i :: 0 <= i < |r| ==> r[i].v == ValueSum(s[i..i + w]) / (w as real)
  {
    seq(OutputCount(|s|, w), i requires 0 <= i < OutputCount(|s|, w) =>
      Sample(s[i].t, ValueSum(s[i..i + w]) / (w as real)))
  }

  /** A window of one sample does not give the identity: it drops the last
      sample and keeps every other one unchanged. */
  lemma FilterWindowOne(s: Series)
    requires |s| >= 1
    ensures FilterSignal(s, 1) == s[..|s| - 1]
  {
    var r := FilterSignal(s, 1);
    forall i | 0 <= i < |r|
      ensures r[i] == s[i]
    {
      assert s[i..i + 1] == [s[i]];
      assert s[i..i + 1][1..] == [];
      assert ValueSum(s[i..i + 1]) == s[i].v;
      assert r[i].v * 1.0 == s[i].v;
    }
  }

  /** Consecutive outputs differ by the sample entering the window minus the
      sample leaving it, divided by the window length. */
  lemma FilterSlide(s: Series, w: nat, i: nat)
    requires w >= 1
    requires i + 1 < |FilterSignal(s, w)|
    ensures var r := FilterSignal(s, w);
      (w as real) * (r[i + 1].v - r[i].v) == s[i + w].v - s[i].v
  {
    var r := FilterSignal(s, w);
    var entering, leaving := ValueSum(s[i + 1..i + 1 + w]), ValueSum(s[i..i + w]);
    assert r[i + 1].v == entering / (w as real) && r[i].v == leaving / (w as real);
    WindowSumSlide(s, w, i);
    ScaledDifference(entering, leaving, w as real);
  }

  /** Moving the window one step adds the entering value and drops the leaving one. */
  lemma WindowSumSlide(s: Series, w: nat, i: nat)
    requires w >= 1 && i + w < |s|
    ensures ValueSum(s[i + 1..i + 1 + w]) - ValueSum(s[i..i + w]) == s[i + w].v - s[i].v
  {
    assert s[i..i + w + 1] == [s[i]] + s[i + 1..i + 1 + w];
    assert s[i..i + w + 1] == s[i..i + w] + [s[i + w]];
    ValueSumAppend([s[i]], s[i + 1..i + 1 + w]);
    ValueSumAppend(s[i..i + w], [s[i + w]]);
    assert ValueSum([s[i]]) == s[i].v;
    assert ValueSum([s[i + w]]) == s[i + w].v;
  }

  lemma ScaledDifference(a: real, b: real, c: real)
    requires c > 0.0
    ensures c * (a / c - b / c) == a - b
  {
    assert a / c - b / c == (a - b) / c;
  }

  /** A mean lies between the smallest and the largest value: bounds that
      hold for every input value hold for every output value. */
  lemma FilterBounds(s: Series, w: nat, lo: real, hi: real)
    requires w >= 1
    requires forall k :: 0 <= k < |s| ==> lo <= s[k].v <= hi
    ensures forall i :: 0 <= i < |FilterSignal(s, w)| ==> lo <= FilterSignal(s, w)[i].v <= hi
  {
    forall i | 0 <= i < |FilterSignal(s, w)|
      ensures lo <= FilterSignal(s, w)[i].v <= hi
    {
      WindowBounds(s, w, lo, hi, i);
    }
  }

  /** The bounds for one output: its window sum lies between `w * lo` and `w * hi`. */
  lemma WindowBounds(s: Series, w: nat, lo: real, hi: real, i: nat)
    requires w >= 1 && i + w <= |s|
    requires forall k :: 0 <= k < |s| ==> lo <= s[k].v <= hi
    ensures lo <= ValueSum(s[i..i + w]) / (w as real) <= hi
  {
    var win := s[i..i + w];
    assert forall k :: 0 <= k < |win| ==> lo <= win[k].v <= hi by {
      forall k | 0 <= k < |win|
        ensures lo <= win[k].v <= hi
      {
        assert win[k] == s[i + k];
      }
    }
    ValueSumBounds(win, lo, hi);
    DivideBounds(ValueSum(win), w as real, lo, hi);
  }

  /** `x` between `c * lo` and `c * hi` with `c > 0` puts `x / c` between
      `lo` and `hi`. */
  lemma DivideBounds(x: real, c: real, lo: real, hi: real)
    requires c > 0.0 && c * lo <= x <= c * hi
    ensures lo <= x / c <= hi
  {
    assert (c * lo) / c == lo && (c * hi) / c == hi;
  }

  /** A constant signal is left at its constant. */
  lemma FilterConstant(s: Series, w: nat, c: real)
    requires w >= 1
    requires forall k :: 0 <= k < |s| ==> s[k].v == c
    ensures forall i :: 0 <= i < |FilterSignal(s, w)| ==> FilterSignal(s, w)[i].v == c
  {
    FilterBounds(s, w, c, c);
  }

  /** Four samples with a window of two give two outputs, not three. */
  lemma FilterExample()
    ensures FilterSignal([Sample(0.0, 1.0), Sample(1.0, 2.0), Sample(2.0, 3.0), Sample(3.0, 4.0)], 2)
         == [Sample(0.0, 1.5), Sample(1.0, 2.5)]
  {
    var s := [Sample(0.0, 1.0), Sample(1.0, 2.0), Sample(2.0, 3.0), Sample(3.0, 4.0)];
    assert s[0..2] == [s[0], s[1]] && s[0..2][1..] == [s[1]] && s[0..2][1..][1..] == [];
    assert s[1..3] == [s[1], s[2]] && s[1..3][1..] == [s[2]] && s[1..3][1..][1..] == [];
    var a, b := s[0..2], s[1..3];
    assert ValueSum(a[1..][1..]) == 0.0 && ValueSum(b[1..][1..]) == 0.0;
    assert ValueSum(a[1..]) == 2.0 && ValueSum(b[1..]) == 3.0;
    assert ValueSum(a) == 3.0 && ValueSum(b) == 5.0;
  }
}
