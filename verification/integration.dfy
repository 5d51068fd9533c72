/** `integrateSignal`: cumulative trapezoidal integration. Pair `(k, k + 1)`
    contributes `(t[k+1] - t[k]) * (v[k] + v[k+1]) / 2000` (milliseconds to
    seconds, and the trapezoid's halving); a single running accumulator adds
    the contributions left to right and each output carries the later
    sample's timestamp. */
module Integration {
  import opened TimeSeries

  /** Area of the trapezoid between samples `k` and `k + 1`. */
  function Step(s: Series, k: nat): real
    requires k + 1 < |s|
  {
    (s[k + 1].t - s[k].t) * (s[k].v + s[k + 1].v) / 2000.0
  }

  /** Reference definition: the sum of the first `k` trapezoids. */
  function Area(s: Series, k: nat): real
    requires k < |s|
  {
    if k == 0 then 0.0 else Area(s, k - 1) + Step(s, k - 1)
  }

  /** The stream over pairs `i, i+1, ...` with the accumulator already at `acc`. */
  function Accumulate(s: Series, i: nat, acc: real): (r: Series)
    requires i <= |s|
    decreases |s| - i
    ensures |r| == if i + 1 < |s| then |s| - i - 1 else 0
    ensures forall j :: 0 <= j < |r| ==>
      r[j].t == s[i + j + 1].t && r[j].v == acc + Area(s, i + j + 1) - Area(s, i)
  {
    if i + 1 >= |s| then []
    else
      var a := acc + Step(s, i);
      [Sample(s[i + 1].t, a)] + Accumulate(s, i + 1, a)
  }

  /** `IntStream.range(0, size - 1)` with the accumulator starting at 0: no
      output, and no failure, for fewer than two samples. */
  function IntegrateSignal(s: Series): (r: Series)
    ensures |r| == if |s| > 1 then |s| - 1 else 0
    ensures forall i :: 0 <= i < |r| ==> r[i].t == s[i + 1].t && r[i].v == Area(s, i + 1)
  {
    Accumulate(s, 0, 0.0)
  }

  /** Consecutive outputs differ by exactly one trapezoid. */
  lemma IntegrateIncrement(s: Series, i: nat)
    requires i + 1 < |IntegrateSignal(s)|
    ensures IntegrateSignal(s)[i + 1].v - IntegrateSignal(s)[i].v == Step(s, i + 1)
  {
  }

  /** Non-negative trapezoids make the area non-decreasing. */
  lemma {:induction false} AreaGrows(s: Series, i: nat, j: nat)
    requires i <= j < |s|
    requires forall k :: 0 <= k < |s| - 1 ==> Step(s, k) >= 0.0
    ensures Area(s, i) <= Area(s, j)
  {
    if i < j {
      AreaGrows(s, i, j - 1);
    }
  }

  /** Non-positive trapezoids make the area non-increasing. */
  lemma {:induction false} AreaShrinks(s: Series, i: nat, j: nat)
    requires i <= j < |s|
    requires forall k :: 0 <= k < |s| - 1 ==> Step(s, k) <= 0.0
    ensures Area(s, j) <= Area(s, i)
  {
    if i < j {
      AreaShrinks(s, i, j - 1);
    }
  }

  /** With non-decreasing timestamps, non-negative values integrate to a
      non-decreasing series. */
  lemma IntegrateMonotoneNonNegative(s: Series)
    requires TimesNonDecreasing(s)
    requires forall k :: 0 <= k < |s| ==> s[k].v >= 0.0
    ensures forall i, j :: 0 <= i <= j < |IntegrateSignal(s)| ==>
      IntegrateSignal(s)[i].v <= IntegrateSignal(s)[j].v
  {
    forall k | 0 <= k < |s| - 1
      ensures Step(s, k) >= 0.0
    {
      ProductNonNegative(s[k + 1].t - s[k].t, s[k].v + s[k + 1].v);
    }
    forall i, j | 0 <= i <= j < |IntegrateSignal(s)|
      ensures IntegrateSignal(s)[i].v <= IntegrateSignal(s)[j].v
    {
      AreaGrows(s, i + 1, j + 1);
    }
  }

  /** With non-decreasing timestamps, non-positive values integrate to a
      non-increasing series. */
  lemma IntegrateMonotoneNonPositive(s: Series)
    requires TimesNonDecreasing(s)
    requires forall k :: 0 <= k < |s| ==> s[k].v <= 0.0
    ensures forall i, j :: 0 <= i <= j < |IntegrateSignal(s)| ==>
      IntegrateSignal(s)[j].v <= IntegrateSignal(s)[i].v
  {
    forall k | 0 <= k < |s| - 1
      ensures Step(s, k) <= 0.0
    {
      ProductNonNegative(s[k + 1].t - s[k].t, -(s[k].v + s[k + 1].v));
    }
    forall i, j | 0 <= i <= j < |IntegrateSignal(s)|
      ensures IntegrateSignal(s)[j].v <= IntegrateSignal(s)[i].v
    {
      AreaShrinks(s, i + 1, j + 1);
    }
  }

  lemma ProductNonNegative(a: real, b: real)
    requires a >= 0.0 && b >= 0.0
    ensures a * b >= 0.0
  {
  }

  /** Three samples one second apart: `[(0,2), (1000,3), (2000,1)]`. */
  lemma IntegrateExample()
    ensures IntegrateSignal([Sample(0.0, 2.0), Sample(1000.0, 3.0), Sample(2000.0, 1.0)])
         == [Sample(1000.0, 2.5), Sample(2000.0, 4.5)]
  {
    var s := [Sample(0.0, 2.0), Sample(1000.0, 3.0), Sample(2000.0, 1.0)];
    assert Area(s, 1) == 2.5;
    assert Area(s, 2) == 4.5;
  }

  /** The same two samples in the other order integrate differently: the
      accumulation depends on sample order. */
  lemma IntegrateOrderMatters()
    ensures var a, b := [Sample(0.0, 0.0), Sample(1000.0, 2.0)], [Sample(1000.0, 2.0), Sample(0.0, 0.0)];
      multiset(a) == multiset(b) && IntegrateSignal(a) == [Sample(1000.0, 1.0)]
      && IntegrateSignal(b) == [Sample(0.0, -1.0)]
  {
    var a, b := [Sample(0.0, 0.0), Sample(1000.0, 2.0)], [Sample(1000.0, 2.0), Sample(0.0, 0.0)];
    assert Area(a, 1) == 1.0;
    assert Area(b, 1) == -1.0;
  }
}
