/** The Butterworth stage of `main`: every integrated sample's value goes
    through `butterworth.filter` once, in order, and is paired with its own
    timestamp. The filter library is not part of this model: its design step
    (`highPass`) and its per-sample update are parameters, `configure` and
    `step`, over an arbitrary filter state `S`. */
module HighPass {
  import opened TimeSeries

  /** The design call of `main`, `highPass(4, 10, 0.01)`. The library's
      argument order is `(order, sampleRate, cutoffFrequency)`, so 10 is the
      sample rate and 0.01 the cutoff frequency. */
  const Order: int := 4
  const SampleRate: real := 10.0
  const CutoffFrequency: real := 0.01

  /** A stateful map: one filter update per sample, state threaded left to right. */
  function FilterSeries<S>(s: Series, state: S, step: (S, real) -> (S, real)): (r: Series)
    ensures |r| == |s|
    ensures forall i :: 0 <= i < |s| ==> r[i].t == s[i].t
  {
    if |s| == 0 then []
    else
      var next := step(state, s[0].v);
      [Sample(s[0].t, next.1)] + FilterSeries(s[1..], next.0, step)
  }

  /** The filter state after the first `k` samples have gone through `step`. */
  function StateAfter<S>(s: Series, state: S, step: (S, real) -> (S, real), k: nat): S
    requires k <= |s|
  {
    if k == 0 then state else step(StateAfter(s, state, step, k - 1), s[k - 1].v).0
  }

  /** Starting one sample later from the state after that sample reaches the same state. */
  lemma {:induction false} StateAfterShift<S>(s: Series, state: S, step: (S, real) -> (S, real), k: nat)
    requires k + 1 <= |s|
    ensures StateAfter(s[1..], step(state, s[0].v).0, step, k) == StateAfter(s, state, step, k + 1)
  {
    if k > 0 {
      StateAfterShift(s, state, step, k - 1);
      assert s[1..][k - 1] == s[k];
    }
  }

  /** Output `i` is what `step` returns for sample `i`'s value, fed the state
      left by the `i` samples before it: one update per sample, in order. */
  lemma {:induction false} FilterSeriesValues<S>(s: Series, state: S, step: (S, real) -> (S, real))
    ensures forall i :: 0 <= i < |s| ==>
      FilterSeries(s, state, step)[i].v == step(StateAfter(s, state, step, i), s[i].v).1
  {
    if |s| > 0 {
      var next := step(state, s[0].v);
      FilterSeriesValues(s[1..], next.0, step);
      forall i | 0 < i < |s|
        ensures FilterSeries(s, state, step)[i].v == step(StateAfter(s, state, step, i), s[i].v).1
      {
        StateAfterShift(s, state, step, i - 1);
        assert FilterSeries(s, state, step)[i] == FilterSeries(s[1..], next.0, step)[i - 1];
        assert s[1..][i - 1] == s[i];
      }
    }
  }

  /** Causality: the first `k` outputs depend only on the first `k` inputs. */
  lemma {:induction false} FilterSeriesPrefix<S>(s: Series, state: S, step: (S, real) -> (S, real), k: nat)
    requires k <= |s|
    ensures FilterSeries(s[..k], state, step) == FilterSeries(s, state, step)[..k]
  {
    if k > 0 {
      var next := step(state, s[0].v);
      assert s[..k][1..] == s[1..][..k - 1];
      FilterSeriesPrefix(s[1..], next.0, step, k - 1);
    }
  }

  /** The filter never sees timestamps: two series with the same values give
      the same output values. */
  lemma {:induction false} FilterSeriesIgnoresTime<S>(s: Series, u: Series, state: S, step: (S, real) -> (S, real))
    requires |s| == |u|
    requires forall i :: 0 <= i < |s| ==> s[i].v == u[i].v
    ensures forall i :: 0 <= i < |s| ==> FilterSeries(s, state, step)[i].v == FilterSeries(u, state, step)[i].v
  {
    if |s| > 0 {
      var next := step(state, s[0].v);
      FilterSeriesIgnoresTime(s[1..], u[1..], next.0, step);
      var r, q := FilterSeries(s, state, step), FilterSeries(u, state, step);
      forall i | 0 < i < |s|
        ensures r[i].v == q[i].v
      {
        assert r[i] == FilterSeries(s[1..], next.0, step)[i - 1];
        assert q[i] == FilterSeries(u[1..], next.0, step)[i - 1];
      }
    }
  }
}
