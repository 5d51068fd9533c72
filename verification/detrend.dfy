/** `getMeanValue` and the mean-subtraction map of `main`. The Java mean ends
    in `getAsDouble()`, which throws `NoSuchElementException` on an empty
    stream; that failure is `None` here. */
module Detrend {
  import opened Results
  import opened TimeSeries

  function MeanValue(s: Series): (m: Option<real>)
    ensures m.None? <==> |s| == 0
    ensures m.Some? ==> m.value * (|s| as real) == ValueSum(s)
  {
    if |s| == 0 then None else Some(ValueSum(s) / (|s| as real))
  }

  /** Every value shifted down by `c`; timestamps untouched. */
  function Subtract(s: Series, c: real): (r: Series)
    ensures |r| == |s|
    ensures forall i :: 0 <= i < |s| ==> r[i].t == s[i].t && r[i].v + c == s[i].v
  {
    seq(|s|, i requires 0 <= i < |s| => Sample(s[i].t, s[i].v - c))
  }

  /** Subtracting `c` lowers the sum by `c` once per sample. */
  lemma {:induction false} SubtractSum(s: Series, c: real)
    ensures ValueSum(Subtract(s, c)) == ValueSum(s) - (|s| as real) * c
  {
    if |s| > 0 {
      assert Subtract(s, c)[1..] == Subtract(s[1..], c);
      SubtractSum(s[1..], c);
      assert (|s| as real) * c == (|s[1..]| as real) * c + c;
    }
  }

  /** Subtracting `-c` undoes subtracting `c`. */
  lemma SubtractInverse(s: Series, c: real)
    ensures Subtract(Subtract(s, c), -c) == s
  {
  }

  /** After removing the mean, the values sum, and so average, to exactly 0. */
  lemma DetrendedSumIsZero(s: Series)
    requires |s| > 0
    ensures ValueSum(Subtract(s, MeanValue(s).value)) == 0.0
    ensures MeanValue(Subtract(s, MeanValue(s).value)) == Some(0.0)
  {
    SubtractSum(s, MeanValue(s).value);
  }
}
