/** `getSingleAxis` and `calcMagnitude`: turning one already-parsed record
    `t, x, y, z` into one sample. Indexing past the record's end throws
    `ArrayIndexOutOfBoundsException` in Java, modelled here as `None`. */
module Extraction {
  import opened Results
  import opened TimeSeries
  import Direction

  type Record = seq<real>

  /** Field `axis` of the record can be read (and then field 0 can too). */
  predicate HasField(r: Record, axis: int)
  {
    0 <= axis < |r|
  }

  /** The timestamp paired with the selected field. */
  function SingleAxis(r: Record, axis: int): (o: Option<Sample>)
    ensures o.Some? <==> HasField(r, axis)
    ensures o.Some? ==> o.value.t == r[0] && o.value.v == r[axis]
  {
    if 0 <= axis < |r| then Some(Sample(r[0], r[axis])) else None
  }

  /** The record stream mapped through `SingleAxis`, in order; the sequential
      stream stops at the first record that is too short, reported by index. */
  function ExtractAxis(records: seq<Record>, axis: int): (o: Result<Series, nat>)
    ensures o.Ok? <==> forall i :: 0 <= i < |records| ==> HasField(records[i], axis)
    ensures o.Ok? ==> |o.value| == |records|
    ensures o.Ok? ==> forall i :: 0 <= i < |records| ==> o.value[i] == Sample(records[i][0], records[i][axis])
    ensures o.Err? ==> o.error < |records| && !HasField(records[o.error], axis)
    ensures o.Err? ==> forall i :: 0 <= i < o.error ==> HasField(records[i], axis)
  {
    if |records| == 0 then Ok([])
    else
      match SingleAxis(records[0], axis)
      case None => Err(0)
      case Some(x) =>
        match ExtractAxis(records[1..], axis)
        case Ok(rest) => Ok([x] + rest)
        case Err(i) => Err(i + 1)
  }

  /** `calcMagnitude`: the Euclidean norm of `x, y, z` times `calcDirection`.
      `Math.sqrt` is not modelled; it is passed in as `sqrt`. */
  function Magnitude(r: Record, sqrt: real -> real): (o: Option<Sample>)
    ensures o.Some? <==> |r| >= 4
    ensures o.Some? ==> o.value.t == r[0]
    ensures o.Some? ==> var n := sqrt(r[1] * r[1] + r[2] * r[2] + r[3] * r[3]);
      o.value.v == n * (Direction.CalcDirection([r[1], r[2], r[3]]) as real)
  {
    if |r| < 4 then None
    else
      var n := sqrt(r[1] * r[1] + r[2] * r[2] + r[3] * r[3]);
      Some(Sample(r[0], n * Direction.CalcDirection([r[1], r[2], r[3]]) as real))
  }

  /** With a positive square root the magnitude is negative exactly when `z`
      is negative and overwrites the max stored after `x` and `y`: neither `x`
      nor `y` alone can make it negative. */
  lemma MagnitudeNegativeIff(r: Record, sqrt: real -> real)
    requires |r| >= 4
    requires sqrt(r[1] * r[1] + r[2] * r[2] + r[3] * r[3]) > 0.0
    ensures Magnitude(r, sqrt).value.v < 0.0
        <==> r[3] < 0.0 && Direction.Replaces([r[1], r[2], r[3]], 2)
  {
    Direction.DirectionNegativeIff([r[1], r[2], r[3]]);
  }

  /** A mixed-sign record: `(1, 2, -3)` is negative, since -3 overwrites the stored 2. */
  lemma MagnitudeMixedSigns(sqrt: real -> real)
    requires sqrt(14.0) > 0.0
    ensures Magnitude([0.0, 1.0, 2.0, -3.0], sqrt).value.v < 0.0
  {
    var vs := [1.0, 2.0, -3.0];
    assert vs[..2][..1] == [1.0] && vs[..2][..1][..0] == [];
    assert Direction.StoredMax(vs[..2][..1]) == 1.0;
    assert Direction.StoredMax(vs[..2]) == 2.0;
    MagnitudeNegativeIff([0.0, 1.0, 2.0, -3.0], sqrt);
  }

  /** Three strictly negative components give a negative magnitude whenever
      the square root is positive. */
  lemma MagnitudeOfNegativeAxes(r: Record, sqrt: real -> real)
    requires |r| >= 4 && r[1] < 0.0 && r[2] < 0.0 && r[3] < 0.0
    requires sqrt(r[1] * r[1] + r[2] * r[2] + r[3] * r[3]) > 0.0
    ensures Magnitude(r, sqrt).Some? && Magnitude(r, sqrt).value.v < 0.0
  {
    Direction.DirectionOfAllNegative([r[1], r[2], r[3]]);
  }

  /** Three non-negative components give a non-negative magnitude whenever the
      square root is non-negative. */
  lemma MagnitudeOfNonNegativeAxes(r: Record, sqrt: real -> real)
    requires |r| >= 4 && r[1] >= 0.0 && r[2] >= 0.0 && r[3] >= 0.0
    requires sqrt(r[1] * r[1] + r[2] * r[2] + r[3] * r[3]) >= 0.0
    ensures Magnitude(r, sqrt).Some? && Magnitude(r, sqrt).value.v >= 0.0
  {
    Direction.DirectionOfNonNegative([r[1], r[2], r[3]]);
  }
}
