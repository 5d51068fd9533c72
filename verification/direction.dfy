/** `calcDirection`: the sign attached to a vector magnitude. The loop keeps a
    running "max" that starts at 0, and replaces it by the SIGNED value `v`
    whenever the stored max is below `|v|`; the direction is -1 exactly when
    the final stored value is negative. */
module Direction {

  function Abs(x: real): real
  {
    if x < 0.0 then -x else x
  }

  /** One iteration of the loop: compare against `|v|`, store the signed `v`. */
  function Track(max: real, v: real): real
  {
    if max < Abs(v) then v else max
  }

  /** The stored max after the loop has consumed all of `vs`, left to right. */
  function StoredMax(vs: seq<real>): real
  {
    if |vs| == 0 then 0.0 else Track(StoredMax(vs[..|vs| - 1]), vs[|vs| - 1])
  }

  /** Iteration `k` overwrites the stored max. */
  predicate Replaces(vs: seq<real>, k: nat)
    requires k < |vs|
  {
    StoredMax(vs[..k]) < Abs(vs[k])
  }

  function CalcDirection(vs: seq<real>): (d: int)
    ensures d == 1 || d == -1
  {
    if StoredMax(vs) < 0.0 then -1 else 1
  }

  /** Consuming one more value either stores it or keeps the previous max. */
  lemma StoredMaxStep(vs: seq<real>, j: nat)
    requires j < |vs|
    ensures StoredMax(vs[..j + 1]) == if Replaces(vs, j) then vs[j] else StoredMax(vs[..j])
  {
    assert vs[..j + 1][..j] == vs[..j];
  }

  /** With no negative input the stored max never drops below 0. */
  lemma {:induction false} StoredMaxNonNegative(vs: seq<real>)
    requires forall k :: 0 <= k < |vs| ==> vs[k] >= 0.0
    ensures StoredMax(vs) >= 0.0
  {
    if |vs| > 0 {
      StoredMaxNonNegative(vs[..|vs| - 1]);
    }
  }

  /** The direction is +1 for an empty input and for inputs that are all >= 0. */
  lemma DirectionOfNonNegative(vs: seq<real>)
    requires forall k :: 0 <= k < |vs| ==> vs[k] >= 0.0
    ensures CalcDirection(vs) == 1
  {
    StoredMaxNonNegative(vs);
  }

  /** With all inputs strictly negative every iteration stores its value, so
      the stored max is the last input. */
  lemma {:induction false} StoredMaxAllNegative(vs: seq<real>)
    requires |vs| > 0
    requires forall k :: 0 <= k < |vs| ==> vs[k] < 0.0
    ensures StoredMax(vs) == vs[|vs| - 1]
  {
    var p := vs[..|vs| - 1];
    if |p| > 0 {
      StoredMaxAllNegative(p);
    }
  }

  /** All strictly negative inputs give direction -1 (not +1). */
  lemma DirectionOfAllNegative(vs: seq<real>)
    requires |vs| > 0
    requires forall k :: 0 <= k < |vs| ==> vs[k] < 0.0
    ensures CalcDirection(vs) == -1
  {
    StoredMaxAllNegative(vs);
  }

  /** Once iteration `k` stores its value and no later iteration overwrites
      it, it stays the stored max. */
  lemma {:induction false} StoredMaxKept(vs: seq<real>, k: nat, m: nat)
    requires k < m <= |vs|
    requires Replaces(vs, k)
    requires forall j :: k < j < |vs| ==> !Replaces(vs, j)
    ensures StoredMax(vs[..m]) == vs[k]
  {
    StoredMaxStep(vs, m - 1);
    if m - 1 > k {
      StoredMaxKept(vs, k, m - 1);
    }
  }

  /** Without any overwrite the stored max keeps its initial 0. */
  lemma {:induction false} StoredMaxUntouched(vs: seq<real>, m: nat)
    requires m <= |vs|
    requires forall j :: 0 <= j < |vs| ==> !Replaces(vs, j)
    ensures StoredMax(vs[..m]) == 0.0
  {
    if m > 0 {
      StoredMaxStep(vs, m - 1);
      StoredMaxUntouched(vs, m - 1);
    }
  }

  /** The direction is the sign of the last value that overwrote the stored
      max, and +1 when no value ever did. */
  lemma DirectionOfLastReplacement(vs: seq<real>)
    ensures forall k :: 0 <= k < |vs| && Replaces(vs, k) && (forall j :: k < j < |vs| ==> !Replaces(vs, j))
              ==> CalcDirection(vs) == (if vs[k] < 0.0 then -1 else 1)
    ensures (forall j :: 0 <= j < |vs| ==> !Replaces(vs, j)) ==> CalcDirection(vs) == 1
  {
    assert vs[..|vs|] == vs;
    forall k | 0 <= k < |vs| && Replaces(vs, k) && (forall j :: k < j < |vs| ==> !Replaces(vs, j))
      ensures CalcDirection(vs) == (if vs[k] < 0.0 then -1 else 1)
    {
      StoredMaxKept(vs, k, |vs|);
    }
    if forall j :: 0 <= j < |vs| ==> !Replaces(vs, j) {
      StoredMaxUntouched(vs, |vs|);
    }
  }

  /** For every input: the direction is -1 exactly when the last value is
      negative and overwrites the stored max. A negative stored max is
      overwritten by any later value, so no earlier value can decide -1. */
  lemma DirectionNegativeIff(vs: seq<real>)
    ensures CalcDirection(vs) == -1 <==> |vs| > 0 && vs[|vs| - 1] < 0.0 && Replaces(vs, |vs| - 1)
  {
    if |vs| > 0 {
      StoredMaxStep(vs, |vs| - 1);
      assert vs[..|vs|] == vs;
    }
  }

  /** The rule is not "sign of the largest magnitude": -3 has the largest
      magnitude below, yet the later 1 overwrites the stored -3. */
  lemma DirectionIgnoresLargestMagnitude()
    ensures CalcDirection([-3.0, 1.0]) == 1
    ensures CalcDirection([1.0, -3.0]) == -1
  {
    var a := [-3.0, 1.0];
    assert a[..1][..0] == [] && a[..1] == [-3.0] && a[..2] == a;
    var b := [1.0, -3.0];
    assert b[..1][..0] == [] && b[..1] == [1.0] && b[..2] == b;
    assert StoredMax(b[..1]) == 1.0;
    assert StoredMax(b) == Track(1.0, -3.0);
  }
}
