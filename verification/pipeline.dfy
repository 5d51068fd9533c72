/** The stage composition of `main`: take field 2 of every record, smooth with
    a window of 10, subtract the mean, integrate, run the high-pass filter,
    integrate again. Four artifacts are written along the way (the raw axis,
    the detrended series, the filtered integral and the second integral).
    Only `IOException` is caught, so the `NoSuchElementException` of an empty
    mean and the `ArrayIndexOutOfBoundsException` of a short record end the
    run with the artifacts written so far. */
module Pipeline {
  import opened Results
  import opened TimeSeries
  import opened Extraction
  import opened MovingAverage
  import opened Detrend
  import opened Integration
  import opened HighPass

  const WindowSize: nat := 10
  const Axis: int := 2

  datatype Failure = RecordTooShort(index: nat) | EmptyMean

  datatype Stages = Stages(
    raw: Series,
    filtered: Series,
    mean: real,
    subtracted: Series,
    integrated: Series,
    filteredIntegral: Series,
    integrated2: Series)

  datatype Outcome =
    | Completed(stages: Stages, written: seq<Series>)
    | Aborted(written: seq<Series>, failure: Failure)

  /** The series `main` writes, in the order it writes them. */
  function Artifacts(st: Stages): seq<Series>
  {
    [st.raw, st.subtracted, st.filteredIntegral, st.integrated2]
  }

  /** Every record has the field the pipeline extracts. */
  predicate WellFormed(records: seq<Record>)
  {
    forall i :: 0 <= i < |records| ==> HasField(records[i], Axis)
  }

  function Run<S>(records: seq<Record>, configure: (int, real, real) -> S, step: (S, real) -> (S, real)): (o: Outcome)
    ensures o.Completed? <==> WellFormed(records) && |records| > WindowSize
    ensures o.Completed? ==> o.written == Artifacts(o.stages) && |o.written| == 4
    ensures o.Completed? ==> var st := o.stages;
      && st.raw == ExtractAxis(records, Axis).value
      && st.filtered == FilterSignal(st.raw, WindowSize)
      && MeanValue(st.filtered) == Some(st.mean)
      && st.subtracted == Subtract(st.filtered, st.mean)
      && st.integrated == IntegrateSignal(st.subtracted)
      && st.filteredIntegral == FilterSeries(st.integrated, configure(Order, SampleRate, CutoffFrequency), step)
      && st.integrated2 == IntegrateSignal(st.filteredIntegral)
    ensures o.Aborted? && o.failure.RecordTooShort? <==> !WellFormed(records)
    ensures o.Aborted? && o.failure.EmptyMean? ==> o.written == [ExtractAxis(records, Axis).value]
    ensures o.Aborted? && o.failure.EmptyMean? ==> |o.written| == 1 && |o.written[0]| == |records|
    ensures o.Aborted? && o.failure.RecordTooShort? ==> o.written == []
    ensures o.Aborted? && o.failure.RecordTooShort? ==>
      o.failure.index < |records| && !HasField(records[o.failure.index], Axis)
  {
    match ExtractAxis(records, Axis)
    case Err(i) => Aborted([], RecordTooShort(i))
    case Ok(raw) =>
      var filtered := FilterSignal(raw, WindowSize);
      match MeanValue(filtered)
      case None => Aborted([raw], EmptyMean)
      case Some(m) =>
        var subtracted := Subtract(filtered, m);
        var integrated := IntegrateSignal(subtracted);
        // `butterworth.highPass(4, 10, 0.01)`, then one `filter` call per sample.
        var filteredIntegral := FilterSeries(integrated, configure(Order, SampleRate, CutoffFrequency), step);
        var st := Stages(raw, filtered, m, subtracted, integrated, filteredIntegral,
                         IntegrateSignal(filteredIntegral));
        Completed(st, Artifacts(st))
  }

  /** A bad record aborts before anything is written, naming the first bad record. */
  lemma RunFirstBadRecord<S>(records: seq<Record>, configure: (int, real, real) -> S,
                             step: (S, real) -> (S, real), i: nat)
    requires i < |records| && !HasField(records[i], Axis)
    requires forall j :: 0 <= j < i ==> HasField(records[j], Axis)
    ensures Run(records, configure, step) == Aborted([], RecordTooShort(i))
  {
  }

  /** At most 10 well-formed records leave the smoothed series empty: the raw
      artifact is written, then the mean fails. */
  lemma RunShortInput<S>(records: seq<Record>, configure: (int, real, real) -> S, step: (S, real) -> (S, real))
    requires WellFormed(records) && |records| <= WindowSize
    ensures Run(records, configure, step).Aborted?
    ensures Run(records, configure, step).failure == EmptyMean
    ensures Run(records, configure, step).written
         == [seq(|records|, i requires 0 <= i < |records| => Sample(records[i][0], records[i][Axis]))]
  {
    var raw := ExtractAxis(records, Axis).value;
    assert raw == seq(|records|, i requires 0 <= i < |records| => Sample(records[i][0], records[i][Axis]));
  }

  /** Stage lengths `n, n-10, n-10, n-11, n-11, n-12` for `n >= 11` records,
      except that 11 records leave the second integral empty rather than at -1. */
  lemma RunLengths<S>(records: seq<Record>, configure: (int, real, real) -> S, step: (S, real) -> (S, real))
    requires WellFormed(records) && |records| > WindowSize
    ensures var st := Run(records, configure, step).stages; var n := |records|;
      |st.raw| == n && |st.filtered| == n - 10 && |st.subtracted| == n - 10
      && |st.integrated| == n - 11 && |st.filteredIntegral| == n - 11 && |st.integrated2| == (if n > 11 then n - 12 else 0)
  {
    var raw := ExtractAxis(records, Axis).value;
    var filtered := FilterSignal(raw, WindowSize);
    assert |filtered| == |records| - 10;
  }

  /** Timestamp bookkeeping: the raw series carries field 0 and field 2 of each
      record; the detrended series starts at record 0, the filtered integral at
      record 1 and the second integral at record 2. */
  lemma RunTimestamps<S>(records: seq<Record>, configure: (int, real, real) -> S, step: (S, real) -> (S, real))
    requires WellFormed(records) && |records| > WindowSize
    ensures var st := Run(records, configure, step).stages;
      (forall i :: 0 <= i < |st.raw| ==> st.raw[i] == Sample(records[i][0], records[i][Axis]))
      && (forall i :: 0 <= i < |st.subtracted| ==> st.subtracted[i].t == records[i][0])
      && (forall i :: 0 <= i < |st.filteredIntegral| ==> st.filteredIntegral[i].t == records[i + 1][0])
      && (forall i :: 0 <= i < |st.integrated2| ==> st.integrated2[i].t == records[i + 2][0])
  {
  }

  /** The detrended artifact sums to exactly 0, and each of its values is the
      smoothed value minus the mean of the smoothed series. */
  lemma RunDetrended<S>(records: seq<Record>, configure: (int, real, real) -> S, step: (S, real) -> (S, real))
    requires WellFormed(records) && |records| > WindowSize
    ensures ValueSum(Run(records, configure, step).stages.subtracted) == 0.0
    ensures var st := Run(records, configure, step).stages;
      forall i :: 0 <= i < |st.subtracted| ==> st.subtracted[i].v == st.filtered[i].v - st.mean
  {
    var raw := ExtractAxis(records, Axis).value;
    var filtered := FilterSignal(raw, WindowSize);
    var m := MeanValue(filtered).value;
    assert Run(records, configure, step).stages.filtered == filtered;
    assert Run(records, configure, step).stages.mean == m;
    assert Run(records, configure, step).stages.subtracted == Subtract(filtered, m);
    DetrendedSumIsZero(filtered);
  }
}
