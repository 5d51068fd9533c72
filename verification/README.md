# Accelerometer displacement pipeline, modelled in Dafny

The repository is one Java class, `Main`. It reads a CSV file of accelerometer records `t, x, y, z`, takes one axis of each record, and turns the resulting time series into a displacement estimate. The stages are:

1. extract field 2 of every record;
2. smooth with a sliding-window mean of width 10;
3. subtract the mean of the smoothed series;
4. integrate with the cumulative trapezoidal rule;
5. run the result through a 4th-order Butterworth high-pass filter;
6. integrate again.

Four of the intermediate series are written to files.

This project models the pure numeric part of that class over exact `real` arithmetic. A series is a `seq<Sample>` with `Sample(t, v)`, and a record is an already-parsed `seq<real>`. The modules are:

- `TimeSeries`: samples, and the sum of a series' values.
- `Direction` (`calcDirection`): the sign rule, as a fold with a running signed "max".
- `Extraction` (`getSingleAxis`, `calcMagnitude`): per-record extraction. An index past the end of a record is an error value, not a precondition.
- `MovingAverage` (`filterSignal`): the sliding-window mean.
- `Detrend` (`getMeanValue` and the subtraction map in `main`): the mean is `None` on an empty series, which is where Java's `getAsDouble()` throws.
- `Integration` (`integrateSignal`): a left-to-right fold with a running accumulator. It is proved equal to a reference prefix sum of trapezoids (`Area`).
- `HighPass`: the Butterworth stage. The filter is an arbitrary state type `S` with a design function `configure` and a per-sample update `step`, both passed in as parameters. The stage maps values one sample at a time and keeps timestamps.
- `Pipeline` (`main`): the stage composition. The result is either all stages or an abort, together with the artifacts written before the abort.

### Where the code differs from a natural reading

The model follows the code in each of these cases.

- `filterSignal` ranges over `[0, size - windowSize)`. So it produces `n - w` outputs, not `n - w + 1`. A window of 1 drops the last sample; it is not the identity (`FilterWindowOne`). Four samples with a window of 2 give two outputs, not three (`FilterExample`). The code never rejects a window larger than the series: the output is just empty.
- `calcDirection` compares against `|v|` but stores the signed `v`. If every input is strictly negative, the result is -1, not +1 (`DirectionOfAllNegative`). The rule is also not "sign of the largest magnitude": `[-3, 1]` gives +1 (`DirectionIgnoresLargestMagnitude`).
- With 10 or fewer records the smoothed series is empty. `getMeanValue` then throws `NoSuchElementException`. That is not an `IOException`, so the `catch` in `main` does not handle it. The run ends after the raw artifact has been written, and an empty input file does not produce four empty outputs (`RunShortInput`).
- With exactly 11 records, the second integral is empty. It is not of length `n - 12` (`RunLengths`).

## Model

| member | source | states |
|---|---|---|
| `Direction.CalcDirection` | src/main/java/edu/smu/signalprocessing/Main.java:24-32 | the direction is always +1 or -1 |
| `Direction.DirectionOfNonNegative` | src/main/java/edu/smu/signalprocessing/Main.java:24-31 | empty input, or input with every value >= 0, gives +1 |
| `Direction.DirectionOfAllNegative` | src/main/java/edu/smu/signalprocessing/Main.java:24-31 | non-empty input with every value < 0 gives -1, because each value overwrites the stored signed max |
| `Direction.DirectionOfLastReplacement` | src/main/java/edu/smu/signalprocessing/Main.java:24-31 | the direction is the sign of the last value whose absolute value exceeded the stored max, and +1 when no value ever did |
| `Direction.DirectionNegativeIff` | src/main/java/edu/smu/signalprocessing/Main.java:24-31 | for every input, the direction is -1 exactly when the last value is negative and overwrites the stored max |
| `Direction.DirectionIgnoresLargestMagnitude` | src/main/java/edu/smu/signalprocessing/Main.java:26-31 | `[-3, 1]` gives +1 and `[1, -3]` gives -1: the result is not the sign of the largest-magnitude value |
| `Extraction.SingleAxis` | src/main/java/edu/smu/signalprocessing/Main.java:44-49 | succeeds exactly when the axis indexes into the record, and yields `(r[0], r[axis])` |
| `Extraction.ExtractAxis` | src/main/java/edu/smu/signalprocessing/Main.java:105-107 | succeeds exactly when every record has the axis. Then it gives one sample per record, in order. Otherwise it names the first record that is too short |
| `Extraction.Magnitude` | src/main/java/edu/smu/signalprocessing/Main.java:34-42 | defined exactly on records of at least four fields. It keeps `r[0]` as timestamp, and its value is the square root of `x²+y²+z²` times `calcDirection(x, y, z)` |
| `Extraction.MagnitudeNegativeIff` | src/main/java/edu/smu/signalprocessing/Main.java:24-40 | with a positive root, the magnitude is negative exactly when `z` is negative and overwrites the max stored after `x` and `y` |
| `Extraction.MagnitudeMixedSigns` | src/main/java/edu/smu/signalprocessing/Main.java:24-40 | the mixed-sign record `(1, 2, -3)` gets a negative magnitude |
| `Extraction.MagnitudeOfNegativeAxes` | src/main/java/edu/smu/signalprocessing/Main.java:34-42 | three strictly negative components give a negative magnitude |
| `Extraction.MagnitudeOfNonNegativeAxes` | src/main/java/edu/smu/signalprocessing/Main.java:34-42 | three non-negative components give a non-negative magnitude |
| `MovingAverage.FilterSignal` | src/main/java/edu/smu/signalprocessing/Main.java:67-78 | the output length is `max(0, n - w)`, and every read window lies inside the input. Output `i` keeps the timestamp of the window's first sample, and its value is the window sum over `w` |
| `MovingAverage.FilterWindowOne` | src/main/java/edu/smu/signalprocessing/Main.java:67-78 | a window of 1 returns the input without its last sample |
| `MovingAverage.FilterSlide` | src/main/java/edu/smu/signalprocessing/Main.java:70-75 | `w` times the difference of consecutive outputs equals the entering value minus the leaving value |
| `MovingAverage.FilterBounds` | src/main/java/edu/smu/signalprocessing/Main.java:70-75 | any bounds that hold for all input values also hold for all output values |
| `MovingAverage.FilterConstant` | src/main/java/edu/smu/signalprocessing/Main.java:70-75 | a constant signal is smoothed to the same constant |
| `MovingAverage.FilterExample` | src/main/java/edu/smu/signalprocessing/Main.java:67-78 | `[(0,1),(1,2),(2,3),(3,4)]` with window 2 gives `[(0,1.5),(1,2.5)]` |
| `Detrend.MeanValue` | src/main/java/edu/smu/signalprocessing/Main.java:89-95 | fails exactly on the empty series. Otherwise it is the value that, multiplied by the length, gives the sum |
| `Detrend.Subtract` | src/main/java/edu/smu/signalprocessing/Main.java:122-124 | preserves length and every timestamp, and lowers every value by the constant |
| `Detrend.SubtractSum` | src/main/java/edu/smu/signalprocessing/Main.java:122-124 | subtracting `c` lowers the value sum by `n * c` |
| `Detrend.SubtractInverse` | src/main/java/edu/smu/signalprocessing/Main.java:122-124 | subtracting `-c` undoes subtracting `c` |
| `Detrend.DetrendedSumIsZero` | src/main/java/edu/smu/signalprocessing/Main.java:118-124 | on a non-empty series, the mean-subtracted values sum to exactly 0 and their mean is 0 |
| `Integration.Accumulate` | src/main/java/edu/smu/signalprocessing/Main.java:54-64 | from pair `i` with accumulator `acc`, output `j` has the timestamp of sample `i+j+1` and value `acc` plus the trapezoids from `i` up to that sample |
| `Integration.IntegrateSignal` | src/main/java/edu/smu/signalprocessing/Main.java:51-65 | the length is `max(0, n - 1)`, with no failure on 0 or 1 samples. Output `i` has timestamp `s[i+1].t` and value equal to the prefix sum of the first `i+1` trapezoids `Δt·(v₁+v₂)/2000` |
| `Integration.IntegrateIncrement` | src/main/java/edu/smu/signalprocessing/Main.java:59-62 | consecutive outputs differ by exactly one trapezoid |
| `Integration.IntegrateMonotoneNonNegative` | src/main/java/edu/smu/signalprocessing/Main.java:59-62 | with non-decreasing timestamps, non-negative values integrate to a non-decreasing series |
| `Integration.IntegrateMonotoneNonPositive` | src/main/java/edu/smu/signalprocessing/Main.java:59-62 | with non-decreasing timestamps, non-positive values integrate to a non-increasing series |
| `Integration.IntegrateExample` | src/main/java/edu/smu/signalprocessing/Main.java:51-65 | `[(0,2),(1000,3),(2000,1)]` integrates to `[(1000,2.5),(2000,4.5)]` |
| `Integration.IntegrateOrderMatters` | src/main/java/edu/smu/signalprocessing/Main.java:51-65 | the same multiset of samples in two orders integrates to different series |
| `HighPass.FilterSeries` | src/main/java/edu/smu/signalprocessing/Main.java:130-132 | the filter stage preserves length and every timestamp |
| `HighPass.FilterSeriesValues` | src/main/java/edu/smu/signalprocessing/Main.java:130-132 | output `i`'s value is what `step` returns for sample `i`'s value, given the filter state left by the `i` samples before it |
| `HighPass.FilterSeriesPrefix` | src/main/java/edu/smu/signalprocessing/Main.java:130-132 | the filter is causal: filtering a prefix gives the prefix of the filtered series |
| `HighPass.FilterSeriesIgnoresTime` | src/main/java/edu/smu/signalprocessing/Main.java:130-132 | two series with equal values get equal filtered values, whatever their timestamps |
| `Pipeline.Run` | src/main/java/edu/smu/signalprocessing/Main.java:97-145 | the run completes exactly when every record has field 2 and there are at least 11 records. A short record aborts before anything is written. An empty mean aborts after the raw artifact is written. A completed run writes the raw, detrended, filtered-integral and second-integral series, in that order |
| `Pipeline.RunFirstBadRecord` | src/main/java/edu/smu/signalprocessing/Main.java:104-107 | the abort names the first record without field 2 |
| `Pipeline.RunShortInput` | src/main/java/edu/smu/signalprocessing/Main.java:105-118 | with at most 10 well-formed records, the raw axis series is written and then the mean fails |
| `Pipeline.RunLengths` | src/main/java/edu/smu/signalprocessing/Main.java:105-138 | the stage lengths are `n, n-10, n-10, n-11, n-11` and `max(0, n-12)` |
| `Pipeline.RunTimestamps` | src/main/java/edu/smu/signalprocessing/Main.java:105-138 | the raw series holds `(r[0], r[2])` per record. The detrended, filtered-integral and second-integral artifacts start at the timestamps of records 0, 1 and 2 |
| `Pipeline.RunDetrended` | src/main/java/edu/smu/signalprocessing/Main.java:116-126 | the detrended artifact is the smoothed series minus its mean, and it sums to exactly 0 |

## Left out

- `readFile` and `writeStreamToFile` are file I/O. `main`'s records arrive already read and parsed, and "written" means the series that `main` hands to `writeStreamToFile`. The `%.0f,%f` output formatting is not modelled, and an `IOException` from a missing or unwritable file is not modelled either.
- `String.split` and `Double.parseDouble` are library parsing. A record is a `seq<real>`, so a `NumberFormatException` on malformed text is not modelled.
- `Math.sqrt` in `calcMagnitude` is a function parameter `sqrt`, because it is irrational and floating point. `calcMagnitude` itself is never called by `main`.
- The Butterworth library is not part of this model. That covers coefficient design and internal state. `highPass(4, 10, 0.01)` is modelled as a `configure` parameter applied to the order 4, sample rate 10 and cutoff frequency 0.01, in the library's argument order. `filter` is modelled as a `step` parameter.
- IEEE-754 rounding, NaN and infinities, and the `DoubleAdder` accumulation are not modelled. All arithmetic is exact `real`, so results that depend on rounding order are not captured.
- `MovingAverage.FilterSignal`: requires a window of at least 1. A window of 0 divides 0 by 0 in `double` (NaN), which has no `real` counterpart. A negative window cannot occur, because `main` uses 10.
- The hard-coded paths and the `System.out.printf` / `System.err` output are not modelled.
- The commented-out alternative at Main.java:134 is not modelled.
- 32-bit `int` arithmetic is not modelled, because series sizes never approach its range.
