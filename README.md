# EMG session and dataset analysis, modelled in Dafny

This project models the analysis core of an EMG (electromyography) toolkit.
A recording session holds stimulus trials (`recordings`). Each trial has a
stimulus voltage and one sample list per channel. From these the toolkit
computes:

- the average rectified amplitude of a channel inside an M-wave or H-reflex
  window given in milliseconds;
- a stable ordering of the trials by stimulus voltage;
- the channel-name choice, the time axis and the displayed traces of the
  overlay plots;
- the "suspected H-reflex" flags;
- per-session reflex curves (one amplitude per trial);
- for a dataset of sessions: the recordings of all sessions pooled and
  sorted, the sorted set of binned stimulus voltages, and, for every channel
  and every bin, the mean and spread of the M-wave and H-reflex amplitudes.

Modules:

- `Numeric` (`numeric.dfy`): Python's and numpy's primitives on exact reals.
  These are `abs`, `int()` (truncation toward zero), `round()` (half to
  even), slicing `s[a:b]` with negative and out-of-range bounds, `min`,
  `max`, `mean` and the population variance.
- `EmgTransform` (`emg_transform.dfy`): the helper functions of
  `emg_transform.py`. `CalculateMeanStd` keeps the source's loop and is
  proved against the function `MeanStd`.
- `EmgSession` (`emg_session.dfy`): `EMGSession`. It is a class with the
  source's fields; its methods keep the source's loops, each proved against
  a specification function.
- `EmgDataset` (`emg_dataset.dfy`): `EMGDataset`. It is a class whose
  pooling loop and per-channel, per-bin aggregation loops are proved against
  `SortByVoltage(Pooled(...))`, `BinnedLevels` and `ChannelCurve`.

Modelling conventions:

- Floats are exact reals. numpy's NaN is `None` of `Option`: the mean of an
  empty window, and any statistic over a list holding a NaN.
- The standard deviation is stated as the population variance, its square.
- Python's `max`/`min` of an empty window raise; that outcome is `None`.
- The millisecond-to-sample conversion is `int(ms * scan_rate / 1000)`,
  which truncates toward zero; rounding would differ for fractional
  indices, flooring for negative times.
- Bin matching compares `round(v / bin_size) * bin_size` for equality, as
  the code does. On exact reals this is the same as comparing bin numbers
  (`SameBinIffSameIndex`).

## Model

| member | source | states |
|---|---|---|
| `EmgTransform.Rectify` | emg_transform.py:9-13 | the result has the input's length and holds the absolute value of each sample, so no sample is negative |
| `EmgTransform.RectifyIdempotent` | emg_transform.py:9-13 | rectifying twice is rectifying once |
| `EmgTransform.RectifyCommutesWithSlice` | EMG_Utils.py:199-203 | slicing the rectified channel equals rectifying the sliced channel, for every pair of slice bounds |
| `EmgTransform.SampleIndexMonotone` | emg_transform.py:19-20 | at a positive scan rate a later time never gives an earlier sample index |
| `EmgTransform.AverageAmplitude` | emg_transform.py:15-23 | the amplitude is defined (not NaN) exactly when the millisecond window holds a sample, and it is then non-negative |
| `EmgTransform.AverageAmplitudeAtMostPeak` | emg_transform.py:21-23 | a defined amplitude never exceeds the largest rectified sample of its window |
| `EmgTransform.AverageAmplitudeOfSlice` | emg_transform.py:19-23 | for non-negative indices the amplitude is the mean of the absolute values of samples `[start, min(end, len))` |
| `EmgTransform.EmptyWindowHasNoAmplitude` | emg_transform.py:19-23 | a non-negative end index not after the start index gives NaN (a negative end index counts from the end, so it need not give an empty window) |
| `EmgTransform.TenKilohertzMWindow` | emg_transform.py:19-23 | at 10 kHz the 2-4 ms window is samples 20 to 39 |
| `EmgTransform.BinnedVoltageIsNearest` | emg_transform.py:32 | the binned voltage is within half a bin of the stimulus voltage |
| `EmgTransform.SameBinIffSameIndex` | emg_transform.py:32-33 | two voltages share a binned value exactly when they share a bin number |
| `EmgTransform.MatchingMembers` | emg_transform.py:31-33 | a recording is pooled into a bin exactly when it is one of the recordings and its binned voltage equals the bin value |
| `EmgTransform.MatchingKeepsChannel` | emg_transform.py:31-34 | when every recording has a channel, every recording of a bin has it |
| `EmgTransform.MatchingConcat` | emg_transform.py:31-33 | filtering a concatenation filters each part, keeping the parts in order |
| `EmgTransform.BinningExample` | emg_transform.py:31-33 | with 0.05 V bins, 1.01 V, 1.04 V and 1.06 V fall into bins 1.00, 1.05 and 1.05, so the 1.05 V bin holds the last two |
| `EmgTransform.WindowAmplitudesSnoc` | emg_transform.py:35-38 | appending a recording appends its amplitude to the amplitude list |
| `EmgTransform.WindowAmplitudesAt` | emg_transform.py:35-38 | entry `i` of an amplitude list is the average amplitude of recording `i` |
| `EmgTransform.Describe` | emg_transform.py:39-42 | the mean and spread are defined exactly when the list is non-empty and holds no NaN; the variance is then non-negative |
| `EmgTransform.DescribeMeanWithinRange` | emg_transform.py:39 | the mean lies between the smallest and the largest amplitude |
| `EmgTransform.CalculateMeanStd` | emg_transform.py:25-43 | the loop returns exactly the statistics of the M and H amplitude lists of the recordings in the bin, in recording order |
| `EmgTransform.WindowStatistics` | emg_transform.py:35-42 | a window's statistics over a list are defined exactly when the list is non-empty and no window is empty; the mean is then non-negative |
| `EmgTransform.MeanStdDefinedAndNonNegative` | emg_transform.py:25-43 | a bin's M and H statistics are each defined exactly when the bin has a recording and none of its windows is empty; means and variances are then non-negative |
| `Numeric.ClampIndex` | EMG_Utils.py:99 | a slice bound lands inside `[0, n]`: a non-negative bound is capped at `n` and a negative one counts from the end |
| `Numeric.PySlice` | emg_transform.py:21 | a slice holds consecutive input elements from the clamped start; its length is the clamped end minus the clamped start, or 0; with non-negative bounds it is empty when the end is not after the start |
| `Numeric.TruncBounds` | emg_transform.py:19-20 | `int()` moves a value toward zero by less than one |
| `Numeric.TruncMonotone` | emg_transform.py:19-20 | `int()` is monotone |
| `Numeric.RoundHalfEvenBounds` | emg_transform.py:32 | `round()` moves a value by at most one half and sends ties to the even integer |
| `Numeric.RoundOfInteger` | emg_transform.py:32 | `round()` leaves an integer unchanged |
| `Numeric.Minimum` | EMG_Utils.py:294 | `min` is a lower bound that some element attains |
| `Numeric.Maximum` | EMG_Utils.py:294 | `max` is an upper bound that some element attains |
| `Numeric.Mean` | emg_transform.py:23 | `np.mean` is NaN exactly for an empty list |
| `Numeric.SumLowerBound` | emg_transform.py:23 | a sum of `n` values each at least `lo` is at least `n * lo` |
| `Numeric.SumUpperBound` | emg_transform.py:23 | a sum of `n` values each at most `hi` is at most `n * hi` |
| `Numeric.AverageWithin` | emg_transform.py:23 | the mean of values within `[lo, hi]` is within `[lo, hi]` |
| `Numeric.AverageBetweenExtremes` | emg_transform.py:39-42 | the mean lies between the minimum and the maximum |
| `Numeric.VarianceNonNegative` | emg_transform.py:40 | the population variance is never negative |
| `Numeric.ConstantListMoments` | emg_transform.py:39-42 | a list of equal values has that value as mean and zero variance |
| `EmgSession.InsertByVoltage` | EMG_Utils.py:61 | insertion keeps a voltage-sorted list sorted and adds exactly one element |
| `EmgSession.SortByVoltage` | EMG_Utils.py:61 | the result is sorted by stimulus voltage and is a permutation of the input |
| `EmgSession.WithVoltage` | EMG_Utils.py:61 | the recordings kept are exactly those of the input with the given voltage |
| `EmgSession.SortIsStable` | EMG_Utils.py:61 | recordings of equal voltage keep their input order |
| `EmgSession.InsertKeepsEqualVoltageOrder` | EMG_Utils.py:61 | inserting a recording puts it in front of the recordings of its voltage and moves no other |
| `EmgSession.SortedIsDeterminedByVoltageClasses` | EMG_Utils.py:61 | two sorted lists with the same recordings, in the same order at each voltage, are equal |
| `EmgSession.StableSortIsSortByVoltage` | EMG_Utils.py:61 | any stable sort by voltage returns `SortByVoltage`'s result |
| `EmgSession.Session.constructor` | EMG_Utils.py:29-41 | the metadata comes from the session file, the recordings are its recordings stably sorted, the windows come from the configuration |
| `EmgSession.Session.LoadSessionData` | EMG_Utils.py:47-61 | the seven metadata fields are copied unchanged, the recordings are stably sorted, the windows are untouched |
| `EmgSession.ChooseChannelNaming` | EMG_Utils.py:84-90 | custom names are used exactly when the list is non-empty and as long as the channel count; an error is reported exactly when it is non-empty and of another length |
| `EmgSession.PanelTitle` | EMG_Utils.py:385-401 | a panel gets the custom name of its own channel exactly when the names were accepted, otherwise the default title of its channel |
| `EmgSession.TimeValues` | EMG_Utils.py:93 | one time per sample, sample `i` at `i * 1000 / scan_rate` ms |
| `EmgSession.TimeAxisMs` | EMG_Utils.py:93-99 | the axis holds as many samples as the window index allows, each at its own time; at a scan rate of 0 the window index is 0 and the axis is empty |
| `EmgSession.DisplayTraceIsPrefix` | EMG_Utils.py:113 | for a non-negative window the raw trace is the first `n` samples and the rectified trace is their absolute values |
| `EmgSession.Session.OverlayTraces` | EMG_Utils.py:108-146 | for the sorted recordings: one row per recording, in order, and one trace per channel, each the channel cut to the display window |
| `EmgSession.Session.PlotEmg` | EMG_Utils.py:75-162 | at any scan rate: the name choice, the time axis, and each channel of each recording sliced to the display window |
| `EmgSession.Session.PlotEmgRectified` | EMG_Utils.py:164-252 | as `PlotEmg`, each trace being the rectified slice of the raw channel |
| `EmgSession.HReflexCandidate` | EMG_Utils.py:293-294 | a window is flagged exactly when two of its samples differ by more than the threshold; an empty window raises |
| `EmgSession.ChannelFlags` | EMG_Utils.py:309-311 | flags for every channel of one recording, or failure exactly when some channel's H window is empty |
| `EmgSession.Session.SuspectedH` | EMG_Utils.py:254-339 | at any scan rate: every channel of every recording is flagged exactly as `HReflexCandidate` says, and the method fails (the `ValueError` of `max([])`) exactly when some H window is empty |
| `EmgSession.Voltages` | EMG_Utils.py:373 | one stimulus voltage per recording, in order |
| `EmgSession.SessionCurvePoints` | EMG_Utils.py:366-380 | a channel's curve has one point per recording: its voltage and its M and H amplitudes; for sorted recordings the voltages do not decrease |
| `EmgSession.ChannelAmplitudes` | EMG_Utils.py:371-380 | the inner loop builds exactly the channel's curve |
| `EmgSession.Session.ReflexCurves` | EMG_Utils.py:341-417 | for the sorted recordings: the name choice and one curve per channel, each being that channel's curve with one point per recording, its voltages non-decreasing |
| `EmgDataset.Dataset.constructor` | EMG_Utils.py:433-448 | the sessions are kept, the scan rate and channel count come from the first session, the windows and bin size from the configuration |
| `EmgDataset.NewDataset` | EMG_Utils.py:440-442 | construction fails exactly for an empty session list; otherwise it holds that list, the first session's scan rate and channel count, and the configuration's windows and bin size |
| `EmgDataset.Pooled` | EMG_Utils.py:468-470 | a recording is pooled exactly when some session holds it |
| `EmgDataset.TotalRecordingsAppend` | EMG_Utils.py:469-470 | the recording count of sessions plus one more adds that session's count |
| `EmgDataset.PooledLength` | EMG_Utils.py:468-470 | the pool is exactly as long as all sessions' recording lists together |
| `EmgDataset.Dataset.SortedPooledRecordings` | EMG_Utils.py:468-471 | the loop pools every session in order; the result is the stable sort of the pool, sorted, a permutation of it, and as long as all sessions together |
| `EmgDataset.AddLevel` | EMG_Utils.py:481 | adding a level keeps the list ascending and duplicate-free, and it holds exactly the old levels and the new one |
| `EmgDataset.BinnedLevels` | EMG_Utils.py:481 | the levels are strictly ascending and are exactly the binned voltages of the recordings |
| `EmgDataset.AscendingListIsDeterminedByElements` | EMG_Utils.py:481 | an ascending duplicate-free list is determined by its elements, so the levels are the sorted set whatever the set's order |
| `EmgDataset.LevelHasRecordings` | EMG_Utils.py:481-490 | every level's bin holds at least one recording |
| `EmgDataset.ChannelCurveAt` | EMG_Utils.py:489-494 | point `k` of a channel's curve is the `calculate_mean_std` result of level `k` |
| `EmgDataset.BinsHaveAllChannels` | EMG_Utils.py:484-490 | if every recording has the first `numChannels` channels, so does every bin |
| `EmgDataset.LevelStatistics` | EMG_Utils.py:489-494 | the inner loop yields exactly the channel's curve, one `calculate_mean_std` result per level in level order |
| `EmgDataset.ChannelStatistics` | EMG_Utils.py:484-494 | the outer loop yields one curve per channel, each that channel's curve |
| `EmgDataset.Dataset.ReflexCurves` | EMG_Utils.py:450-531 | the name choice; the levels are the binned levels of the sorted pool; one curve per channel, each holding the statistics of every level's bin |
| `EmgDataset.DatasetTitleIgnoresNameMismatch` | EMG_Utils.py:511-513 | a one-name list for two channels is reported as an error and then fails at channel 1; a three-name list for two channels is reported and then used anyway |
| `EmgDataset.DatasetTitleAgreesWhenNamesFit` | EMG_Utils.py:511-513 | when the names were accepted or none were given, the title as written is the intended one |

## Left out

- Plotting (figures, axes, colours, legends, flag lines): the model stops at the data each plot is given.
- Reading the pickle file and the YAML configuration: `SessionData` and `Config` are parameters.
- `session_parameters` only prints; `Session.Parameters` returns the seven values it prints, and the constructor and `LoadSessionData` state what they hold.
- The error message printed for a mismatched name list: it is `MismatchedNames` of `ChooseChannelNaming`.
- Floating-point rounding: amplitudes, times and binned voltages are exact reals, so a bin comparison that float error could break in Python always holds here.
- `np.std` is a square root: the model states the population variance, which is its square.
- NaN propagation: any NaN makes the whole statistic NaN, as in numpy; which NaN-producing window caused it is not recorded.
- `utils.py` is not part of this model, and neither is the shape of a malformed session file (missing keys).
- EmgDataset.Dataset.ReflexCurves: requires a non-zero bin size. At bin size 0 Python raises `ZeroDivisionError` when the pool holds a recording; with an empty pool it builds no levels and empty curves, a case the model does not cover. It also requires every recording to have at least `num_channels` channels (Python raises `IndexError` otherwise); that error path is not modelled.
- EmgTransform.CalculateMeanStd: requires a non-zero bin size. At bin size 0 Python raises `ZeroDivisionError` for a non-empty recording list and returns four NaNs for an empty one; neither case is modelled.
- EmgSession.Session.ReflexCurves: requires every recording to have at least `num_channels` channels; the `IndexError` path is not modelled.
- EmgSession.TimeValues: requires a non-zero scan rate. At rate 0 numpy's array division gives infinities and NaN, which exact reals cannot hold. `TimeAxisMs` does not need it, because at rate 0 the window covers no sample and the axis is empty.
- Single-channel titles of the session plots (`Channel 0` or `channel_names[0]`) are the multi-channel rule at channel 0; `PanelTitle` covers both.

## Findings

| source | as written | input that shows it | evidently intended | confidence | as-written member | corrected member |
|---|---|---|---|---|---|---|
| EMG_Utils.py:511 | with several channels the dataset plot titles panel `i` with `channel_names[i]` whenever the list is non-empty, before the custom-name check | `channel_names=["A"]` with 2 channels: reported as a mismatch, then `IndexError` at channel 1; `["A","B","C"]` with 2 channels: reported, then used anyway | use the custom names only when they were accepted, otherwise `Channel i`, as the session plots and line 512 do | not executed | `EmgDataset.DatasetTitleIgnoresNameMismatch` | `EmgSession.PanelTitle` |
