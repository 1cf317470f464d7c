/**
 * The EMG amplitude helpers: rectification, the average rectified amplitude
 * over a millisecond window, stimulus-voltage binning, and the mean and
 * population variance of the M-wave and H-reflex amplitudes of the
 * recordings that fall into one voltage bin.
 */
module EmgTransform {
  import opened Numeric

  /** One stimulus trial: the stimulus voltage and one sample list per channel. */
  datatype Recording = Recording(stimulusV: real, channelData: seq<seq<real>>)

  /** Mean and population variance of a list of amplitudes. */
  datatype Moments = Moments(mean: real, variance: real)

  /** What `calculate_mean_std` returns for one bin: M-wave and H-reflex
      statistics; `None` where numpy would give NaN. */
  datatype LevelStats = LevelStats(mWave: Option<Moments>, hResponse: Option<Moments>)

  /** `np.abs` on a sample list. */
  function Rectify(samples: seq<real>): (r: seq<real>)
    ensures |r| == |samples|
    ensures forall i :: 0 <= i < |r| ==> r[i] == Abs(samples[i]) && 0.0 <= r[i]
  {
    if samples == [] then [] else [Abs(samples[0])] + Rectify(samples[1..])
  }

  lemma RectifyIdempotent(samples: seq<real>)
    ensures Rectify(Rectify(samples)) == Rectify(samples)
  {
    var once := Rectify(samples);
    assert forall i :: 0 <= i < |once| ==> Rectify(once)[i] == once[i];
  }

  /** Rectifying a whole channel and then slicing it (the rectified overlay
      plot) gives the same samples as slicing first and rectifying after. */
  lemma RectifyCommutesWithSlice(samples: seq<real>, start: int, end: int)
    ensures PySlice(Rectify(samples), start, end) == Rectify(PySlice(samples, start, end))
  {
    var a := PySlice(Rectify(samples), start, end);
    var b := Rectify(PySlice(samples, start, end));
    var lo := ClampIndex(start, |samples|);
    var hi := ClampIndex(end, |samples|);
    assert |a| == |b|;
    forall k | 0 <= k < |a| ensures a[k] == b[k] {
      assert a[k] == Rectify(samples)[lo + k];
    }
  }

  /** A time in milliseconds as a sample index: `int(ms * scan_rate / 1000)`. */
  function SampleIndex(ms: real, scanRate: real): int
  {
    Trunc(ms * scanRate / 1000.0)
  }

  lemma SampleIndexMonotone(startMs: real, endMs: real, scanRate: real)
    requires startMs <= endMs
    requires 0.0 < scanRate
    ensures SampleIndex(startMs, scanRate) <= SampleIndex(endMs, scanRate)
  {
    assert startMs * scanRate <= endMs * scanRate;
    TruncMonotone(startMs * scanRate / 1000.0, endMs * scanRate / 1000.0);
  }

  /** `emg_data[start_index:end_index]` for a window given in milliseconds. */
  function AmplitudeWindow(data: seq<real>, startMs: real, endMs: real, scanRate: real): seq<real>
  {
    PySlice(data, SampleIndex(startMs, scanRate), SampleIndex(endMs, scanRate))
  }

  /** `calculate_average_amplitude`: the mean rectified amplitude of the
      window, or NaN (`None`) when the window is empty. */
  function AverageAmplitude(data: seq<real>, startMs: real, endMs: real, scanRate: real): (r: Option<real>)
    ensures r.Some? <==> |AmplitudeWindow(data, startMs, endMs, scanRate)| > 0
    ensures r.Some? ==> 0.0 <= r.value
  {
    var window := Rectify(AmplitudeWindow(data, startMs, endMs, scanRate));
    if |window| > 0 then AverageWithin(window, 0.0, Maximum(window)); Mean(window)
    else Mean(window)
  }

  /** The average amplitude never exceeds the window's peak rectified amplitude. */
  lemma AverageAmplitudeAtMostPeak(data: seq<real>, startMs: real, endMs: real, scanRate: real)
    requires |AmplitudeWindow(data, startMs, endMs, scanRate)| > 0
    ensures AverageAmplitude(data, startMs, endMs, scanRate).value <= Maximum(Rectify(AmplitudeWindow(data, startMs, endMs, scanRate)))
  {
    AverageBetweenExtremes(Rectify(AmplitudeWindow(data, startMs, endMs, scanRate)));
  }

  /** For non-negative indices the amplitude is the mean of the absolute
      values of the half-open slice `[start, min(end, len))`. */
  lemma AverageAmplitudeOfSlice(data: seq<real>, startMs: real, endMs: real, scanRate: real)
    requires var s := SampleIndex(startMs, scanRate); 0 <= s < MinInt(SampleIndex(endMs, scanRate), |data|)
    ensures AverageAmplitude(data, startMs, endMs, scanRate)
         == Some(Average(Rectify(data[SampleIndex(startMs, scanRate)..MinInt(SampleIndex(endMs, scanRate), |data|)])))
  {
    var s := SampleIndex(startMs, scanRate);
    var e := MinInt(SampleIndex(endMs, scanRate), |data|);
    assert AmplitudeWindow(data, startMs, endMs, scanRate) == data[s..e];
  }

  /** A window whose start index is not below its end index is empty, so its
      amplitude is NaN. */
  lemma EmptyWindowHasNoAmplitude(data: seq<real>, startMs: real, endMs: real, scanRate: real)
    requires 0 <= SampleIndex(endMs, scanRate) <= SampleIndex(startMs, scanRate)
    ensures AverageAmplitude(data, startMs, endMs, scanRate) == None
  {
  }

  /** At 10 kHz the 2-4 ms window covers samples 20 to 39 of a 200-sample channel. */
  lemma TenKilohertzMWindow(data: seq<real>)
    requires |data| == 200
    ensures SampleIndex(2.0, 10000.0) == 20 && SampleIndex(4.0, 10000.0) == 40
    ensures AverageAmplitude(data, 2.0, 4.0, 10000.0) == Some(Average(Rectify(data[20..40])))
  {
    assert SampleIndex(2.0, 10000.0) == 20;
    assert SampleIndex(4.0, 10000.0) == 40;
    AverageAmplitudeOfSlice(data, 2.0, 4.0, 10000.0);
  }

  /** The bin number of a stimulus voltage: `round(v / bin_size)`. */
  function BinIndex(v: real, binSize: real): int
    requires binSize != 0.0
  {
    RoundHalfEven(v / binSize)
  }

  /** `round(v / bin_size) * bin_size`. */
  function BinnedVoltage(v: real, binSize: real): real
    requires binSize != 0.0
  {
    BinIndex(v, binSize) as real * binSize
  }

  /** The binned voltage is a multiple of the bin size no further from the
      stimulus voltage than half a bin. */
  lemma BinnedVoltageIsNearest(v: real, binSize: real)
    requires binSize != 0.0
    ensures Abs(BinnedVoltage(v, binSize) - v) <= Abs(binSize) / 2.0
  {
    var k := BinIndex(v, binSize);
    var q := v / binSize;
    RoundHalfEvenBounds(q);
    assert q * binSize == v;
    var e := k as real - q;
    assert -0.5 <= e <= 0.5;
    assert BinnedVoltage(v, binSize) - v == e * binSize;
    var w := Abs(binSize);
    ProductNonNegative(e + 0.5, w);
    ProductNonNegative(0.5 - e, w);
    assert e * binSize == e * w || e * binSize == -(e * w);
  }

  lemma ProductNonNegative(a: real, b: real)
    requires 0.0 <= a && 0.0 <= b
    ensures 0.0 <= a * b
  {
  }

  /** Comparing binned voltages, as the source does, is comparing bin numbers. */
  lemma SameBinIffSameIndex(a: real, b: real, binSize: real)
    requires binSize != 0.0
    ensures BinnedVoltage(a, binSize) == BinnedVoltage(b, binSize) <==> BinIndex(a, binSize) == BinIndex(b, binSize)
  {
    var i, j := BinIndex(a, binSize), BinIndex(b, binSize);
    if i as real * binSize == j as real * binSize {
      assert (i - j) as real * binSize == 0.0;
    }
  }

  /** The recordings of one bin, in input order (the `if` of the loop). */
  function Matching(rs: seq<Recording>, target: real, binSize: real): (ms: seq<Recording>)
    requires binSize != 0.0
    ensures |ms| <= |rs|
  {
    if rs == [] then []
    else
      var init, last := rs[..|rs| - 1], rs[|rs| - 1];
      Matching(init, target, binSize) + (if BinnedVoltage(last.stimulusV, binSize) == target then [last] else [])
  }

  /** A recording is in the bin exactly when it is one of the recordings and
      its voltage falls into that bin. */
  lemma {:induction false} MatchingMembers(rs: seq<Recording>, target: real, binSize: real)
    requires binSize != 0.0
    ensures forall r :: r in Matching(rs, target, binSize) <==> r in rs && BinnedVoltage(r.stimulusV, binSize) == target
  {
    if rs != [] {
      var init, last := rs[..|rs| - 1], rs[|rs| - 1];
      MatchingMembers(init, target, binSize);
      assert rs == init + [last];
    }
  }

  /** Every recording of a bin is one of the recordings, so it has every
      channel they all have. */
  lemma MatchingKeepsChannel(rs: seq<Recording>, target: real, binSize: real, channel: nat)
    requires binSize != 0.0
    requires HasChannel(rs, channel)
    ensures HasChannel(Matching(rs, target, binSize), channel)
  {
    MatchingMembers(rs, target, binSize);
  }

  /** Filtering a concatenation filters each part and keeps the parts in order. */
  lemma {:induction false} MatchingConcat(a: seq<Recording>, b: seq<Recording>, target: real, binSize: real)
    requires binSize != 0.0
    ensures Matching(a + b, target, binSize) == Matching(a, target, binSize) + Matching(b, target, binSize)
  {
    if b != [] {
      var init, last := b[..|b| - 1], b[|b| - 1];
      assert (a + b)[..|a + b| - 1] == a + init;
      MatchingConcat(a, init, target, binSize);
    } else {
      assert a + b == a;
    }
  }

  /** Stimuli 1.01 V, 1.04 V and 1.06 V with 0.05 V bins fall into the bins
      1.00 V, 1.05 V and 1.05 V, so the 1.05 V bin pools the last two. */
  lemma BinningExample(c1: seq<seq<real>>, c2: seq<seq<real>>, c3: seq<seq<real>>)
    ensures BinnedVoltage(1.01, 0.05) == 1.00
    ensures BinnedVoltage(1.04, 0.05) == 1.05
    ensures BinnedVoltage(1.06, 0.05) == 1.05
    ensures Matching([Recording(1.01, c1), Recording(1.04, c2), Recording(1.06, c3)], 1.05, 0.05)
         == [Recording(1.04, c2), Recording(1.06, c3)]
  {
    assert BinIndex(1.01, 0.05) == 20;
    assert BinIndex(1.04, 0.05) == 21;
    assert BinIndex(1.06, 0.05) == 21;
    var rs := [Recording(1.01, c1), Recording(1.04, c2), Recording(1.06, c3)];
    var r1, r2, r3 := Recording(1.01, c1), Recording(1.04, c2), Recording(1.06, c3);
    assert rs[..2] == [r1, r2];
    assert [r1, r2][..1] == [r1];
    assert [r1][..0] == [];
    assert Matching([r1], 1.05, 0.05) == [];
    assert Matching([r1, r2], 1.05, 0.05) == [r2];
    assert Matching(rs, 1.05, 0.05) == Matching([r1, r2], 1.05, 0.05) + [r3];
  }

  /** Every recording in `ms` has a channel `channel`. */
  predicate HasChannel(ms: seq<Recording>, channel: nat)
  {
    forall r :: r in ms ==> channel < |r.channelData|
  }

  /** The amplitude list the loop appends to, one entry per recording, in order. */
  function WindowAmplitudes(ms: seq<Recording>, channel: nat, startMs: real, endMs: real, scanRate: real): (a: seq<Option<real>>)
    requires HasChannel(ms, channel)
    ensures |a| == |ms|
  {
    if ms == [] then []
    else
      var init, last := ms[..|ms| - 1], ms[|ms| - 1];
      WindowAmplitudes(init, channel, startMs, endMs, scanRate)
        + [AverageAmplitude(last.channelData[channel], startMs, endMs, scanRate)]
  }

  /** Appending a recording appends its amplitude. */
  lemma WindowAmplitudesSnoc(ms: seq<Recording>, r: Recording, channel: nat, startMs: real, endMs: real, scanRate: real)
    requires HasChannel(ms + [r], channel)
    ensures HasChannel(ms, channel)
    ensures WindowAmplitudes(ms + [r], channel, startMs, endMs, scanRate)
         == WindowAmplitudes(ms, channel, startMs, endMs, scanRate) + [AverageAmplitude(r.channelData[channel], startMs, endMs, scanRate)]
  {
    assert (ms + [r])[..|ms|] == ms;
    forall x | x in ms ensures channel < |x.channelData| {
      assert x in ms + [r];
    }
  }

  /** Entry `i` of the amplitude list is the average amplitude of recording
      `i`'s window. */
  lemma {:induction false} WindowAmplitudesAt(ms: seq<Recording>, channel: nat, startMs: real, endMs: real, scanRate: real)
    requires HasChannel(ms, channel)
    ensures forall i :: 0 <= i < |ms| ==>
              WindowAmplitudes(ms, channel, startMs, endMs, scanRate)[i]
              == AverageAmplitude(ms[i].channelData[channel], startMs, endMs, scanRate)
  {
    if ms != [] {
      var init := ms[..|ms| - 1];
      assert HasChannel(init, channel) by {
        forall r | r in init ensures channel < |r.channelData| {
          var j :| 0 <= j < |init| && init[j] == r;
          assert ms[j] == r;
        }
      }
      WindowAmplitudesAt(init, channel, startMs, endMs, scanRate);
      forall i | 0 <= i < |init| ensures ms[i] == init[i] { }
    }
  }

  predicate AllDefined(amps: seq<Option<real>>)
  {
    forall i :: 0 <= i < |amps| ==> amps[i].Some?
  }

  function Values(amps: seq<Option<real>>): (vs: seq<real>)
    requires AllDefined(amps)
    ensures |vs| == |amps|
    ensures forall i :: 0 <= i < |vs| ==> Some(vs[i]) == amps[i]
  {
    if amps == [] then [] else [amps[0].value] + Values(amps[1..])
  }

  /** `np.mean` and `np.std` (squared) of an amplitude list: NaN (`None`) when
      the list is empty or holds a NaN; otherwise the variance is not negative. */
  function Describe(amps: seq<Option<real>>): (r: Option<Moments>)
    ensures r.Some? <==> |amps| > 0 && AllDefined(amps)
    ensures r.Some? ==> 0.0 <= r.value.variance
  {
    if |amps| > 0 && AllDefined(amps) then
      var vs := Values(amps);
      VarianceNonNegative(vs);
      Some(Moments(Average(vs), PopulationVariance(vs)))
    else None
  }

  /** The mean of a defined amplitude list lies between its smallest and its
      largest amplitude. */
  lemma DescribeMeanWithinRange(amps: seq<Option<real>>)
    requires |amps| > 0 && AllDefined(amps)
    ensures Minimum(Values(amps)) <= Describe(amps).value.mean <= Maximum(Values(amps))
  {
    AverageBetweenExtremes(Values(amps));
  }

  /** What `calculate_mean_std` computes for the bin `stimulusValue`. */
  function MeanStd(recordings: seq<Recording>, stimulusValue: real, channelIndex: nat,
                   mStartMs: real, mEndMs: real, hStartMs: real, hEndMs: real,
                   binSize: real, scanRate: real): LevelStats
    requires binSize != 0.0
    requires HasChannel(Matching(recordings, stimulusValue, binSize), channelIndex)
  {
    var ms := Matching(recordings, stimulusValue, binSize);
    LevelStats(Describe(WindowAmplitudes(ms, channelIndex, mStartMs, mEndMs, scanRate)),
               Describe(WindowAmplitudes(ms, channelIndex, hStartMs, hEndMs, scanRate)))
  }

  /** `calculate_mean_std`: the loop over the recordings that appends one M
      and one H amplitude per recording of the bin, then the statistics. */
  method CalculateMeanStd(recordings: seq<Recording>, stimulusValue: real, channelIndex: nat,
                          mStartMs: real, mEndMs: real, hStartMs: real, hEndMs: real,
                          binSize: real, scanRate: real)
    returns (mWave: Option<Moments>, hResponse: Option<Moments>)
    requires binSize != 0.0
    requires HasChannel(Matching(recordings, stimulusValue, binSize), channelIndex)
    ensures LevelStats(mWave, hResponse)
         == MeanStd(recordings, stimulusValue, channelIndex, mStartMs, mEndMs, hStartMs, hEndMs, binSize, scanRate)
  {
    var mWaveAmplitudes: seq<Option<real>> := [];
    var hResponseAmplitudes: seq<Option<real>> := [];
    for i := 0 to |recordings|
      invariant HasChannel(Matching(recordings[..i], stimulusValue, binSize), channelIndex)
      invariant mWaveAmplitudes
             == WindowAmplitudes(Matching(recordings[..i], stimulusValue, binSize), channelIndex, mStartMs, mEndMs, scanRate)
      invariant hResponseAmplitudes
             == WindowAmplitudes(Matching(recordings[..i], stimulusValue, binSize), channelIndex, hStartMs, hEndMs, scanRate)
    {
      var recording := recordings[i];
      assert recordings[..i + 1][..i] == recordings[..i];
      ghost var prefix := Matching(recordings[..i], stimulusValue, binSize);
      if BinnedVoltage(recording.stimulusV, binSize) == stimulusValue {
        MatchingMembers(recordings, stimulusValue, binSize);
        assert recording in Matching(recordings, stimulusValue, binSize);
        assert Matching(recordings[..i + 1], stimulusValue, binSize) == prefix + [recording];
        assert HasChannel(prefix + [recording], channelIndex) by {
          forall x | x in prefix + [recording] ensures channelIndex < |x.channelData| {
            assert x in prefix || x == recording;
          }
        }
        WindowAmplitudesSnoc(prefix, recording, channelIndex, mStartMs, mEndMs, scanRate);
        WindowAmplitudesSnoc(prefix, recording, channelIndex, hStartMs, hEndMs, scanRate);
        var channelData := recording.channelData[channelIndex];
        var mWaveAmplitude := AverageAmplitude(channelData, mStartMs, mEndMs, scanRate);
        var hResponseAmplitude := AverageAmplitude(channelData, hStartMs, hEndMs, scanRate);
        mWaveAmplitudes := mWaveAmplitudes + [mWaveAmplitude];
        hResponseAmplitudes := hResponseAmplitudes + [hResponseAmplitude];
      } else {
        assert Matching(recordings[..i + 1], stimulusValue, binSize) == prefix;
      }
    }
    assert recordings[..|recordings|] == recordings;
    mWave := Describe(mWaveAmplitudes);
    hResponse := Describe(hResponseAmplitudes);
  }

  /** The statistics of one window over a list of recordings are defined
      exactly when the list is non-empty and no recording's window is empty;
      the mean amplitude is then non-negative. */
  lemma WindowStatistics(ms: seq<Recording>, channel: nat, startMs: real, endMs: real, scanRate: real)
    requires HasChannel(ms, channel)
    ensures var st := Describe(WindowAmplitudes(ms, channel, startMs, endMs, scanRate));
            && (st.Some? <==> |ms| > 0 && forall i :: 0 <= i < |ms| ==> |AmplitudeWindow(ms[i].channelData[channel], startMs, endMs, scanRate)| > 0)
            && (st.Some? ==> 0.0 <= st.value.mean)
  {
    var amps := WindowAmplitudes(ms, channel, startMs, endMs, scanRate);
    WindowAmplitudesAt(ms, channel, startMs, endMs, scanRate);
    if |amps| > 0 && AllDefined(amps) {
      var vs := Values(amps);
      assert forall i :: 0 <= i < |vs| ==> 0.0 <= vs[i];
      assert 0.0 <= Minimum(vs);
      DescribeMeanWithinRange(amps);
    }
  }

  /** The M and H statistics of a bin are defined exactly when the bin holds
      at least one recording and none of its windows is empty; the means and
      the variances are then non-negative. */
  lemma MeanStdDefinedAndNonNegative(recordings: seq<Recording>, stimulusValue: real, channelIndex: nat,
                                     mStartMs: real, mEndMs: real, hStartMs: real, hEndMs: real,
                                     binSize: real, scanRate: real)
    requires binSize != 0.0
    requires HasChannel(Matching(recordings, stimulusValue, binSize), channelIndex)
    ensures var ms := Matching(recordings, stimulusValue, binSize);
            var st := MeanStd(recordings, stimulusValue, channelIndex, mStartMs, mEndMs, hStartMs, hEndMs, binSize, scanRate);
            && (st.mWave.Some? <==> |ms| > 0 && forall i :: 0 <= i < |ms| ==> |AmplitudeWindow(ms[i].channelData[channelIndex], mStartMs, mEndMs, scanRate)| > 0)
            && (st.hResponse.Some? <==> |ms| > 0 && forall i :: 0 <= i < |ms| ==> |AmplitudeWindow(ms[i].channelData[channelIndex], hStartMs, hEndMs, scanRate)| > 0)
            && (st.mWave.Some? ==> 0.0 <= st.mWave.value.mean && 0.0 <= st.mWave.value.variance)
            && (st.hResponse.Some? ==> 0.0 <= st.hResponse.value.mean && 0.0 <= st.hResponse.value.variance)
  {
    var ms := Matching(recordings, stimulusValue, binSize);
    WindowStatistics(ms, channelIndex, mStartMs, mEndMs, scanRate);
    WindowStatistics(ms, channelIndex, hStartMs, hEndMs, scanRate);
  }
}
