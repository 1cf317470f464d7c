/**
 * One recording session (`EMGSession`): the loaded metadata, the recordings
 * sorted by stimulus voltage, and the data the plotting methods compute
 * before they draw: the channel-name choice, the time axis, the displayed
 * traces, the H-reflex candidate flags and the per-recording reflex curves.
 */
module EmgSession {
  import opened Numeric
  import opened EmgTransform

  /** The `session_info` record of a session file. */
  datatype SessionInfo = SessionInfo(
    sessionName: string,
    numChannels: int,
    scanRate: real,
    numSamples: int,
    stimDuration: real,
    stimInterval: real,
    emgAmpGains: seq<real>)

  /** A deserialised session file. */
  datatype SessionData = SessionData(sessionInfo: SessionInfo, recordings: seq<Recording>)

  /** The analysis settings read from the configuration file. */
  datatype Config = Config(mStart: real, mEnd: real, hStart: real, hEnd: real, timeWindow: real, binSize: real)

  // ---------------------------------------------------------------------------
  // Sorting by stimulus voltage: Python's `sorted(..., key=stimulus_v)`.

  predicate SortedByVoltage(rs: seq<Recording>)
  {
    forall i, j :: 0 <= i < j < |rs| ==> rs[i].stimulusV <= rs[j].stimulusV
  }

  /** The recordings with stimulus voltage exactly `v`, in their order in `rs`. */
  function WithVoltage(rs: seq<Recording>, v: real): (r: seq<Recording>)
    ensures forall x :: x in r <==> x in rs && x.stimulusV == v
  {
    if rs == [] then [] else (if rs[0].stimulusV == v then [rs[0]] else []) + WithVoltage(rs[1..], v)
  }

  /** Places `x` before the first recording whose voltage is not below its own. */
  function InsertByVoltage(x: Recording, rs: seq<Recording>): (r: seq<Recording>)
    ensures multiset(r) == multiset(rs) + multiset{x}
    ensures SortedByVoltage(rs) ==> SortedByVoltage(r)
  {
    if rs == [] || x.stimulusV <= rs[0].stimulusV then [x] + rs
    else
      var tail := InsertByVoltage(x, rs[1..]);
      assert rs == [rs[0]] + rs[1..];
      InsertBehindHead(x, rs, tail);
      [rs[0]] + tail
  }

  lemma InsertBehindHead(x: Recording, rs: seq<Recording>, tail: seq<Recording>)
    requires rs != [] && rs[0].stimulusV < x.stimulusV
    requires multiset(tail) == multiset(rs[1..]) + multiset{x}
    requires SortedByVoltage(rs[1..]) ==> SortedByVoltage(tail)
    ensures SortedByVoltage(rs) ==> SortedByVoltage([rs[0]] + tail)
  {
    if SortedByVoltage(rs) {
      forall y | y in tail ensures rs[0].stimulusV <= y.stimulusV {
        assert y in multiset(tail);
        if y != x {
          assert y in rs[1..];
          var k :| 0 <= k < |rs[1..]| && rs[1..][k] == y;
          assert rs[k + 1] == y;
        }
      }
      var r := [rs[0]] + tail;
      forall i, j | 0 <= i < j < |r| ensures r[i].stimulusV <= r[j].stimulusV {
        assert r[j] == tail[j - 1];
        if i == 0 {
          assert tail[j - 1] in tail;
        } else {
          assert r[i] == tail[i - 1];
        }
      }
    }
  }

  function SortByVoltage(rs: seq<Recording>): (r: seq<Recording>)
    ensures SortedByVoltage(r)
    ensures multiset(r) == multiset(rs)
    ensures |r| == |rs|
  {
    if rs == [] then []
    else
      assert rs == [rs[0]] + rs[1..];
      InsertByVoltage(rs[0], SortByVoltage(rs[1..]))
  }

  lemma {:induction false} InsertKeepsEqualVoltageOrder(x: Recording, rs: seq<Recording>, v: real)
    ensures WithVoltage(InsertByVoltage(x, rs), v) == (if x.stimulusV == v then [x] else []) + WithVoltage(rs, v)
  {
    if rs == [] || x.stimulusV <= rs[0].stimulusV {
      assert InsertByVoltage(x, rs) == [x] + rs;
      WithVoltageCons(x, rs, v);
    } else {
      var tail := InsertByVoltage(x, rs[1..]);
      InsertKeepsEqualVoltageOrder(x, rs[1..], v);
      assert InsertByVoltage(x, rs) == [rs[0]] + tail;
      InsertBehindKeepsOrder(x, rs, tail, v);
    }
  }

  /** Placing `x` behind a head of lower voltage does not reorder the
      recordings of voltage `v`. */
  lemma InsertBehindKeepsOrder(x: Recording, rs: seq<Recording>, tail: seq<Recording>, v: real)
    requires rs != [] && rs[0].stimulusV < x.stimulusV
    requires WithVoltage(tail, v) == (if x.stimulusV == v then [x] else []) + WithVoltage(rs[1..], v)
    ensures WithVoltage([rs[0]] + tail, v) == (if x.stimulusV == v then [x] else []) + WithVoltage(rs, v)
  {
    WithVoltageCons(rs[0], tail, v);
    WithVoltageOfNonEmpty(rs, v);
    var rest := WithVoltage(rs[1..], v);
    if x.stimulusV == v {
      assert WithVoltage(rs, v) == rest;
      assert WithVoltage([rs[0]] + tail, v) == WithVoltage(tail, v) == [x] + rest;
    } else {
      assert WithVoltage(tail, v) == rest;
    }
  }

  /** The sort is stable: recordings of equal voltage keep their input order. */
  lemma {:induction false} SortIsStable(rs: seq<Recording>, v: real)
    ensures WithVoltage(SortByVoltage(rs), v) == WithVoltage(rs, v)
  {
    if rs != [] {
      SortIsStable(rs[1..], v);
      InsertKeepsEqualVoltageOrder(rs[0], SortByVoltage(rs[1..]), v);
    }
  }

  lemma WithVoltageCons(x: Recording, rs: seq<Recording>, v: real)
    ensures WithVoltage([x] + rs, v) == (if x.stimulusV == v then [x] else []) + WithVoltage(rs, v)
  {
    assert ([x] + rs)[1..] == rs;
  }

  lemma WithVoltageOfNonEmpty(a: seq<Recording>, v: real)
    requires a != []
    ensures WithVoltage(a, v) == (if a[0].stimulusV == v then [a[0]] else []) + WithVoltage(a[1..], v)
  {
  }

  /** Two sorted sequences with the same voltage classes start alike. */
  lemma SameFirstRecording(a: seq<Recording>, b: seq<Recording>)
    requires SortedByVoltage(a) && SortedByVoltage(b)
    requires a != [] && b != []
    requires WithVoltage(a, a[0].stimulusV) == WithVoltage(b, a[0].stimulusV)
    requires WithVoltage(a, b[0].stimulusV) == WithVoltage(b, b[0].stimulusV)
    ensures a[0] == b[0]
  {
    var k, k' := a[0].stimulusV, b[0].stimulusV;
    assert a[0] in WithVoltage(a, k);
    assert a[0] in b;
    var j :| 0 <= j < |b| && b[j] == a[0];
    assert k' <= k;
    assert b[0] in WithVoltage(b, k');
    assert b[0] in a;
    var i :| 0 <= i < |a| && a[i] == b[0];
    assert k <= k';
    WithVoltageOfNonEmpty(a, k);
    WithVoltageOfNonEmpty(b, k);
    assert WithVoltage(a, k)[0] == a[0];
    assert WithVoltage(b, k)[0] == b[0];
  }

  /** A sorted sequence is determined by what it holds at each voltage, in order. */
  lemma {:induction false} SortedIsDeterminedByVoltageClasses(a: seq<Recording>, b: seq<Recording>)
    requires SortedByVoltage(a) && SortedByVoltage(b)
    requires forall v :: WithVoltage(a, v) == WithVoltage(b, v)
    ensures a == b
  {
    if a != [] {
      assert a[0] in WithVoltage(a, a[0].stimulusV);
    }
    if b != [] {
      assert b[0] in WithVoltage(b, b[0].stimulusV);
    }
    if a != [] && b != [] {
      SameFirstRecording(a, b);
      forall v ensures WithVoltage(a[1..], v) == WithVoltage(b[1..], v) {
        WithVoltageOfNonEmpty(a, v);
        WithVoltageOfNonEmpty(b, v);
        var h := if a[0].stimulusV == v then [a[0]] else [];
        assert (h + WithVoltage(a[1..], v))[|h|..] == WithVoltage(a[1..], v);
        assert (h + WithVoltage(b[1..], v))[|h|..] == WithVoltage(b[1..], v);
      }
      SortedIsDeterminedByVoltageClasses(a[1..], b[1..]);
      assert a == [a[0]] + a[1..] && b == [b[0]] + b[1..];
    }
  }

  /** Any ordering of `rs` that is sorted by voltage and keeps equal voltages
      in input order, which is what a stable sort returns, is `SortByVoltage(rs)`. */
  lemma StableSortIsSortByVoltage(rs: seq<Recording>, sorted: seq<Recording>)
    requires SortedByVoltage(sorted)
    requires forall v :: WithVoltage(sorted, v) == WithVoltage(rs, v)
    ensures sorted == SortByVoltage(rs)
  {
    forall v ensures WithVoltage(sorted, v) == WithVoltage(SortByVoltage(rs), v) {
      SortIsStable(rs, v);
    }
    SortedIsDeterminedByVoltageClasses(sorted, SortByVoltage(rs));
  }

  // ---------------------------------------------------------------------------
  // Channel names, shared by every plotting method.

  datatype ChannelNaming = DefaultNames | CustomNames | MismatchedNames

  /** The custom-name check: an empty list keeps the default names, a list of
      exactly `numChannels` names is used, any other list is reported as an
      error and the default names are kept. */
  function ChooseChannelNaming(channelNames: seq<string>, numChannels: int): (r: ChannelNaming)
    ensures r == CustomNames <==> |channelNames| > 0 && |channelNames| == numChannels
    ensures r == MismatchedNames <==> |channelNames| > 0 && |channelNames| != numChannels
    ensures r == DefaultNames <==> |channelNames| == 0
  {
    if |channelNames| == 0 then DefaultNames
    else if |channelNames| != numChannels then MismatchedNames
    else CustomNames
  }

  /** The title of a channel's panel: `Channel <i>` or a custom name. */
  datatype Title = DefaultTitle(channel: nat) | CustomTitle(name: string)

  /** The title a panel gets: the custom name exactly when the names were
      accepted, otherwise the default title of that channel. */
  function PanelTitle(channelNames: seq<string>, numChannels: int, channel: nat): (t: Title)
    requires channel < numChannels
    ensures t.CustomTitle? <==> ChooseChannelNaming(channelNames, numChannels) == CustomNames
    ensures t.CustomTitle? ==> t.name == channelNames[channel]
    ensures t.DefaultTitle? ==> t.channel == channel
  {
    if ChooseChannelNaming(channelNames, numChannels) == CustomNames then CustomTitle(channelNames[channel])
    else DefaultTitle(channel)
  }

  // ---------------------------------------------------------------------------
  // Time axis and displayed traces.

  /** `np.arange(num_samples) * 1000 / scan_rate`: the time of each sample in ms. */
  function TimeValues(numSamples: int, scanRate: real): (r: seq<real>)
    requires scanRate != 0.0
    ensures |r| == MaxInt(numSamples, 0)
    ensures forall i :: 0 <= i < |r| ==> r[i] == i as real * 1000.0 / scanRate
  {
    seq(MaxInt(numSamples, 0), i => i as real * 1000.0 / scanRate)
  }

  /** `time_values_ms[:num_samples_time_window]`: as many sample times as the
      display window covers, each still the time of its own sample. At a
      scan rate of 0 numpy's division gives infinities, but the window then
      covers no sample (`int(t * 0 / 1000) == 0`), so the axis is empty. */
  function TimeAxisMs(numSamples: int, scanRate: real, timeWindowMs: real): (r: seq<real>)
    ensures var n, total := SampleIndex(timeWindowMs, scanRate), MaxInt(numSamples, 0);
            |r| == (if 0 <= n then MinInt(total, n) else MaxInt(total + n, 0))
    ensures forall i :: 0 <= i < |r| ==> scanRate != 0.0 && r[i] == i as real * 1000.0 / scanRate
  {
    if scanRate == 0.0 then
      assert SampleIndex(timeWindowMs, scanRate) == 0;
      []
    else PySlice(TimeValues(numSamples, scanRate), 0, SampleIndex(timeWindowMs, scanRate))
  }

  /** `channel_data[:n]`, of the raw or the rectified samples. */
  function DisplayTrace(data: seq<real>, n: int, rectified: bool): seq<real>
  {
    PySlice(if rectified then Rectify(data) else data, 0, n)
  }

  /** For a non-negative window the displayed trace is the first `n` samples. */
  lemma DisplayTraceIsPrefix(data: seq<real>, n: int)
    requires 0 <= n
    ensures DisplayTrace(data, n, false) == data[..MinInt(n, |data|)]
    ensures DisplayTrace(data, n, true) == Rectify(data[..MinInt(n, |data|)])
  {
    RectifyCommutesWithSlice(data, 0, n);
    assert PySlice(data, 0, n) == data[..MinInt(n, |data|)];
  }

  // ---------------------------------------------------------------------------
  // H-reflex candidates.

  /** `max(h_window) - min(h_window) > h_threshold`; `None` where `max` of an
      empty window raises. A window is flagged exactly when two of its samples
      differ by more than the threshold. */
  function HReflexCandidate(window: seq<real>, hThreshold: real): (r: Option<bool>)
    ensures r.Some? <==> |window| > 0
    ensures r == Some(true) <==> exists i, j :: 0 <= i < |window| && 0 <= j < |window| && window[i] - window[j] > hThreshold
  {
    if |window| == 0 then None else Some(Maximum(window) - Minimum(window) > hThreshold)
  }

  /** The H window of every channel of every recording is non-empty. */
  predicate HWindowsNonEmpty(rs: seq<Recording>, hStart: real, hEnd: real, scanRate: real)
  {
    forall i, c :: 0 <= i < |rs| && 0 <= c < |rs[i].channelData| ==>
      |AmplitudeWindow(rs[i].channelData[c], hStart, hEnd, scanRate)| > 0
  }

  // ---------------------------------------------------------------------------
  // Reflex curves of one session.

  /** The three lists `plot_reflex_curves` builds for one channel. */
  datatype ReflexCurve = ReflexCurve(stimulusVoltages: seq<real>, mWaveAmplitudes: seq<Option<real>>, hResponseAmplitudes: seq<Option<real>>)

  function Voltages(rs: seq<Recording>): (v: seq<real>)
    ensures |v| == |rs|
    ensures forall i :: 0 <= i < |rs| ==> v[i] == rs[i].stimulusV
  {
    if rs == [] then [] else Voltages(rs[..|rs| - 1]) + [rs[|rs| - 1].stimulusV]
  }

  function SessionCurve(rs: seq<Recording>, channel: nat, mStart: real, mEnd: real, hStart: real, hEnd: real, scanRate: real): ReflexCurve
    requires HasChannel(rs, channel)
  {
    ReflexCurve(Voltages(rs), WindowAmplitudes(rs, channel, mStart, mEnd, scanRate), WindowAmplitudes(rs, channel, hStart, hEnd, scanRate))
  }

  /** A channel's reflex curve has one point per recording, in recording
      order: its voltage, its M-wave amplitude and its H-reflex amplitude;
      for sorted recordings the voltages do not decrease. */
  lemma SessionCurvePoints(rs: seq<Recording>, channel: nat, mStart: real, mEnd: real, hStart: real, hEnd: real, scanRate: real)
    requires HasChannel(rs, channel)
    requires SortedByVoltage(rs)
    ensures var curve := SessionCurve(rs, channel, mStart, mEnd, hStart, hEnd, scanRate);
            && |curve.stimulusVoltages| == |curve.mWaveAmplitudes| == |curve.hResponseAmplitudes| == |rs|
            && (forall i :: 0 <= i < |rs| ==>
                  && curve.stimulusVoltages[i] == rs[i].stimulusV
                  && curve.mWaveAmplitudes[i] == AverageAmplitude(rs[i].channelData[channel], mStart, mEnd, scanRate)
                  && curve.hResponseAmplitudes[i] == AverageAmplitude(rs[i].channelData[channel], hStart, hEnd, scanRate))
            && (forall i, j :: 0 <= i < j < |rs| ==> curve.stimulusVoltages[i] <= curve.stimulusVoltages[j])
  {
    WindowAmplitudesAt(rs, channel, mStart, mEnd, scanRate);
    WindowAmplitudesAt(rs, channel, hStart, hEnd, scanRate);
  }

  // ---------------------------------------------------------------------------

  class Session {
    var sessionName: string
    var numChannels: int
    var scanRate: real
    var numSamples: int
    var stimDuration: real
    var stimInterval: real
    var emgAmpGains: seq<real>
    var recordings: seq<Recording>
    var mStart: real
    var mEnd: real
    var hStart: real
    var hEnd: real
    var timeWindowMs: real

    /** The recordings stay in the order the loader established. */
    ghost predicate Valid()
      reads this
    {
      SortedByVoltage(recordings)
    }

    /** The metadata `session_parameters` prints. */
    function Parameters(): SessionInfo
      reads this
    {
      SessionInfo(sessionName, numChannels, scanRate, numSamples, stimDuration, stimInterval, emgAmpGains)
    }

    /** `__init__`: load the session file, then copy the analysis windows
        from the configuration. */
    constructor (sessionData: SessionData, config: Config)
      ensures Valid()
      ensures Parameters() == sessionData.sessionInfo
      ensures recordings == SortByVoltage(sessionData.recordings)
      ensures mStart == config.mStart && mEnd == config.mEnd
      ensures hStart == config.hStart && hEnd == config.hEnd
      ensures timeWindowMs == config.timeWindow
    {
      new;
      LoadSessionData(sessionData);
      mStart, mEnd, hStart, hEnd, timeWindowMs := config.mStart, config.mEnd, config.hStart, config.hEnd, config.timeWindow;
    }

    /** `load_session_data`: the metadata is copied unchanged and the
        recordings are stably sorted by stimulus voltage. */
    method LoadSessionData(sessionData: SessionData)
      modifies this
      ensures Valid()
      ensures Parameters() == sessionData.sessionInfo
      ensures recordings == SortByVoltage(sessionData.recordings)
      ensures mStart == old(mStart) && mEnd == old(mEnd) && hStart == old(hStart) && hEnd == old(hEnd)
      ensures timeWindowMs == old(timeWindowMs)
    {
      var info := sessionData.sessionInfo;
      var sorted := SortByVoltage(sessionData.recordings);
      sessionName, numChannels, scanRate, numSamples, stimDuration, stimInterval, emgAmpGains, recordings :=
        info.sessionName, info.numChannels, info.scanRate, info.numSamples, info.stimDuration, info.stimInterval, info.emgAmpGains, sorted;
    }

    /** The traces `plot_emg` (raw) and `plot_emg_rectified` draw: every
        channel of every recording, cut to the display window. */
    method OverlayTraces(rectified: bool) returns (traces: seq<seq<seq<real>>>)
      requires Valid()
      ensures |traces| == |recordings|
      ensures forall i :: 0 <= i < |recordings| ==>
                |traces[i]| == |recordings[i].channelData|
                && forall c :: 0 <= c < |traces[i]| ==>
                     traces[i][c] == DisplayTrace(recordings[i].channelData[c], SampleIndex(timeWindowMs, scanRate), rectified)
    {
      var n := SampleIndex(timeWindowMs, scanRate);
      traces := [];
      for i := 0 to |recordings|
        invariant |traces| == i
        invariant forall k :: 0 <= k < i ==>
                    |traces[k]| == |recordings[k].channelData|
                    && forall c :: 0 <= c < |traces[k]| ==> traces[k][c] == DisplayTrace(recordings[k].channelData[c], n, rectified)
      {
        var channels := recordings[i].channelData;
        var row: seq<seq<real>> := [];
        for c := 0 to |channels|
          invariant |row| == c
          invariant forall d :: 0 <= d < c ==> row[d] == DisplayTrace(channels[d], n, rectified)
        {
          var shown := if rectified then Rectify(channels[c]) else channels[c];
          row := row + [PySlice(shown, 0, n)];
        }
        traces := traces + [row];
      }
    }

    /** `plot_emg`: the name choice, the time axis and the raw traces. */
    method PlotEmg(channelNames: seq<string>) returns (naming: ChannelNaming, timeAxis: seq<real>, traces: seq<seq<seq<real>>>)
      requires Valid()
      ensures naming == ChooseChannelNaming(channelNames, numChannels)
      ensures timeAxis == TimeAxisMs(numSamples, scanRate, timeWindowMs)
      ensures |traces| == |recordings|
      ensures forall i :: 0 <= i < |recordings| ==>
                |traces[i]| == |recordings[i].channelData|
                && forall c :: 0 <= c < |traces[i]| ==>
                     traces[i][c] == PySlice(recordings[i].channelData[c], 0, SampleIndex(timeWindowMs, scanRate))
    {
      naming := ChooseChannelNaming(channelNames, numChannels);
      timeAxis := TimeAxisMs(numSamples, scanRate, timeWindowMs);
      traces := OverlayTraces(false);
    }

    /** `plot_emg_rectified`: as `plot_emg`, each trace being the rectified
        version of the raw trace `plot_emg` shows. */
    method PlotEmgRectified(channelNames: seq<string>) returns (naming: ChannelNaming, timeAxis: seq<real>, traces: seq<seq<seq<real>>>)
      requires Valid()
      ensures naming == ChooseChannelNaming(channelNames, numChannels)
      ensures timeAxis == TimeAxisMs(numSamples, scanRate, timeWindowMs)
      ensures |traces| == |recordings|
      ensures forall i :: 0 <= i < |recordings| ==>
                |traces[i]| == |recordings[i].channelData|
                && forall c :: 0 <= c < |traces[i]| ==>
                     traces[i][c] == Rectify(PySlice(recordings[i].channelData[c], 0, SampleIndex(timeWindowMs, scanRate)))
    {
      naming := ChooseChannelNaming(channelNames, numChannels);
      timeAxis := TimeAxisMs(numSamples, scanRate, timeWindowMs);
      traces := OverlayTraces(true);
      forall i, c | 0 <= i < |recordings| && 0 <= c < |recordings[i].channelData|
        ensures traces[i][c] == Rectify(PySlice(recordings[i].channelData[c], 0, SampleIndex(timeWindowMs, scanRate)))
      {
        RectifyCommutesWithSlice(recordings[i].channelData[c], 0, SampleIndex(timeWindowMs, scanRate));
      }
    }

    /** The detection in `plot_emg_suspectedH`: for every recording and
        channel, whether the raw H window varies by more than `hThreshold`;
        `None` when some H window is empty (Python's `max` raises). */
    method SuspectedH(channelNames: seq<string>, hThreshold: real)
      returns (naming: ChannelNaming, timeAxis: seq<real>, flags: Option<seq<seq<bool>>>)
      requires Valid()
      ensures naming == ChooseChannelNaming(channelNames, numChannels)
      ensures timeAxis == TimeAxisMs(numSamples, scanRate, timeWindowMs)
      ensures flags.Some? <==> HWindowsNonEmpty(recordings, hStart, hEnd, scanRate)
      ensures flags.Some? ==>
                |flags.value| == |recordings|
                && forall i :: 0 <= i < |recordings| ==>
                     |flags.value[i]| == |recordings[i].channelData|
                     && forall c :: 0 <= c < |flags.value[i]| ==>
                          Some(flags.value[i][c]) == HReflexCandidate(AmplitudeWindow(recordings[i].channelData[c], hStart, hEnd, scanRate), hThreshold)
    {
      naming := ChooseChannelNaming(channelNames, numChannels);
      timeAxis := TimeAxisMs(numSamples, scanRate, timeWindowMs);
      var acc: seq<seq<bool>> := [];
      for i := 0 to |recordings|
        invariant |acc| == i
        invariant forall k, c :: 0 <= k < i && 0 <= c < |recordings[k].channelData| ==>
                    |AmplitudeWindow(recordings[k].channelData[c], hStart, hEnd, scanRate)| > 0
        invariant forall k :: 0 <= k < i ==>
                    |acc[k]| == |recordings[k].channelData|
                    && forall c :: 0 <= c < |acc[k]| ==>
                         Some(acc[k][c]) == HReflexCandidate(AmplitudeWindow(recordings[k].channelData[c], hStart, hEnd, scanRate), hThreshold)
      {
        var row := ChannelFlags(recordings[i].channelData, hStart, hEnd, scanRate, hThreshold);
        if row.None? {
          flags := None;
          return;
        }
        acc := acc + [row.value];
      }
      flags := Some(acc);
    }

    /** The amplitude loop of `plot_reflex_curves`: for each channel, one
        voltage, one M-wave and one H-reflex amplitude per recording, in the
        sorted recording order, so every curve's voltages do not decrease. */
    method ReflexCurves(channelNames: seq<string>) returns (naming: ChannelNaming, curves: seq<ReflexCurve>)
      requires Valid()
      requires forall i :: 0 <= i < |recordings| ==> numChannels <= |recordings[i].channelData|
      ensures naming == ChooseChannelNaming(channelNames, numChannels)
      ensures |curves| == MaxInt(numChannels, 0)
      ensures forall c: nat :: c < |curves| ==>
                HasChannel(recordings, c) && curves[c] == SessionCurve(recordings, c, mStart, mEnd, hStart, hEnd, scanRate)
      ensures forall c :: 0 <= c < |curves| ==> |curves[c].stimulusVoltages| == |recordings|
      ensures forall c, i, j :: 0 <= c < |curves| && 0 <= i < j < |recordings| ==>
                curves[c].stimulusVoltages[i] <= curves[c].stimulusVoltages[j]
    {
      naming := ChooseChannelNaming(channelNames, numChannels);
      var channels := MaxInt(numChannels, 0);
      forall c: nat | c < channels ensures HasChannel(recordings, c) {
        forall r | r in recordings ensures c < |r.channelData| {
          var i :| 0 <= i < |recordings| && recordings[i] == r;
        }
      }
      curves := [];
      for channelIndex: nat := 0 to channels
        invariant |curves| == channelIndex
        invariant forall c: nat :: c < channelIndex ==>
                    curves[c] == SessionCurve(recordings, c, mStart, mEnd, hStart, hEnd, scanRate)
      {
        var curve := ChannelAmplitudes(recordings, channelIndex, mStart, mEnd, hStart, hEnd, scanRate);
        curves := curves + [curve];
      }
      forall c | 0 <= c < |curves|
        ensures |curves[c].stimulusVoltages| == |recordings|
        ensures forall i, j :: 0 <= i < j < |recordings| ==> curves[c].stimulusVoltages[i] <= curves[c].stimulusVoltages[j]
      {
        SessionCurvePoints(recordings, c, mStart, mEnd, hStart, hEnd, scanRate);
      }
    }
  }

  /** The inner loop of `plot_emg_suspectedH` over the channels of one
      recording; `None` as soon as one H window is empty. */
  method ChannelFlags(channels: seq<seq<real>>, hStart: real, hEnd: real, scanRate: real, hThreshold: real)
    returns (row: Option<seq<bool>>)
    ensures row.Some? <==> forall c :: 0 <= c < |channels| ==> |AmplitudeWindow(channels[c], hStart, hEnd, scanRate)| > 0
    ensures row.Some? ==>
              |row.value| == |channels|
              && forall c :: 0 <= c < |channels| ==>
                   Some(row.value[c]) == HReflexCandidate(AmplitudeWindow(channels[c], hStart, hEnd, scanRate), hThreshold)
  {
    var flags: seq<bool> := [];
    for c := 0 to |channels|
      invariant |flags| == c
      invariant forall d :: 0 <= d < c ==> |AmplitudeWindow(channels[d], hStart, hEnd, scanRate)| > 0
      invariant forall d :: 0 <= d < c ==>
                  Some(flags[d]) == HReflexCandidate(AmplitudeWindow(channels[d], hStart, hEnd, scanRate), hThreshold)
    {
      var hWindow := AmplitudeWindow(channels[c], hStart, hEnd, scanRate);
      if |hWindow| == 0 {
        return None;
      }
      var flag := Maximum(hWindow) - Minimum(hWindow) > hThreshold;
      assert Some(flag) == HReflexCandidate(hWindow, hThreshold);
      flags := flags + [flag];
    }
    row := Some(flags);
  }

  /** The inner loop of `plot_reflex_curves` for one channel: every
      recording's voltage and its M-wave and H-reflex average amplitudes. */
  method ChannelAmplitudes(recordings: seq<Recording>, channelIndex: nat,
                           mStart: real, mEnd: real, hStart: real, hEnd: real, scanRate: real)
    returns (curve: ReflexCurve)
    requires HasChannel(recordings, channelIndex)
    ensures curve == SessionCurve(recordings, channelIndex, mStart, mEnd, hStart, hEnd, scanRate)
  {
    var mWaveAmplitudes: seq<Option<real>> := [];
    var hResponseAmplitudes: seq<Option<real>> := [];
    var stimulusVoltages: seq<real> := [];
    for i := 0 to |recordings|
      invariant HasChannel(recordings[..i], channelIndex)
      invariant stimulusVoltages == Voltages(recordings[..i])
      invariant mWaveAmplitudes == WindowAmplitudes(recordings[..i], channelIndex, mStart, mEnd, scanRate)
      invariant hResponseAmplitudes == WindowAmplitudes(recordings[..i], channelIndex, hStart, hEnd, scanRate)
    {
      assert recordings[..i + 1][..i] == recordings[..i];
      var recording := recordings[i];
      var channelData := recording.channelData[channelIndex];
      var stimulusV := recording.stimulusV;
      var mWaveAmplitude := AverageAmplitude(channelData, mStart, mEnd, scanRate);
      var hResponseAmplitude := AverageAmplitude(channelData, hStart, hEnd, scanRate);
      mWaveAmplitudes := mWaveAmplitudes + [mWaveAmplitude];
      hResponseAmplitudes := hResponseAmplitudes + [hResponseAmplitude];
      stimulusVoltages := stimulusVoltages + [stimulusV];
    }
    assert recordings[..|recordings|] == recordings;
    curve := ReflexCurve(stimulusVoltages, mWaveAmplitudes, hResponseAmplitudes);
  }
}
