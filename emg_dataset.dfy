/**
 * A dataset of sessions (`EMGDataset`): the recordings of all sessions pooled
 * and re-sorted, the sorted distinct binned stimulus voltages, and for every
 * channel and every bin the M-wave and H-reflex mean and variance that
 * `plot_reflex_curves` draws.
 */
module EmgDataset {
  import opened Numeric
  import opened EmgTransform
  import opened EmgSession

  /** `recordings.extend(session.recordings)` over the sessions, in order. */
  function Pooled(sessions: seq<Session>): (rs: seq<Recording>)
    reads sessions
    ensures forall r :: r in rs <==> exists k :: 0 <= k < |sessions| && r in sessions[k].recordings
  {
    if sessions == [] then []
    else
      var init := sessions[..|sessions| - 1];
      assert forall k :: 0 <= k < |init| ==> init[k] == sessions[k];
      Pooled(init) + sessions[|sessions| - 1].recordings
  }

  /** The number of recordings over all sessions. */
  function TotalRecordings(sessions: seq<Session>): nat
    reads sessions
  {
    if sessions == [] then 0 else |sessions[0].recordings| + TotalRecordings(sessions[1..])
  }

  lemma {:induction false} TotalRecordingsAppend(sessions: seq<Session>, s: Session)
    ensures TotalRecordings(sessions + [s]) == TotalRecordings(sessions) + |s.recordings|
  {
    if sessions != [] {
      assert (sessions + [s])[1..] == sessions[1..] + [s];
      TotalRecordingsAppend(sessions[1..], s);
    }
  }

  /** Pooling loses and invents no recording: the pool is as long as all
      sessions' recording lists together. */
  lemma {:induction false} PooledLength(sessions: seq<Session>)
    ensures |Pooled(sessions)| == TotalRecordings(sessions)
  {
    if sessions != [] {
      var init := sessions[..|sessions| - 1];
      PooledLength(init);
      assert sessions == init + [sessions[|sessions| - 1]];
      TotalRecordingsAppend(init, sessions[|sessions| - 1]);
    }
  }

  predicate StrictlyAscending(xs: seq<real>)
  {
    forall i, j :: 0 <= i < j < |xs| ==> xs[i] < xs[j]
  }

  /** Prepending a value below every level keeps the list ascending. */
  lemma PrependAscending(x: real, levels: seq<real>)
    requires StrictlyAscending(levels)
    requires forall y :: y in levels ==> x < y
    ensures StrictlyAscending([x] + levels)
    ensures forall y :: y in [x] + levels <==> y == x || y in levels
  {
    var r := [x] + levels;
    forall i, j | 0 <= i < j < |r| ensures r[i] < r[j] {
      assert r[j] == levels[j - 1] && r[j] in levels;
      if i > 0 {
        assert r[i] == levels[i - 1];
      }
    }
  }

  /** Adds `x` to an ascending duplicate-free list of levels. */
  function AddLevel(x: real, levels: seq<real>): (r: seq<real>)
    requires StrictlyAscending(levels)
    ensures StrictlyAscending(r)
    ensures forall y :: y in r <==> y == x || y in levels
    ensures |r| <= |levels| + 1
  {
    if levels == [] || x < levels[0] then
      assert forall y :: y in levels ==> levels[0] <= y;
      PrependAscending(x, levels);
      [x] + levels
    else if x == levels[0] then levels
    else
      var tail := AddLevel(x, levels[1..]);
      assert forall y :: y in levels <==> y == levels[0] || y in levels[1..];
      assert forall y :: y in levels[1..] ==> levels[0] < y;
      PrependAscending(levels[0], tail);
      [levels[0]] + tail
  }

  /** `sorted(list(set(round(v / bin_size) * bin_size for each recording)))`:
      the distinct binned voltages, ascending, at most one per recording. */
  function BinnedLevels(rs: seq<Recording>, binSize: real): (levels: seq<real>)
    requires binSize != 0.0
    ensures StrictlyAscending(levels)
    ensures forall v :: v in levels <==> exists r :: r in rs && BinnedVoltage(r.stimulusV, binSize) == v
    ensures |levels| <= |rs|
  {
    if rs == [] then []
    else
      assert forall r :: r in rs <==> r == rs[0] || r in rs[1..];
      AddLevel(BinnedVoltage(rs[0].stimulusV, binSize), BinnedLevels(rs[1..], binSize))
  }

  /** An ascending duplicate-free list is determined by its elements, so the
      levels are the sorted set of binned voltages whatever order the set
      was built in. */
  lemma {:induction false} AscendingListIsDeterminedByElements(a: seq<real>, b: seq<real>)
    requires StrictlyAscending(a) && StrictlyAscending(b)
    requires forall x :: x in a <==> x in b
    ensures a == b
  {
    if a != [] {
      assert a[0] in a;
    }
    if b != [] {
      assert b[0] in b;
    }
    if a != [] {
      assert a[0] in b && b[0] in a;
      var i :| 0 <= i < |b| && b[i] == a[0];
      var j :| 0 <= j < |a| && a[j] == b[0];
      assert b[0] <= a[0] && a[0] <= b[0];
      forall x ensures x in a[1..] <==> x in b[1..] {
        if x in a[1..] {
          var k :| 0 <= k < |a[1..]| && a[1..][k] == x;
          assert a[0] < a[k + 1];
        }
        if x in b[1..] {
          var k :| 0 <= k < |b[1..]| && b[1..][k] == x;
          assert b[0] < b[k + 1];
        }
        assert x in a <==> x == a[0] || x in a[1..];
        assert x in b <==> x == b[0] || x in b[1..];
      }
      AscendingListIsDeterminedByElements(a[1..], b[1..]);
      assert a == [a[0]] + a[1..] && b == [b[0]] + b[1..];
    }
  }

  /** Every level has at least one recording in its bin, so no level's
      statistics are NaN for lack of recordings. */
  lemma LevelHasRecordings(rs: seq<Recording>, binSize: real, level: real)
    requires binSize != 0.0
    requires level in BinnedLevels(rs, binSize)
    ensures |Matching(rs, level, binSize)| > 0
  {
    var r :| r in rs && BinnedVoltage(r.stimulusV, binSize) == level;
    MatchingMembers(rs, level, binSize);
    assert r in Matching(rs, level, binSize);
  }

  /** Every level's bin holds only recordings that have channel `channel`. */
  predicate BinsHaveChannel(rs: seq<Recording>, levels: seq<real>, channel: nat, binSize: real)
    requires binSize != 0.0
  {
    forall k :: 0 <= k < |levels| ==> HasChannel(Matching(rs, levels[k], binSize), channel)
  }

  /** What the dataset computes for one channel: one `LevelStats` per level. */
  function ChannelCurve(rs: seq<Recording>, levels: seq<real>, channel: nat,
                        mStart: real, mEnd: real, hStart: real, hEnd: real,
                        binSize: real, scanRate: real): (stats: seq<LevelStats>)
    requires binSize != 0.0
    requires BinsHaveChannel(rs, levels, channel, binSize)
    ensures |stats| == |levels|
  {
    if levels == [] then []
    else
      var init, last := levels[..|levels| - 1], levels[|levels| - 1];
      assert BinsHaveChannel(rs, init, channel, binSize) by {
        forall k | 0 <= k < |init| ensures HasChannel(Matching(rs, init[k], binSize), channel) {
          assert init[k] == levels[k];
        }
      }
      ChannelCurve(rs, init, channel, mStart, mEnd, hStart, hEnd, binSize, scanRate)
        + [MeanStd(rs, last, channel, mStart, mEnd, hStart, hEnd, binSize, scanRate)]
  }

  /** The point of level `k` on a channel's curve holds the statistics of
      exactly that level's bin. */
  lemma {:induction false} ChannelCurveAt(rs: seq<Recording>, levels: seq<real>, channel: nat,
                                          mStart: real, mEnd: real, hStart: real, hEnd: real,
                                          binSize: real, scanRate: real, k: nat)
    requires binSize != 0.0
    requires BinsHaveChannel(rs, levels, channel, binSize)
    requires k < |levels|
    ensures ChannelCurve(rs, levels, channel, mStart, mEnd, hStart, hEnd, binSize, scanRate)[k]
         == MeanStd(rs, levels[k], channel, mStart, mEnd, hStart, hEnd, binSize, scanRate)
  {
    var init, last := levels[..|levels| - 1], levels[|levels| - 1];
    assert BinsHaveChannel(rs, init, channel, binSize) by {
      forall j | 0 <= j < |init| ensures HasChannel(Matching(rs, init[j], binSize), channel) {
        assert init[j] == levels[j];
      }
    }
    var front := ChannelCurve(rs, init, channel, mStart, mEnd, hStart, hEnd, binSize, scanRate);
    var point := MeanStd(rs, last, channel, mStart, mEnd, hStart, hEnd, binSize, scanRate);
    assert ChannelCurve(rs, levels, channel, mStart, mEnd, hStart, hEnd, binSize, scanRate) == front + [point];
    if k < |init| {
      ChannelCurveAt(rs, init, channel, mStart, mEnd, hStart, hEnd, binSize, scanRate, k);
      assert levels[k] == init[k];
    }
  }

  class Dataset {
    var emgSessions: seq<Session>
    var scanRate: real
    var numChannels: int
    var mStart: real
    var mEnd: real
    var hStart: real
    var hEnd: real
    var binSize: real

    /** `__init__`: the recording parameters come from the first session and
        the analysis windows and bin size from the configuration. */
    constructor (sessions: seq<Session>, config: Config)
      requires |sessions| > 0
      ensures emgSessions == sessions
      ensures scanRate == sessions[0].scanRate && numChannels == sessions[0].numChannels
      ensures mStart == config.mStart && mEnd == config.mEnd
      ensures hStart == config.hStart && hEnd == config.hEnd
      ensures binSize == config.binSize
    {
      emgSessions := sessions;
      scanRate := sessions[0].scanRate;
      numChannels := sessions[0].numChannels;
      mStart := config.mStart;
      mEnd := config.mEnd;
      hStart := config.hStart;
      hEnd := config.hEnd;
      binSize := config.binSize;
    }

    /** The pooling step of `plot_reflex_curves`: every session's recordings,
        concatenated, then stably sorted by stimulus voltage. */
    method SortedPooledRecordings() returns (sortedRecordings: seq<Recording>)
      ensures sortedRecordings == SortByVoltage(Pooled(emgSessions))
      ensures |sortedRecordings| == TotalRecordings(emgSessions)
      ensures SortedByVoltage(sortedRecordings)
      ensures multiset(sortedRecordings) == multiset(Pooled(emgSessions))
    {
      var recordings: seq<Recording> := [];
      for k := 0 to |emgSessions|
        invariant recordings == Pooled(emgSessions[..k])
      {
        assert emgSessions[..k + 1][..k] == emgSessions[..k];
        recordings := recordings + emgSessions[k].recordings;
      }
      assert emgSessions[..|emgSessions|] == emgSessions;
      PooledLength(emgSessions);
      sortedRecordings := SortByVoltage(recordings);
    }

    /** `plot_reflex_curves` without the drawing: the name choice, the binned
        voltage levels and, for every channel, the statistics of every level
        (the four lists `m_wave_means`, `m_wave_stds`, `h_response_means`,
        `h_response_stds` as one list of `LevelStats`). */
    method ReflexCurves(channelNames: seq<string>)
      returns (naming: ChannelNaming, stimulusVoltages: seq<real>, curves: seq<seq<LevelStats>>)
      requires binSize != 0.0
      requires forall r :: r in Pooled(emgSessions) ==> numChannels <= |r.channelData|
      ensures naming == ChooseChannelNaming(channelNames, numChannels)
      ensures stimulusVoltages == BinnedLevels(SortByVoltage(Pooled(emgSessions)), binSize)
      ensures |curves| == MaxInt(numChannels, 0)
      ensures forall c: nat :: c < |curves| ==>
                && BinsHaveChannel(SortByVoltage(Pooled(emgSessions)), stimulusVoltages, c, binSize)
                && curves[c] == ChannelCurve(SortByVoltage(Pooled(emgSessions)), stimulusVoltages, c,
                                             mStart, mEnd, hStart, hEnd, binSize, scanRate)
    {
      naming := ChooseChannelNaming(channelNames, numChannels);
      var sortedRecordings := SortedPooledRecordings();
      forall r | r in sortedRecordings ensures numChannels <= |r.channelData| {
        assert r in multiset(sortedRecordings);
      }
      stimulusVoltages := BinnedLevels(sortedRecordings, binSize);
      BinsHaveAllChannels(sortedRecordings, stimulusVoltages, numChannels, binSize);
      curves := ChannelStatistics(sortedRecordings, stimulusVoltages, MaxInt(numChannels, 0),
                                  mStart, mEnd, hStart, hEnd, binSize, scanRate);
    }
  }

  /** When every recording has the first `numChannels` channels, so does
      every bin of every level. */
  lemma BinsHaveAllChannels(rs: seq<Recording>, levels: seq<real>, numChannels: int, binSize: real)
    requires binSize != 0.0
    requires forall r :: r in rs ==> numChannels <= |r.channelData|
    ensures forall c: nat :: c < numChannels ==> BinsHaveChannel(rs, levels, c, binSize)
  {
    forall c: nat | c < numChannels ensures BinsHaveChannel(rs, levels, c, binSize) {
      forall k | 0 <= k < |levels| ensures HasChannel(Matching(rs, levels[k], binSize), c) {
        MatchingKeepsChannel(rs, levels[k], binSize, c);
      }
    }
  }

  /** The outer loop of the dataset's `plot_reflex_curves`: one curve per
      channel, in channel order. */
  method ChannelStatistics(rs: seq<Recording>, levels: seq<real>, channels: nat,
                           mStart: real, mEnd: real, hStart: real, hEnd: real,
                           binSize: real, scanRate: real) returns (curves: seq<seq<LevelStats>>)
    requires binSize != 0.0
    requires forall c: nat :: c < channels ==> BinsHaveChannel(rs, levels, c, binSize)
    ensures |curves| == channels
    ensures forall c: nat :: c < channels ==>
              curves[c] == ChannelCurve(rs, levels, c, mStart, mEnd, hStart, hEnd, binSize, scanRate)
  {
    curves := [];
    for channelIndex: nat := 0 to channels
      invariant |curves| == channelIndex
      invariant forall c: nat :: c < channelIndex ==>
                  curves[c] == ChannelCurve(rs, levels, c, mStart, mEnd, hStart, hEnd, binSize, scanRate)
    {
      var stats := LevelStatistics(rs, levels, channelIndex, mStart, mEnd, hStart, hEnd, binSize, scanRate);
      curves := curves + [stats];
    }
  }

  /** The inner loop of the dataset's `plot_reflex_curves`: one
      `calculate_mean_std` call per level, in level order. */
  method LevelStatistics(rs: seq<Recording>, levels: seq<real>, channel: nat,
                         mStart: real, mEnd: real, hStart: real, hEnd: real,
                         binSize: real, scanRate: real) returns (stats: seq<LevelStats>)
    requires binSize != 0.0
    requires BinsHaveChannel(rs, levels, channel, binSize)
    ensures stats == ChannelCurve(rs, levels, channel, mStart, mEnd, hStart, hEnd, binSize, scanRate)
  {
    stats := [];
    for k := 0 to |levels|
      invariant BinsHaveChannel(rs, levels[..k], channel, binSize)
      invariant stats == ChannelCurve(rs, levels[..k], channel, mStart, mEnd, hStart, hEnd, binSize, scanRate)
    {
      assert levels[..k + 1][..k] == levels[..k];
      var mWave, hResponse := CalculateMeanStd(rs, levels[k], channel, mStart, mEnd, hStart, hEnd, binSize, scanRate);
      stats := stats + [LevelStats(mWave, hResponse)];
    }
    assert levels[..|levels|] == levels;
  }

  /** Construction from an empty list fails (`emg_sessions[0]` raises). */
  method NewDataset(sessions: seq<Session>, config: Config) returns (dataset: Option<Dataset>)
    ensures dataset.None? <==> sessions == []
    ensures dataset.Some? ==>
              && fresh(dataset.value)
              && dataset.value.emgSessions == sessions
              && dataset.value.scanRate == sessions[0].scanRate
              && dataset.value.numChannels == sessions[0].numChannels
              && dataset.value.mStart == config.mStart && dataset.value.mEnd == config.mEnd
              && dataset.value.hStart == config.hStart && dataset.value.hEnd == config.hEnd
              && dataset.value.binSize == config.binSize
  {
    if sessions == [] {
      dataset := None;
    } else {
      var d := new Dataset(sessions, config);
      dataset := Some(d);
    }
  }

  // ---------------------------------------------------------------------------
  // Panel titles of the dataset plot.

  /** The title the dataset plot gives channel `channel`'s panel, as written:
      with several channels the title is `channel_names[channel]` whenever
      the list is non-empty, before the custom-name check is consulted.
      `None` is the `IndexError` of a list shorter than the channel count. */
  function DatasetPanelTitleAsWritten(channelNames: seq<string>, numChannels: int, channel: nat): Option<Title>
    requires channel < numChannels
  {
    if numChannels == 1 then Some(PanelTitle(channelNames, numChannels, channel))
    else if |channelNames| == 0 then Some(DefaultTitle(channel))
    else if channel < |channelNames| then Some(CustomTitle(channelNames[channel]))
    else None
  }

  /** A list of the wrong length is reported as an error, yet the dataset
      plot then either fails (too few names) or uses the names (too many),
      where the session plots fall back to the default titles. */
  lemma DatasetTitleIgnoresNameMismatch()
    ensures ChooseChannelNaming(["A"], 2) == MismatchedNames
    ensures DatasetPanelTitleAsWritten(["A"], 2, 1) == None
    ensures PanelTitle(["A"], 2, 1) == DefaultTitle(1)
    ensures ChooseChannelNaming(["A", "B", "C"], 2) == MismatchedNames
    ensures DatasetPanelTitleAsWritten(["A", "B", "C"], 2, 0) == Some(CustomTitle("A"))
    ensures PanelTitle(["A", "B", "C"], 2, 0) == DefaultTitle(0)
  {
  }

  /** Where the names were accepted or none were given, the code as written
      agrees with the intended title. */
  lemma DatasetTitleAgreesWhenNamesFit(channelNames: seq<string>, numChannels: int, channel: nat)
    requires channel < numChannels
    requires ChooseChannelNaming(channelNames, numChannels) != MismatchedNames
    ensures DatasetPanelTitleAsWritten(channelNames, numChannels, channel) == Some(PanelTitle(channelNames, numChannels, channel))
  {
  }
}
