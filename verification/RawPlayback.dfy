/** Batch recomputation of the sender's tempo evidence
    (crates/discord-voice-service-live-validation/src/controller.rs, recompute_raw_playback). */
module RawPlayback {
  import opened Words
  import opened Tempo
  import opened RawSendLog

  const TRACK_TEMPO_WINDOW_PACKETS := 50
  /** 5000 ms of source buffer, in samples. */
  const SOURCE_BUFFER_SAMPLES := 240_000
  /** One millisecond of tolerated forward jump, in samples. */
  const POSITION_TOLERANCE_SAMPLES := 48

  datatype RawTrackSend = RawTrackSend(position: u64, samples: u32)

  datatype RecomputeError = NoPosition | Replayed | SkippedAhead

  datatype Recomputed = Recomputed(
    segmentCount: nat,
    packetCount: nat,
    boundarySilenceCount: nat,
    mediaUs: u64,
    mediaMs: u64,
    wallMs: u64,
    ratioPpm: u64,
    fastIntervalCount: nat,
    fastIntervalMinUs: nat,
    windows: WindowTally)

  datatype WindowTally = WindowTally(count: nat, postSource: nat, minRatio: nat, maxRatio: nat, fast: nat, slow: nat)

  /** `duration_us_from_samples`. */
  function DurationUs(samples: u32): u64 {
    QuotBelow(samples * 1_000_000, 48_000, 89_478_485_313);
    Quot(samples * 1_000_000, 48_000)
  }

  predicate HasPosition(e: RawSendEvent) {
    e.kind == Track ==> e.positionMs.Some? && e.positionSamples.Some?
  }

  predicate Positioned(events: seq<RawSendEvent>) {
    forall i :: 0 <= i < |events| ==> HasPosition(events[i])
  }

  function BeatOf(e: RawSendEvent): Beat
    requires e.kind == Track && HasPosition(e)
  {
    Beat(e.sendStartedUs, DurationUs(e.samples), e.positionSamples.value)
  }

  /** The track sends of a log, in order. */
  function Tracks(events: seq<RawSendEvent>): seq<RawTrackSend>
    requires Positioned(events)
  {
    if |events| == 0 then []
    else
      var e := events[|events| - 1];
      Tracks(events[..|events| - 1]) + if e.kind == Track then [RawTrackSend(e.positionSamples.value, e.samples)] else []
  }

  // ------------------------------------------------------------------ segments

  function SplitOf(events: seq<RawSendEvent>): Split
    requires Positioned(events)
  {
    if |events| == 0 then Split([], [])
    else
      var s, e := SplitOf(events[..|events| - 1]), events[|events| - 1];
      if e.kind == Track then s.(current := s.current + [BeatOf(e)]) else Finish(s)
  }

  function Segments(events: seq<RawSendEvent>): seq<seq<Beat>>
    requires Positioned(events)
  {
    Finish(SplitOf(events)).done
  }

  /** `events[a..b]` is a maximal run of track events. */
  predicate MaximalRun(events: seq<RawSendEvent>, a: nat, b: nat) {
    && a < b <= |events|
    && (forall i :: a <= i < b ==> events[i].kind == Track)
    && (a > 0 ==> events[a - 1].kind != Track)
    && (b < |events| ==> events[b].kind != Track)
  }

  predicate IsRunOf(segment: seq<Beat>, events: seq<RawSendEvent>, a: int, b: int)
    requires Positioned(events)
  {
    && 0 <= a <= b <= |events|
    && |segment| == b - a
    && forall i :: a <= i < b ==> events[i].kind == Track && segment[i - a] == BeatOf(events[i])
  }

  ghost predicate IsMaximalRun(segment: seq<Beat>, events: seq<RawSendEvent>)
    requires Positioned(events)
  {
    exists a: nat, b: nat :: MaximalRun(events, a, b) && IsRunOf(segment, events, a, b)
  }

  /** A run that another event has closed stays maximal however the log goes on. */
  ghost predicate IsClosedRun(segment: seq<Beat>, events: seq<RawSendEvent>)
    requires Positioned(events)
  {
    exists a: nat, b: nat :: b < |events| && MaximalRun(events, a, b) && IsRunOf(segment, events, a, b)
  }

  lemma {:induction false} ClosedRunStays(segment: seq<Beat>, events: seq<RawSendEvent>, n: nat)
    requires Positioned(events) && n <= |events| && IsClosedRun(segment, events[..n])
    ensures IsClosedRun(segment, events)
  {
    var front := events[..n];
    var a: nat, b: nat :| b < |front| && MaximalRun(front, a, b) && IsRunOf(segment, front, a, b);
    assert MaximalRun(events, a, b) && IsRunOf(segment, events, a, b);
  }

  predicate OpenRun(current: seq<Beat>, events: seq<RawSendEvent>)
    requires Positioned(events)
  {
    && IsRunOf(current, events, |events| - |current|, |events|)
    && (|current| < |events| ==> events[|events| - |current| - 1].kind != Track)
  }

  lemma {:induction false} CurrentIsOpenRun(events: seq<RawSendEvent>)
    requires Positioned(events)
    ensures OpenRun(SplitOf(events).current, events)
  {
    if |events| > 0 {
      var n := |events| - 1;
      CurrentIsOpenRun(events[..n]);
      var s, t := SplitOf(events[..n]).current, SplitOf(events).current;
      if events[n].kind == Track {
        assert t == s + [BeatOf(events[n])];
        assert OpenRun(t, events);
      } else {
        assert t == [];
      }
    }
  }

  lemma {:induction false} OpenRunCloses(current: seq<Beat>, events: seq<RawSendEvent>, n: nat)
    requires Positioned(events) && n < |events| && events[n].kind != Track
    requires current != [] && OpenRun(current, events[..n])
    ensures IsClosedRun(current, events)
  {
    var a := n - |current|;
    assert MaximalRun(events, a, n);
    assert IsRunOf(current, events, a, n);
  }

  lemma {:induction false} DoneAreClosedRuns(events: seq<RawSendEvent>)
    requires Positioned(events)
    ensures forall k :: 0 <= k < |SplitOf(events).done| ==> IsClosedRun(SplitOf(events).done[k], events)
  {
    if |events| > 0 {
      var n := |events| - 1;
      DoneAreClosedRuns(events[..n]);
      var s, done := SplitOf(events[..n]), SplitOf(events).done;
      forall k | 0 <= k < |done|
        ensures IsClosedRun(done[k], events)
      {
        if k < |s.done| {
          assert done[k] == s.done[k];
          ClosedRunStays(s.done[k], events, n);
        } else {
          CurrentIsOpenRun(events[..n]);
          OpenRunCloses(s.current, events, n);
        }
      }
    }
  }

  /** Every segment is a maximal run of consecutive track events: any other event closes it. */
  lemma {:induction false} SegmentsAreMaximalRuns(events: seq<RawSendEvent>, k: nat)
    requires Positioned(events) && k < |Segments(events)|
    ensures IsMaximalRun(Segments(events)[k], events)
  {
    DoneAreClosedRuns(events);
    CurrentIsOpenRun(events);
    var s := SplitOf(events);
    if k < |s.done| {
      assert IsClosedRun(s.done[k], events);
      var a: nat, b: nat :| b < |events| && MaximalRun(events, a, b) && IsRunOf(s.done[k], events, a, b);
    } else {
      var a := |events| - |s.current|;
      assert MaximalRun(events, a, |events|) && IsRunOf(s.current, events, a, |events|);
    }
  }

  function RunStarts(events: seq<RawSendEvent>): nat {
    if |events| == 0 then 0
    else
      var n := |events| - 1;
      RunStarts(events[..n]) + if events[n].kind == Track && (n == 0 || events[n - 1].kind != Track) then 1 else 0
  }

  /** No run is missing: there are as many segments as places where a track event opens a run. */
  lemma {:induction false} SegmentPerRun(events: seq<RawSendEvent>)
    requires Positioned(events)
    ensures |Segments(events)| == RunStarts(events)
  {
    if |events| > 0 {
      SegmentPerRun(events[..|events| - 1]);
      CurrentIsOpenRun(events[..|events| - 1]);
    }
  }

  // ------------------------------------------------------------------ per-segment evidence

  predicate FastInterval(a: Beat, b: Beat) {
    SatSub(b.start, a.start) < a.duration
  }

  /** The fast intervals of one segment, in order. */
  function FastIntervals(segment: seq<Beat>): seq<nat> {
    if |segment| <= 1 then []
    else
      var a, b := segment[|segment| - 2], segment[|segment| - 1];
      FastIntervals(segment[..|segment| - 1]) + if FastInterval(a, b) then [SatSub(b.start, a.start)] else []
  }

  function AllFastIntervals(segments: seq<seq<Beat>>): seq<nat> {
    if |segments| == 0 then []
    else AllFastIntervals(segments[..|segments| - 1]) + FastIntervals(segments[|segments| - 1])
  }

  function Ratios(windows: seq<seq<Beat>>): (r: seq<nat>)
    ensures |r| == |windows|
  {
    seq(|windows|, i requires 0 <= i < |windows| => LoggedRatio(windows[i]))
  }

  predicate PostSource(window: seq<Beat>) {
    window != [] && window[0].position >= 240_000
  }

  /** `recompute_tempo_window`. */
  function AddWindow(t: WindowTally, window: seq<Beat>): WindowTally {
    if window == [] then t else
    var ratio := RatioPpm(Sat64(Media(window)), Sat64(Wall(window)));
    WindowTally(
      t.count + 1,
      t.postSource + (if window[0].position >= SOURCE_BUFFER_SAMPLES then 1 else 0),
      if t.minRatio == 0 then ratio else Min(t.minRatio, ratio),
      Max(t.maxRatio, ratio),
      t.fast + (if ratio > MAX_RATIO_PPM then 1 else 0),
      t.slow + (if ratio < MIN_RATIO_PPM then 1 else 0))
  }

  /** All windows, one `recompute_tempo_window` after another. */
  function Tally(windows: seq<seq<Beat>>): WindowTally {
    if |windows| == 0 then WindowTally(0, 0, 0, 0, 0, 0)
    else AddWindow(Tally(windows[..|windows| - 1]), windows[|windows| - 1])
  }

  lemma {:induction false} TallyPush(windows: seq<seq<Beat>>, window: seq<Beat>)
    ensures Tally(windows + [window]) == AddWindow(Tally(windows), window)
  {}

  lemma {:induction false} TallyCounts(windows: seq<seq<Beat>>)
    requires forall i :: 0 <= i < |windows| ==> windows[i] != []
    ensures var t := Tally(windows);
            && t.count == |windows| && t.postSource == Count(windows, PostSource)
            && t.fast == Count(windows, LoggedFast) && t.slow == Count(windows, LoggedSlow)
  {
    if |windows| > 0 {
      TallyCounts(windows[..|windows| - 1]);
    }
  }

  lemma {:induction false} TallyRatios(windows: seq<seq<Beat>>)
    requires forall i :: 0 <= i < |windows| ==> windows[i] != []
    ensures var t := Tally(windows);
            t.minRatio == ZeroUnsetMin(Ratios(windows)) && t.maxRatio == MaxOf(Ratios(windows))
  {
    if |windows| > 0 {
      var n := |windows| - 1;
      TallyRatios(windows[..n]);
      assert Ratios(windows)[..n] == Ratios(windows[..n]);
      assert Ratios(windows)[n] == LoggedRatio(windows[n]);
    }
  }

  lemma {:induction false} WindowsAreNotEmpty(runs: seq<seq<Beat>>, w: nat)
    requires w > 0
    ensures forall i :: 0 <= i < |AllWindows(runs, w)| ==> AllWindows(runs, w)[i] != []
  {
    if |runs| > 0 {
      WindowsAreNotEmpty(runs[..|runs| - 1], w);
    }
  }

  /** What the running tally amounts to over the whole list of windows. */
  lemma {:induction false} TallyMeaning(windows: seq<seq<Beat>>)
    requires forall i :: 0 <= i < |windows| ==> windows[i] != []
    ensures Tally(windows)
         == WindowTally(|windows|, Count(windows, PostSource), ZeroUnsetMin(Ratios(windows)),
                        MaxOf(Ratios(windows)), Count(windows, LoggedFast), Count(windows, LoggedSlow))
  {
    TallyCounts(windows);
    TallyRatios(windows);
  }

  // ------------------------------------------------------------------ source continuity

  /** `b` continues the source directly after `a`, or skips at most a millisecond. */
  predicate Continues(a: RawTrackSend, b: RawTrackSend) {
    var expected := Sat64(a.position + a.samples);
    expected <= b.position <= Sat64(expected + POSITION_TOLERANCE_SAMPLES)
  }

  predicate Continuous(tracks: seq<RawTrackSend>) {
    forall i :: 0 < i < |tracks| ==> Continues(tracks[i - 1], tracks[i])
  }

  function TrackSamples(tracks: seq<RawTrackSend>): (s: seq<nat>)
    ensures |s| == |tracks|
  {
    seq(|tracks|, i requires 0 <= i < |tracks| => tracks[i].samples)
  }

  /** Across pauses too, the source position between any two track packets moves by the media sent
      between them, plus at most 48 samples a packet (unless the 64-bit position saturated). */
  lemma {:induction false} HeardIntervals(tracks: seq<RawTrackSend>, i: nat, j: nat)
    requires i <= j < |tracks| && Continuous(tracks)
    ensures var sent := Sum(TrackSamples(tracks[i..j]));
            && tracks[j].position <= tracks[i].position + sent + 48 * (j - i)
            && (tracks[j].position == 0xFFFF_FFFF_FFFF_FFFF || tracks[i].position + sent <= tracks[j].position)
    decreases j
  {
    if i == j {
      assert TrackSamples(tracks[i..j]) == [];
    } else {
      HeardIntervals(tracks, i, j - 1);
      assert TrackSamples(tracks[i..j]) == TrackSamples(tracks[i..j - 1]) + [tracks[j - 1].samples];
      SumPush(TrackSamples(tracks[i..j - 1]), tracks[j - 1].samples);
      assert Continues(tracks[j - 1], tracks[j]);
    }
  }

  // ------------------------------------------------------------------ the recomputation

  method AddFastIntervals(segment: seq<Beat>, count: nat, minUs: nat, ghost before: seq<nat>)
    returns (count': nat, minUs': nat)
    requires count == |before| && minUs == ZeroUnsetMin(before)
    ensures count' == |before + FastIntervals(segment)|
    ensures minUs' == ZeroUnsetMin(before + FastIntervals(segment))
  {
    count', minUs' := count, minUs;
    assert before + [] == before;
    var i := 1;
    while i < |segment|
      invariant 1 <= i
      invariant i <= |segment| || (|segment| == 0 && i == 1)
      invariant count' == |before + FastIntervals(segment[..Min(i, |segment|)])|
      invariant minUs' == ZeroUnsetMin(before + FastIntervals(segment[..Min(i, |segment|)]))
    {
      var previous, current := segment[i - 1], segment[i];
      var interval := SatSub(current.start, previous.start);
      ghost var known := before + FastIntervals(segment[..i]);
      assert segment[..i + 1][..i] == segment[..i];
      if interval < previous.duration {
        count' := count' + 1;
        minUs' := if minUs' == 0 then interval else Min(minUs', interval);
        assert before + FastIntervals(segment[..i + 1]) == known + [interval];
        assert (known + [interval])[..|known|] == known;
      } else {
        assert before + FastIntervals(segment[..i + 1]) == known;
      }
      i := i + 1;
    }
    assert segment[..Min(i, |segment|)] == segment;
  }

  method RecomputeTempoWindow(tally: WindowTally, window: seq<Beat>, ghost before: seq<seq<Beat>>)
    returns (tally': WindowTally)
    requires tally == Tally(before)
    ensures tally' == Tally(before + [window])
  {
    TallyPush(before, window);
    tally' := AddWindow(tally, window);
  }

  method AddTempoWindows(segment: seq<Beat>, tally: WindowTally, ghost before: seq<seq<Beat>>)
    returns (tally': WindowTally)
    requires tally == Tally(before)
    ensures tally' == Tally(before + Windows(segment, TRACK_TEMPO_WINDOW_PACKETS))
  {
    tally' := tally;
    ghost var windows := Windows(segment, TRACK_TEMPO_WINDOW_PACKETS);
    var i := 0;
    assert before + windows[..0] == before;
    while i + TRACK_TEMPO_WINDOW_PACKETS <= |segment|
      invariant 0 <= i <= |windows|
      invariant tally' == Tally(before + windows[..i])
    {
      tally' := RecomputeTempoWindow(tally', segment[i..i + TRACK_TEMPO_WINDOW_PACKETS], before + windows[..i]);
      OneMoreWindow(before, windows, i);
      i := i + 1;
    }
    assert windows[..i] == windows;
  }

  lemma {:induction false} OneMoreWindow(before: seq<seq<Beat>>, windows: seq<seq<Beat>>, i: nat)
    requires i < |windows|
    ensures before + windows[..i] + [windows[i]] == before + windows[..i + 1]
  {}

  /** The recomputed figures of a log, in terms of its track sends and its segments. */
  function Figures(events: seq<RawSendEvent>): Recomputed
    requires Positioned(events)
  {
    var segments := Segments(events);
    var media := Sat64(Sum(Durations(TrackBeats(events))));
    var wall := Sat64(TotalWall(segments));
    Recomputed(
      |segments|, |Tracks(events)|, Count(events, IsBoundarySilence), media, Quot(media, 1_000), Quot(wall, 1_000),
      RatioPpm(media, wall), |AllFastIntervals(segments)|, ZeroUnsetMin(AllFastIntervals(segments)),
      Tally(AllWindows(segments, TRACK_TEMPO_WINDOW_PACKETS)))
  }

  /** The fast intervals of three packets, the second at the start of the first and the third early. */
  lemma {:induction false} EarlyTwice(segment: seq<Beat>, a: Beat, b: Beat, c: Beat)
    requires segment == [a, b, c] && a.start == b.start < c.start < b.start + b.duration && a.duration > 0
    ensures FastIntervals(segment) == [0, c.start - b.start]
  {
    var two := segment[..2];
    assert two == [a, b] && two[..1] == [a];
    assert FastIntervals(two[..1]) == [];
    assert FastIntervals(two) == [0];
  }

  predicate OnlyTracks(events: seq<RawSendEvent>) {
    forall i :: 0 <= i < |events| ==> events[i].kind == Track
  }

  predicate AreBeats(events: seq<RawSendEvent>, beats: seq<Beat>)
    requires Positioned(events) && OnlyTracks(events)
  {
    |beats| == |events| && forall i :: 0 <= i < |events| ==> beats[i] == BeatOf(events[i])
  }

  predicate AreTracks(events: seq<RawSendEvent>, tracks: seq<RawTrackSend>)
    requires Positioned(events) && OnlyTracks(events)
  {
    && |tracks| == |events|
    && forall i :: 0 <= i < |events| ==> tracks[i] == RawTrackSend(events[i].positionSamples.value, events[i].samples)
  }

  lemma {:induction false} BeatsListed(events: seq<RawSendEvent>)
    requires Positioned(events) && OnlyTracks(events)
    ensures AreBeats(events, TrackBeats(events))
  {
    if |events| > 0 {
      BeatsListed(events[..|events| - 1]);
    }
  }

  lemma {:induction false} TracksListed(events: seq<RawSendEvent>)
    requires Positioned(events) && OnlyTracks(events)
    ensures AreTracks(events, Tracks(events))
  {
    if |events| > 0 {
      TracksListed(events[..|events| - 1]);
    }
  }

  /** A log of track packets alone is one segment. */
  lemma {:induction false} OneSegment(events: seq<RawSendEvent>)
    requires Positioned(events) && OnlyTracks(events)
    ensures SplitOf(events) == Split([], TrackBeats(events))
  {
    if |events| > 0 {
      OneSegment(events[..|events| - 1]);
    }
  }

  function SendAt(us: u16): RawSendEvent {
    RawSendEvent(0, Track, us, us, 960, 0, 0, None, Some(0), Some(0), Some(0), true)
  }

  lemma {:induction false} TwentyMs(samples: u32)
    requires samples == 960
    ensures DurationUs(samples) == 20_000
  {
    QuotBelow(samples * 1_000_000, 48_000, 20_000);
    QuotBelow(samples * 1_000_000, 48_000, 20_001);
  }

  /** The recorded minimum can be above the true one: sends at 0, 0 and 10 ms give the fast intervals 0 and 10 ms, and
      the minimum ends at 10 ms. */
  lemma {:induction false} MinimumForgetsZero() returns (events: seq<RawSendEvent>)
    ensures Positioned(events) && AllFastIntervals(Segments(events)) == [0, 10_000]
    ensures Figures(events).fastIntervalCount == 2 && Figures(events).fastIntervalMinUs == 10_000
  {
    events := [SendAt(0), SendAt(0), SendAt(10_000)];
    OneSegment(events);
    BeatsListed(events);
    TwentyMs(events[0].samples);
    var beats := TrackBeats(events);
    EarlyTwice(beats, beats[0], beats[1], beats[2]);
    OneRun(Segments(events), beats);
    EndsAbove(FastIntervals(beats), 10_000);
  }

  lemma {:induction false} EndsAbove(intervals: seq<nat>, x: nat)
    requires intervals == [0, x] && x > 0
    ensures ZeroUnsetMin(intervals) == x
  {
    ZeroUnsetMinMeaning(intervals, 1);
    assert intervals[1..] == [x];
  }

  lemma {:induction false} OneRun(segments: seq<seq<Beat>>, segment: seq<Beat>)
    requires segments == [segment]
    ensures TotalWall(segments) == Wall(segment)
    ensures AllFastIntervals(segments) == FastIntervals(segment)
    ensures AllWindows(segments, TRACK_TEMPO_WINDOW_PACKETS) == Windows(segment, TRACK_TEMPO_WINDOW_PACKETS)
  {
    assert segments[..0] == [];
  }

  predicate IsTrack(e: RawSendEvent) {
    e.kind == Track
  }

  /** The duration of so many samples at 48 kHz, in whole microseconds. */
  lemma {:induction false} DurationMeaning(samples: u32)
    ensures 48 * DurationUs(samples) <= 1_000 * samples < 48 * DurationUs(samples) + 48
  {
    var us := DurationUs(samples);
    QuotBelow(samples * 1_000_000, 48_000, us);
    QuotBelow(samples * 1_000_000, 48_000, us + 1);
  }

  /** A window counts as one past the source buffer exactly when its first packet starts five seconds, at 48 samples a
      millisecond, or more into the source. */
  lemma {:induction false} PostSourceIff(e: RawSendEvent, rest: seq<Beat>)
    requires e.kind == Track && HasPosition(e)
    ensures PostSource([BeatOf(e)] + rest) <==> e.positionSamples.value >= 48 * 5_000
  {}

  /** `ms` is `us` in whole milliseconds. */
  predicate InMs(us: nat, ms: nat) {
    1_000 * ms <= us < 1_000 * ms + 1_000
  }

  lemma {:induction false} WholeMs(us: nat)
    ensures InMs(us, Quot(us, 1_000))
  {
    QuotBelow(us, 1_000, Quot(us, 1_000));
    QuotBelow(us, 1_000, Quot(us, 1_000) + 1);
  }

  lemma {:induction false} TrackCount(events: seq<RawSendEvent>)
    requires Positioned(events)
    ensures |Tracks(events)| == |TrackBeats(events)| == Count(events, IsTrack)
  {
    if |events| > 0 {
      TrackCount(events[..|events| - 1]);
    }
  }

  /** What the figures of a log are: the number of its track sends, and of its boundary-silence sends; the media time as
      the saturated sum of their durations, in microseconds and in whole milliseconds; the wall clock, in whole
      milliseconds, as the saturated sum over the segments of last start minus first start plus last duration; and the
      first in millionths of the second, rounded down. */
  lemma {:induction false} FiguresMeaning(events: seq<RawSendEvent>)
    requires Positioned(events)
    ensures var f := Figures(events);
            var media, wall := Sat64(Sum(Durations(TrackBeats(events)))), Sat64(TotalWall(Segments(events)));
            && f.packetCount == Count(events, IsTrack) && f.boundarySilenceCount == Count(events, IsBoundarySilence)
            && f.mediaUs == media && InMs(media, f.mediaMs) && InMs(wall, f.wallMs)
            && (media > 0 && wall > 0 ==>
                  && f.ratioPpm * wall <= media * 1_000_000
                  && (f.ratioPpm < 0xFFFF_FFFF_FFFF_FFFF ==> media * 1_000_000 < (f.ratioPpm + 1) * wall))
  {
    var media, wall := Sat64(Sum(Durations(TrackBeats(events)))), Sat64(TotalWall(Segments(events)));
    TrackCount(events);
    WholeMs(media);
    WholeMs(wall);
    if media > 0 && wall > 0 {
      RatioMeaning(media, wall);
    }
  }

  lemma {:induction false} TwoBeats(segment: seq<Beat>, a: Beat, b: Beat)
    requires segment == [a, b]
    ensures Media(segment) == a.duration + b.duration && Wall(segment) == SatSub(b.start, a.start) + b.duration
    ensures a.start + a.duration <= b.start ==> FastIntervals(segment) == []
    ensures Windows(segment, TRACK_TEMPO_WINDOW_PACKETS) == []
  {
    MediaPush([], a);
    MediaPush([a], b);
    assert [] + [a] == [a] && [a] + [b] == segment;
    assert Media([]) == 0;
    assert segment[..1] == [a];
  }

  lemma {:induction false} Whole(us: nat, ms: nat)
    requires InMs(us, ms)
    ensures Quot(us, 1_000) == ms
  {
    WholeMs(us);
  }

  /** Two sends of 960 samples, started at 0 and 25 ms and completed 0 and 5 ms later: 40 ms of media over 45 ms of wall
      clock. */
  lemma {:induction false} LateTwoPackets() returns (events: seq<RawSendEvent>)
    ensures |events| == 2 && OnlyTracks(events) && Positioned(events)
    ensures Figures(events).mediaMs == 40 && Figures(events).wallMs == 45 && Figures(events).fastIntervalCount == 0
  {
    events := [SendAt(0), SendAt(25_000).(sentUs := 30_000)];
    OneSegment(events);
    BeatsListed(events);
    TwentyMs(events[0].samples);
    var beats := TrackBeats(events);
    TwoBeats(beats, beats[0], beats[1]);
    OneRun(Segments(events), beats);
    Whole(Media(beats), 40);
    Whole(Wall(beats), 45);
  }

  predicate IsBoundarySilence(e: RawSendEvent) {
    e.kind == BoundarySilence
  }

  function TrackBeats(events: seq<RawSendEvent>): seq<Beat>
    requires Positioned(events)
  {
    if |events| == 0 then []
    else
      TrackBeats(events[..|events| - 1])
      + if events[|events| - 1].kind == Track then [BeatOf(events[|events| - 1])] else []
  }

  /** What the first loop has gathered after `events`. */
  predicate Gathered(events: seq<RawSendEvent>, split: Split, tracks: seq<RawTrackSend>, media: u64, boundary: nat)
    requires Positioned(events)
  {
    && split == SplitOf(events)
    && tracks == Tracks(events)
    && media == Sat64(Sum(Durations(TrackBeats(events))))
    && boundary == Count(events, IsBoundarySilence)
  }

  lemma {:induction false} GatherStep(events: seq<RawSendEvent>, n: nat)
    requires n < |events| && Positioned(events[..n + 1])
    ensures Positioned(events[..n])
    ensures var e, front, longer := events[n], events[..n], events[..n + 1];
            && SplitOf(longer) == (if e.kind == Track
                                   then SplitOf(front).(current := SplitOf(front).current + [BeatOf(e)])
                                   else Finish(SplitOf(front)))
            && Tracks(longer) == Tracks(front) + (if e.kind == Track then [RawTrackSend(e.positionSamples.value, e.samples)] else [])
            && Sum(Durations(TrackBeats(longer)))
               == Sum(Durations(TrackBeats(front))) + (if e.kind == Track then DurationUs(e.samples) else 0)
            && Count(longer, IsBoundarySilence) == Count(front, IsBoundarySilence) + (if e.kind == BoundarySilence then 1 else 0)
  {
    var front, longer := events[..n], events[..n + 1];
    assert longer[..n] == front;
    assert longer[n] == events[n];
    forall i | 0 <= i < n
      ensures HasPosition(front[i])
    {
      assert front[i] == longer[i];
    }
    if events[n].kind == Track {
      assert Durations(TrackBeats(longer)) == Durations(TrackBeats(front)) + [DurationUs(events[n].samples)];
      SumPush(Durations(TrackBeats(front)), DurationUs(events[n].samples));
    } else {
      assert TrackBeats(longer) == TrackBeats(front);
    }
  }

  /** The `match` of the first loop, at event `n`. */
  method GatherOne(events: seq<RawSendEvent>, n: nat, split: Split, tracks: seq<RawTrackSend>, media: u64, boundary: nat)
    returns (split': Split, tracks': seq<RawTrackSend>, media': u64, boundary': nat)
    requires n < |events| && Positioned(events[..n + 1]) && Positioned(events[..n])
    requires Gathered(events[..n], split, tracks, media, boundary)
    ensures Gathered(events[..n + 1], split', tracks', media', boundary')
  {
    split', tracks', media', boundary' := split, tracks, media, boundary;
    var event := events[n];
    assert events[..n + 1][n] == event && HasPosition(event);
    GatherStep(events, n);
    if event.kind == Track {
      Sat64Step(Sum(Durations(TrackBeats(events[..n]))), DurationUs(event.samples));
      media' := Sat64(media + DurationUs(event.samples));
      split' := split.(current := split.current + [BeatOf(event)]);
      tracks' := tracks + [RawTrackSend(event.positionSamples.value, event.samples)];
    } else {
      if event.kind == BoundarySilence {
        boundary' := boundary + 1;
      }
      split' := Finish(split);
    }
  }

  /** The first loop of `recompute_raw_playback`. */
  method Gather(events: seq<RawSendEvent>)
    returns (ok: bool, split: Split, tracks: seq<RawTrackSend>, media: u64, boundary: nat)
    ensures ok <==> Positioned(events)
    ensures ok ==> Gathered(events, split, tracks, media, boundary)
  {
    split, tracks, media, boundary := Split([], []), [], 0, 0;
    var i := 0;
    while i < |events|
      invariant 0 <= i <= |events|
      invariant Positioned(events[..i])
      invariant Gathered(events[..i], split, tracks, media, boundary)
    {
      var event := events[i];
      if event.kind == Track && (event.positionMs.None? || event.positionSamples.None?) {
        assert !HasPosition(events[i]);
        return false, split, tracks, media, boundary;
      }
      assert events[..i + 1] == events[..i] + [event];
      split, tracks, media, boundary := GatherOne(events, i, split, tracks, media, boundary);
      i := i + 1;
    }
    assert events[..i] == events;
    ok := true;
  }

  /** The second loop: wall clock, fast intervals and rolling windows, segment by segment. */
  method Measure(segments: seq<seq<Beat>>) returns (wall: u64, fastCount: nat, fastMin: nat, tally: WindowTally)
    ensures wall == Sat64(TotalWall(segments))
    ensures fastCount == |AllFastIntervals(segments)| && fastMin == ZeroUnsetMin(AllFastIntervals(segments))
    ensures tally == Tally(AllWindows(segments, TRACK_TEMPO_WINDOW_PACKETS))
  {
    wall, fastCount, fastMin, tally := 0, 0, 0, WindowTally(0, 0, 0, 0, 0, 0);
    var i := 0;
    while i < |segments|
      invariant 0 <= i <= |segments|
      invariant wall == Sat64(TotalWall(segments[..i]))
      invariant fastCount == |AllFastIntervals(segments[..i])| && fastMin == ZeroUnsetMin(AllFastIntervals(segments[..i]))
      invariant tally == Tally(AllWindows(segments[..i], TRACK_TEMPO_WINDOW_PACKETS))
    {
      var segment := segments[i];
      assert segments[..i + 1][..i] == segments[..i];
      if segment != [] {
        var first, last := segment[0], segment[|segment| - 1];
        Sat64Step(TotalWall(segments[..i]), SatSub(last.start, first.start));
        Sat64Step(TotalWall(segments[..i]) + SatSub(last.start, first.start), last.duration);
        wall := Sat64(wall + SatSub(last.start, first.start));
        wall := Sat64(wall + last.duration);
      }
      fastCount, fastMin := AddFastIntervals(segment, fastCount, fastMin, AllFastIntervals(segments[..i]));
      tally := AddTempoWindows(segment, tally, AllWindows(segments[..i], TRACK_TEMPO_WINDOW_PACKETS));
      i := i + 1;
    }
    assert segments[..i] == segments;
  }

  /** The third loop: source positions. */
  method CheckPositions(tracks: seq<RawTrackSend>) returns (complaint: Option<RecomputeError>)
    ensures complaint.None? <==> Continuous(tracks)
  {
    var i := 1;
    while i < |tracks|
      invariant 1 <= i
      invariant forall k :: 0 < k < i && k < |tracks| ==> Continues(tracks[k - 1], tracks[k])
    {
      var expected := Sat64(tracks[i - 1].position + tracks[i - 1].samples);
      if tracks[i].position < expected {
        return Some(Replayed);
      }
      if tracks[i].position > Sat64(expected + POSITION_TOLERANCE_SAMPLES) {
        return Some(SkippedAhead);
      }
      i := i + 1;
    }
    complaint := None;
  }

  /** `recompute_raw_playback`: accepted exactly when every track send has a source position and the
      source is continuous; the figures are those of the log's tracks and segments. */
  method RecomputeRawPlayback(events: seq<RawSendEvent>) returns (r: Result<Recomputed, RecomputeError>)
    ensures r.Ok? <==> Positioned(events) && Continuous(Tracks(events))
    ensures r.Ok? ==> r.value == Figures(events)
  {
    var ok, split, tracks, media, boundary := Gather(events);
    if !ok {
      return Err(NoPosition);
    }
    var segments := Finish(split).done;
    var wall, fastCount, fastMin, tally := Measure(segments);
    var complaint := CheckPositions(tracks);
    if complaint.Some? {
      return Err(complaint.value);
    }
    r := Ok(Recomputed(|segments|, |tracks|, boundary, media, Quot(media, 1_000), Quot(wall, 1_000),
                       RatioPpm(media, wall), fastCount, fastMin, tally));
  }

  // ------------------------------------------------------------------ no fast interval

  predicate TracksHaveMedia(events: seq<RawSendEvent>) {
    forall i :: 0 <= i < |events| && events[i].kind == Track ==> events[i].samples > 0
  }

  lemma {:induction false} NoFastIntervalListed(segment: seq<Beat>)
    ensures FastIntervals(segment) == [] <==> NoFastInterval(segment)
  {
    if |segment| > 1 {
      var n := |segment| - 1;
      NoFastIntervalListed(segment[..n]);
      assert forall i :: 0 <= i < n ==> segment[..n][i] == segment[i];
    }
  }

  lemma {:induction false} NoneListedInAny(segments: seq<seq<Beat>>, k: nat)
    requires k < |segments| && AllFastIntervals(segments) == []
    ensures FastIntervals(segments[k]) == []
  {
    var n := |segments| - 1;
    assert AllFastIntervals(segments) == AllFastIntervals(segments[..n]) + FastIntervals(segments[n]);
    if k < n {
      NoneListedInAny(segments[..n], k);
    }
  }

  lemma {:induction false} SegmentDurationsPositive(events: seq<RawSendEvent>, k: nat)
    requires Positioned(events) && TracksHaveMedia(events) && k < |Segments(events)|
    ensures PositiveDurations(Segments(events)[k])
  {
    SegmentsAreMaximalRuns(events, k);
    var segment := Segments(events)[k];
    var a: nat, b: nat :| MaximalRun(events, a, b) && IsRunOf(segment, events, a, b);
    forall i | 0 <= i < |segment|
      ensures segment[i].duration > 0
    {
      assert events[a + i].kind == Track && segment[a + i - a] == BeatOf(events[a + i]);
      QuotBelow(events[a + i].samples * 1_000_000, 48_000, 1);
    }
  }

  lemma {:induction false} SegmentsCarryAllMedia(events: seq<RawSendEvent>)
    requires Positioned(events)
    ensures TotalMedia(SplitOf(events).done) + Media(SplitOf(events).current) == Media(TrackBeats(events))
  {
    if |events| > 0 {
      var n := |events| - 1;
      var s, e := SplitOf(events[..n]), events[n];
      SegmentsCarryAllMedia(events[..n]);
      if e.kind == Track {
        MediaPush(s.current, BeatOf(e));
        MediaPush(TrackBeats(events[..n]), BeatOf(e));
      } else {
        assert TrackBeats(events) == TrackBeats(events[..n]);
        TotalMediaPush(s.done, s.current);
        assert Media([]) == 0;
      }
    } else {
      assert Media([]) == 0;
    }
  }

  lemma {:induction false} TotalMediaPush(runs: seq<seq<Beat>>, run: seq<Beat>)
    ensures TotalMedia(runs + [run]) == TotalMedia(runs) + Media(run)
  {}

  lemma {:induction false} WallCoversMedia(runs: seq<seq<Beat>>)
    requires forall k :: 0 <= k < |runs| ==> NoFastInterval(runs[k]) && PositiveDurations(runs[k])
    ensures TotalMedia(runs) <= TotalWall(runs)
  {
    if |runs| > 0 {
      var n := |runs| - 1;
      assert forall k :: 0 <= k < n ==> runs[..n][k] == runs[k];
      WallCoversMedia(runs[..n]);
      WallIsMediaPlusLateness(runs[n]);
    }
  }

  lemma {:induction false} NoFastWindowInAny(runs: seq<seq<Beat>>)
    requires forall k :: 0 <= k < |runs| ==> NoFastInterval(runs[k]) && PositiveDurations(runs[k])
    ensures forall i :: 0 <= i < |AllWindows(runs, TRACK_TEMPO_WINDOW_PACKETS)| ==>
              AllWindows(runs, TRACK_TEMPO_WINDOW_PACKETS)[i] != []
              && !LoggedFast(AllWindows(runs, TRACK_TEMPO_WINDOW_PACKETS)[i])
  {
    if |runs| > 0 {
      var n := |runs| - 1;
      assert forall k :: 0 <= k < n ==> runs[..n][k] == runs[k];
      NoFastWindowInAny(runs[..n]);
      NoFastWindow(runs[n], TRACK_TEMPO_WINDOW_PACKETS);
    }
  }

  /** In a log whose track packets all carry media, zero fast intervals implies strictly increasing
      starts in each segment, no fast rolling window, and an aggregate ratio of at most 1,000,000 ppm
      across all segments. */
  lemma {:induction false} ZeroFastIntervals(events: seq<RawSendEvent>)
    requires Positioned(events) && TracksHaveMedia(events)
    requires Figures(events).fastIntervalCount == 0
    ensures Figures(events).windows.fast == 0
    ensures Figures(events).ratioPpm <= 1_000_000
    ensures forall k, i, j :: 0 <= k < |Segments(events)| && 0 <= i < j < |Segments(events)[k]| ==>
              Segments(events)[k][i].start < Segments(events)[k][j].start
  {
    var segments := Segments(events);
    forall k | 0 <= k < |segments|
      ensures NoFastInterval(segments[k]) && PositiveDurations(segments[k])
    {
      NoneListedInAny(segments, k);
      NoFastIntervalListed(segments[k]);
      SegmentDurationsPositive(events, k);
    }
    var windows := AllWindows(segments, TRACK_TEMPO_WINDOW_PACKETS);
    NoFastWindowInAny(segments);
    TallyMeaning(windows);
    WallCoversMedia(segments);
    MediaOfSegments(events);
    RatioAtMostMillion(Sat64(Media(TrackBeats(events))), Sat64(TotalWall(segments)));
    forall k, i, j | 0 <= k < |segments| && 0 <= i < j < |segments[k]|
      ensures segments[k][i].start < segments[k][j].start
    {
      StartsIncrease(segments[k], i, j);
    }
  }

  /** The segments lose no media. */
  lemma {:induction false} MediaOfSegments(events: seq<RawSendEvent>)
    requires Positioned(events)
    ensures TotalMedia(Segments(events)) == Media(TrackBeats(events))
  {
    SegmentsCarryAllMedia(events);
    var s := SplitOf(events);
    TotalMediaPush(s.done, s.current);
    assert Media([]) == 0;
  }
}
