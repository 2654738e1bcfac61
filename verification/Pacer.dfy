/** The audio pacer (crates/discord-voice-service-playback/src/pacer.rs) and the evidence its
    stretches leave in the raw send log. Instants and durations are nanoseconds. */
module Pacer {
  import opened Words
  import opened Tempo
  import opened RawSendLog
  import opened RawPlayback

  datatype PacedPacketKind = TrackPacket | NonTrackPacket

  datatype PacerMark = PacerMark(mediaClockReset: bool, tempoRebased: bool)

  class AudioPacer {
    var idealDeadline: nat
    var minimumDeadline: nat
    var emittedFrames: nat
    var clockResetCount: nat
    var tempoRebaseCount: nat

    constructor StartingAfter(now: nat, delay: nat)
      ensures NextDeadline() == now + delay
      ensures emittedFrames == 0 && clockResetCount == 0 && tempoRebaseCount == 0
    {
      idealDeadline := now + delay;
      minimumDeadline := now + delay;
      emittedFrames := 0;
      clockResetCount := 0;
      tempoRebaseCount := 0;
    }

    function NextDeadline(): nat
      reads this
    {
      Max(idealDeadline, minimumDeadline)
    }

    method ResetAfterInterruptionAt(now: nat, nextSpacing: nat)
      modifies this
      ensures NextDeadline() == now + nextSpacing
      ensures clockResetCount == old(clockResetCount) + 1
      ensures emittedFrames == old(emittedFrames) && tempoRebaseCount == old(tempoRebaseCount)
    {
      var deadline := now + nextSpacing;
      idealDeadline := deadline;
      minimumDeadline := deadline;
      clockResetCount := clockResetCount + 1;
    }

    /** `reset_deadline`: the next packet may go out at once, however recently the last one started. */
    method ResetDeadline(now: nat)
      modifies this
      ensures NextDeadline() == now && clockResetCount == old(clockResetCount) + 1
    {
      ResetAfterInterruptionAt(now, 0);
    }

    /** The next deadline is the real send start plus the duration, whether or not the packet was
        late enough to reset the media clock. */
    method MarkSent(kind: PacedPacketKind, scheduledDeadline: nat, duration: nat, sendStartedAt: nat)
      returns (mark: PacerMark)
      modifies this
      ensures NextDeadline() == sendStartedAt + duration
      ensures mark.mediaClockReset <==> duration > 0 && sendStartedAt >= scheduledDeadline + duration
      ensures mark.tempoRebased <==> mark.mediaClockReset && kind == TrackPacket
      ensures emittedFrames == old(emittedFrames) + 1
      ensures clockResetCount == old(clockResetCount) + if mark.mediaClockReset then 1 else 0
      ensures tempoRebaseCount == old(tempoRebaseCount) + if mark.tempoRebased then 1 else 0
    {
      var lateness := SatSub(sendStartedAt, scheduledDeadline);
      var mediaClockReset := duration > 0 && lateness >= duration;
      if mediaClockReset {
        ResetAfterInterruptionAt(sendStartedAt, duration);
      } else {
        var nextDeadline := sendStartedAt + duration;
        idealDeadline := nextDeadline;
        minimumDeadline := nextDeadline;
      }
      emittedFrames := emittedFrames + 1;
      var tempoRebased := mediaClockReset && kind == TrackPacket;
      if tempoRebased {
        tempoRebaseCount := tempoRebaseCount + 1;
      }
      mark := PacerMark(mediaClockReset, tempoRebased);
    }

    /** `wait_for`: returns at or after the deadline, `late` nanoseconds after it. */
    method WaitFor(duration: nat, late: nat) returns (start: nat)
      modifies this
      ensures start == old(NextDeadline()) + late
      ensures NextDeadline() == start + duration
      ensures emittedFrames == old(emittedFrames) + 1
    {
      var scheduled := NextDeadline();
      start := scheduled + late;
      var mark := MarkSent(TrackPacket, scheduled, duration, start);
    }
  }

  /** Start `n` of a stretch: the first deadline plus all earlier durations plus all lateness so far. */
  function StretchStart(first: nat, durations: seq<nat>, lates: seq<nat>, n: nat): nat
    requires n < |durations| == |lates|
  {
    first + Sum(durations[..n]) + Sum(lates[..n + 1])
  }

  /** A stretch of `wait_for` calls with no explicit reset: packet `i` lasts `durations[i]` and wakes
      `lates[i]` after its deadline. */
  method PacedStretch(pacer: AudioPacer, durations: seq<nat>, lates: seq<nat>) returns (starts: seq<nat>)
    requires |lates| == |durations|
    modifies pacer
    ensures |starts| == |durations|
    ensures forall n :: 0 <= n < |starts| ==> starts[n] == StretchStart(old(pacer.NextDeadline()), durations, lates, n)
    ensures pacer.NextDeadline() == old(pacer.NextDeadline()) + Sum(durations) + Sum(lates)
    ensures pacer.emittedFrames == old(pacer.emittedFrames) + |durations|
  {
    ghost var first := pacer.NextDeadline();
    starts := [];
    var i := 0;
    while i < |durations|
      invariant 0 <= i <= |durations| && |starts| == i
      invariant forall n :: 0 <= n < i ==> starts[n] == StretchStart(first, durations, lates, n)
      invariant pacer.NextDeadline() == first + Sum(durations[..i]) + Sum(lates[..i])
      invariant pacer.emittedFrames == old(pacer.emittedFrames) + i
    {
      StretchStep(first, durations, lates, i);
      var start := pacer.WaitFor(durations[i], lates[i]);
      starts := starts + [start];
      i := i + 1;
    }
    assert durations[..i] == durations && lates[..i] == lates;
  }

  lemma {:induction false} StretchStep(first: nat, durations: seq<nat>, lates: seq<nat>, n: nat)
    requires n < |durations| == |lates|
    ensures StretchStart(first, durations, lates, n) == first + Sum(durations[..n]) + Sum(lates[..n]) + lates[n]
    ensures first + Sum(durations[..n + 1]) + Sum(lates[..n + 1]) == StretchStart(first, durations, lates, n) + durations[n]
  {
    assert durations[..n + 1] == durations[..n] + [durations[n]];
    assert lates[..n + 1] == lates[..n] + [lates[n]];
    SumPush(durations[..n], durations[n]);
    SumPush(lates[..n], lates[n]);
  }

  /** Inside a stretch no packet starts before the end of the one before it. */
  lemma {:induction false} StretchSpacing(first: nat, durations: seq<nat>, lates: seq<nat>, n: nat)
    requires 0 < n < |durations| == |lates|
    ensures StretchStart(first, durations, lates, n)
         == StretchStart(first, durations, lates, n - 1) + durations[n - 1] + lates[n]
  {
    StretchStep(first, durations, lates, n);
    StretchStep(first, durations, lates, n - 1);
  }

  // ------------------------------------------------------------------ what the log shows

  /** `instant_offset_micros`. */
  function OffsetUs(base: nat, instant: nat): nat {
    Quot(SatSub(instant, base), 1_000)
  }

  lemma {:induction false} QuotSuperadditive(a: nat, d: nat, b: nat)
    requires b > 0
    ensures Quot(a + d, b) >= Quot(a, b) + Quot(d, b)
  {
    if a >= b {
      QuotSuperadditive(a - b, d, b);
    } else if d >= b {
      QuotSuperadditive(a, d - b, b);
    }
  }

  /** Truncating the nanosecond duration to microseconds gives at least the logged duration. */
  lemma {:induction false} DurationUnits(samples: u32)
    ensures Quot(DurationNs(samples), 1_000) >= DurationUs(samples)
  {
    var us := DurationUs(samples);
    QuotBelow(samples * 1_000_000, 48_000, us);
    QuotBelow(samples * 1_000_000_000, 48_000, us * 1_000);
    QuotBelow(DurationNs(samples), 1_000, us);
  }

  /** Truncation to microseconds never turns a paced interval into a fast one. */
  lemma {:induction false} PacedIntervalIsNotFast(base: nat, start: nat, next: nat, samples: u32)
    requires base <= start && start + DurationNs(samples) <= next
    ensures OffsetUs(base, next) >= OffsetUs(base, start) + DurationUs(samples)
  {
    var spare := next - start - DurationNs(samples);
    QuotSuperadditive(start - base, DurationNs(samples), 1_000);
    QuotSuperadditive(start - base + DurationNs(samples), spare, 1_000);
    DurationUnits(samples);
  }

  /** The log of sends that started at `starts`: each start is recorded as a truncated offset, and
      two track sends in a row are one pacer stretch. */
  predicate PacedLog(events: seq<RawSendEvent>, base: nat, starts: seq<nat>) {
    && |starts| == |events|
    && (forall i :: 0 <= i < |events| ==> base <= starts[i] && events[i].sendStartedUs == OffsetUs(base, starts[i]))
    && (forall i :: 0 < i < |events| && events[i].kind == Track && events[i - 1].kind == Track ==>
          starts[i - 1] + DurationNs(events[i - 1].samples) <= starts[i])
  }

  function LoggedDurations(events: seq<RawSendEvent>): (d: seq<nat>)
    ensures |d| == |events|
  {
    seq(|events|, i requires 0 <= i < |events| => DurationNs(events[i].samples))
  }

  /** The log of one stretch of the pacer: the starts are those `PacedStretch` yields for the durations
      logged. */
  predicate StretchLog(events: seq<RawSendEvent>, base: nat, first: nat, lates: seq<nat>, starts: seq<nat>) {
    && |lates| == |starts| == |events| && base <= first
    && forall n :: 0 <= n < |events| ==>
         && starts[n] == StretchStart(first, LoggedDurations(events), lates, n)
         && events[n].sendStartedUs == OffsetUs(base, starts[n])
  }

  /** A stretch of the pacer leaves a paced log. */
  lemma {:induction false} StretchLogIsPaced(events: seq<RawSendEvent>, base: nat, first: nat, lates: seq<nat>, starts: seq<nat>)
    requires StretchLog(events, base, first, lates, starts)
    ensures PacedLog(events, base, starts)
  {
    forall i | 0 < i < |events|
      ensures starts[i - 1] + DurationNs(events[i - 1].samples) <= starts[i]
    {
      StretchSpacing(first, LoggedDurations(events), lates, i);
      assert starts[i] == StretchStart(first, LoggedDurations(events), lates, i);
      assert starts[i - 1] == StretchStart(first, LoggedDurations(events), lates, i - 1);
    }
  }

  lemma {:induction false} PacedSegment(events: seq<RawSendEvent>, base: nat, starts: seq<nat>, k: nat)
    requires PacedLog(events, base, starts) && Positioned(events) && k < |Segments(events)|
    ensures NoFastInterval(Segments(events)[k])
  {
    SegmentsAreMaximalRuns(events, k);
    var segment := Segments(events)[k];
    var a: nat, b: nat :| MaximalRun(events, a, b) && IsRunOf(segment, events, a, b);
    forall i | 0 < i < |segment|
      ensures SatSub(segment[i].start, segment[i - 1].start) >= segment[i - 1].duration
    {
      var previous, current := a + i - 1, a + i;
      assert segment[previous - a] == BeatOf(events[previous]) && segment[current - a] == BeatOf(events[current]);
      PacedIntervalIsNotFast(base, starts[previous], starts[current], events[previous].samples);
    }
  }

  lemma {:induction false} NoneFastListsNothing(segments: seq<seq<Beat>>)
    requires forall k :: 0 <= k < |segments| ==> NoFastInterval(segments[k])
    ensures AllFastIntervals(segments) == []
  {
    if |segments| > 0 {
      var n := |segments| - 1;
      assert forall k :: 0 <= k < n ==> segments[..n][k] == segments[k];
      NoneFastListsNothing(segments[..n]);
      NoFastIntervalListed(segments[n]);
    }
  }

  /** A paced log yields no fast interval, no fast window and no ratio above real time. */
  lemma {:induction false} PacedLogIsNeverFast(events: seq<RawSendEvent>, base: nat, starts: seq<nat>)
    requires PacedLog(events, base, starts) && Positioned(events) && TracksHaveMedia(events)
    ensures Figures(events).fastIntervalCount == 0
    ensures Figures(events).windows.fast == 0
    ensures Figures(events).ratioPpm <= 1_000_000
  {
    var segments := Segments(events);
    forall k | 0 <= k < |segments|
      ensures NoFastInterval(segments[k])
    {
      PacedSegment(events, base, starts, k);
    }
    NoneFastListsNothing(segments);
    ZeroFastIntervals(events);
  }

  lemma {:induction false} LoggedMediaBounded(beats: seq<Beat>)
    requires forall i :: 0 <= i < |beats| ==> beats[i].duration <= 89_478_485_312
    ensures Media(beats) <= |beats| * 89_478_485_312
  {
    var n := |beats| - 1;
    if n >= 0 {
      LoggedMediaBounded(beats[..n]);
      assert beats[..n] + [beats[n]] == beats;
      MediaPush(beats[..n], beats[n]);
    } else {
      assert beats == [];
    }
  }

  /** A rolling window of a paced log is counted slow exactly when 49 times the lateness after its
      first packet exceeds its media duration. */
  lemma {:induction false} PacedWindowIsSlowIff(events: seq<RawSendEvent>, base: nat, starts: seq<nat>, k: nat, i: nat)
    requires PacedLog(events, base, starts) && Positioned(events) && TracksHaveMedia(events)
    requires k < |Segments(events)| && i + TRACK_TEMPO_WINDOW_PACKETS <= |Segments(events)[k]|
    ensures var window := Segments(events)[k][i..i + TRACK_TEMPO_WINDOW_PACKETS];
            LoggedSlow(window) <==> 49 * Lateness(window) > Media(window)
  {
    var segment := Segments(events)[k];
    var window := segment[i..i + TRACK_TEMPO_WINDOW_PACKETS];
    PacedSegment(events, base, starts, k);
    SegmentDurationsPositive(events, k);
    SubRun(segment, i, i + TRACK_TEMPO_WINDOW_PACKETS);
    SegmentsAreMaximalRuns(events, k);
    var a: nat, b: nat :| MaximalRun(events, a, b) && IsRunOf(segment, events, a, b);
    forall j | 0 <= j < |window|
      ensures window[j].duration <= 89_478_485_312
    {
      assert segment[a + i + j - a] == BeatOf(events[a + i + j]);
      QuotBelow(events[a + i + j].samples * 1_000_000, 48_000, 89_478_485_313);
    }
    LoggedMediaBounded(window);
    PacedRunTempo(window);
  }
}
