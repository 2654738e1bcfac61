/** The controller's verdict on a playback snapshot: the reported figures against the raw logs, and the timing
    budget (crates/discord-voice-service-live-validation/src/controller.rs, validate_raw_playback_evidence and
    validate_playback_timing_budget_with_active_probe_options). */
module PlaybackBudget {
  import opened Words
  import opened RawSendLog
  import opened BoundarySilence
  import Tempo
  import RawPlayback
  import PlayoutLedger
  import opened QueueDepth

  const RATIO_TOLERANCE_PPM := 2
  const SOURCE_BUFFER_TARGET_MS := 5_000
  const EGRESS_TARGET_MS := 400
  const EGRESS_HIGH_WATERMARK_MS := 500

  /** The counters that must be zero. */
  datatype Counter =
    | TrackFastInterval | TempoWindowFast | TempoWindowSlow | SkippedFrames | SkippedMs | SkippedSamples | TempoRebase
    | FrameDeficit | DroppedFrames | LateFrames | BufferUnderrun | Rebuffer | PlayoutUnderrun | EgressUnderrun
    | SourceUnderrun | UnderrunReachedBuilder | UnderrunReachedSender | ContinuitySilence | InsertedSilenceMs
    | EgressInsertedSilenceMs | ScheduledSilencePackets | PreparedSilenceDrops | DiscardedFrames | DiscardedMs
    | DiscardedSamples | EgressDroppedFrames | EgressDroppedMs | EgressDroppedSamples
    | RecoveryReachedSender | ForbiddenSenderWork | StaleSendsPrevented | ControlledInterruptions
    | SchedulerLateResets | UnderrunResets | RecoveryResets

  datatype Windows = Windows(count: u64, postSource: u64, minRatioPpm: u64, maxRatioPpm: u64)

  datatype Timing = Timing(samples: u64, p95Ms: u64, p99Ms: u64, maxMs: u64)

  datatype Timings = Timings(
    interval: Timing,
    lateness: Timing,
    playoutLateness: Timing,
    builder: Timing,
    send: Timing,
    nonSendWork: Timing,
    gatewayDrain: Timing,
    refill: Timing)

  datatype Buffers = Buffers(
    sourceTargetMs: u64,
    adaptiveTargetMs: u64,
    maxAdaptiveTargetMs: u64,
    sourceDepth: Option<Stats>,
    preparedRtpMs: u64,
    egressTargetMs: u64,
    maxEgress: Depth,
    maxPlayout: Depth,
    trackQueue: Report)

  /** A snapshot of the playback's metrics and of its raw logs. */
  datatype Metrics = Metrics(
    available: bool,
    videoMatches: bool,
    ended: bool,
    count: Counter -> u64,
    trackPackets: u64,
    sentFrames: u64,
    silenceFrames: u64,
    expectedFrames: u64,
    trackDrops: u64,
    rebuilds: u64,
    pauseBoundaries: u64,
    reconnects: u64,
    mediaMs: u64,
    wallMs: u64,
    ratioPpm: u64,
    fastIntervalMinUs: u64,
    windows: Windows,
    maxLatePackets: u64,
    maxLateTicks: u64,
    timings: Timings,
    buffers: Buffers,
    events: seq<RawSendEvent>,
    queueSamples: seq<Sample>,
    ledger: seq<PlayoutLedger.Event>)

  predicate InRatio(ppm: u64) {
    Tempo.MIN_RATIO_PPM <= ppm <= Tempo.MAX_RATIO_PPM
  }

  // ------------------------------------------------------------------ reported against recomputed

  /** `ppm_matches_with_tolerance`. */
  predicate Near(a: nat, b: nat) {
    a <= b + RATIO_TOLERANCE_PPM && b <= a + RATIO_TOLERANCE_PPM
  }

  function LedgerMetrics(m: Metrics): PlayoutLedger.Metrics {
    PlayoutLedger.Metrics(m.trackDrops, m.count(PreparedSilenceDrops), m.rebuilds, m.count(EgressDroppedFrames), m.count(DroppedFrames))
  }

  /** The snapshot reports the recomputed figures. */
  predicate Reports(m: Metrics, f: RawPlayback.Recomputed) {
    && f.packetCount == m.trackPackets
    && f.mediaMs == m.mediaMs
    && f.wallMs == m.wallMs
    && Near(f.ratioPpm, m.ratioPpm)
    && f.fastIntervalCount == m.count(TrackFastInterval)
    && f.fastIntervalMinUs == m.fastIntervalMinUs
    && f.windows.count == m.windows.count
    && f.windows.postSource == m.windows.postSource
    && f.windows.fast == m.count(TempoWindowFast)
    && f.windows.slow == m.count(TempoWindowSlow)
    && Near(f.windows.minRatio, m.windows.minRatioPpm)
    && Near(f.windows.maxRatio, m.windows.maxRatioPpm)
    && m.count(SkippedFrames) == 0 && m.count(SkippedMs) == 0 && m.count(SkippedSamples) == 0
  }

  predicate LedgerHolds(m: Metrics) {
    && (forall i :: 0 <= i < |m.ledger| ==> PlayoutLedger.WellFormed(m.ledger[i], i))
    && PlayoutLedger.CountsMatch(m.ledger, LedgerMetrics(m))
    && PlayoutLedger.Unrecovered(m.ledger) == m.trackDrops
  }

  predicate IsScheduledSilence(e: RawSendEvent) {
    e.kind == ScheduledSilence
  }

  /** A pause shows in the log: five boundary-silence packets, media before and after, and a well-spaced run. */
  ghost predicate ShowsPause(m: Metrics)
    requires RawPlayback.Positioned(m.events)
  {
    && RawPlayback.Figures(m.events).boundarySilenceCount >= STOP_SILENCE_FRAMES
    && RawPlayback.Figures(m.events).segmentCount >= 2
    && SpacingAccepted(m.events)
  }

  ghost predicate RawEvidenceHolds(sort: Sort, m: Metrics, requirePause: bool)
  {
    && m.events != [] && m.queueSamples != [] && m.ledger != []
    && Ordered(m.events)
    && SamplesAgree(sort, m.queueSamples, m.buffers.trackQueue, requirePause)
    && LedgerHolds(m)
    && LogBearsOut(m, requirePause)
  }

  /** The send log can be replayed and gives the reported figures. */
  ghost predicate LogBearsOut(m: Metrics, requirePause: bool) {
    && RawPlayback.Positioned(m.events) && RawPlayback.Continuous(RawPlayback.Tracks(m.events))
    && Reports(m, RawPlayback.Figures(m.events))
    && (requirePause ==> ShowsPause(m))
    && m.count(ScheduledSilencePackets) == Count(m.events, IsScheduledSilence)
  }

  /** The comparisons, one by one. */
  method CheckReports(m: Metrics, f: RawPlayback.Recomputed) returns (ok: bool)
    ensures ok <==> Reports(m, f)
  {
    if f.packetCount != m.trackPackets { return false; }
    if f.mediaMs != m.mediaMs { return false; }
    if f.wallMs != m.wallMs { return false; }
    if !Near(f.ratioPpm, m.ratioPpm) { return false; }
    if f.fastIntervalCount != m.count(TrackFastInterval) { return false; }
    if f.fastIntervalMinUs != m.fastIntervalMinUs { return false; }
    if f.windows.count != m.windows.count || f.windows.postSource != m.windows.postSource { return false; }
    if f.windows.fast != m.count(TempoWindowFast) || f.windows.slow != m.count(TempoWindowSlow) { return false; }
    if !Near(f.windows.minRatio, m.windows.minRatioPpm) || !Near(f.windows.maxRatio, m.windows.maxRatioPpm) { return false; }
    ok := m.count(SkippedFrames) == 0 && m.count(SkippedMs) == 0 && m.count(SkippedSamples) == 0;
  }

  method CheckLog(m: Metrics, requirePause: bool) returns (ok: bool)
    ensures ok <==> LogBearsOut(m, requirePause)
  {
    var recomputed := RawPlayback.RecomputeRawPlayback(m.events);
    if recomputed.Err? {
      return false;
    }
    var figures := recomputed.value;
    ok := CheckReports(m, figures);
    if !ok {
      return false;
    }
    if requirePause && (figures.boundarySilenceCount < STOP_SILENCE_FRAMES || figures.segmentCount < 2) {
      return false;
    }
    if requirePause {
      var spacing := ValidatePauseBoundarySpacing(m.events);
      if spacing.Err? {
        return false;
      }
    }
    ok := m.count(ScheduledSilencePackets) == Count(m.events, IsScheduledSilence);
  }

  method ValidateRawPlaybackEvidence(sort: Sort, m: Metrics, requirePause: bool) returns (ok: bool)
    requires |m.ledger| < 0x1_0000_0000_0000_0000
    ensures ok <==> RawEvidenceHolds(sort, m, requirePause)
  {
    if m.events == [] || m.queueSamples == [] || m.ledger == [] {
      return false;
    }
    var ordered := ValidateRawSendEventOrder(m.events);
    if ordered.Err? {
      return false;
    }
    var queue := ValidateRawPreparedTrackQueueSamples(sort, m.queueSamples, m.buffers.trackQueue, requirePause);
    if !queue {
      return false;
    }
    var ledger := PlayoutLedger.ValidateRawPreparedPlayoutQueueEvents(m.ledger, LedgerMetrics(m));
    if ledger.Err? {
      return false;
    }
    ok := CheckLog(m, requirePause);
  }

  // ------------------------------------------------------------------ the budget

  /** `validate_source_buffer_target`. */
  predicate SourceBufferOk(b: Buffers) {
    && b.sourceTargetMs == b.adaptiveTargetMs == b.maxAdaptiveTargetMs == SOURCE_BUFFER_TARGET_MS
    && b.sourceDepth.Some?
    && var depth := b.sourceDepth.value;
       && depth.sampleCount != 0 && depth.max.durationMs >= SOURCE_BUFFER_TARGET_MS
       && depth.p50.durationMs != 0 && depth.p95.durationMs != 0
  }

  predicate PacingMeasured(t: Timings) {
    t.interval.samples != 0 && t.lateness.samples != 0 && t.playoutLateness.samples != 0
  }

  /** Packets were built ahead of the deadline, and work other than sending stayed short or harmless. */
  predicate SenderWorkOk(t: Timings) {
    && t.builder.samples != 0 && t.send.samples != 0 && t.nonSendWork.samples != 0 && t.gatewayDrain.samples != 0
    && t.nonSendWork.p99Ms <= 15
    && (t.nonSendWork.maxMs > 15 ==> t.lateness.maxMs <= 10)
  }

  predicate EgressConfigured(b: Buffers) {
    b.preparedRtpMs <= EGRESS_HIGH_WATERMARK_MS && b.egressTargetMs == EGRESS_TARGET_MS
  }

  predicate EgressBounded(b: Buffers) {
    0 < b.maxEgress.durationMs <= EGRESS_HIGH_WATERMARK_MS && b.maxPlayout == b.maxEgress
  }

  predicate PacingOk(t: Timings) {
    && t.interval.p95Ms <= 45 && t.interval.p99Ms <= 70 && t.interval.maxMs < 200
    && t.lateness.p99Ms <= 10 && t.playoutLateness.p99Ms <= 10
  }

  /** The frame arithmetic of the snapshot. */
  predicate FramesAddUp(m: Metrics) {
    && m.mediaMs != 0 && m.wallMs != 0 && m.ratioPpm != 0 && m.expectedFrames != 0
    && m.sentFrames == m.trackPackets
    && m.silenceFrames == Max(m.count(ContinuitySilence), m.count(ScheduledSilencePackets))
    && m.count(FrameDeficit) == SatSub(m.expectedFrames, m.sentFrames + m.silenceFrames)
    && m.count(FrameDeficit) == 0
  }

  predicate DropsAreZero(m: Metrics) {
    m.count(DroppedFrames) == 0 && m.trackDrops == 0 && m.count(PreparedSilenceDrops) == 0 && m.count(EgressDroppedFrames) == 0
  }

  predicate WindowsComplete(m: Metrics, requireWindows: bool) {
    && (m.windows.count == 0 ==> !requireWindows && m.trackPackets < RawPlayback.TRACK_TEMPO_WINDOW_PACKETS)
    && (m.windows.count != 0 ==> m.windows.minRatioPpm != 0 && m.windows.maxRatioPpm != 0)
    && (m.mediaMs >= 6_000 ==> m.windows.postSource != 0)
  }

  predicate AllZero(m: Metrics, keys: set<Counter>) {
    forall k :: k in keys ==> m.count(k) == 0
  }

  const TEMPO_FAULTS := {TempoWindowFast, TempoWindowSlow, TrackFastInterval, SkippedFrames, SkippedMs, SkippedSamples, TempoRebase}

  const PLAYOUT_FAULTS := {
    BufferUnderrun, Rebuffer, PlayoutUnderrun, EgressUnderrun, SourceUnderrun, UnderrunReachedBuilder,
    UnderrunReachedSender, RecoveryReachedSender, ForbiddenSenderWork, StaleSendsPrevented, ControlledInterruptions,
    SchedulerLateResets, UnderrunResets, RecoveryResets, ContinuitySilence, InsertedSilenceMs, EgressInsertedSilenceMs,
    ScheduledSilencePackets, PreparedSilenceDrops, DiscardedFrames, DiscardedMs, DiscardedSamples, EgressDroppedFrames,
    EgressDroppedMs, EgressDroppedSamples}

  /** What is asked of the reported figures before the raw logs are read. */
  predicate FiguresInBudget(m: Metrics, requireWindows: bool, requirePause: bool) {
    && SourceBufferOk(m.buffers) && PacingMeasured(m.timings)
    && FramesAddUp(m) && DropsAreZero(m) && m.count(LateFrames) == 0 && InRatio(m.ratioPpm)
    && WindowsComplete(m, requireWindows) && AllZero(m, TEMPO_FAULTS)
    && SenderWorkOk(m.timings) && EgressConfigured(m.buffers) && QueueOk(m.buffers.trackQueue, requirePause)
  }

  /** What is asked of them afterwards. */
  predicate PlayoutInBudget(m: Metrics) {
    && EgressBounded(m.buffers) && PacingOk(m.timings) && AllZero(m, PLAYOUT_FAULTS)
    && m.maxLatePackets <= 2 && m.maxLateTicks <= 2
  }

  ghost predicate BudgetAccepts(sort: Sort, m: Metrics, requireWindows: bool, requirePause: bool) {
    FiguresInBudget(m, requireWindows, requirePause) && RawEvidenceHolds(sort, m, requirePause) && PlayoutInBudget(m)
  }

  method CheckFigures(m: Metrics, requireWindows: bool, requirePause: bool) returns (ok: bool)
    ensures ok <==> FiguresInBudget(m, requireWindows, requirePause)
  {
    ok := CheckSourceBuffer(m.buffers);
    if !ok || m.timings.interval.samples == 0 || m.timings.lateness.samples == 0 || m.timings.playoutLateness.samples == 0 {
      return false;
    }
    ok := CheckFrames(m);
    if !ok {
      return false;
    }
    var dropped := PlayoutLedger.ValidateDroppedFrames(LedgerMetrics(m));
    if !dropped || m.count(LateFrames) != 0 || m.ratioPpm < 980_000 || m.ratioPpm > 1_020_000 {
      return false;
    }
    if m.windows.count == 0 {
      if requireWindows || m.trackPackets >= RawPlayback.TRACK_TEMPO_WINDOW_PACKETS {
        return false;
      }
    } else if m.windows.minRatioPpm == 0 || m.windows.maxRatioPpm == 0 {
      return false;
    }
    if m.mediaMs >= 6_000 && m.windows.postSource == 0 {
      return false;
    }
    if !AllZero(m, TEMPO_FAULTS) {
      return false;
    }
    ok := CheckSenderWork(m.timings);
    if !ok || m.buffers.preparedRtpMs > 500 || m.buffers.egressTargetMs != 400 {
      return false;
    }
    ok := ValidatePreparedTrackQueueMetrics(m.buffers.trackQueue, requirePause);
  }

  method CheckSourceBuffer(b: Buffers) returns (ok: bool)
    ensures ok <==> SourceBufferOk(b)
  {
    if b.sourceTargetMs != 5_000 || b.adaptiveTargetMs != 5_000 || b.maxAdaptiveTargetMs != 5_000 { return false; }
    if b.sourceDepth.None? { return false; }
    var depth := b.sourceDepth.value;
    if depth.sampleCount == 0 || depth.max.durationMs == 0 || depth.max.durationMs < 5_000 { return false; }
    ok := !(depth.p50.durationMs == 0 || depth.p95.durationMs == 0);
  }

  method CheckFrames(m: Metrics) returns (ok: bool)
    ensures ok <==> FramesAddUp(m)
  {
    if m.mediaMs == 0 || m.wallMs == 0 || m.ratioPpm == 0 || m.expectedFrames == 0 { return false; }
    if m.sentFrames != m.trackPackets { return false; }
    if m.silenceFrames != Max(m.count(ContinuitySilence), m.count(ScheduledSilencePackets)) { return false; }
    var deficit := SatSub(m.expectedFrames, m.sentFrames + m.silenceFrames);
    if m.count(FrameDeficit) != deficit { return false; }
    ok := m.count(FrameDeficit) == 0;
  }

  method CheckSenderWork(t: Timings) returns (ok: bool)
    ensures ok <==> SenderWorkOk(t)
  {
    if t.builder.samples == 0 || t.send.samples == 0 || t.nonSendWork.samples == 0 || t.gatewayDrain.samples == 0 { return false; }
    if t.nonSendWork.p99Ms > 15 { return false; }
    ok := !(t.nonSendWork.maxMs > 15 && t.lateness.maxMs > 10);
  }

  method CheckPlayout(m: Metrics) returns (ok: bool)
    ensures ok <==> PlayoutInBudget(m)
  {
    var b, t := m.buffers, m.timings;
    if b.maxEgress.durationMs == 0 || b.maxEgress.durationMs > 500 || b.maxPlayout != b.maxEgress { return false; }
    if t.interval.p95Ms > 45 || t.interval.p99Ms > 70 || t.interval.maxMs >= 200 { return false; }
    if t.lateness.p99Ms > 10 || t.playoutLateness.p99Ms > 10 { return false; }
    if m.maxLatePackets > 2 || m.maxLateTicks > 2 { return false; }
    ok := AllZero(m, PLAYOUT_FAULTS);
  }

  method ValidatePlaybackTimingBudget(sort: Sort, m: Metrics, requireWindows: bool, requirePause: bool) returns (ok: bool)
    requires |m.ledger| < 0x1_0000_0000_0000_0000
    ensures ok <==> BudgetAccepts(sort, m, requireWindows, requirePause)
  {
    ok := CheckFigures(m, requireWindows, requirePause);
    if ok {
      ok := ValidateRawPlaybackEvidence(sort, m, requirePause);
    }
    if ok {
      ok := CheckPlayout(m);
    }
  }

  /** A finished playback must be the video asked for, ended, at least 50 packets long, and within the budget with
      rolling windows and a pause, 500 of the windows past the source buffer. */
  ghost predicate FinishedAccepts(sort: Sort, m: Metrics)
  {
    && m.available && m.videoMatches && m.ended && m.trackPackets >= 50 && m.timings.refill.samples != 0
    && BudgetAccepts(sort, m, true, true) && m.windows.postSource >= 500
  }

  method ValidateFinishedPlaybackMetrics(sort: Sort, m: Metrics) returns (ok: bool)
    requires |m.ledger| < 0x1_0000_0000_0000_0000
    ensures ok <==> FinishedAccepts(sort, m)
  {
    if !m.available || !m.videoMatches || !m.ended || m.trackPackets < 50 {
      return false;
    }
    if m.timings.interval.samples == 0 || m.timings.lateness.samples == 0 || m.timings.refill.samples == 0 {
      return false;
    }
    ok := ValidatePlaybackTimingBudget(sort, m, true, true);
    if ok {
      ok := m.windows.postSource >= 500;
    }
  }

  /** A probe taken at a reconnect must be of the video asked for, still playing, interrupted at least once, and within
      the budget, windows and pause not required. */
  ghost predicate ProbeAccepts(sort: Sort, m: Metrics)
  {
    && m.available && m.videoMatches && !m.ended && m.reconnects != 0 && m.trackPackets != 0
    && BudgetAccepts(sort, m, false, false)
  }

  method ValidateReconnectProbe(sort: Sort, m: Metrics) returns (ok: bool)
    requires |m.ledger| < 0x1_0000_0000_0000_0000
    ensures ok <==> ProbeAccepts(sort, m)
  {
    if !m.available || !m.videoMatches || m.ended || m.reconnects == 0 || m.trackPackets == 0 {
      return false;
    }
    if m.timings.lateness.samples == 0 {
      return false;
    }
    ok := ValidatePlaybackTimingBudget(sort, m, false, false);
  }

  // ------------------------------------------------------------------ what an accepted playback is

  /** Every segment's sends start in order. */
  predicate StartsInOrder(events: seq<RawSendEvent>)
    requires RawPlayback.Positioned(events)
  {
    forall k, i, j :: 0 <= k < |RawPlayback.Segments(events)| && 0 <= i < j < |RawPlayback.Segments(events)[k]| ==>
      RawPlayback.Segments(events)[k][i].start < RawPlayback.Segments(events)[k][j].start
  }

  /** The log is in RTP and nonce order, no packet starts early, no rolling window is fast or slow and the reported
      ratio is at most 2 ppm above real time; every counted drop was rebuilt later, one rebuild per drop; and between
      any two track packets the source moved by the samples sent between them, plus at most 48 per packet. */
  ghost predicate Sound(m: Metrics) {
    && Ordered(m.events) && RawPlayback.Positioned(m.events) && StartsInOrder(m.events)
    && RawPlayback.Figures(m.events).fastIntervalCount == 0
    && RawPlayback.Figures(m.events).windows.fast == 0 && RawPlayback.Figures(m.events).windows.slow == 0
    && 980_000 <= m.ratioPpm <= 1_000_002
    && (exists rebuildOf :: PlayoutLedger.Recovers(m.ledger, rebuildOf))
    && (forall i, j :: 0 <= i <= j < |RawPlayback.Tracks(m.events)| ==> SourceMoves(RawPlayback.Tracks(m.events), i, j))
  }

  /** What the snapshot reports is what the log shows: its track sends, their media time and the wall clock of their
      segments in whole milliseconds, and the number, the post-source number and the extreme ratios, within 2 ppm, of
      the rolling windows of 50 packets. */
  ghost predicate Truthful(m: Metrics)
    requires RawPlayback.Positioned(m.events)
  {
    var segments := RawPlayback.Segments(m.events);
    var windows := Tempo.AllWindows(segments, 50);
    var ratios := RawPlayback.Ratios(windows);
    && m.trackPackets == Count(m.events, RawPlayback.IsTrack)
    && RawPlayback.InMs(Sat64(Sum(Tempo.Durations(RawPlayback.TrackBeats(m.events)))), m.mediaMs)
    && RawPlayback.InMs(Sat64(Tempo.TotalWall(segments)), m.wallMs)
    && m.windows.count == |windows| && m.windows.postSource == Count(windows, RawPlayback.PostSource)
    && -2 <= m.windows.maxRatioPpm - Tempo.MaxOf(ratios) <= 2
    && -2 <= m.windows.minRatioPpm - Tempo.ZeroUnsetMin(ratios) <= 2
  }

  lemma {:induction false} ReportsAreTruthful(m: Metrics)
    requires RawPlayback.Positioned(m.events) && Reports(m, RawPlayback.Figures(m.events))
    ensures Truthful(m)
  {
    RawPlayback.FiguresMeaning(m.events);
    var windows := Tempo.AllWindows(RawPlayback.Segments(m.events), 50);
    RawPlayback.WindowsAreNotEmpty(RawPlayback.Segments(m.events), 50);
    RawPlayback.TallyMeaning(windows);
  }

  /** A snapshot within the budget is sound in this sense, its figures are those of the log, and its prepared queue was
      never seen empty. */
  lemma {:induction false} AcceptedPlayback(sort: Sort, m: Metrics, requireWindows: bool, requirePause: bool)
    requires BudgetAccepts(sort, m, requireWindows, requirePause)
    ensures Sound(m) && Truthful(m)
    ensures forall i :: 0 <= i < |m.queueSamples| ==> m.queueSamples[i].depth.durationSamples > 0
  {
    NeverEmpty(sort, m.queueSamples, m.buffers.trackQueue, requirePause);
    EvidenceIsSound(sort, m, requirePause);
    ReportsAreTruthful(m);
  }

  lemma {:induction false} EvidenceIsSound(sort: Sort, m: Metrics, requirePause: bool)
    requires RawEvidenceHolds(sort, m, requirePause)
    requires AllZero(m, TEMPO_FAULTS) && InRatio(m.ratioPpm) && m.trackDrops == 0
    ensures Sound(m)
  {
    assert m.count(TrackFastInterval) == 0 && m.count(TempoWindowFast) == 0 && m.count(TempoWindowSlow) == 0;
    WellFormedTracks(m.events);
    RawPlayback.ZeroFastIntervals(m.events);
    PlayoutLedger.NoneUnrecoveredIff(m.ledger);
    SourceAlwaysMoves(RawPlayback.Tracks(m.events));
  }

  lemma {:induction false} WellFormedTracks(events: seq<RawSendEvent>)
    requires Ordered(events)
    ensures RawPlayback.Positioned(events) && RawPlayback.TracksHaveMedia(events)
  {
    assert forall i :: 0 <= i < |events| ==> WellFormedEvent(events[i], i);
  }

  lemma {:induction false} SourceAlwaysMoves(tracks: seq<RawPlayback.RawTrackSend>)
    requires RawPlayback.Continuous(tracks)
    ensures forall i, j :: 0 <= i <= j < |tracks| ==> SourceMoves(tracks, i, j)
  {
    forall i, j | 0 <= i <= j < |tracks|
      ensures SourceMoves(tracks, i, j)
    {
      RawPlayback.HeardIntervals(tracks, i, j);
    }
  }

  predicate SourceMoves(tracks: seq<RawPlayback.RawTrackSend>, i: nat, j: nat)
    requires i <= j < |tracks|
  {
    var sent := Sum(RawPlayback.TrackSamples(tracks[i..j]));
    && tracks[j].position <= tracks[i].position + sent + 48 * (j - i)
    && (tracks[j].position == 0xFFFF_FFFF_FFFF_FFFF || tracks[i].position + sent <= tracks[j].position)
  }

  // ------------------------------------------------------------------ such a snapshot exists

  lemma {:induction false} RealTime(us: u64)
    requires us == 40_000
    ensures Quot(us, 1_000) == 40 && Tempo.RatioPpm(us, us) == 1_000_000
  {
    QuotBelow(us, 1_000, 40);
    QuotBelow(us, 1_000, 41);
    QuotBelow(us * 1_000_000, us, 1_000_000);
    QuotBelow(us * 1_000_000, us, 1_000_001);
  }

  /** The figures of a log with two 20 ms track packets, the second on time. */
  lemma {:induction false} TwoSendFigures(events: seq<RawSendEvent>, a: RawSendEvent, b: RawSendEvent)
    requires events == [a, b] && SentOnTime(a, 0) && SentOnTime(b, 1)
    ensures RawPlayback.Positioned(events) && RawPlayback.Continuous(RawPlayback.Tracks(events))
    ensures var f := RawPlayback.Figures(events);
            && f.packetCount == 2 && f.mediaMs == 40 && f.wallMs == 40 && f.ratioPpm == 1_000_000
            && f.fastIntervalCount == 0 && f.fastIntervalMinUs == 0
            && f.windows == RawPlayback.WindowTally(0, 0, 0, 0, 0, 0)
  {
    TwoSendTracks(events, a, b);
    TwoSendSegment(events, a, b);
    var segment := RawPlayback.TrackBeats(events);
    RawPlayback.OneRun(RawPlayback.Segments(events), segment);
    RealTime(Tempo.Media(segment));
  }

  lemma {:induction false} TwoSendTracks(events: seq<RawSendEvent>, a: RawSendEvent, b: RawSendEvent)
    requires events == [a, b] && SentOnTime(a, 0) && SentOnTime(b, 1)
    ensures RawPlayback.Positioned(events) && RawPlayback.Continuous(RawPlayback.Tracks(events)) && |RawPlayback.Tracks(events)| == 2
  {
    RawPlayback.TracksListed(events);
    var tracks := RawPlayback.Tracks(events);
    assert RawPlayback.Continues(tracks[0], tracks[1]);
  }

  lemma {:induction false} TwoSendBeats(events: seq<RawSendEvent>, a: RawSendEvent, b: RawSendEvent)
    requires events == [a, b] && SentOnTime(a, 0) && SentOnTime(b, 1)
    ensures RawPlayback.Positioned(events)
    ensures var segment := RawPlayback.TrackBeats(events);
            && |segment| == 2 && segment[0].start + segment[0].duration == segment[1].start
            && segment[0].duration == segment[1].duration == 20_000
  {
    RawPlayback.BeatsListed(events);
    RawPlayback.TwentyMs(a.samples);
  }

  lemma {:induction false} TwoSendSegment(events: seq<RawSendEvent>, a: RawSendEvent, b: RawSendEvent)
    requires events == [a, b] && SentOnTime(a, 0) && SentOnTime(b, 1)
    ensures RawPlayback.Positioned(events)
    ensures var segment := RawPlayback.TrackBeats(events);
            && RawPlayback.Segments(events) == [segment]
            && Tempo.Media(segment) == Tempo.Wall(segment) == 40_000
            && RawPlayback.FastIntervals(segment) == [] && Tempo.Windows(segment, RawPlayback.TRACK_TEMPO_WINDOW_PACKETS) == []
  {
    TwoSendBeats(events, a, b);
    RawPlayback.OneSegment(events);
    var segment := RawPlayback.TrackBeats(events);
    RawPlayback.TwoBeats(segment, segment[0], segment[1]);
  }

  /** The `i`-th packet of a playback that starts at 0 and is never late. */
  predicate SentOnTime(e: RawSendEvent, i: nat) {
    && e.packetIndex == i && e.kind == Track && e.committedHeardMedia
    && e.sendStartedUs == e.sentUs == 20_000 * i && e.samples == 960
    && e.rtpSequence == i && e.rtpTimestamp == 960 * i && e.nonce.None?
    && e.epoch.Some? && e.positionMs == Some(20 * i) && e.positionSamples == Some(960 * i)
  }

  predicate TrackEntry(e: PlayoutLedger.Event, index: nat, kind: PlayoutLedger.EventKind) {
    e.index == index && e.kind == kind && e.command == Track && e.depthAfterMs <= EGRESS_HIGH_WATERMARK_MS
  }

  /** Two packets in, two packets out. */
  predicate InAndOut(ledger: seq<PlayoutLedger.Event>) {
    && |ledger| == 4
    && TrackEntry(ledger[0], 0, PlayoutLedger.Enqueued) && TrackEntry(ledger[1], 1, PlayoutLedger.Enqueued)
    && TrackEntry(ledger[2], 2, PlayoutLedger.DequeuedToDeadlineSender)
    && TrackEntry(ledger[3], 3, PlayoutLedger.DequeuedToDeadlineSender)
  }

  lemma {:induction false} InAndOutHolds(m: Metrics)
    requires InAndOut(m.ledger) && LedgerMetrics(m) == PlayoutLedger.Metrics(0, 0, 0, 0, 0)
    ensures LedgerHolds(m)
  {
    var ledger := m.ledger;
    InAndOutEntries(ledger);
    NothingToRecover(ledger);
    assert PlayoutLedger.TrackEnqueue(ledger[0]) && PlayoutLedger.TrackDequeue(ledger[2]);
  }

  predicate OrdinaryEntry(e: PlayoutLedger.Event, index: nat) {
    PlayoutLedger.WellFormed(e, index) && e.command == Track && e.kind != PlayoutLedger.DroppedBeforeSend && e.kind != PlayoutLedger.Rebuilt
  }

  lemma {:induction false} InAndOutEntries(ledger: seq<PlayoutLedger.Event>)
    requires InAndOut(ledger)
    ensures forall i :: 0 <= i < |ledger| ==> OrdinaryEntry(ledger[i], i)
  {
    forall i | 0 <= i < |ledger|
      ensures OrdinaryEntry(ledger[i], i)
    {
      assert i == 0 || i == 1 || i == 2 || i == 3;
    }
  }

  lemma {:induction false} NothingToRecover(ledger: seq<PlayoutLedger.Event>)
    requires forall i :: 0 <= i < |ledger| ==> OrdinaryEntry(ledger[i], i)
    ensures PlayoutLedger.Unrecovered(ledger) == 0
  {
    assert PlayoutLedger.Recovers(ledger, map[]);
    PlayoutLedger.NoneUnrecoveredIff(ledger);
  }

  /** The prepared queue was sampled once, at 400 ms, before any pause, and that is what is reported. */
  predicate SampledOnce(samples: seq<Sample>, r: Report) {
    && |samples| == 1 && samples[0].index == 0 && samples[0].phase == ActivePrePause
    && var d := samples[0].depth;
       && d.durationMs == 400 && d.durationSamples == 19_200
       && r == Report(400, 300, 500, Some(Stats(1, 0, d, d, d, d, d, d)), None, 1, 0)
  }

  lemma {:induction false} SampledOnceAgrees(sort: Sort, samples: seq<Sample>, r: Report)
    requires SampledOnce(samples, r)
    ensures SamplesAgree(sort, samples, r, false) && QueueOk(r, false)
  {
    var d := samples[0].depth;
    DepthsStep(samples, 0, ActivePrePause);
    DepthsStep(samples, 0, ActivePostResume);
    assert samples[..1] == samples && samples[..0] == [];
    OneDepth(sort, DepthsIn(samples, ActivePrePause), d);
  }

  /** The counters of a playback of two packets, both sent on time, with nothing else to report. */
  predicate TwoPacketCounts(m: Metrics) {
    && (forall k :: m.count(k) == 0)
    && m.trackPackets == m.sentFrames == m.expectedFrames == 2 && m.silenceFrames == m.trackDrops == m.rebuilds == 0
    && m.mediaMs == m.wallMs == 40 && m.ratioPpm == 1_000_000 && m.fastIntervalMinUs == 0
    && m.windows == Windows(0, 0, 0, 0) && m.maxLatePackets == m.maxLateTicks == 0
  }

  /** Two packets 20 ms apart, enqueued, dequeued and sent on time, and reported as they were: one interval between
      them, no lateness, a filled source buffer and one sample of the prepared queue. */
  predicate IsTwoPackets(m: Metrics) {
    && |m.events| == 2 && SentOnTime(m.events[0], 0) && SentOnTime(m.events[1], 1)
    && InAndOut(m.ledger) && TwoPacketCounts(m)
    && m.timings.interval == Timing(1, 20, 20, 20)
    && m.timings.lateness == m.timings.playoutLateness == Timing(2, 0, 0, 0)
    && m.timings.builder == m.timings.send == m.timings.nonSendWork == m.timings.gatewayDrain == Timing(2, 1, 1, 1)
    && SourceBufferOk(m.buffers) && EgressConfigured(m.buffers) && EgressBounded(m.buffers)
    && SampledOnce(m.queueSamples, m.buffers.trackQueue)
  }

  lemma {:induction false} TwoPacketEvidence(sort: Sort, m: Metrics)
    requires IsTwoPackets(m)
    ensures RawEvidenceHolds(sort, m, false)
  {
    TwoSendFigures(m.events, m.events[0], m.events[1]);
    InAndOutHolds(m);
    SampledOnceAgrees(sort, m.queueSamples, m.buffers.trackQueue);
    TwoSendsAreOrdered(m.events, m.events[0], m.events[1]);
  }

  lemma {:induction false} TwoSendsAreOrdered(events: seq<RawSendEvent>, a: RawSendEvent, b: RawSendEvent)
    requires events == [a, b] && SentOnTime(a, 0) && SentOnTime(b, 1)
    ensures Ordered(events) && Count(events, IsScheduledSilence) == 0
  {
    assert WellFormedEvent(a, 0) && WellFormedEvent(b, 1) && Follows(a, b);
  }

  /** The budget of a probe can be met, with two packets: the first gives no interval, and a snapshot without one
      interval sample is refused. */
  lemma {:induction false} TwoPacketsAreAccepted(sort: Sort, m: Metrics)
    requires IsTwoPackets(m)
    ensures BudgetAccepts(sort, m, false, false)
  {
    TwoPacketEvidence(sort, m);
    SampledOnceAgrees(sort, m.queueSamples, m.buffers.trackQueue);
  }

  lemma {:induction false} SomePlaybackIsAccepted() returns (sort: Sort, m: Metrics)
    ensures BudgetAccepts(sort, m, false, false)
  {
    InsertionSortSorts();
    sort := InsertionSort;
    m := TwoPackets();
    TwoPacketsAreAccepted(sort, m);
  }

  lemma {:induction false} TwoPackets() returns (m: Metrics)
    ensures IsTwoPackets(m)
  {
    var events := [SendAt(0), SendAt(1)];
    var ledger := [
      EntryAt(0, PlayoutLedger.Enqueued), EntryAt(1, PlayoutLedger.Enqueued),
      EntryAt(2, PlayoutLedger.DequeuedToDeadlineSender), EntryAt(3, PlayoutLedger.DequeuedToDeadlineSender)];
    var late, work := Timing(2, 0, 0, 0), Timing(2, 1, 1, 1);
    var timings := Timings(Timing(1, 20, 20, 20), late, late, work, work, work, work, work);
    var samples, buffers := FilledBuffers();
    m := Metrics(
      true, true, false, (k: Counter) => 0, 2, 2, 0, 2, 0, 0, 0, 1, 40, 40, 1_000_000, 0, Windows(0, 0, 0, 0), 0, 0,
      timings, buffers, events, samples, ledger);
  }

  lemma {:induction false} FilledBuffers() returns (samples: seq<Sample>, b: Buffers)
    ensures SourceBufferOk(b) && EgressConfigured(b) && EgressBounded(b) && SampledOnce(samples, b.trackQueue)
  {
    var full, d := Depth(250, 0, 5_000, 240_000), Depth(20, 0, 400, 19_200);
    var source := Stats(1, 0, full, full, full, full, full, full);
    var queue := Report(400, 300, 500, Some(Stats(1, 0, d, d, d, d, d, d)), None, 1, 0);
    samples, b := [Sample(0, ActivePrePause, d)], Buffers(5_000, 5_000, 5_000, Some(source), 400, 400, d, d, queue);
  }

  function SendAt(i: u8): (e: RawSendEvent)
    ensures SentOnTime(e, i)
  {
    RawSendEvent(i, Track, 20_000 * i, 20_000 * i, 960, i, 960 * i, None, Some(0), Some(20 * i), Some(960 * i), true)
  }

  function EntryAt(index: u8, kind: PlayoutLedger.EventKind): (e: PlayoutLedger.Event)
    ensures TrackEntry(e, index, kind)
  {
    PlayoutLedger.Event(index, kind, Track, PlayoutLedger.SteadyPlayback, 960, Some(0), Some(0), None, 400)
  }
}
