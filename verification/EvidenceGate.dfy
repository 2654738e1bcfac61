/** The evidence gate of scripts/ci/validate_live_staging_evidence.py as the target of what the controller
    accepts (crates/discord-voice-service-live-validation/src/controller.rs). */
module EvidenceGate {
  import opened Words
  import opened RawSendLog
  import opened BoundarySilence
  import opened PlaybackBudget
  import opened QueueDepth

  // ------------------------------------------------------------------ how much audio must be decoded

  /** `required_observer_decoded_audio_ms`, in saturating 64-bit arithmetic. */
  function RequiredByController(expectedMs: u64): u64 {
    var ratioFloor := Quot(Sat64(expectedMs * 90), 100);
    var toleranceFloor := SatSub(expectedMs, 2_000);
    Min(Max(Max(ratioFloor, toleranceFloor), Min(6_000, expectedMs)), expectedMs)
  }

  /** The gate's formula, in unbounded integers. */
  function RequiredByGate(expectedMs: nat): nat {
    var toleranceFloor := Max(0, expectedMs - 2_000);
    var ratioFloor := Quot(expectedMs * 90, 100);
    Min(expectedMs, Max(Max(ratioFloor, toleranceFloor), Min(6_000, expectedMs)))
  }

  /** The two agree on every 64-bit duration: where the product saturates, both are decided by the
      tolerance. */
  lemma {:induction false} RequiredDurationsAgree(expectedMs: u64)
    ensures RequiredByController(expectedMs) == RequiredByGate(expectedMs)
  {
    if expectedMs * 90 >= 0x1_0000_0000_0000_0000 {
      QuotBelow(0xFFFF_FFFF_FFFF_FFFF, 100, 184_467_440_737_095_517);
      QuotBelow(expectedMs * 90, 100, expectedMs - 2_000);
    }
  }

  /** All of it up to 6 s; of up to 20 s nine tenths, but at least 6 s; and beyond that all but 2 s. */
  lemma {:induction false} RequiredDurationIs(expectedMs: u64)
    ensures RequiredByController(expectedMs)
         == if expectedMs <= 6_000 then expectedMs
            else if expectedMs <= 20_000 then Max(6_000, expectedMs * 9 / 10)
            else expectedMs - 2_000
  {
    RequiredDurationsAgree(expectedMs);
    QuotIsDiv(expectedMs * 90, 100);
  }

  // ------------------------------------------------------------------ what both sides read

  datatype Flag =
    | JoinVoice | UpdateVoiceContext | Play | Pause | Resume | InvalidResumeIgnored | RedundantPauseIgnored
    | ProvedPause | ProvedResume | ReconnectRollover | Stop | StopDuringPlayback | LeaveVoice | LeaveVoiceDuringPlayback
    | GetState | GetPlaybackMetrics | SubscribeEvents | VoiceConnecting | VoiceReady | TrackResolving | Buffering
    | Playing | Paused | ResumedPlaying | TrackEnded
    | PauseRtpSilence | ConstrainedProfile | SlowJitteryHttp

  datatype TempoWindow = TempoWindow(packets: u64, ratioPpm: u64)

  /** The observer's statistics; `gaps` and `controlledGaps` count the gaps of 100 ms or more and those classified as
      a controlled pause. */
  datatype ObserverStats = ObserverStats(
    observedPackets: u64,
    oddDurations: u64,
    nonSilentMs: u64,
    decodedMs: u64,
    wallMs: u64,
    ratioPpm: u64,
    intervals: u64,
    p95Ms: u64,
    p99Ms: u64,
    maxMs: u64,
    gaps: u64,
    controlledGaps: u64,
    bufferingEvents: u64,
    windows: u64,
    fastWindows: u64,
    slowWindows: u64,
    postSourceWindows: u64,
    shortWindows: u64,
    fastestShort: Option<TempoWindow>,
    slowestShort: Option<TempoWindow>)

  // ------------------------------------------------------------------ the controller's side

  /** What a finished run of the controller holds; `contract` are the flags of its live contract state. */
  datatype Outcome = Outcome(
    contract: set<Flag>,
    pauseRtpSilence: bool,
    constrainedProfile: bool,
    slowJitteryHttp: bool,
    expectedMs: u64,
    resumePackets: u64,
    stats: ObserverStats,
    playback: Metrics,
    probe: Metrics)

  /** The flags `ensure_complete` insists on. */
  const COVERAGE := [
    JoinVoice, UpdateVoiceContext, Play, Pause, Resume, InvalidResumeIgnored, RedundantPauseIgnored, ProvedPause,
    ProvedResume, ReconnectRollover, Stop, StopDuringPlayback, LeaveVoice, LeaveVoiceDuringPlayback, GetState,
    GetPlaybackMetrics, SubscribeEvents, VoiceConnecting, VoiceReady, TrackResolving, Buffering, Playing, Paused,
    ResumedPlaying, TrackEnded]

  /** `observer_tempo_window_within_jitter_budget`. */
  predicate WithinJitter(w: TempoWindow) {
    var (low, high) := if w.packets >= 50 then (940_000, 1_060_000) else (920_000, 1_080_000);
    w.ratioPpm >= low && w.ratioPpm <= high
  }

  /** Within 8% of real time, and within 6% over a second or more. */
  predicate SteadyEnough(w: TempoWindow) {
    && 1_000_000 - 80_000 <= w.ratioPpm <= 1_000_000 + 80_000
    && (w.packets * 20 >= 1_000 ==> 1_000_000 - 60_000 <= w.ratioPpm <= 1_000_000 + 60_000)
  }

  predicate ObserverAccepts(s: ObserverStats, expectedMs: u64) {
    && s.observedPackets >= 120 && s.oddDurations == 0
    && s.decodedMs >= RequiredByController(expectedMs)
    && s.wallMs > 0 && InRatio(s.ratioPpm)
    && s.nonSilentMs >= 1_000
    && s.intervals > 0 && SatSub(s.gaps, s.controlledGaps) == 0
    && s.bufferingEvents == 0
    && s.windows > 0 && s.fastWindows == 0 && s.slowWindows == 0
    && s.shortWindows > 0
    && s.fastestShort.Some? && SteadyEnough(s.fastestShort.value)
    && s.slowestShort.Some? && SteadyEnough(s.slowestShort.value)
    && (expectedMs >= 6_000 ==> s.postSourceWindows >= 500)
    && s.p95Ms <= 45 && s.p99Ms <= 70 && s.maxMs < 200
  }

  /** `observer_threshold_failure_reason`: the first threshold missed. */
  datatype ThresholdFailure =
    | OddDurations | MissingPackets | Incomplete | MissingTiming | TempoFast | TempoSlow | Silent | MissingIntervals | Gap
    | Buffered | MissingWindows | MissingShortWindows | ShortTempo | InsufficientPostSource | Jitter

  /** The reason for a failure is found by one more pass over the thresholds; there is one exactly when they are not
      all met. */
  method ObserverThresholdFailureReason(s: ObserverStats, expectedMs: u64) returns (reason: Option<ThresholdFailure>)
    ensures reason.None? <==> ObserverAccepts(s, expectedMs)
  {
    if s.oddDurations != 0 { return Some(OddDurations); }
    if s.observedPackets < 120 { return Some(MissingPackets); }
    if s.decodedMs < RequiredByController(expectedMs) { return Some(Incomplete); }
    if s.wallMs == 0 || s.ratioPpm == 0 { return Some(MissingTiming); }
    if s.ratioPpm > 1_020_000 { return Some(TempoFast); }
    if s.ratioPpm < 980_000 { return Some(TempoSlow); }
    if s.nonSilentMs < 1_000 { return Some(Silent); }
    if s.intervals == 0 { return Some(MissingIntervals); }
    if SatSub(s.gaps, s.controlledGaps) != 0 { return Some(Gap); }
    if s.bufferingEvents != 0 { return Some(Buffered); }
    if s.windows == 0 { return Some(MissingWindows); }
    if s.fastWindows != 0 { return Some(TempoFast); }
    if s.slowWindows != 0 { return Some(TempoSlow); }
    if s.shortWindows == 0 { return Some(MissingShortWindows); }
    if s.fastestShort.None? { return Some(MissingShortWindows); }
    if !WithinJitter(s.fastestShort.value) { return Some(ShortTempo); }
    if s.slowestShort.None? { return Some(MissingShortWindows); }
    if !WithinJitter(s.slowestShort.value) { return Some(ShortTempo); }
    if expectedMs >= 6_000 && s.postSourceWindows < 500 { return Some(InsufficientPostSource); }
    if s.p95Ms > 45 || s.p99Ms > 70 || s.maxMs >= 200 { return Some(Jitter); }
    reason := None;
  }

  /** `missing_required_coverage`. */
  function Missing(contract: set<Flag>, required: seq<Flag>): (missing: seq<Flag>)
    ensures missing == [] <==> forall i :: 0 <= i < |required| ==> required[i] in contract
  {
    if required == [] then []
    else (if required[0] in contract then [] else [required[0]]) + Missing(contract, required[1..])
  }

  ghost predicate ControllerAccepts(sort: Sort, o: Outcome)
  {
    && o.constrainedProfile && o.slowJitteryHttp
    && o.expectedMs >= 90_000
    && o.pauseRtpSilence
    && o.resumePackets >= 4
    && ObserverAccepts(o.stats, o.expectedMs)
    && FinishedAccepts(sort, o.playback)
    && ProbeAccepts(sort, o.probe)
    && (forall i :: 0 <= i < |COVERAGE| ==> COVERAGE[i] in o.contract)
  }

  /** The checks of a run, in the order it makes them. */
  method AcceptRun(sort: Sort, o: Outcome) returns (ok: bool)
    requires |o.playback.ledger| < 0x1_0000_0000_0000_0000 && |o.probe.ledger| < 0x1_0000_0000_0000_0000
    ensures ok <==> ControllerAccepts(sort, o)
  {
    if !o.constrainedProfile || !o.slowJitteryHttp || o.expectedMs < 90_000 {
      return false;
    }
    if !o.pauseRtpSilence || o.resumePackets < 4 {
      return false;
    }
    var reason := ObserverThresholdFailureReason(o.stats, o.expectedMs);
    if reason.Some? {
      return false;
    }
    var finished := ValidateFinishedPlaybackMetrics(sort, o.playback);
    if !finished {
      return false;
    }
    var probe := ValidateReconnectProbe(sort, o.probe);
    if !probe {
      return false;
    }
    ok := Missing(o.contract, COVERAGE) == [];
  }

  // ------------------------------------------------------------------ the gate's side

  datatype Evidence = Evidence(
    success: bool,
    flags: set<Flag>,
    pauseSilencePackets: nat,
    resumePackets: u64,
    expectedMs: u64,
    stats: ObserverStats,
    failureReason: bool,
    playback: Option<Metrics>,
    reconnect: Option<Metrics>)

  /** `build_success_evidence`. */
  function BuildEvidence(o: Outcome): Evidence {
    Evidence(
      true,
      o.contract
      + (if o.pauseRtpSilence then {PauseRtpSilence} else {})
      + (if o.constrainedProfile then {ConstrainedProfile} else {})
      + (if o.slowJitteryHttp then {SlowJitteryHttp} else {}),
      LongestRun(o.playback.events), o.resumePackets, o.expectedMs, o.stats, false, Some(o.playback), Some(o.probe))
  }

  const REQUIRED_TRUE := [
    JoinVoice, UpdateVoiceContext, Play, Pause, Resume, InvalidResumeIgnored, RedundantPauseIgnored, ProvedPause,
    ProvedResume, PauseRtpSilence, ReconnectRollover, Stop, StopDuringPlayback, LeaveVoice, LeaveVoiceDuringPlayback,
    GetState, GetPlaybackMetrics, SubscribeEvents, VoiceConnecting, VoiceReady, TrackResolving, Buffering, Playing,
    Paused, ResumedPlaying, TrackEnded, ConstrainedProfile, SlowJitteryHttp]

  const PLAYBACK_ZERO := [
    TrackFastInterval, TempoWindowFast, TempoWindowSlow, SkippedFrames, SkippedMs, SkippedSamples, TempoRebase,
    FrameDeficit, DroppedFrames, LateFrames, BufferUnderrun, Rebuffer, PlayoutUnderrun, EgressUnderrun, SourceUnderrun,
    UnderrunReachedBuilder, UnderrunReachedSender, ContinuitySilence, InsertedSilenceMs, EgressInsertedSilenceMs,
    ScheduledSilencePackets, PreparedSilenceDrops, DiscardedFrames, DiscardedMs, DiscardedSamples, EgressDroppedFrames,
    EgressDroppedMs, EgressDroppedSamples]

  const RECONNECT_ZERO := [
    FrameDeficit, DroppedFrames, LateFrames, BufferUnderrun, Rebuffer, PlayoutUnderrun, EgressUnderrun, SourceUnderrun,
    InsertedSilenceMs, EgressInsertedSilenceMs]

  /** The gate demands every flag there is. */
  lemma {:induction false} EveryFlagIsRequired(flags: set<Flag>)
    ensures (forall i :: 0 <= i < |REQUIRED_TRUE| ==> REQUIRED_TRUE[i] in flags) <==> forall f: Flag :: f in flags
  {
    if forall i :: 0 <= i < |REQUIRED_TRUE| ==> REQUIRED_TRUE[i] in flags {
      forall f: Flag
        ensures f in flags
      {
        FlagIsRequired(f);
      }
    }
  }

  lemma {:induction false} FlagIsRequired(f: Flag)
    ensures f in REQUIRED_TRUE
  {}

  /** Of a finished playback the gate reads every counter but these. */
  const NOT_READ := {
    RecoveryReachedSender, ForbiddenSenderWork, StaleSendsPrevented, ControlledInterruptions, SchedulerLateResets,
    UnderrunResets, RecoveryResets}

  lemma {:induction false} CounterIsRead(k: Counter)
    requires k !in NOT_READ
    ensures k in PLAYBACK_ZERO
  {}

  lemma {:induction false} OnlyReadsThese(i: nat)
    requires i < |PLAYBACK_ZERO|
    ensures PLAYBACK_ZERO[i] !in NOT_READ
  {}

  lemma {:induction false} PlaybackZeroIs(m: Metrics)
    ensures ReadsZero(m, PLAYBACK_ZERO) <==> forall k :: k !in NOT_READ ==> m.count(k) == 0
  {
    if ReadsZero(m, PLAYBACK_ZERO) {
      forall k | k !in NOT_READ
        ensures m.count(k) == 0
      {
        CounterIsRead(k);
      }
    } else {
      var i :| 0 <= i < |PLAYBACK_ZERO| && m.count(PLAYBACK_ZERO[i]) != 0;
      OnlyReadsThese(i);
    }
  }

  predicate ReadsZero(m: Metrics, keys: seq<Counter>) {
    forall i :: 0 <= i < |keys| ==> m.count(keys[i]) == 0
  }

  predicate PlaybackPasses(m: Metrics) {
    m.ended && m.trackPackets >= 50 && m.pauseBoundaries >= 1 && InRatio(m.ratioPpm) && ReadsZero(m, PLAYBACK_ZERO)
  }

  predicate ReconnectPasses(m: Metrics) {
    !m.ended && m.reconnects >= 1 && m.trackPackets >= 1 && InRatio(m.ratioPpm) && ReadsZero(m, RECONNECT_ZERO)
  }

  predicate ObserverStatsPass(s: ObserverStats) {
    && s.observedPackets >= 120 && s.nonSilentMs >= 1_000
    && s.bufferingEvents == 0 && s.fastWindows == 0 && s.slowWindows == 0 && InRatio(s.ratioPpm)
  }

  ghost predicate GatePasses(e: Evidence) {
    && e.success
    && (forall f: Flag :: f in e.flags)
    && e.pauseSilencePackets >= 5 && e.resumePackets >= 4 && ObserverStatsPass(e.stats)
    && e.expectedMs > 0 && e.stats.decodedMs >= RequiredByGate(e.expectedMs)
    && !e.failureReason
    && e.playback.Some? && PlaybackPasses(e.playback.value)
    && e.reconnect.Some? && ReconnectPasses(e.reconnect.value)
  }

  /** The complaints the gate collects. */
  datatype Failure =
    | OutcomeNotSuccess | NotTrue(flag: Flag) | NotZero(counter: Counter) | TooFew(what: string) | OutOfRatio | TooShort
    | HasFailureReason | NotAnObject | EndedWrong | ObserverNotZero

  method RequireZeros(failures: seq<Failure>, m: Metrics, keys: seq<Counter>) returns (r: seq<Failure>)
    ensures failures <= r
    ensures r == failures <==> ReadsZero(m, keys)
  {
    r := failures;
    for i := 0 to |keys|
      invariant failures <= r
      invariant r == failures <==> forall j :: 0 <= j < i ==> m.count(keys[j]) == 0
    {
      if m.count(keys[i]) != 0 {
        r := r + [NotZero(keys[i])];
      }
    }
  }

  method RequireTrue(failures: seq<Failure>, flags: set<Flag>, keys: seq<Flag>) returns (r: seq<Failure>)
    ensures failures <= r
    ensures r == failures <==> forall i :: 0 <= i < |keys| ==> keys[i] in flags
  {
    r := failures;
    for i := 0 to |keys|
      invariant failures <= r
      invariant r == failures <==> forall j :: 0 <= j < i ==> keys[j] in flags
    {
      if keys[i] !in flags {
        r := r + [NotTrue(keys[i])];
      }
    }
  }

  /** Appends `failure` unless the requirement holds. */
  function Require(failures: seq<Failure>, ok: bool, failure: Failure): seq<Failure> {
    if ok then failures else failures + [failure]
  }

  method ValidatePlaybackMetrics(failures: seq<Failure>, m: Metrics) returns (r: seq<Failure>)
    ensures failures <= r
    ensures r == failures <==> PlaybackPasses(m)
  {
    r := Require(failures, m.ended, EndedWrong);
    r := Require(r, m.trackPackets >= 50, TooFew("track_packet_count"));
    r := Require(r, m.pauseBoundaries >= 1, TooFew("pause_media_boundary_count"));
    r := Require(r, InRatio(m.ratioPpm), OutOfRatio);
    r := RequireZeros(r, m, PLAYBACK_ZERO);
  }

  method ValidateReconnectProbeMetrics(failures: seq<Failure>, m: Metrics) returns (r: seq<Failure>)
    ensures failures <= r
    ensures r == failures <==> ReconnectPasses(m)
  {
    r := Require(failures, !m.ended, EndedWrong);
    r := Require(r, m.reconnects >= 1, TooFew("reconnect_interruptions"));
    r := Require(r, m.trackPackets >= 1, TooFew("track_packet_count"));
    r := Require(r, InRatio(m.ratioPpm), OutOfRatio);
    r := RequireZeros(r, m, RECONNECT_ZERO);
  }

  /** The gate is silent exactly on the evidence that passes. */
  method ValidateEvidence(e: Evidence) returns (failures: seq<Failure>)
    ensures failures == [] <==> GatePasses(e)
  {
    EveryFlagIsRequired(e.flags);
    failures := Require([], e.success, OutcomeNotSuccess);
    failures := RequireTrue(failures, e.flags, REQUIRED_TRUE);
    failures := Require(failures, e.pauseSilencePackets >= 5, TooFew("pause_silence_packet_count"));
    failures := Require(failures, e.resumePackets >= 4, TooFew("observer_resume_packet_count"));
    failures := Require(failures, e.stats.observedPackets >= 120, TooFew("observed_packet_count"));
    failures := Require(failures, e.stats.nonSilentMs >= 1_000, TooFew("non_silent_audio_ms"));
    failures := Require(failures, e.stats.bufferingEvents == 0, ObserverNotZero);
    failures := Require(failures, e.stats.fastWindows == 0, ObserverNotZero);
    failures := Require(failures, e.stats.slowWindows == 0, ObserverNotZero);
    failures := Require(failures, InRatio(e.stats.ratioPpm), OutOfRatio);
    failures := Require(failures, e.expectedMs > 0 && e.stats.decodedMs >= RequiredByGate(e.expectedMs), TooShort);
    failures := Require(failures, !e.failureReason, HasFailureReason);
    if e.playback.None? {
      failures := failures + [NotAnObject];
    } else {
      failures := ValidatePlaybackMetrics(failures, e.playback.value);
    }
    if e.reconnect.None? {
      failures := failures + [NotAnObject];
    } else {
      failures := ValidateReconnectProbeMetrics(failures, e.reconnect.value);
    }
  }

  // ------------------------------------------------------------------ acceptance implies the gate

  lemma {:induction false} RequiredFlagsHeld(contract: set<Flag>, flags: set<Flag>)
    requires forall i :: 0 <= i < |COVERAGE| ==> COVERAGE[i] in contract
    requires flags == contract + {PauseRtpSilence} + {ConstrainedProfile} + {SlowJitteryHttp}
    ensures forall f: Flag :: f in flags
  {
    forall f: Flag
      ensures f in flags
    {
      FlagIsCovered(f);
    }
  }

  lemma {:induction false} FlagIsCovered(f: Flag)
    ensures f in COVERAGE || f == PauseRtpSilence || f == ConstrainedProfile || f == SlowJitteryHttp
  {}

  lemma {:induction false} EveryCounter(k: Counter)
    ensures k in TEMPO_FAULTS || k in PLAYOUT_FAULTS || k == FrameDeficit || k == DroppedFrames || k == LateFrames
  {}

  lemma {:induction false} ZeroEverywhere(m: Metrics)
    requires AllZero(m, TEMPO_FAULTS) && AllZero(m, PLAYOUT_FAULTS)
    requires m.count(FrameDeficit) == m.count(DroppedFrames) == m.count(LateFrames) == 0
    ensures forall k :: m.count(k) == 0
  {
    forall k
      ensures m.count(k) == 0
    {
      EveryCounter(k);
    }
  }

  /** The budget demands a zero of every counter, those the gate reads among them. */
  lemma {:induction false} BudgetZeros(sort: Sort, m: Metrics, requireWindows: bool, requirePause: bool)
    requires BudgetAccepts(sort, m, requireWindows, requirePause)
    ensures forall k :: m.count(k) == 0
    ensures InRatio(m.ratioPpm)
  {
    ZeroEverywhere(m);
  }

  lemma {:induction false} ZerosPass(m: Metrics)
    requires (forall k :: m.count(k) == 0) && InRatio(m.ratioPpm)
    ensures m.ended && m.trackPackets >= 50 ==> (PlaybackPasses(m) <==> m.pauseBoundaries >= 1)
    ensures !m.ended && m.trackPackets >= 1 && m.reconnects >= 1 ==> ReconnectPasses(m)
  {}

  lemma {:induction false} BudgetShowsPause(sort: Sort, m: Metrics)
    requires RawEvidenceHolds(sort, m, true)
    ensures LongestRun(m.events) >= STOP_SILENCE_FRAMES
  {
    AcceptedSpacingHasFive(m.events);
  }

  lemma {:induction false} FinishedPasses(sort: Sort, m: Metrics)
    requires FinishedAccepts(sort, m)
    ensures PlaybackPasses(m) <==> m.pauseBoundaries >= 1
    ensures LongestRun(m.events) >= STOP_SILENCE_FRAMES
  {
    BudgetZeros(sort, m, true, true);
    ZerosPass(m);
    BudgetShowsPause(sort, m);
  }

  lemma {:induction false} ProbePasses(sort: Sort, m: Metrics)
    requires ProbeAccepts(sort, m)
    ensures ReconnectPasses(m)
  {
    BudgetZeros(sort, m, false, false);
    ZerosPass(m);
  }

  lemma {:induction false} ObserverPasses(s: ObserverStats, expectedMs: u64)
    requires ObserverAccepts(s, expectedMs)
    ensures ObserverStatsPass(s) && s.decodedMs >= RequiredByGate(expectedMs)
  {
    RequiredDurationsAgree(expectedMs);
  }

  /** A run the controller accepts passes the gate exactly when its playback crossed a pause boundary, the one
      thing only the gate checks. */
  lemma {:induction false} AcceptedRunsPassTheGate(sort: Sort, o: Outcome)
    ensures ControllerAccepts(sort, o) ==> (GatePasses(BuildEvidence(o)) <==> o.playback.pauseBoundaries >= 1)
  {
    if ControllerAccepts(sort, o) {
      var e := BuildEvidence(o);
      RequiredFlagsHeld(o.contract, e.flags);
      ObserverPasses(o.stats, o.expectedMs);
      FinishedPasses(sort, o.playback);
      ProbePasses(sort, o.probe);
      PassesInParts(e, o.playback, o.probe);
    }
  }

  lemma {:induction false} PassesInParts(e: Evidence, playback: Metrics, probe: Metrics)
    requires e.success && !e.failureReason && e.playback == Some(playback) && e.reconnect == Some(probe)
    requires forall f: Flag :: f in e.flags
    requires e.pauseSilencePackets >= 5 && e.resumePackets >= 4 && ObserverStatsPass(e.stats)
    requires e.expectedMs > 0 && e.stats.decodedMs >= RequiredByGate(e.expectedMs)
    requires ReconnectPasses(probe)
    ensures GatePasses(e) <==> PlaybackPasses(playback)
  {}
}
