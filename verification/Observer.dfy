/** The online observer (crates/discord-voice-service-live-validation/src/audio.rs): continuity,
    segmented wall clock and rolling tempo windows, without the decoded amplitudes.
    Instants and durations are nanoseconds. */
module Observer {
  import opened Words
  import opened Tempo

  const GAP_THRESHOLD_NS := 100_000_000
  const JITTER_ALLOWANCE_NS := 750_000
  const LONG_WINDOW := 250
  const SHORT_WINDOW := 25
  const MEDIUM_WINDOW := 50
  const POST_SOURCE_BUFFER_MS := 5_000

  /** An observed packet: `samples` is the duration its Opus header declares, `decodes` whether the
      decoder returned exactly that many samples. */
  datatype ObservedPacket = ObservedPacket(sequence: u16, timestamp: u32, samples: u32, decodes: bool, at: nat)

  datatype ObserveError = DecodeFailed | SequenceJump | TimestampJump

  datatype Tally = Tally(count: nat, fast: nat, slow: nat)

  /** The accumulator's fields as values, grouped by what they serve: the wall clock, the RTP link and
      the rolling windows. */
  datatype Clock = Clock(lastAt: Option<nat>, lastDuration: Option<nat>, activeWall: nat, gapCount: nat, fastIntervalCount: nat)

  datatype Link = Link(lastSequence: Option<u16>, lastTimestamp: Option<u32>, lastSamples: Option<u32>)

  datatype Rolling = Rolling(timings: seq<Beat>, long: Tally, longPostSource: nat, short: Tally)

  datatype Snapshot = Snapshot(observedCount: nat, decoded: nat, clock: Clock, link: Link, rolling: Rolling)

  const EMPTY_CLOCK := Clock(None, None, 0, 0, 0)
  const EMPTY_LINK := Link(None, None, None)
  const EMPTY_ROLLING := Rolling([], Tally(0, 0, 0), 0, Tally(0, 0, 0))
  const EMPTY := Snapshot(0, 0, EMPTY_CLOCK, EMPTY_LINK, EMPTY_ROLLING)

  // ------------------------------------------------------------------ what each method computes

  /** `validate_rtp_continuity`. */
  function Continuity(l: Link, p: ObservedPacket): Option<ObserveError> {
    if l.lastSequence.Some? && p.sequence != Wrap16(l.lastSequence.value + 1) then Some(SequenceJump)
    else if l.lastTimestamp.Some? && l.lastSamples.Some? && l.lastSequence.Some?
            && Wrap32(p.timestamp + 0x1_0000_0000 - l.lastTimestamp.value) != l.lastSamples.value then Some(TimestampJump)
    else None
  }

  /** `record_inter_arrival`, and the duration remembered after it. */
  function InterArrival(c: Clock, at: nat, duration: nat): Clock {
    if c.lastAt.None? then Clock(Some(at), Some(duration), c.activeWall + duration, c.gapCount, c.fastIntervalCount)
    else
      var interval := SatSub(at, c.lastAt.value);
      Clock(
        Some(at),
        Some(duration),
        if c.lastDuration.None? then c.activeWall
        else SatSub(c.activeWall, c.lastDuration.value) + interval + duration,
        c.gapCount + (if interval >= GAP_THRESHOLD_NS then 1 else 0),
        c.fastIntervalCount
          + (if c.lastDuration.Some? && interval + JITTER_ALLOWANCE_NS < c.lastDuration.value then 1 else 0))
  }

  function AddTo(t: Tally, window: seq<Beat>): Tally {
    Tally(t.count + 1, t.fast + (if ObservedFast(window) then 1 else 0), t.slow + (if ObservedSlow(window) then 1 else 0))
  }

  /** The last `w` timings, once there are that many. */
  function Latest(timings: seq<Beat>, w: nat): Option<seq<Beat>> {
    if |timings| < w then None else Some(timings[|timings| - w..])
  }

  /** Counts the latest window of `w` packets, if there is one. */
  function AddLatest(t: Tally, timings: seq<Beat>, w: nat): Tally {
    var latest := Latest(timings, w);
    if latest.None? then t else AddTo(t, latest.value)
  }

  predicate PostSource(window: seq<Beat>) {
    window != [] && window[0].position >= 5_000
  }

  /** `record_latest_decoded_audio_tempo_windows` after the new timing is pushed. */
  function Roll(r: Rolling, beat: Beat): Rolling {
    var timings := r.timings + [beat];
    var latest := Latest(timings, LONG_WINDOW);
    Rolling(
      timings,
      AddLatest(r.long, timings, LONG_WINDOW),
      r.longPostSource + (if latest.Some? && PostSource(latest.value) then 1 else 0),
      AddLatest(AddLatest(r.short, timings, SHORT_WINDOW), timings, MEDIUM_WINDOW))
  }

  function LinkTo(p: ObservedPacket): Link {
    Link(Some(p.sequence), Some(p.timestamp), Some(p.samples))
  }

  function BeatAt(p: ObservedPacket, decoded: nat): Beat {
    Beat(p.at, DurationNs(p.samples), Quot(decoded, 1_000_000))
  }

  /** `observe_packet_at` after decoding and the continuity check. */
  function Accept(v: Snapshot, p: ObservedPacket): Snapshot {
    var duration := DurationNs(p.samples);
    Snapshot(v.observedCount + 1, v.decoded + duration, InterArrival(v.clock, p.at, duration), LinkTo(p),
             Roll(v.rolling, BeatAt(p, v.decoded)))
  }

  function Observe(v: Snapshot, p: ObservedPacket): Result<Snapshot, ObserveError> {
    if !p.decodes then Err(DecodeFailed) else
    var complaint := Continuity(v.link, p);
    if complaint.Some? then Err(complaint.value) else Ok(Accept(v, p))
  }

  function ClearClock(c: Clock): Clock {
    c.(lastAt := None, lastDuration := None)
  }

  function ClearTimings(r: Rolling): Rolling {
    r.(timings := [])
  }

  /** `reset_inter_arrival_baseline`: forgets timestamps too, but not the sequence number. */
  function ResetBaseline(v: Snapshot): Snapshot {
    v.(clock := ClearClock(v.clock), link := Link(v.link.lastSequence, None, None), rolling := ClearTimings(v.rolling))
  }

  /** `reset_wall_clock_baseline_after_controlled_pause`: timestamps are still checked. */
  function ResetAfterPause(v: Snapshot): Snapshot {
    v.(clock := ClearClock(v.clock), rolling := ClearTimings(v.rolling))
  }

  // ------------------------------------------------------------------ the object

  class AudioValidationAccumulator {
    var observedCount: nat
    var decoded: nat
    var activeWall: nat
    var lastAt: Option<nat>
    var lastDuration: Option<nat>
    var lastSamples: Option<u32>
    var lastTimestamp: Option<u32>
    var lastSequence: Option<u16>
    var timings: seq<Beat>
    var gapCount: nat
    var fastIntervalCount: nat
    var long: Tally
    var longPostSource: nat
    var short: Tally

    function ClockView(): Clock
      reads this
    {
      Clock(lastAt, lastDuration, activeWall, gapCount, fastIntervalCount)
    }

    function LinkView(): Link
      reads this
    {
      Link(lastSequence, lastTimestamp, lastSamples)
    }

    function RollingView(): Rolling
      reads this
    {
      Rolling(timings, long, longPostSource, short)
    }

    function View(): Snapshot
      reads this
    {
      Snapshot(observedCount, decoded, ClockView(), LinkView(), RollingView())
    }

    constructor ()
      ensures View() == EMPTY
    {
      observedCount, decoded, activeWall := 0, 0, 0;
      lastAt, lastDuration, lastSamples, lastTimestamp, lastSequence := None, None, None, None, None;
      timings, gapCount, fastIntervalCount := [], 0, 0;
      long, longPostSource, short := Tally(0, 0, 0), 0, Tally(0, 0, 0);
    }

    /** `record_inter_arrival` together with the assignment of the last packet's duration. */
    method RecordInterArrival(at: nat, duration: nat)
      modifies this`lastAt, this`lastDuration, this`activeWall, this`gapCount, this`fastIntervalCount
      ensures ClockView() == InterArrival(old(ClockView()), at, duration)
    {
      var previous := lastAt;
      lastAt := Some(at);
      if previous.Some? {
        var interval := SatSub(at, previous.value);
        if interval >= GAP_THRESHOLD_NS {
          gapCount := gapCount + 1;
        }
        if lastDuration.Some? && interval + JITTER_ALLOWANCE_NS < lastDuration.value {
          fastIntervalCount := fastIntervalCount + 1;
        }
        if lastDuration.Some? {
          activeWall := SatSub(activeWall, lastDuration.value) + interval + duration;
        }
      } else {
        activeWall := activeWall + duration;
      }
      lastDuration := Some(duration);
    }

    method RecordLatestShortWindow(w: nat)
      modifies this`short
      ensures short == AddLatest(old(short), timings, w)
    {
      if |timings| < w {
        return;
      }
      short := AddTo(short, timings[|timings| - w..]);
    }

    method RecordLatestLongWindow()
      modifies this`long, this`longPostSource
      ensures long == AddLatest(old(long), timings, LONG_WINDOW)
      ensures var latest := Latest(timings, LONG_WINDOW);
              longPostSource == old(longPostSource) + if latest.Some? && PostSource(latest.value) then 1 else 0
    {
      if |timings| < LONG_WINDOW {
        return;
      }
      var window := timings[|timings| - LONG_WINDOW..];
      if window[0].position >= POST_SOURCE_BUFFER_MS {
        longPostSource := longPostSource + 1;
      }
      long := AddTo(long, window);
    }

    method RecordTiming(beat: Beat)
      modifies this`timings, this`long, this`longPostSource, this`short
      ensures RollingView() == Roll(old(RollingView()), beat)
    {
      timings := timings + [beat];
      RecordLatestShortWindow(SHORT_WINDOW);
      RecordLatestShortWindow(MEDIUM_WINDOW);
      RecordLatestLongWindow();
    }

    method ObservePacketAt(p: ObservedPacket) returns (r: Result<(), ObserveError>)
      modifies this
      ensures match Observe(old(View()), p)
              case Ok(next) => r.Ok? && View() == next
              case Err(e) => r == Err(e) && View() == old(View())
    {
      if !p.decodes {
        return Err(DecodeFailed);
      }
      var complaint := Continuity(LinkView(), p);
      if complaint.Some? {
        return Err(complaint.value);
      }
      AcceptPacket(p);
      r := Ok(());
    }

    /** Everything a packet changes but the timings: the counts, the clock and the link. */
    method NoteArrival(p: ObservedPacket)
      modifies this`observedCount, this`decoded, this`lastAt, this`lastDuration, this`activeWall, this`gapCount,
               this`fastIntervalCount, this`lastSamples, this`lastTimestamp, this`lastSequence
      ensures observedCount == old(observedCount) + 1 && decoded == old(decoded) + DurationNs(p.samples)
      ensures ClockView() == InterArrival(old(ClockView()), p.at, DurationNs(p.samples))
      ensures LinkView() == LinkTo(p)
    {
      observedCount := observedCount + 1;
      decoded := decoded + DurationNs(p.samples);
      RecordInterArrival(p.at, DurationNs(p.samples));
      lastSamples := Some(p.samples);
      lastTimestamp := Some(p.timestamp);
      lastSequence := Some(p.sequence);
    }

    method AcceptPacket(p: ObservedPacket)
      modifies this
      ensures View() == Accept(old(View()), p)
    {
      var beat := BeatAt(p, decoded);
      NoteArrival(p);
      RecordTiming(beat);
    }

    method ResetInterArrivalBaseline()
      modifies this
      ensures View() == ResetBaseline(old(View()))
    {
      lastAt, lastDuration, lastSamples, lastTimestamp := None, None, None, None;
      timings := [];
    }

    method ResetWallClockBaselineAfterControlledPause()
      modifies this
      ensures View() == ResetAfterPause(old(View()))
    {
      lastAt, lastDuration := None, None;
      timings := [];
    }
  }

  // ------------------------------------------------------------------ whole traces

  datatype Input = Packet(p: ObservedPacket) | BaselineReset | PauseReset

  /** The state after a trace every packet of which was accepted. */
  function Feed(trace: seq<Input>): Option<Snapshot> {
    if |trace| == 0 then Some(EMPTY)
    else
      var before := Feed(trace[..|trace| - 1]);
      if before.None? then None else
      match trace[|trace| - 1]
      case Packet(p) => (match Observe(before.value, p) case Ok(v) => Some(v) case Err(_) => None)
      case BaselineReset => Some(ResetBaseline(before.value))
      case PauseReset => Some(ResetAfterPause(before.value))
  }

  /** All media heard in a trace. */
  function Decoded(trace: seq<Input>): nat {
    if |trace| == 0 then 0
    else
      Decoded(trace[..|trace| - 1])
      + match trace[|trace| - 1] case Packet(p) => DurationNs(p.samples) case _ => 0
  }

  /** The batch form: the trace cut at its resets. */
  function Heard(trace: seq<Input>): Split {
    if |trace| == 0 then Split([], [])
    else
      var front := trace[..|trace| - 1];
      match trace[|trace| - 1]
      case Packet(p) => Heard(front).(current := Heard(front).current + [BeatAt(p, Decoded(front))])
      case _ => Finish(Heard(front))
  }

  function Runs(s: Split): seq<seq<Beat>> {
    s.done + [s.current]
  }

  /** Arrival times do not go back between two packets with no reset in between. */
  predicate ArrivalsInOrder(trace: seq<Input>) {
    |trace| == 0 ||
    var front := trace[..|trace| - 1];
    && ArrivalsInOrder(front)
    && match trace[|trace| - 1]
       case Packet(p) =>
         var current := Heard(front).current;
         current == [] || current[|current| - 1].start <= p.at
       case _ => true
  }

  // ------------------------------------------------------------------ online equals batch

  function BatchTally(windows: seq<seq<Beat>>): Tally {
    Tally(|windows|, Count(windows, ObservedFast), Count(windows, ObservedSlow))
  }

  function Plus(a: Tally, b: Tally): Tally {
    Tally(a.count + b.count, a.fast + b.fast, a.slow + b.slow)
  }

  /** The clock and the windows of a trace, each on its own. */
  function ClockAfter(trace: seq<Input>): Clock {
    if |trace| == 0 then EMPTY_CLOCK
    else
      var before := ClockAfter(trace[..|trace| - 1]);
      match trace[|trace| - 1]
      case Packet(p) => InterArrival(before, p.at, DurationNs(p.samples))
      case _ => ClearClock(before)
  }

  function RollingAfter(trace: seq<Input>): Rolling {
    if |trace| == 0 then EMPTY_ROLLING
    else
      var front := trace[..|trace| - 1];
      match trace[|trace| - 1]
      case Packet(p) => Roll(RollingAfter(front), BeatAt(p, Decoded(front)))
      case _ => ClearTimings(RollingAfter(front))
  }

  lemma {:induction false} FeedParts(trace: seq<Input>)
    requires Feed(trace).Some?
    ensures var v := Feed(trace).value;
            v.decoded == Decoded(trace) && v.clock == ClockAfter(trace) && v.rolling == RollingAfter(trace)
  {
    if |trace| > 0 {
      FeedParts(trace[..|trace| - 1]);
    }
  }

  predicate ClockAgrees(c: Clock, s: Split) {
    && c.activeWall == TotalWall(s.done) + Wall(s.current)
    && c.lastAt == (if s.current == [] then None else Some(s.current[|s.current| - 1].start))
    && c.lastDuration == (if s.current == [] then None else Some(s.current[|s.current| - 1].duration))
    && (s.current != [] ==> s.current[0].start <= s.current[|s.current| - 1].start)
  }

  lemma {:induction false} TotalWallPush(runs: seq<seq<Beat>>, run: seq<Beat>)
    ensures TotalWall(runs + [run]) == TotalWall(runs) + Wall(run)
  {
    assert (runs + [run])[..|runs|] == runs;
  }

  lemma {:induction false} ClockIsBatch(trace: seq<Input>)
    requires ArrivalsInOrder(trace)
    ensures ClockAgrees(ClockAfter(trace), Heard(trace))
  {
    if |trace| > 0 {
      var front := trace[..|trace| - 1];
      ClockIsBatch(front);
      match trace[|trace| - 1]
      case Packet(p) => PacketKeepsClock(ClockAfter(front), Heard(front), BeatAt(p, Decoded(front)));
      case _ => ResetKeepsClock(ClockAfter(front), Heard(front));
    }
  }

  lemma {:induction false} PacketKeepsClock(c: Clock, s: Split, beat: Beat)
    requires ClockAgrees(c, s) && (s.current == [] || s.current[|s.current| - 1].start <= beat.start)
    ensures ClockAgrees(InterArrival(c, beat.start, beat.duration), s.(current := s.current + [beat]))
  {}

  lemma {:induction false} ResetKeepsClock(c: Clock, s: Split)
    requires ClockAgrees(c, s)
    ensures ClockAgrees(ClearClock(c), Finish(s))
  {
    TotalWallPush(s.done, s.current);
  }

  /** 100 ms or more from start to start. */
  predicate GapBetween(a: Beat, b: Beat) {
    SatSub(b.start, a.start) >= 100_000_000
  }

  /** More than 0.75 ms early. */
  predicate FastBetween(a: Beat, b: Beat) {
    SatSub(b.start, a.start) + 750_000 < a.duration
  }

  /** Neighbouring packets of a run related by `p`. */
  function Adjacent(run: seq<Beat>, p: (Beat, Beat) -> bool): nat {
    if |run| <= 1 then 0
    else Adjacent(run[..|run| - 1], p) + if p(run[|run| - 2], run[|run| - 1]) then 1 else 0
  }

  function AdjacentInAll(runs: seq<seq<Beat>>, p: (Beat, Beat) -> bool): nat {
    if |runs| == 0 then 0 else AdjacentInAll(runs[..|runs| - 1], p) + Adjacent(runs[|runs| - 1], p)
  }

  predicate IntervalsAgree(c: Clock, s: Split) {
    && c.lastAt == (if s.current == [] then None else Some(s.current[|s.current| - 1].start))
    && c.lastDuration == (if s.current == [] then None else Some(s.current[|s.current| - 1].duration))
    && c.gapCount == AdjacentInAll(s.done, GapBetween) + Adjacent(s.current, GapBetween)
    && c.fastIntervalCount == AdjacentInAll(s.done, FastBetween) + Adjacent(s.current, FastBetween)
  }

  lemma {:induction false} AdjacentPush(run: seq<Beat>, b: Beat, p: (Beat, Beat) -> bool)
    ensures Adjacent(run + [b], p) == Adjacent(run, p) + if run != [] && p(run[|run| - 1], b) then 1 else 0
  {
    assert (run + [b])[..|run|] == run;
  }

  lemma {:induction false} AdjacentInAllPush(runs: seq<seq<Beat>>, run: seq<Beat>, p: (Beat, Beat) -> bool)
    ensures AdjacentInAll(runs + [run], p) == AdjacentInAll(runs, p) + Adjacent(run, p)
  {
    assert (runs + [run])[..|runs|] == runs;
  }

  /** The gap and fast-interval counters count neighbours inside segments only. */
  lemma {:induction false} IntervalsAreBatch(trace: seq<Input>)
    ensures IntervalsAgree(ClockAfter(trace), Heard(trace))
  {
    if |trace| > 0 {
      var front := trace[..|trace| - 1];
      IntervalsAreBatch(front);
      match trace[|trace| - 1]
      case Packet(p) => PacketKeepsIntervals(ClockAfter(front), Heard(front), BeatAt(p, Decoded(front)));
      case _ => ResetKeepsIntervals(ClockAfter(front), Heard(front));
    }
  }

  lemma {:induction false} PacketKeepsIntervals(c: Clock, s: Split, beat: Beat)
    requires IntervalsAgree(c, s)
    ensures IntervalsAgree(InterArrival(c, beat.start, beat.duration), s.(current := s.current + [beat]))
  {
    AdjacentPush(s.current, beat, GapBetween);
    AdjacentPush(s.current, beat, FastBetween);
  }

  lemma {:induction false} ResetKeepsIntervals(c: Clock, s: Split)
    requires IntervalsAgree(c, s)
    ensures IntervalsAgree(ClearClock(c), Finish(s))
  {
    AdjacentInAllPush(s.done, s.current, GapBetween);
    AdjacentInAllPush(s.done, s.current, FastBetween);
  }

  /** The observer's gap and fast-interval counts, over the reset-delimited segments of any accepted trace. */
  lemma {:induction false} OnlineIntervalsEqualBatch(trace: seq<Input>)
    requires Feed(trace).Some?
    ensures var clock, runs := Feed(trace).value.clock, Runs(Heard(trace));
            clock.gapCount == AdjacentInAll(runs, GapBetween) && clock.fastIntervalCount == AdjacentInAll(runs, FastBetween)
  {
    FeedParts(trace);
    IntervalsAreBatch(trace);
    IntervalsOfRuns(ClockAfter(trace), Heard(trace));
  }

  lemma {:induction false} IntervalsOfRuns(c: Clock, s: Split)
    requires IntervalsAgree(c, s)
    ensures c.gapCount == AdjacentInAll(Runs(s), GapBetween) && c.fastIntervalCount == AdjacentInAll(Runs(s), FastBetween)
  {
    AdjacentInAllPush(s.done, s.current, GapBetween);
    AdjacentInAllPush(s.done, s.current, FastBetween);
  }

  predicate WindowsAgree(r: Rolling, s: Split) {
    && r.timings == s.current
    && r.long == LongTally(s)
    && r.longPostSource == LongPostSource(s)
    && r.short == ShortTally(s)
  }

  lemma {:induction false} AllWindowsSplit(s: Split, w: nat)
    requires w > 0
    ensures AllWindows(Runs(s), w) == AllWindows(s.done, w) + Windows(s.current, w)
  {}

  lemma {:induction false} FinishKeepsWindows(s: Split, w: nat)
    requires w > 0
    ensures AllWindows(Runs(Finish(s)), w) == AllWindows(Runs(s), w)
  {}

  /** A packet adds exactly the window it completes, if its segment is long enough. */
  lemma {:induction false} PacketAddsWindow(s: Split, beat: Beat, w: nat)
    requires w > 0
    ensures var timings := s.current + [beat];
            var latest := Latest(timings, w);
            AllWindows(Runs(s.(current := timings)), w)
            == AllWindows(Runs(s), w) + if latest.None? then [] else [latest.value]
  {
    AllWindowsSplit(s, w);
    AllWindowsSplit(s.(current := s.current + [beat]), w);
    WindowsPush(s.current, beat, w);
  }

  lemma {:induction false} TallyGrows(windows: seq<seq<Beat>>, window: seq<Beat>)
    ensures BatchTally(windows + [window]) == AddTo(BatchTally(windows), window)
  {}

  lemma {:induction false} WindowStep(s: Split, t: Split, beat: Beat, w: nat)
    requires w > 0 && t == s.(current := s.current + [beat])
    ensures BatchTally(AllWindows(Runs(t), w)) == AddLatest(BatchTally(AllWindows(Runs(s), w)), t.current, w)
    ensures var latest := Latest(t.current, w);
            Count(AllWindows(Runs(t), w), PostSource)
            == Count(AllWindows(Runs(s), w), PostSource) + if latest.Some? && PostSource(latest.value) then 1 else 0
  {
    var latest := Latest(t.current, w);
    PacketAddsWindow(s, beat, w);
    var before := AllWindows(Runs(s), w);
    if latest.Some? {
      TallyGrows(before, latest.value);
      CountPush(before, latest.value, PostSource);
    } else {
      assert before + [] == before;
    }
  }

  lemma {:induction false} AddLatestPlus(a: Tally, b: Tally, timings: seq<Beat>, w: nat)
    ensures AddLatest(Plus(a, b), timings, w) == Plus(AddLatest(a, timings, w), b) == Plus(a, AddLatest(b, timings, w))
  {}

  lemma {:induction false} PacketKeepsWindows(r: Rolling, s: Split, t: Split, beat: Beat)
    requires WindowsAgree(r, s) && t == s.(current := s.current + [beat])
    ensures WindowsAgree(Roll(r, beat), t)
  {
    LongWindowsStep(r.long, r.longPostSource, s, t, beat);
    ShortWindowsStep(r.short, s, t, beat);
  }

  function LongTally(s: Split): Tally {
    BatchTally(AllWindows(Runs(s), LONG_WINDOW))
  }

  function LongPostSource(s: Split): nat {
    Count(AllWindows(Runs(s), LONG_WINDOW), PostSource)
  }

  lemma {:induction false} LongWindowsStep(long: Tally, post: nat, s: Split, t: Split, beat: Beat)
    requires long == LongTally(s) && post == LongPostSource(s) && t == s.(current := s.current + [beat])
    ensures AddLatest(long, t.current, LONG_WINDOW) == LongTally(t)
    ensures var latest := Latest(t.current, LONG_WINDOW);
            post + (if latest.Some? && PostSource(latest.value) then 1 else 0) == LongPostSource(t)
  {
    WindowStep(s, t, beat, LONG_WINDOW);
  }

  function ShortTally(s: Split): Tally {
    Plus(BatchTally(AllWindows(Runs(s), SHORT_WINDOW)), BatchTally(AllWindows(Runs(s), MEDIUM_WINDOW)))
  }

  lemma {:induction false} ShortWindowsStep(short: Tally, s: Split, t: Split, beat: Beat)
    requires short == ShortTally(s) && t == s.(current := s.current + [beat])
    ensures AddLatest(AddLatest(short, t.current, SHORT_WINDOW), t.current, MEDIUM_WINDOW) == ShortTally(t)
  {
    WindowStep(s, t, beat, SHORT_WINDOW);
    WindowStep(s, t, beat, MEDIUM_WINDOW);
    PlusStep(BatchTally(AllWindows(Runs(s), SHORT_WINDOW)), BatchTally(AllWindows(Runs(s), MEDIUM_WINDOW)), t.current);
  }

  lemma {:induction false} PlusStep(a: Tally, b: Tally, timings: seq<Beat>)
    ensures AddLatest(AddLatest(Plus(a, b), timings, SHORT_WINDOW), timings, MEDIUM_WINDOW)
         == Plus(AddLatest(a, timings, SHORT_WINDOW), AddLatest(b, timings, MEDIUM_WINDOW))
  {
    AddLatestPlus(a, b, timings, SHORT_WINDOW);
    AddLatestPlus(AddLatest(a, timings, SHORT_WINDOW), b, timings, MEDIUM_WINDOW);
  }

  lemma {:induction false} ResetKeepsWindows(r: Rolling, s: Split)
    requires WindowsAgree(r, s)
    ensures WindowsAgree(ClearTimings(r), Finish(s))
  {
    FinishKeepsWindows(s, LONG_WINDOW);
    FinishKeepsWindows(s, SHORT_WINDOW);
    FinishKeepsWindows(s, MEDIUM_WINDOW);
  }

  lemma {:induction false} NoWindowsAtFirst(w: nat)
    requires w > 0
    ensures AllWindows(Runs(Split([], [])), w) == []
  {}

  lemma {:induction false} WindowsAreBatch(trace: seq<Input>)
    ensures WindowsAgree(RollingAfter(trace), Heard(trace))
  {
    if |trace| == 0 {
      NoWindowsAtFirst(LONG_WINDOW);
      NoWindowsAtFirst(SHORT_WINDOW);
      NoWindowsAtFirst(MEDIUM_WINDOW);
    } else {
      var front := trace[..|trace| - 1];
      WindowsAreBatch(front);
      match trace[|trace| - 1]
      case Packet(p) => PacketKeepsWindows(RollingAfter(front), Heard(front), Heard(trace), BeatAt(p, Decoded(front)));
      case _ => ResetKeepsWindows(RollingAfter(front), Heard(front));
    }
  }

  function WindowsIn(runs: seq<seq<Beat>>, w: nat): nat {
    if |runs| == 0 then 0 else WindowsIn(runs[..|runs| - 1], w) + Max(0, |runs[|runs| - 1]| - w + 1)
  }

  lemma {:induction false} AllWindowsCount(runs: seq<seq<Beat>>, w: nat)
    requires w > 0
    ensures |AllWindows(runs, w)| == WindowsIn(runs, w)
  {
    if |runs| > 0 {
      AllWindowsCount(runs[..|runs| - 1], w);
    }
  }

  /** The windows of `w` packets inside the runs: how many there are, and how many are too fast and too slow. */
  function TempoOf(runs: seq<seq<Beat>>, w: nat): Tally
    requires w > 0
  {
    Tally(WindowsIn(runs, w), Count(AllWindows(runs, w), TooFast), Count(AllWindows(runs, w), TooSlow))
  }

  lemma {:induction false} TempoCounts(windows: seq<seq<Beat>>)
    ensures Count(windows, ObservedFast) == Count(windows, TooFast)
    ensures Count(windows, ObservedSlow) == Count(windows, TooSlow)
  {
    if |windows| > 0 {
      TempoCounts(windows[..|windows| - 1]);
      ObservedTempo(windows[|windows| - 1]);
    }
  }

  lemma {:induction false} TallyMeaning(runs: seq<seq<Beat>>, w: nat)
    requires w > 0
    ensures BatchTally(AllWindows(runs, w)) == TempoOf(runs, w)
  {
    AllWindowsCount(runs, w);
    TempoCounts(AllWindows(runs, w));
  }

  /** What the observer notes of a packet: its arrival, its duration in whole nanoseconds, and where in the media heard
      before it, in whole milliseconds, it starts. */
  lemma {:induction false} BeatMeaning(p: ObservedPacket, decoded: nat)
    ensures var b := BeatAt(p, decoded);
            && b.start == p.at
            && 48 * b.duration <= 1_000_000 * p.samples < 48 * b.duration + 48
            && 1_000_000 * b.position <= decoded < 1_000_000 * b.position + 1_000_000
  {
    DurationNsMeaning(p.samples);
    var ms := Quot(decoded, 1_000_000);
    QuotBelow(decoded, 1_000_000, ms);
    QuotBelow(decoded, 1_000_000, ms + 1);
  }

  /** A window counts as one past the source buffer exactly when five seconds of audio were decoded before its first
      packet. */
  lemma {:induction false} PostSourceIff(p: ObservedPacket, decoded: nat, rest: seq<Beat>)
    ensures PostSource([BeatAt(p, decoded)] + rest) <==> decoded >= 5_000_000_000
  {
    QuotBelow(decoded, 1_000_000, 5_000);
  }

  /** Arrivals that never come early give no fast window, whatever the resets: the observer's part of the law that
      holds of the log. */
  lemma {:induction false} UnhurriedIsNeverFast(trace: seq<Input>)
    requires Feed(trace).Some?
    requires forall k :: 0 <= k < |Runs(Heard(trace))| ==>
               NoFastInterval(Runs(Heard(trace))[k]) && PositiveDurations(Runs(Heard(trace))[k])
    ensures Feed(trace).value.rolling.long.fast == 0 && Feed(trace).value.rolling.short.fast == 0
  {
    OnlineEqualsBatch(trace);
    NoneTooFast(Runs(Heard(trace)), 250);
    NoneTooFast(Runs(Heard(trace)), 25);
    NoneTooFast(Runs(Heard(trace)), 50);
  }

  lemma {:induction false} NoneTooFast(runs: seq<seq<Beat>>, w: nat)
    requires w > 0
    requires forall k :: 0 <= k < |runs| ==> NoFastInterval(runs[k]) && PositiveDurations(runs[k])
    ensures forall i :: 0 <= i < |AllWindows(runs, w)| ==> !TooFast(AllWindows(runs, w)[i])
  {
    if |runs| > 0 {
      var n := |runs| - 1;
      assert forall k :: 0 <= k < n ==> runs[..n][k] == runs[k];
      NoneTooFast(runs[..n], w);
      forall i | 0 <= i < |Windows(runs[n], w)|
        ensures !TooFast(Windows(runs[n], w)[i])
      {
        SubRun(runs[n], i, i + w);
        NeverObservedFast(Windows(runs[n], w)[i]);
        ObservedTempo(Windows(runs[n], w)[i]);
      }
    }
  }

  /** The packet count and the decoded audio are those of the trace. */
  lemma {:induction false} CountsArePackets(trace: seq<Input>)
    requires Feed(trace).Some?
    ensures Feed(trace).value.observedCount == |Packets(trace)| && Feed(trace).value.decoded == Decoded(trace)
  {
    if |trace| > 0 {
      CountsArePackets(trace[..|trace| - 1]);
    }
  }

  /** The online observer agrees with the batch form on every accepted trace, whatever its resets: the
      active wall clock is the sum over reset-delimited segments of (last start - first start + last
      duration), its subtraction never saturates, a segment of n packets contributes max(0, n - 249)
      long windows and max(0, n - 24) + max(0, n - 49) short ones, and the fast and slow counts are
      those of the windows inside segments. */
  lemma {:induction false} OnlineEqualsBatch(trace: seq<Input>)
    requires Feed(trace).Some?
    ensures var v, runs := Feed(trace).value, Runs(Heard(trace));
            && (ArrivalsInOrder(trace) ==>
                  && v.clock.activeWall == TotalWall(runs)
                  && (v.clock.lastDuration.Some? ==> v.clock.lastDuration.value <= v.clock.activeWall))
            && v.rolling.long == TempoOf(runs, 250)
            && v.rolling.longPostSource == Count(AllWindows(runs, 250), PostSource)
            && v.rolling.short == Plus(TempoOf(runs, 25), TempoOf(runs, 50))
  {
    FeedParts(trace);
    WindowsAreBatch(trace);
    if ArrivalsInOrder(trace) {
      ClockIsBatch(trace);
    }
    var s := Heard(trace);
    TotalWallPush(s.done, s.current);
    TallyMeaning(Runs(s), LONG_WINDOW);
    TallyMeaning(Runs(s), SHORT_WINDOW);
    TallyMeaning(Runs(s), MEDIUM_WINDOW);
  }

  // ------------------------------------------------------------------ continuity

  function LastPacket(trace: seq<Input>): Option<ObservedPacket> {
    if |trace| == 0 then None
    else match trace[|trace| - 1] case Packet(p) => Some(p) case _ => LastPacket(trace[..|trace| - 1])
  }

  /** No baseline reset since the last packet. */
  predicate Linked(trace: seq<Input>) {
    |trace| > 0 && match trace[|trace| - 1]
                   case Packet(p) => true
                   case BaselineReset => false
                   case PauseReset => Linked(trace[..|trace| - 1])
  }

  lemma {:induction false} Remembers(trace: seq<Input>)
    requires Feed(trace).Some?
    ensures var v, last := Feed(trace).value, LastPacket(trace);
            v.link == Link(if last.None? then None else Some(last.value.sequence),
                           if last.Some? && Linked(trace) then Some(last.value.timestamp) else None,
                           if last.Some? && Linked(trace) then Some(last.value.samples) else None)
  {
    if |trace| > 0 {
      Remembers(trace[..|trace| - 1]);
    }
  }

  lemma {:induction false} WrappingDifference(a: u32, b: u32, d: u32)
    ensures Wrap32(b + 0x1_0000_0000 - a) == d <==> b == Wrap32(a + d)
  {}

  /** The next packet is accepted exactly when it decodes, its sequence number follows the last
      packet's, and its timestamp follows too unless a baseline reset came in between. */
  lemma {:induction false} AcceptedIff(trace: seq<Input>, p: ObservedPacket)
    requires Feed(trace).Some?
    ensures Feed(trace + [Packet(p)]).Some?
       <==> && p.decodes
            && (LastPacket(trace).Some? ==> p.sequence == Wrap16(LastPacket(trace).value.sequence + 1))
            && (LastPacket(trace).Some? && Linked(trace) ==>
                  p.timestamp == Wrap32(LastPacket(trace).value.timestamp + LastPacket(trace).value.samples))
  {
    Remembers(trace);
    assert (trace + [Packet(p)])[..|trace|] == trace;
    var last := LastPacket(trace);
    if last.Some? {
      WrappingDifference(last.value.timestamp, p.timestamp, last.value.samples);
    }
  }

  function Packets(trace: seq<Input>): seq<ObservedPacket> {
    if |trace| == 0 then []
    else Packets(trace[..|trace| - 1]) + match trace[|trace| - 1] case Packet(p) => [p] case _ => []
  }

  predicate RtpChain(ps: seq<ObservedPacket>) {
    && (forall k :: 0 <= k < |ps| ==> ps[k].decodes)
    && forall k :: 0 < k < |ps| ==>
         && ps[k].sequence == Wrap16(ps[k - 1].sequence + 1)
         && ps[k].timestamp == Wrap32(ps[k - 1].timestamp + ps[k - 1].samples)
  }

  lemma {:induction false} LastOfPackets(trace: seq<Input>)
    ensures LastPacket(trace) == if Packets(trace) == [] then None else Some(Packets(trace)[|Packets(trace)| - 1])
  {
    if |trace| > 0 {
      LastOfPackets(trace[..|trace| - 1]);
    }
  }

  lemma {:induction false} ChainPrefix(ps: seq<ObservedPacket>, n: nat)
    requires RtpChain(ps) && n <= |ps|
    ensures RtpChain(ps[..n])
  {}

  lemma {:induction false} ResetIsAccepted(trace: seq<Input>, reset: Input)
    requires Feed(trace).Some? && !reset.Packet?
    ensures Feed(trace + [reset]).Some?
  {}

  lemma {:induction false} NextInChain(front: seq<Input>, ps: seq<ObservedPacket>, p: ObservedPacket)
    requires Feed(front).Some? && Packets(front) == ps && RtpChain(ps + [p])
    ensures Feed(front + [Packet(p)]).Some?
  {
    LastOfPackets(front);
    var n := |ps|;
    assert (ps + [p])[n] == p;
    if n > 0 {
      assert (ps + [p])[n - 1] == ps[n - 1];
    }
    AcceptedIff(front, p);
  }

  /** A contiguous RTP chain is accepted whole, wherever the resets fall. */
  lemma {:induction false} ChainIsAccepted(trace: seq<Input>)
    requires RtpChain(Packets(trace))
    ensures Feed(trace).Some?
  {
    if |trace| > 0 {
      var front, last := trace[..|trace| - 1], trace[|trace| - 1];
      assert front + [last] == trace;
      var ps := Packets(front);
      if last.Packet? {
        assert Packets(trace) == ps + [last.p];
        ChainPrefix(Packets(trace), |ps|);
        assert Packets(trace)[..|ps|] == ps;
        ChainIsAccepted(front);
        NextInChain(front, ps, last.p);
      } else {
        assert Packets(trace) == ps;
        ChainIsAccepted(front);
        ResetIsAccepted(front, last);
      }
    }
  }
}
