/** Runs of boundary-silence packets in the raw send log: the controller's spacing check, and the longest run
    it reports as evidence (crates/discord-voice-service-live-validation/src/controller.rs). */
module BoundarySilence {
  import opened Words
  import opened RawSendLog

  const STOP_SILENCE_FRAMES := 5
  const MIN_SPACING_MS := 15
  const MAX_SPACING_MS := 45

  datatype SpacingError = NoFivePacketRun | BadSpacing

  predicate IsBoundary(e: RawSendEvent) {
    e.kind == BoundarySilence
  }

  /** Boundary-silence packets at the end of the first `n`. */
  function TrailingRun(events: seq<RawSendEvent>, n: nat): (run: nat)
    requires n <= |events|
    ensures run <= n
  {
    if n == 0 || !IsBoundary(events[n - 1]) then 0 else TrailingRun(events, n - 1) + 1
  }

  /** The longest run within the first `n`. */
  function LongestUpTo(events: seq<RawSendEvent>, n: nat): nat
    requires n <= |events|
  {
    if n == 0 then 0 else Max(LongestUpTo(events, n - 1), TrailingRun(events, n))
  }

  function LongestRun(events: seq<RawSendEvent>): nat {
    LongestUpTo(events, |events|)
  }

  /** The `n` packets from `start` on are boundary silence. */
  predicate IsRun(events: seq<RawSendEvent>, start: nat, n: nat) {
    start + n <= |events| && forall i :: start <= i < start + n ==> IsBoundary(events[i])
  }

  lemma {:induction false} TrailingIsRun(events: seq<RawSendEvent>, n: nat)
    requires n <= |events|
    ensures IsRun(events, n - TrailingRun(events, n), TrailingRun(events, n))
  {
    if n > 0 && IsBoundary(events[n - 1]) {
      TrailingIsRun(events, n - 1);
    }
  }

  lemma {:induction false} TrailingIsMaximal(events: seq<RawSendEvent>, n: nat, run: nat)
    requires run <= n <= |events| && IsRun(events, n - run, run)
    ensures run <= TrailingRun(events, n)
  {
    if run > 0 {
      TrailingIsMaximal(events, n - 1, run - 1);
    }
  }

  lemma {:induction false} LongestGrows(events: seq<RawSendEvent>, m: nat, n: nat)
    requires m <= n <= |events|
    ensures LongestUpTo(events, m) <= LongestUpTo(events, n) && TrailingRun(events, m) <= LongestUpTo(events, n)
  {
    if m < n {
      LongestGrows(events, m, n - 1);
    }
  }

  lemma {:induction false} LongestIsUpperBound(events: seq<RawSendEvent>, start: nat, n: nat)
    requires IsRun(events, start, n)
    ensures n <= LongestRun(events)
  {
    TrailingIsMaximal(events, start + n, n);
    LongestGrows(events, start + n, |events|);
  }

  lemma {:induction false} AttainedUpTo(events: seq<RawSendEvent>, n: nat) returns (start: nat)
    requires n <= |events|
    ensures IsRun(events, start, LongestUpTo(events, n))
  {
    start := 0;
    if n > 0 {
      if LongestUpTo(events, n) == TrailingRun(events, n) {
        TrailingIsRun(events, n);
        start := n - TrailingRun(events, n);
      } else {
        start := AttainedUpTo(events, n - 1);
      }
    }
  }

  lemma {:induction false} LongestIsAttained(events: seq<RawSendEvent>) returns (start: nat)
    ensures IsRun(events, start, LongestRun(events))
  {
    start := AttainedUpTo(events, |events|);
  }

  // ------------------------------------------------------------------ the evidence

  /** The send times of `n` packets from `start` on. */
  function SentAt(events: seq<RawSendEvent>, start: nat, n: nat): (r: seq<u64>)
    requires start + n <= |events|
    ensures |r| == n
  {
    if n == 0 then [] else SentAt(events, start, n - 1) + [events[start + n - 1].sentUs]
  }

  function SpacingMs(a: u64, b: u64): nat {
    Quot(SatSub(b, a), 1_000)
  }

  function Spacings(sent: seq<u64>): (r: seq<nat>)
    ensures |r| == if |sent| == 0 then 0 else |sent| - 1
  {
    seq(if |sent| == 0 then 0 else |sent| - 1, i requires 0 <= i < |sent| - 1 => SpacingMs(sent[i], sent[i + 1]))
  }

  /** `run` holds the send times of the packets that end at `end`. */
  predicate RunAt(events: seq<RawSendEvent>, run: seq<u64>, end: nat) {
    && |run| <= end <= |events|
    && IsRun(events, end - |run|, |run|)
    && run == SentAt(events, end - |run|, |run|)
  }

  lemma {:induction false} RunAtPush(events: seq<RawSendEvent>, run: seq<u64>, end: nat)
    requires RunAt(events, run, end) && end < |events| && IsBoundary(events[end])
    ensures RunAt(events, run + [events[end].sentUs], end + 1)
  {}

  lemma {:induction false} RunAtEmpty(events: seq<RawSendEvent>, end: nat)
    requires end <= |events|
    ensures RunAt(events, [], end)
  {}

  /** The run of one more packet. */
  method ExtendRun(events: seq<RawSendEvent>, i: nat, current: seq<u64>) returns (next: seq<u64>)
    requires i < |events| && RunAt(events, current, i) && |current| == TrailingRun(events, i)
    ensures RunAt(events, next, i + 1) && |next| == TrailingRun(events, i + 1)
    ensures next == if IsBoundary(events[i]) then current + [events[i].sentUs] else []
  {
    if IsBoundary(events[i]) {
      RunAtPush(events, current, i);
      next := current + [events[i].sentUs];
    } else {
      RunAtEmpty(events, i + 1);
      next := [];
    }
  }

  /** Reports the first longest run, and the spacings inside it. */
  method PauseSilenceEvidence(events: seq<RawSendEvent>) returns (packetCount: nat, spacingMs: seq<nat>, ghost end: nat)
    ensures packetCount == LongestRun(events)
    ensures packetCount <= end <= |events| && IsRun(events, end - packetCount, packetCount)
    ensures spacingMs == Spacings(SentAt(events, end - packetCount, packetCount))
  {
    var best: seq<u64>, current: seq<u64> := [], [];
    end := 0;
    for i := 0 to |events|
      invariant RunAt(events, current, i) && |current| == TrailingRun(events, i)
      invariant RunAt(events, best, end) && end <= i
      invariant LongestUpTo(events, i) == Max(|best|, |current|)
    {
      if !IsBoundary(events[i]) && |current| > |best| {
        best, end := current, i;
      }
      current := ExtendRun(events, i, current);
    }
    if |current| > |best| {
      best, end := current, |events|;
    }
    packetCount, spacingMs := |best|, Spacings(best);
  }

  // ------------------------------------------------------------------ the spacing check

  predicate WellSpaced(sent: seq<u64>) {
    forall i :: 0 < i < |sent| ==> MIN_SPACING_MS <= SpacingMs(sent[i - 1], sent[i]) <= MAX_SPACING_MS
  }

  /** Each packet was sent 15 to 45 whole milliseconds after the one before it. */
  lemma {:induction false} WellSpacedIff(sent: seq<u64>)
    ensures WellSpaced(sent) <==> forall i :: 0 < i < |sent| ==> 15_000 <= sent[i] - sent[i - 1] < 46_000
  {
    forall i | 0 < i < |sent|
      ensures MIN_SPACING_MS <= SpacingMs(sent[i - 1], sent[i]) <= MAX_SPACING_MS <==> 15_000 <= sent[i] - sent[i - 1] < 46_000
    {
      QuotBelow(SatSub(sent[i], sent[i - 1]), 1_000, 15);
      QuotBelow(SatSub(sent[i], sent[i - 1]), 1_000, 46);
    }
  }

  /** A spacing is the time between two sends in whole milliseconds, 0 if it went back. */
  lemma {:induction false} SpacingMeaning(a: u64, b: u64)
    ensures if a <= b then 1_000 * SpacingMs(a, b) <= b - a < 1_000 * SpacingMs(a, b) + 1_000 else SpacingMs(a, b) == 0
  {
    var ms := SpacingMs(a, b);
    QuotBelow(SatSub(b, a), 1_000, ms);
    QuotBelow(SatSub(b, a), 1_000, ms + 1);
  }

  /** The first five-packet run ends at `n`. */
  predicate FirstFiveEndsAt(events: seq<RawSendEvent>, n: nat) {
    && n <= |events|
    && TrailingRun(events, n) == STOP_SILENCE_FRAMES
    && forall m :: 0 <= m < n ==> TrailingRun(events, m) < STOP_SILENCE_FRAMES
  }

  method ValidateRunSpacing(sent: seq<u64>) returns (ok: bool)
    requires |sent| == STOP_SILENCE_FRAMES
    ensures ok <==> WellSpaced(sent)
  {
    for i := 1 to |sent|
      invariant forall j :: 0 < j < i ==> MIN_SPACING_MS <= SpacingMs(sent[j - 1], sent[j]) <= MAX_SPACING_MS
    {
      var spacing := SpacingMs(sent[i - 1], sent[i]);
      if spacing < MIN_SPACING_MS || spacing > MAX_SPACING_MS {
        return false;
      }
    }
    ok := true;
  }

  ghost predicate SpacingAccepted(events: seq<RawSendEvent>) {
    exists n: nat :: FirstFiveEndsAt(events, n) && n >= STOP_SILENCE_FRAMES
                && WellSpaced(SentAt(events, n - STOP_SILENCE_FRAMES, STOP_SILENCE_FRAMES))
  }

  lemma {:induction false} OnlyFirstFive(events: seq<RawSendEvent>, n: nat, m: nat)
    requires FirstFiveEndsAt(events, n) && FirstFiveEndsAt(events, m)
    ensures n == m
  {}

  /** The verdict on the first five-packet run. */
  lemma {:induction false} DecidedAt(events: seq<RawSendEvent>, n: nat)
    requires FirstFiveEndsAt(events, n) && n >= STOP_SILENCE_FRAMES
    ensures SpacingAccepted(events) <==> WellSpaced(SentAt(events, n - STOP_SILENCE_FRAMES, STOP_SILENCE_FRAMES))
  {
    forall m: nat | FirstFiveEndsAt(events, m)
      ensures m == n
    {
      OnlyFirstFive(events, n, m);
    }
  }

  /** Accepts exactly when the log has a five-packet run and the first one is well spaced. */
  method ValidatePauseBoundarySpacing(events: seq<RawSendEvent>) returns (r: Result<(), SpacingError>)
    ensures r.Ok? <==> SpacingAccepted(events)
  {
    var current: seq<u64> := [];
    for i := 0 to |events|
      invariant RunAt(events, current, i) && |current| == TrailingRun(events, i)
      invariant forall m :: 0 <= m <= i ==> TrailingRun(events, m) < STOP_SILENCE_FRAMES
    {
      current := ExtendRun(events, i, current);
      if |current| >= STOP_SILENCE_FRAMES {
        DecidedAt(events, i + 1);
        var ok := ValidateRunSpacing(current);
        if ok {
          return Ok(());
        }
        return Err(BadSpacing);
      }
    }
    r := Err(NoFivePacketRun);
  }

  /** A log that passed the spacing check reports at least five boundary-silence packets. */
  lemma {:induction false} AcceptedSpacingHasFive(events: seq<RawSendEvent>)
    requires SpacingAccepted(events)
    ensures LongestRun(events) >= STOP_SILENCE_FRAMES
  {
    var n: nat :| FirstFiveEndsAt(events, n) && n >= STOP_SILENCE_FRAMES
             && WellSpaced(SentAt(events, n - STOP_SILENCE_FRAMES, STOP_SILENCE_FRAMES));
    LongestGrows(events, n, |events|);
  }
}
