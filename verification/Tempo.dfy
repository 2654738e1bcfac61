/** Media time against wall-clock time over runs of packets: the arithmetic shared by the batch
    recomputation (crates/discord-voice-service-live-validation/src/controller.rs) and the online
    observer (crates/discord-voice-service-live-validation/src/audio.rs). */
module Tempo {
  import opened Words

  const MIN_RATIO_PPM := 980_000
  const MAX_RATIO_PPM := 1_020_000

  /** A packet's start and media duration, in one clock unit, and where its media starts. */
  datatype Beat = Beat(start: nat, duration: nat, position: nat)

  function Durations(beats: seq<Beat>): (d: seq<nat>)
    ensures |d| == |beats|
  {
    seq(|beats|, i requires 0 <= i < |beats| => beats[i].duration)
  }

  /** The duration of so many samples at 48 kHz, in nanoseconds. */
  function DurationNs(samples: u32): nat {
    Quot(samples * 1_000_000_000, 48_000)
  }

  function Media(beats: seq<Beat>): nat {
    Sum(Durations(beats))
  }

  /** From the first start to the end of the last packet. */
  function Wall(beats: seq<Beat>): nat {
    if beats == [] then 0
    else SatSub(beats[|beats| - 1].start, beats[0].start) + beats[|beats| - 1].duration
  }

  function RatioPpm(media: nat, wall: nat): u64 {
    if media == 0 || wall == 0 then 0 else Sat64(Quot(media * 1_000_000, wall))
  }

  /** The batch form works on saturating 64-bit microseconds. */
  function LoggedRatio(beats: seq<Beat>): u64 {
    RatioPpm(Sat64(Media(beats)), Sat64(Wall(beats)))
  }

  predicate LoggedFast(beats: seq<Beat>) {
    LoggedRatio(beats) > MAX_RATIO_PPM
  }

  predicate LoggedSlow(beats: seq<Beat>) {
    LoggedRatio(beats) < MIN_RATIO_PPM
  }

  /** The observer works on nanoseconds and truncates to microseconds before dividing. */
  function ObservedRatio(beats: seq<Beat>): u64 {
    RatioPpm(Quot(Media(beats), 1000), Quot(Wall(beats), 1000))
  }

  predicate ObservedFast(beats: seq<Beat>) {
    ObservedRatio(beats) > MAX_RATIO_PPM
  }

  predicate ObservedSlow(beats: seq<Beat>) {
    ObservedRatio(beats) < MIN_RATIO_PPM
  }

  /** `windows(w)`: all rolling windows of `w` consecutive packets, in order. */
  function Windows(beats: seq<Beat>, w: nat): (ws: seq<seq<Beat>>)
    requires w > 0
    ensures |ws| == Max(0, |beats| - w + 1)
    ensures forall i :: 0 <= i < |ws| ==> ws[i] == beats[i..i + w]
  {
    seq(Max(0, |beats| - w + 1), i requires 0 <= i < Max(0, |beats| - w + 1) => beats[i..i + w])
  }

  /** The windows of every run, run after run. */
  function AllWindows(runs: seq<seq<Beat>>, w: nat): seq<seq<Beat>>
    requires w > 0
  {
    if |runs| == 0 then [] else AllWindows(runs[..|runs| - 1], w) + Windows(runs[|runs| - 1], w)
  }

  /** The wall clock of segmented playback: the time between segments does not count. */
  function TotalWall(runs: seq<seq<Beat>>): nat {
    if |runs| == 0 then 0 else TotalWall(runs[..|runs| - 1]) + Wall(runs[|runs| - 1])
  }

  function TotalMedia(runs: seq<seq<Beat>>): nat {
    if |runs| == 0 then 0 else TotalMedia(runs[..|runs| - 1]) + Media(runs[|runs| - 1])
  }

  /** Finished segments and the one still open. */
  datatype Split = Split(done: seq<seq<Beat>>, current: seq<Beat>)

  /** `finish_track_segment`: an empty segment is not recorded. */
  function Finish(s: Split): Split {
    if s.current == [] then s else Split(s.done + [s.current], [])
  }

  // ------------------------------------------------------------------ lemmas

  lemma {:induction false} MediaPush(beats: seq<Beat>, b: Beat)
    ensures Media(beats + [b]) == Media(beats) + b.duration
  {
    assert Durations(beats + [b]) == Durations(beats) + [b.duration];
    SumPush(Durations(beats), b.duration);
  }

  /** Each packet starts no earlier than the end of the one before it. */
  predicate NoFastInterval(beats: seq<Beat>) {
    forall i :: 0 < i < |beats| ==> SatSub(beats[i].start, beats[i - 1].start) >= beats[i - 1].duration
  }

  predicate PositiveDurations(beats: seq<Beat>) {
    forall i :: 0 <= i < |beats| ==> beats[i].duration > 0
  }

  /** How late packet `i` starts after the end of packet `i - 1`. */
  function Late(beats: seq<Beat>, i: nat): nat
    requires 0 < i < |beats|
  {
    SatSub(beats[i].start, beats[i - 1].start + beats[i - 1].duration)
  }

  /** The total lateness after the first packet. */
  function Lateness(beats: seq<Beat>): nat {
    if |beats| <= 1 then 0 else Lateness(beats[..|beats| - 1]) + Late(beats, |beats| - 1)
  }

  /** With no fast interval and positive durations, packet `n` starts at the first start plus all
      earlier durations plus all lateness. */
  lemma {:induction false} StartsDecompose(beats: seq<Beat>)
    requires beats != [] && NoFastInterval(beats) && PositiveDurations(beats)
    ensures beats[|beats| - 1].start == beats[0].start + Media(beats[..|beats| - 1]) + Lateness(beats)
  {
    var n := |beats| - 1;
    if n == 0 {
      assert Media(beats[..0]) == 0;
    } else {
      var front := beats[..n];
      StartsDecompose(front);
      assert beats[..n] == front[..n - 1] + [beats[n - 1]];
      MediaPush(front[..n - 1], beats[n - 1]);
      assert Lateness(beats) == Lateness(front) + Late(beats, n);
    }
  }

  /** Such a run's starts strictly increase. */
  lemma {:induction false} StartsIncrease(beats: seq<Beat>, i: nat, j: nat)
    requires i < j < |beats| && NoFastInterval(beats) && PositiveDurations(beats)
    ensures beats[i].start + beats[i].duration <= beats[j].start
    decreases j
  {
    if i < j - 1 {
      StartsIncrease(beats, i, j - 1);
    }
    assert SatSub(beats[j].start, beats[j - 1].start) >= beats[j - 1].duration;
  }

  lemma {:induction false} WallIsMediaPlusLateness(beats: seq<Beat>)
    requires NoFastInterval(beats) && PositiveDurations(beats)
    ensures Wall(beats) == Media(beats) + Lateness(beats)
  {
    if beats != [] {
      var n := |beats| - 1;
      StartsDecompose(beats);
      assert beats == beats[..n] + [beats[n]];
      MediaPush(beats[..n], beats[n]);
    }
  }

  lemma {:induction false} RatioAtMostMillion(media: nat, wall: nat)
    requires media <= wall
    ensures RatioPpm(media, wall) <= 1_000_000
  {
    if media > 0 {
      QuotBelow(media * 1_000_000, wall, 1_000_001);
    }
  }

  /** A ratio is the media in millionths of the wall clock, rounded down. */
  lemma {:induction false} RatioMeaning(media: nat, wall: nat)
    requires media > 0 && wall > 0
    ensures var ratio := RatioPpm(media, wall);
            ratio * wall <= media * 1_000_000 && (ratio < 0xFFFF_FFFF_FFFF_FFFF ==> media * 1_000_000 < (ratio + 1) * wall)
  {
    var q := Quot(media * 1_000_000, wall);
    QuotBelow(media * 1_000_000, wall, q);
    QuotBelow(media * 1_000_000, wall, q + 1);
    assert Sat64(q) <= q;
    Scaled(Sat64(q), q, wall);
  }

  lemma {:induction false} Scaled(a: nat, b: nat, k: nat)
    requires a <= b
    ensures a * k <= b * k
  {}

  /** Above 102% and below 98%, in whole parts per million. */
  lemma {:induction false} RatioBounds(media: nat, wall: nat)
    requires media > 0 && wall > 0
    ensures RatioPpm(media, wall) > 1_020_000 <==> media * 1_000_000 >= 1_020_001 * wall
    ensures RatioPpm(media, wall) < 980_000 <==> media * 1_000_000 < 980_000 * wall
  {
    QuotBelow(media * 1_000_000, wall, 1_020_001);
    QuotBelow(media * 1_000_000, wall, 980_000);
  }

  /** More media than 102% of the wall clock, from the first start to the end of the last packet, both in whole
      microseconds. */
  predicate TooFast(beats: seq<Beat>) {
    var media, wall := Media(beats) / 1_000, Wall(beats) / 1_000;
    media > 0 && wall > 0 && media * 1_000_000 >= 1_020_001 * wall
  }

  /** Less than 98%, or not one whole microsecond. */
  predicate TooSlow(beats: seq<Beat>) {
    var media, wall := Media(beats) / 1_000, Wall(beats) / 1_000;
    media == 0 || wall == 0 || media * 1_000_000 < 980_000 * wall
  }

  /** When the observer counts a window as fast or slow. */
  lemma {:induction false} ObservedTempo(beats: seq<Beat>)
    ensures ObservedFast(beats) <==> TooFast(beats)
    ensures ObservedSlow(beats) <==> TooSlow(beats)
  {
    QuotIsDiv(Media(beats), 1_000);
    QuotIsDiv(Wall(beats), 1_000);
    if Media(beats) / 1_000 > 0 && Wall(beats) / 1_000 > 0 {
      RatioBounds(Media(beats) / 1_000, Wall(beats) / 1_000);
    }
  }

  /** The duration of so many samples, in whole nanoseconds. */
  lemma {:induction false} DurationNsMeaning(samples: u32)
    ensures 48 * DurationNs(samples) <= 1_000_000 * samples < 48 * DurationNs(samples) + 48
  {
    var ns := DurationNs(samples);
    QuotBelow(samples * 1_000_000_000, 48_000, ns);
    QuotBelow(samples * 1_000_000_000, 48_000, ns + 1);
  }

  /** When the log counts a window as fast or slow, where no 64-bit sum saturates. */
  lemma {:induction false} LoggedTempo(beats: seq<Beat>)
    requires beats != [] && Sum(Durations(beats)) < 0x1_0000_0000_0000_0000
    ensures var media, wall := Sum(Durations(beats)), SatSub(beats[|beats| - 1].start, beats[0].start) + beats[|beats| - 1].duration;
            media > 0 && 0 < wall < 0x1_0000_0000_0000_0000 ==>
              && (LoggedFast(beats) <==> media * 1_000_000 >= 1_020_001 * wall)
              && (LoggedSlow(beats) <==> media * 1_000_000 < 980_000 * wall)
  {
    if Media(beats) > 0 && Wall(beats) > 0 {
      RatioBounds(Media(beats), Wall(beats));
    }
  }

  lemma {:induction false} QuotMonotone(a: nat, b: nat, k: nat)
    requires a <= b && k > 0
    ensures Quot(a, k) <= Quot(b, k)
  {
    QuotBelow(b, k, Quot(b, k) + 1);
    QuotBelow(a, k, Quot(b, k) + 1);
  }

  /** The observer never counts arrivals as fast that never came early. */
  lemma {:induction false} NeverObservedFast(beats: seq<Beat>)
    requires NoFastInterval(beats) && PositiveDurations(beats)
    ensures !ObservedFast(beats)
  {
    WallIsMediaPlusLateness(beats);
    QuotMonotone(Media(beats), Wall(beats), 1_000);
    RatioAtMostMillion(Quot(Media(beats), 1_000), Quot(Wall(beats), 1_000));
  }

  lemma {:induction false} MediaPositive(beats: seq<Beat>)
    requires beats != [] && PositiveDurations(beats)
    ensures Media(beats) > 0
  {}

  /** Below 98% exactly when 50 parts of media are less than 49 of wall clock. */
  lemma {:induction false} SlowRatio(media: nat, wall: nat)
    requires 0 < media <= wall
    ensures RatioPpm(media, wall) < MIN_RATIO_PPM <==> 50 * media < 49 * wall
  {
    QuotBelow(media * 1_000_000, wall, 980_000);
  }

  /** A run that never plays early is never counted fast, and is counted slow exactly when 49 times
      its lateness exceeds its media duration. */
  lemma {:induction false} PacedRunTempo(beats: seq<Beat>)
    requires beats != [] && NoFastInterval(beats) && PositiveDurations(beats)
    requires Media(beats) < 0x8000_0000_0000_0000
    ensures !LoggedFast(beats)
    ensures LoggedSlow(beats) <==> 49 * Lateness(beats) > Media(beats)
  {
    WallIsMediaPlusLateness(beats);
    MediaPositive(beats);
    RatioAtMostMillion(Media(beats), Sat64(Wall(beats)));
    SlowRatio(Media(beats), Sat64(Wall(beats)));
  }

  lemma {:induction false} SubRun(beats: seq<Beat>, i: nat, j: nat)
    requires i <= j <= |beats| && NoFastInterval(beats) && PositiveDurations(beats)
    ensures NoFastInterval(beats[i..j]) && PositiveDurations(beats[i..j])
  {}

  /** None of the rolling windows of such a run is fast. */
  lemma {:induction false} NoFastWindow(beats: seq<Beat>, w: nat)
    requires w > 0 && NoFastInterval(beats) && PositiveDurations(beats)
    ensures forall i :: 0 <= i < |Windows(beats, w)| ==> !LoggedFast(Windows(beats, w)[i])
  {
    var windows := Windows(beats, w);
    forall i | 0 <= i < |windows|
      ensures !LoggedFast(windows[i])
    {
      SubRun(beats, i, i + w);
      WallIsMediaPlusLateness(windows[i]);
      RatioAtMostMillion(Sat64(Media(windows[i])), Sat64(Wall(windows[i])));
    }
  }

  /** Appending a packet adds exactly the window that ends with it. */
  lemma {:induction false} WindowsPush(beats: seq<Beat>, b: Beat, w: nat)
    requires w > 0
    ensures var longer := beats + [b];
            Windows(longer, w) == Windows(beats, w) + if |longer| >= w then [longer[|longer| - w..]] else []
  {
    var longer := beats + [b];
    var windows := Windows(longer, w);
    var expected := Windows(beats, w) + if |longer| >= w then [longer[|longer| - w..]] else [];
    assert |windows| == |expected|;
    forall i | 0 <= i < |windows|
      ensures windows[i] == expected[i]
    {
      assert windows[i] == longer[i..i + w];
    }
  }

  // ------------------------------------------------------------------ minima with 0 as "unset"

  /** The running minimum both evidence collectors keep: a stored 0 means "no value yet". */
  function ZeroUnsetMin(xs: seq<nat>): nat {
    if |xs| == 0 then 0
    else
      var m := ZeroUnsetMin(xs[..|xs| - 1]);
      var x := xs[|xs| - 1];
      if m == 0 then x else Min(m, x)
  }

  function MaxOf(xs: seq<nat>): nat {
    if |xs| == 0 then 0 else Max(MaxOf(xs[..|xs| - 1]), xs[|xs| - 1])
  }

  lemma {:induction false} MaxOfBounds(xs: seq<nat>, i: nat)
    requires i < |xs|
    ensures xs[i] <= MaxOf(xs)
  {
    if i < |xs| - 1 {
      MaxOfBounds(xs[..|xs| - 1], i);
    }
  }

  /** The running maximum is one of the values, and no value is greater. */
  lemma {:induction false} MaxOfIsMaximum(xs: seq<nat>) returns (k: nat)
    requires xs != []
    ensures k < |xs| && xs[k] == MaxOf(xs) && forall i :: 0 <= i < |xs| ==> xs[i] <= xs[k]
  {
    k := MaxOfAttained(xs);
    forall i | 0 <= i < |xs|
      ensures xs[i] <= xs[k]
    {
      MaxOfBounds(xs, i);
    }
  }

  lemma {:induction false} MaxOfAttained(xs: seq<nat>) returns (k: nat)
    requires xs != []
    ensures k < |xs| && xs[k] == MaxOf(xs)
  {
    k := |xs| - 1;
    assert |xs| == 1 ==> xs[..0] == [] && MaxOf(xs[..0]) == 0;
    if MaxOf(xs) != xs[k] {
      k := MaxOfAttained(xs[..|xs| - 1]);
    }
  }

  predicate IsMinimum(m: nat, xs: seq<nat>) {
    m in xs && forall i :: 0 <= i < |xs| ==> m <= xs[i]
  }

  /** What the running minimum really is: the least value since the last genuine 0. */
  lemma {:induction false} ZeroUnsetMinMeaning(xs: seq<nat>, k: nat)
    requires k <= |xs| && (k > 0 ==> xs[k - 1] == 0)
    requires forall i :: k <= i < |xs| ==> xs[i] != 0
    ensures k == |xs| ==> ZeroUnsetMin(xs) == 0
    ensures k < |xs| ==> ZeroUnsetMin(xs) > 0 && IsMinimum(ZeroUnsetMin(xs), xs[k..])
    decreases |xs|
  {
    var n := |xs| - 1;
    if n >= 0 {
      var front, x := xs[..n], xs[n];
      var m := ZeroUnsetMin(front);
      assert ZeroUnsetMin(xs) == if m == 0 then x else Min(m, x);
      if k < n {
        ZeroUnsetMinMeaning(front, k);
        MinimumPush(m, front[k..], x);
        assert xs[k..] == front[k..] + [x];
      } else if k == n {
        ZeroUnsetMinMeaning(front, n);
        assert xs[k..] == [x];
      }
    }
  }

  lemma {:induction false} MinimumPush(m: nat, xs: seq<nat>, x: nat)
    requires IsMinimum(m, xs)
    ensures IsMinimum(Min(m, x), xs + [x])
  {
    assert (xs + [x])[|xs|] == x;
    assert forall i :: 0 <= i < |xs| ==> (xs + [x])[i] == xs[i];
  }

  /** It is the true minimum exactly when no 0 was recorded or the last value recorded is 0. */
  lemma {:induction false} ZeroUnsetMinIsMinimum(xs: seq<nat>)
    requires xs != []
    ensures IsMinimum(ZeroUnsetMin(xs), xs) <==> 0 !in xs || xs[|xs| - 1] == 0
  {
    var k := LastZero(xs);
    ZeroUnsetMinMeaning(xs, k);
    if k == 0 {
      assert xs[k..] == xs;
    }
  }

  lemma {:induction false} LastZero(xs: seq<nat>) returns (k: nat)
    ensures k <= |xs| && (k > 0 ==> xs[k - 1] == 0)
    ensures forall i :: k <= i < |xs| ==> xs[i] != 0
  {
    k := |xs|;
    while k > 0 && xs[k - 1] != 0
      invariant k <= |xs|
      invariant forall i :: k <= i < |xs| ==> xs[i] != 0
    {
      k := k - 1;
    }
  }
}
