/** Queue-depth statistics recomputed from raw samples, and the budget for them
    (crates/discord-voice-service-live-validation/src/controller.rs, validate_prepared_track_queue_metrics and
    validate_raw_prepared_track_queue_samples). */
module QueueDepth {
  import opened Words

  datatype Depth = Depth(packets: u64, bytes: u64, durationMs: u64, durationSamples: u64)

  datatype Stats = Stats(
    sampleCount: nat, emptyCount: nat,
    current: Depth, min: Depth, p5: Depth, p50: Depth, p95: Depth, max: Depth)

  datatype Phase = ActivePrePause | ActivePostResume | UnspecifiedPhase

  datatype Sample = Sample(index: u64, phase: Phase, depth: Depth)

  const NO_DEPTH := Depth(0, 0, 0, 0)
  const NO_STATS := Stats(0, 0, NO_DEPTH, NO_DEPTH, NO_DEPTH, NO_DEPTH, NO_DEPTH, NO_DEPTH)

  // ------------------------------------------------------------------ sorting by duration

  predicate Ascending(depths: seq<Depth>) {
    forall i, j :: 0 <= i < j < |depths| ==> depths[i].durationSamples <= depths[j].durationSamples
  }

  /** What `sort_unstable_by_key` promises: an ascending permutation. Which of several depths of equal duration comes
      first is not promised, so the sort is a parameter. */
  ghost predicate Sorts(sort: seq<Depth> -> seq<Depth>) {
    forall s :: multiset(sort(s)) == multiset(s) && Ascending(sort(s))
  }

  /** Insertion sort, as one that keeps the promise. */
  function InsertionSort(depths: seq<Depth>): seq<Depth> {
    if |depths| == 0 then [] else Insert(InsertionSort(depths[..|depths| - 1]), depths[|depths| - 1])
  }

  function Insert(sorted: seq<Depth>, d: Depth): seq<Depth> {
    if |sorted| == 0 || sorted[|sorted| - 1].durationSamples <= d.durationSamples then sorted + [d]
    else Insert(sorted[..|sorted| - 1], d) + [sorted[|sorted| - 1]]
  }

  lemma {:induction false} InsertPermutes(sorted: seq<Depth>, d: Depth)
    ensures multiset(Insert(sorted, d)) == multiset(sorted) + multiset{d}
  {
    if |sorted| > 0 && sorted[|sorted| - 1].durationSamples > d.durationSamples {
      var n := |sorted| - 1;
      InsertPermutes(sorted[..n], d);
      assert sorted == sorted[..n] + [sorted[n]];
    }
  }

  predicate AllWithin(depths: seq<Depth>, t: nat) {
    forall i :: 0 <= i < |depths| ==> depths[i].durationSamples <= t
  }

  lemma {:induction false} InsertStaysWithin(sorted: seq<Depth>, d: Depth, t: nat)
    requires AllWithin(sorted, t) && d.durationSamples <= t
    ensures AllWithin(Insert(sorted, d), t)
  {
    if |sorted| > 0 && sorted[|sorted| - 1].durationSamples > d.durationSamples {
      InsertStaysWithin(sorted[..|sorted| - 1], d, t);
    }
  }

  lemma {:induction false} AscendingPush(front: seq<Depth>, last: Depth)
    requires Ascending(front) && AllWithin(front, last.durationSamples)
    ensures Ascending(front + [last])
  {}

  lemma {:induction false} InsertAscends(sorted: seq<Depth>, d: Depth)
    requires Ascending(sorted)
    ensures Ascending(Insert(sorted, d))
  {
    if |sorted| > 0 {
      var front, last := sorted[..|sorted| - 1], sorted[|sorted| - 1];
      if last.durationSamples > d.durationSamples {
        InsertAscends(front, d);
        InsertStaysWithin(front, d, last.durationSamples);
        AscendingPush(Insert(front, d), last);
      } else {
        AscendingPush(sorted, d);
      }
    }
  }

  lemma {:induction false} InsertedLast(depths: seq<Depth>, n: nat, sorted: seq<Depth>)
    requires |depths| == n + 1 && multiset(sorted) == multiset(depths[..n])
    ensures multiset(Insert(sorted, depths[n])) == multiset(depths)
  {
    InsertPermutes(sorted, depths[n]);
    assert depths == depths[..n] + [depths[n]];
  }

  lemma {:induction false} SortPermutes(depths: seq<Depth>)
    ensures multiset(InsertionSort(depths)) == multiset(depths)
  {
    if |depths| > 0 {
      SortPermutes(depths[..|depths| - 1]);
      InsertedLast(depths, |depths| - 1, InsertionSort(depths[..|depths| - 1]));
    }
  }

  lemma {:induction false} SortAscends(depths: seq<Depth>)
    ensures Ascending(InsertionSort(depths))
  {
    if |depths| > 0 {
      SortAscends(depths[..|depths| - 1]);
      InsertAscends(InsertionSort(depths[..|depths| - 1]), depths[|depths| - 1]);
    }
  }

  lemma {:induction false} InsertionSortSorts()
    ensures Sorts(InsertionSort)
  {
    forall s: seq<Depth>
      ensures multiset(InsertionSort(s)) == multiset(s) && Ascending(InsertionSort(s))
    {
      SortPermutes(s);
      SortAscends(s);
    }
  }

  type Sort = f: seq<Depth> -> seq<Depth> | Sorts(f) witness (InsertionSortSorts(); InsertionSort)

  lemma {:induction false} SortKeepsLength(sort: Sort, depths: seq<Depth>)
    ensures |sort(depths)| == |depths|
  {
    assert |multiset(sort(depths))| == |sort(depths)| && |multiset(depths)| == |depths|;
  }

  function NoLongerThan(t: nat): Depth -> bool {
    (d: Depth) => d.durationSamples <= t
  }

  function AtMost(depths: seq<Depth>, t: nat): nat {
    Count(depths, NoLongerThan(t))
  }

  lemma {:induction false} CountConcat<T>(a: seq<T>, b: seq<T>, p: T -> bool)
    ensures Count(a + b, p) == Count(a, p) + Count(b, p)
  {
    if |b| == 0 {
      assert a + b == a;
    } else {
      var front := b[..|b| - 1];
      CountConcat(a, front, p);
      assert a + b == (a + front) + [b[|b| - 1]];
      CountPush(a + front, b[|b| - 1], p);
      CountPush(front, b[|b| - 1], p);
      assert front + [b[|b| - 1]] == b;
    }
  }

  lemma {:induction false} CountSplit<T>(s: seq<T>, n: nat, p: T -> bool)
    requires n <= |s|
    ensures Count(s, p) == Count(s[..n], p) + Count(s[n..], p)
  {
    assert s == s[..n] + s[n..];
    CountConcat(s[..n], s[n..], p);
  }

  lemma {:induction false} CountStep<T>(s: seq<T>, n: nat, p: T -> bool)
    requires n < |s|
    ensures Count(s[..n + 1], p) == Count(s[..n], p) + if p(s[n]) then 1 else 0
  {
    assert s[..n + 1][..n] == s[..n];
  }

  lemma {:induction false} CountWithout<T>(b: seq<T>, j: nat, p: T -> bool)
    requires j < |b|
    ensures Count(b, p) == Count(b[..j] + b[j + 1..], p) + if p(b[j]) then 1 else 0
  {
    CountSplit(b, j + 1, p);
    CountStep(b, j, p);
    CountConcat(b[..j], b[j + 1..], p);
  }

  lemma {:induction false} MultisetWithout<T>(b: seq<T>, j: nat)
    requires j < |b|
    ensures multiset(b[..j] + b[j + 1..]) == multiset(b) - multiset{b[j]}
  {
    assert b == b[..j] + [b[j]] + b[j + 1..];
  }

  lemma {:induction false} PlaceOf<T>(b: seq<T>, x: T) returns (j: nat)
    requires x in multiset(b)
    ensures j < |b| && b[j] == x
  {
    j :| 0 <= j < |b| && b[j] == x;
  }

  /** Two permutations, with one element of the first taken out of both. */
  lemma {:induction false} WithoutLast<T>(a: seq<T>, b: seq<T>) returns (j: nat)
    requires multiset(a) == multiset(b) && |a| > 0
    ensures j < |b| && b[j] == a[|a| - 1]
    ensures multiset(a[..|a| - 1]) == multiset(b[..j] + b[j + 1..])
  {
    var front, x := a[..|a| - 1], a[|a| - 1];
    assert a == front + [x] && x in multiset(a);
    j := PlaceOf(b, x);
    MultisetWithout(b, j);
    assert multiset(front) == multiset(a) - multiset{x};
  }

  /** A count depends only on the multiset. */
  lemma {:induction false} CountOfPermutation<T>(a: seq<T>, b: seq<T>, p: T -> bool)
    requires multiset(a) == multiset(b)
    ensures Count(a, p) == Count(b, p)
    decreases |a|
  {
    if |a| == 0 {
      assert |multiset(b)| == |b|;
    } else {
      var j := WithoutLast(a, b);
      CountOfPermutation(a[..|a| - 1], b[..j] + b[j + 1..], p);
      CountWithout(b, j, p);
    }
  }

  lemma {:induction false} AllAtMost(s: seq<Depth>, t: nat)
    requires AllWithin(s, t)
    ensures AtMost(s, t) == |s|
  {
    if |s| > 0 {
      AllAtMost(s[..|s| - 1], t);
    }
  }

  lemma {:induction false} MoreThan(s: seq<Depth>, i: nat, t: nat)
    requires Ascending(s) && i < |s| && s[i].durationSamples <= t
    ensures AtMost(s, t) > i
  {
    if i == |s| - 1 {
      AllAtMost(s, t);
    } else {
      MoreThan(s[..|s| - 1], i, t);
    }
  }

  lemma {:induction false} NotMoreThan(s: seq<Depth>, i: nat, t: nat)
    requires Ascending(s) && i < |s| && s[i].durationSamples > t
    ensures AtMost(s, t) <= i
  {
    if i < |s| - 1 {
      NotMoreThan(s[..|s| - 1], i, t);
    }
  }

  /** In an ascending sequence, more than `i` depths are at most `t` exactly when the one at `i` is. */
  lemma {:induction false} AtMostInAscending(s: seq<Depth>, i: nat, t: nat)
    requires Ascending(s) && i < |s|
    ensures AtMost(s, t) > i <==> s[i].durationSamples <= t
  {
    if s[i].durationSamples <= t {
      MoreThan(s, i, t);
    } else {
      NotMoreThan(s, i, t);
    }
  }

  /** Any two ascending orders of the same depths agree on the durations, place by place. */
  lemma {:induction false} SortedDurationsAgree(a: seq<Depth>, b: seq<Depth>, i: nat)
    requires multiset(a) == multiset(b) && Ascending(a) && Ascending(b) && i < |a| == |b|
    ensures a[i].durationSamples == b[i].durationSamples
  {
    AtMostAgree(a, b, a[i].durationSamples);
    AtMostAgree(a, b, b[i].durationSamples);
    AtMostInAscending(a, i, a[i].durationSamples);
    AtMostInAscending(b, i, a[i].durationSamples);
    AtMostInAscending(a, i, b[i].durationSamples);
    AtMostInAscending(b, i, b[i].durationSamples);
  }

  lemma {:induction false} AtMostAgree(a: seq<Depth>, b: seq<Depth>, t: nat)
    requires multiset(a) == multiset(b)
    ensures AtMost(a, t) == AtMost(b, t)
  {
    CountOfPermutation(a, b, NoLongerThan(t));
  }

  // ------------------------------------------------------------------ statistics

  lemma {:induction false} ScaledBelow(n: nat, percent: nat)
    requires percent <= 100
    ensures n * percent + 99 < (n + 1) * 100
  {
    if n > 0 {
      ScaledBelow(n - 1, percent);
      assert n * percent == (n - 1) * percent + percent;
    }
  }

  /** `((len - 1) * percentile).div_ceil(100)`. */
  function PercentileIndex(n: nat, percent: nat): (i: nat)
    requires n > 0 && percent <= 100
    ensures i < n
  {
    ScaledBelow(n - 1, percent);
    QuotBelow((n - 1) * percent + 99, 100, n);
    Quot((n - 1) * percent + 99, 100)
  }

  predicate IsEmpty(d: Depth) {
    d.durationSamples == 0
  }

  /** `queue_depth_stats_from_samples`. */
  function StatsOf(sort: Sort, depths: seq<Depth>): Stats
  {
    if depths == [] then NO_STATS else
    SortKeepsLength(sort, depths);
    var sorted, n := sort(depths), |depths|;
    Stats(
      n, Count(depths, IsEmpty), depths[n - 1], sorted[0],
      sorted[PercentileIndex(n, 5)], sorted[PercentileIndex(n, 50)], sorted[PercentileIndex(n, 95)], sorted[n - 1])
  }

  /** Of a single depth every statistic is that depth. */
  lemma {:induction false} OneDepth(sort: Sort, depths: seq<Depth>, d: Depth)
    requires depths == [d]
    ensures StatsOf(sort, depths) == Stats(1, if IsEmpty(d) then 1 else 0, d, d, d, d, d, d)
  {
    SortKeepsLength(sort, depths);
    assert sort(depths)[0] in multiset(sort(depths));
  }

  predicate SameDurations(a: Stats, b: Stats) {
    && a.sampleCount == b.sampleCount && a.emptyCount == b.emptyCount && a.current == b.current
    && a.min.durationSamples == b.min.durationSamples && a.max.durationSamples == b.max.durationSamples
    && a.p5.durationSamples == b.p5.durationSamples && a.p50.durationSamples == b.p50.durationSamples
    && a.p95.durationSamples == b.p95.durationSamples
  }

  /** However the sort breaks ties, the statistics have the same counts and the same durations; only which of several
      depths of that duration is reported depends on it. */
  lemma {:induction false} StatisticsAreDetermined(a: Sort, b: Sort, depths: seq<Depth>)
    ensures SameDurations(StatsOf(a, depths), StatsOf(b, depths))
  {
    if depths != [] {
      SortKeepsLength(a, depths);
      SortKeepsLength(b, depths);
      forall i | 0 <= i < |depths|
        ensures a(depths)[i].durationSamples == b(depths)[i].durationSamples
      {
        SortedDurationsAgree(a(depths), b(depths), i);
      }
    }
  }

  function ShorterThan(t: nat): Depth -> bool {
    (d: Depth) => d.durationSamples < t
  }

  lemma {:induction false} ShorterIsAtMost(depths: seq<Depth>, t: nat)
    ensures Count(depths, ShorterThan(t)) == if t == 0 then 0 else AtMost(depths, t - 1)
  {
    if |depths| > 0 {
      ShorterIsAtMost(depths[..|depths| - 1], t);
    }
  }

  /** `d` is the nearest-rank percentile, the rank rounded up: with the samples numbered from 0 by duration, at least
      as many samples as that rank and one more are no longer, and at most as many as that rank are shorter. */
  predicate IsPercentile(depths: seq<Depth>, percent: nat, d: Depth) {
    && d in depths
    && 100 * (AtMost(depths, d.durationSamples) - 1) >= (|depths| - 1) * percent
    && 100 * (Count(depths, ShorterThan(d.durationSamples)) - 1) < (|depths| - 1) * percent
  }

  lemma {:induction false} RankedIsPercentile(depths: seq<Depth>, sorted: seq<Depth>, percent: nat)
    requires depths != [] && multiset(sorted) == multiset(depths) && Ascending(sorted) && |sorted| == |depths| && 0 < percent <= 100
    ensures IsPercentile(depths, percent, sorted[PercentileIndex(|depths|, percent)])
  {
    var i := PercentileIndex(|depths|, percent);
    RankMeaning(|depths|, percent);
    RankCounts(depths, sorted, i);
    assert sorted[i] in multiset(sorted);
  }

  lemma {:induction false} RankMeaning(n: nat, percent: nat)
    requires n > 0 && 0 < percent <= 100
    ensures var i := PercentileIndex(n, percent); 100 * i >= (n - 1) * percent && 100 * (i - 1) < (n - 1) * percent
  {
    var scaled: nat, i := (n - 1) * percent, PercentileIndex(n, percent);
    QuotBelow(scaled + 99, 100, i);
    QuotBelow(scaled + 99, 100, i + 1);
  }

  /** More than `i` samples are no longer than the one in place `i` of the sorted ones, and at most `i` are shorter. */
  lemma {:induction false} RankCounts(depths: seq<Depth>, sorted: seq<Depth>, i: nat)
    requires multiset(sorted) == multiset(depths) && Ascending(sorted) && i < |sorted|
    ensures AtMost(depths, sorted[i].durationSamples) > i && Count(depths, ShorterThan(sorted[i].durationSamples)) <= i
  {
    var t := sorted[i].durationSamples;
    AtMostAgree(depths, sorted, t);
    AtMostInAscending(sorted, i, t);
    ShorterIsAtMost(depths, t);
    if t > 0 {
      AtMostAgree(depths, sorted, t - 1);
      AtMostInAscending(sorted, i, t - 1);
    }
  }

  /** What the statistics say: how many samples there are and how many are empty, the last one, and the 5th, 50th and
      95th percentile. */
  lemma {:induction false} StatisticsMeaning(sort: Sort, depths: seq<Depth>)
    requires depths != []
    ensures var s := StatsOf(sort, depths);
            && s.sampleCount == |depths| && s.emptyCount == AtMost(depths, 0) && s.current == depths[|depths| - 1]
            && IsPercentile(depths, 5, s.p5) && IsPercentile(depths, 50, s.p50) && IsPercentile(depths, 95, s.p95)
  {
    SortKeepsLength(sort, depths);
    EmptyIsAtMostZero(depths);
    RankedIsPercentile(depths, sort(depths), 5);
    RankedIsPercentile(depths, sort(depths), 50);
    RankedIsPercentile(depths, sort(depths), 95);
  }

  lemma {:induction false} EmptyIsAtMostZero(depths: seq<Depth>)
    ensures Count(depths, IsEmpty) == AtMost(depths, 0)
  {
    if |depths| > 0 {
      EmptyIsAtMostZero(depths[..|depths| - 1]);
    }
  }

  /** The least and the greatest duration really are that. */
  lemma {:induction false} StatisticsBound(sort: Sort, depths: seq<Depth>, d: Depth)
    requires d in depths
    ensures var s := StatsOf(sort, depths); s.min.durationSamples <= d.durationSamples <= s.max.durationSamples
    ensures var s := StatsOf(sort, depths); s.min in depths && s.max in depths
  {
    SortKeepsLength(sort, depths);
    assert sort(depths)[0] in multiset(sort(depths)) && sort(depths)[|depths| - 1] in multiset(sort(depths));
    assert d in multiset(depths) && multiset(depths) == multiset(sort(depths));
    var i :| 0 <= i < |depths| && sort(depths)[i] == d;
  }

  // ------------------------------------------------------------------ raw samples against the report

  datatype Report = Report(
    targetMs: u64, lowMs: u64, highMs: u64,
    prePause: Option<Stats>, postResume: Option<Stats>,
    sampleCount: u64, emptyCount: u64)

  function DepthsIn(samples: seq<Sample>, phase: Phase): seq<Depth> {
    if |samples| == 0 then []
    else
      DepthsIn(samples[..|samples| - 1], phase)
      + if samples[|samples| - 1].phase == phase then [samples[|samples| - 1].depth] else []
  }

  predicate SampleOk(s: Sample, index: nat) {
    s.index == index && s.phase != UnspecifiedPhase
  }

  /** The report says what the samples give. */
  ghost predicate SamplesAgree(sort: Sort, samples: seq<Sample>, report: Report, requirePost: bool)
  {
    var pre, post := StatsOf(sort, DepthsIn(samples, ActivePrePause)), StatsOf(sort, DepthsIn(samples, ActivePostResume));
    && (forall i :: 0 <= i < |samples| ==> SampleOk(samples[i], i))
    && report.prePause == Some(pre)
    && (report.postResume == Some(post) || (report.postResume.None? && !requirePost && post.sampleCount == 0))
    && report.sampleCount == Sat64(pre.sampleCount + post.sampleCount)
    && report.emptyCount == Sat64(pre.emptyCount + post.emptyCount)
  }

  lemma {:induction false} DepthsStep(samples: seq<Sample>, n: nat, phase: Phase)
    requires n < |samples|
    ensures DepthsIn(samples[..n + 1], phase)
         == DepthsIn(samples[..n], phase) + if samples[n].phase == phase then [samples[n].depth] else []
  {
    assert samples[..n + 1][..n] == samples[..n];
  }

  /** The loop over the samples. */
  method SplitSamples(samples: seq<Sample>) returns (ok: bool, pre: seq<Depth>, post: seq<Depth>)
    ensures ok <==> forall i :: 0 <= i < |samples| ==> SampleOk(samples[i], i)
    ensures ok ==> pre == DepthsIn(samples, ActivePrePause) && post == DepthsIn(samples, ActivePostResume)
  {
    pre, post := [], [];
    for i := 0 to |samples|
      invariant forall k :: 0 <= k < i ==> SampleOk(samples[k], k)
      invariant pre == DepthsIn(samples[..i], ActivePrePause) && post == DepthsIn(samples[..i], ActivePostResume)
    {
      DepthsStep(samples, i, ActivePrePause);
      DepthsStep(samples, i, ActivePostResume);
      var sample := samples[i];
      if sample.index != i || sample.phase == UnspecifiedPhase {
        return false, pre, post;
      }
      if sample.phase == ActivePrePause {
        pre := pre + [sample.depth];
      } else {
        post := post + [sample.depth];
      }
    }
    assert samples[..|samples|] == samples;
    ok := true;
  }

  method ValidateRawPreparedTrackQueueSamples(sort: Sort, samples: seq<Sample>, report: Report, requirePost: bool)
    returns (ok: bool)
    ensures ok <==> SamplesAgree(sort, samples, report, requirePost)
  {
    var specified, preDepths, postDepths := SplitSamples(samples);
    if !specified {
      return false;
    }
    var pre, post := StatsOf(sort, preDepths), StatsOf(sort, postDepths);
    if report.prePause != Some(pre) {
      return false;
    }
    if report.postResume.Some? {
      if report.postResume.value != post {
        return false;
      }
    } else if requirePost || post.sampleCount != 0 {
      return false;
    }
    ok := report.sampleCount == Sat64(pre.sampleCount + post.sampleCount) && report.emptyCount == Sat64(pre.emptyCount + post.emptyCount);
  }

  // ------------------------------------------------------------------ the budget of the depths

  /** `validate_prepared_track_queue_depth`. */
  predicate DepthOk(s: Stats) {
    && s.sampleCount != 0 && s.emptyCount == 0
    && s.min.durationMs >= 200 && s.p5.durationMs >= 300
    && 340 <= s.p50.durationMs <= 460
    && s.p95.durationMs <= 500 && s.max.durationMs <= 500
  }

  /** `validate_prepared_track_queue_metrics`. */
  predicate QueueOk(r: Report, requirePost: bool) {
    && r.targetMs == 400 && r.lowMs >= 300 && r.highMs <= 500
    && r.prePause.Some? && DepthOk(r.prePause.value)
    && (r.postResume.None? ==> !requirePost)
    && (r.postResume.Some? && (requirePost || r.postResume.value.sampleCount != 0) ==> DepthOk(r.postResume.value))
    && var post := if r.postResume.Some? then r.postResume.value else NO_STATS;
       && r.sampleCount == Sat64(r.prePause.value.sampleCount + post.sampleCount)
       && r.emptyCount == Sat64(r.prePause.value.emptyCount + post.emptyCount)
  }

  method ValidatePreparedTrackQueueDepth(depth: Stats) returns (ok: bool)
    ensures ok <==> DepthOk(depth)
  {
    if depth.sampleCount == 0 || depth.emptyCount != 0 { return false; }
    if depth.min.durationMs < 200 { return false; }
    if depth.p5.durationMs < 300 { return false; }
    if depth.p50.durationMs < 340 || depth.p50.durationMs > 460 { return false; }
    if depth.p95.durationMs > 500 { return false; }
    ok := !(depth.max.durationMs > 500);
  }

  method ValidatePreparedTrackQueueMetrics(r: Report, requirePost: bool) returns (ok: bool)
    ensures ok <==> QueueOk(r, requirePost)
  {
    if r.targetMs != 400 || r.lowMs < 300 || r.highMs > 500 { return false; }
    if r.prePause.None? { return false; }
    var pre := r.prePause.value;
    ok := ValidatePreparedTrackQueueDepth(pre);
    if !ok { return; }
    var samples, empty := pre.sampleCount, pre.emptyCount;
    if r.postResume.Some? {
      var post := r.postResume.value;
      if requirePost || post.sampleCount != 0 {
        ok := ValidatePreparedTrackQueueDepth(post);
        if !ok { return; }
      }
      samples, empty := Sat64(samples + post.sampleCount), Sat64(empty + post.emptyCount);
    } else {
      if requirePost { return false; }
      samples, empty := Sat64(samples), Sat64(empty);
    }
    ok := r.sampleCount == samples && r.emptyCount == empty;
  }

  /** What an accepted report says about the samples themselves: the queue was sampled before the pause, never empty
      there or after the resume, and with its report, sorted in whatever way. */
  lemma {:induction false} NeverEmpty(sort: Sort, samples: seq<Sample>, report: Report, requirePost: bool)
    requires SamplesAgree(sort, samples, report, requirePost) && QueueOk(report, requirePost)
    ensures DepthsIn(samples, ActivePrePause) != []
    ensures forall i :: 0 <= i < |samples| ==> samples[i].depth.durationSamples > 0
  {
    NoSampleEmpty(samples);
  }

  lemma {:induction false} NoSampleEmpty(samples: seq<Sample>)
    requires forall i :: 0 <= i < |samples| ==> SampleOk(samples[i], i)
    requires Count(DepthsIn(samples, ActivePrePause), IsEmpty) == 0 && Count(DepthsIn(samples, ActivePostResume), IsEmpty) == 0
    ensures forall i :: 0 <= i < |samples| ==> samples[i].depth.durationSamples > 0
  {
    forall i | 0 <= i < |samples|
      ensures samples[i].depth.durationSamples > 0
    {
      assert SampleOk(samples[i], i);
      SampleNotEmpty(samples, i, samples[i].phase);
    }
  }

  lemma {:induction false} SampleNotEmpty(samples: seq<Sample>, i: nat, phase: Phase)
    requires i < |samples| && samples[i].phase == phase && Count(DepthsIn(samples, phase), IsEmpty) == 0
    ensures samples[i].depth.durationSamples > 0
  {
    NoneEmpty(DepthsIn(samples, phase));
    SampleIsListed(samples, i);
  }

  lemma {:induction false} NoneEmpty(depths: seq<Depth>)
    ensures Count(depths, IsEmpty) == 0 ==> forall d :: d in depths ==> d.durationSamples > 0
  {}

  lemma {:induction false} SampleIsListed(samples: seq<Sample>, i: nat)
    requires i < |samples|
    ensures samples[i].depth in DepthsIn(samples, samples[i].phase)
  {
    if i < |samples| - 1 {
      SampleIsListed(samples[..|samples| - 1], i);
    }
  }
}
