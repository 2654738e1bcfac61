/** The live contract acceptor: which traces of session events a validation run tolerates
    (crates/discord-voice-service-live-validation/src/contract.rs, LiveContractState::observe_event). */
module LiveContract {
  import opened Words

  datatype Kind =
    | VoiceConnecting | VoiceReady | TrackResolving | Buffering | Playing | Paused | Stopped | TrackEnded
    | PlaybackInterrupted | RecoverableWarning | FatalError | VoiceReconnecting
    | Unspecified | Unknown(raw: int)

  datatype SessionEvent = SessionEvent(kind: Kind, videoId: Option<string>)

  datatype ContractError =
    | LeftSteadyPlaying | OutOfOrder | WrongVideo | Fatal | Interrupted | Reconnecting

  /** The characters `str::trim` removes. */
  predicate IsSpace(c: char) {
    || '\U{0009}' <= c <= '\U{000D}' || c == ' ' || c == '\U{0085}' || c == '\U{00A0}' || c == '\U{1680}'
    || '\U{2000}' <= c <= '\U{200A}' || c == '\U{2028}' || c == '\U{2029}' || c == '\U{202F}' || c == '\U{205F}'
    || c == '\U{3000}'
  }

  function Trim(s: string): string {
    if s == "" then ""
    else if IsSpace(s[0]) then Trim(s[1..])
    else if IsSpace(s[|s| - 1]) then Trim(s[..|s| - 1])
    else s
  }

  function VideoOf(e: SessionEvent): string {
    match e.videoId case Some(id) => Trim(id) case None => ""
  }

  predicate IsExpected(e: SessionEvent, expected: string) {
    VideoOf(e) == expected
  }

  predicate IsExpectedIfPresent(e: SessionEvent, expected: string) {
    VideoOf(e) == "" || VideoOf(e) == expected
  }

  // ------------------------------------------------------------------ what it means to be about a video

  /** The 25 characters with the White_Space property of Unicode. */
  const WHITE_SPACE :=
    "\U{0009}\U{000A}\U{000B}\U{000C}\U{000D} \U{0085}\U{00A0}\U{1680}\U{2000}\U{2001}\U{2002}\U{2003}\U{2004}\U{2005}\U{2006}\U{2007}\U{2008}\U{2009}\U{200A}\U{2028}\U{2029}\U{202F}\U{205F}\U{3000}"

  lemma {:induction false} SpacesAreWhiteSpace(c: char)
    ensures IsSpace(c) <==> c in WHITE_SPACE
  {}

  predicate Blank(s: string) {
    forall i :: 0 <= i < |s| ==> IsSpace(s[i])
  }

  /** No white space at either end. */
  predicate Tight(s: string) {
    s != "" ==> !IsSpace(s[0]) && !IsSpace(s[|s| - 1])
  }

  /** `id` is `video` with white space around it. */
  ghost predicate Names(id: string, video: string) {
    exists before, after :: Splits(id, before, video, after)
  }

  /** `s` is `video` between white space. */
  predicate Splits(s: string, before: string, video: string, after: string) {
    Blank(before) && Blank(after) && s == before + video + after
  }

  lemma {:induction false} SpaceInFront(s: string, before: string, video: string, after: string)
    requires s != "" && IsSpace(s[0]) && Splits(s[1..], before, video, after)
    ensures Splits(s, [s[0]] + before, video, after)
  {
    assert s == [s[0]] + s[1..];
    assert [s[0]] + (before + video + after) == ([s[0]] + before) + video + after;
  }

  lemma {:induction false} SpaceBehind(s: string, before: string, video: string, after: string)
    requires s != "" && IsSpace(s[|s| - 1]) && Splits(s[..|s| - 1], before, video, after)
    ensures Splits(s, before, video, after + [s[|s| - 1]])
  {
    var last := [s[|s| - 1]];
    assert s == s[..|s| - 1] + last;
    assert (before + video + after) + last == before + video + (after + last);
  }

  lemma {:induction false} TrimSplits(s: string) returns (before: string, after: string)
    ensures Splits(s, before, Trim(s), after) && Tight(Trim(s))
  {
    before, after := "", "";
    if s != "" && IsSpace(s[0]) {
      before, after := TrimSplits(s[1..]);
      SpaceInFront(s, before, Trim(s), after);
      before := [s[0]] + before;
    } else if s != "" && IsSpace(s[|s| - 1]) {
      before, after := TrimSplits(s[..|s| - 1]);
      SpaceBehind(s, before, Trim(s), after);
      after := after + [s[|s| - 1]];
    }
  }

  lemma {:induction false} TrimUnique(before: string, video: string, after: string)
    requires Blank(before) && Blank(after) && Tight(video)
    ensures Trim(before + video + after) == video
    decreases |before| + |after|
  {
    var s := before + video + after;
    if before != "" {
      assert s[1..] == before[1..] + video + after;
      TrimUnique(before[1..], video, after);
    } else if after != "" {
      if video == "" {
        assert s[1..] == before + video + after[1..];
        TrimUnique(before, video, after[1..]);
      } else {
        assert s[..|s| - 1] == before + video + after[..|after| - 1];
        TrimUnique(before, video, after[..|after| - 1]);
      }
    } else {
      assert s == video;
    }
  }

  /** Trimming gives `video` exactly when it has no outer white space and the rest is white space. */
  lemma {:induction false} TrimIff(s: string, video: string)
    ensures Trim(s) == video <==> Tight(video) && Names(s, video)
  {
    var before, after := TrimSplits(s);
    if Tight(video) && Names(s, video) {
      var a, b :| Splits(s, a, video, b);
      TrimUnique(a, video, b);
    }
  }

  /** The event carries the id of the video, white space around it aside; no id stands for the empty one. */
  ghost predicate Concerns(e: SessionEvent, video: string) {
    Tight(video) && if e.videoId.Some? then Names(e.videoId.value, video) else video == ""
  }

  lemma {:induction false} ExpectedIff(e: SessionEvent, expected: string)
    ensures IsExpected(e, expected) <==> Concerns(e, expected)
    ensures IsExpectedIfPresent(e, expected) <==> e.videoId.None? || Blank(e.videoId.value) || Concerns(e, expected)
  {
    if e.videoId.Some? {
      TrimIff(e.videoId.value, expected);
      TrimIff(e.videoId.value, "");
      BlankNamesNothing(e.videoId.value);
    }
  }

  lemma {:induction false} BlankNamesNothing(id: string)
    ensures Names(id, "") <==> Blank(id)
  {
    if Blank(id) {
      assert Splits(id, "", "", id);
    }
  }

  /** The flags `observe_event` reads and sets. */
  datatype Flags = Flags(
    connecting: bool, ready: bool, resolving: bool, buffering: bool,
    playing: bool, paused: bool, resumed: bool, ended: bool)

  const NONE := Flags(false, false, false, false, false, false, false, false)

  class LiveContractState {
    var sawVoiceConnecting: bool
    var sawVoiceReady: bool
    var sawTrackResolving: bool
    var sawBuffering: bool
    var sawPlaying: bool
    var sawPaused: bool
    var sawResumedPlaying: bool
    var sawTrackEnded: bool

    function Saw(): Flags
      reads this
    {
      Flags(sawVoiceConnecting, sawVoiceReady, sawTrackResolving, sawBuffering, sawPlaying, sawPaused, sawResumedPlaying, sawTrackEnded)
    }

    constructor ()
      ensures Saw() == NONE
    {
      sawVoiceConnecting, sawVoiceReady, sawTrackResolving, sawBuffering := false, false, false, false;
      sawPlaying, sawPaused, sawResumedPlaying, sawTrackEnded := false, false, false, false;
    }

    /** The events before playback. */
    method ObserveSetup(event: SessionEvent, expected: string) returns (r: Result<bool, ContractError>)
      requires event.kind in {VoiceConnecting, VoiceReady, TrackResolving, Buffering} && !Steady(Saw())
      modifies this
      ensures r.Ok? <==> Tolerated(old(Saw()), event, expected)
      ensures Saw() == if r.Ok? then After(old(Saw()), event.kind) else old(Saw())
      ensures r.Ok? ==> !r.value
    {
      if event.kind == VoiceConnecting || event.kind == VoiceReady {
        if !IsExpectedIfPresent(event, expected) { return Err(WrongVideo); }
        if event.kind == VoiceConnecting {
          sawVoiceConnecting := true;
        } else {
          sawVoiceReady := true;
        }
        return Ok(false);
      }
      if event.kind == Buffering && !sawTrackResolving { return Err(OutOfOrder); }
      if !IsExpected(event, expected) { return Err(WrongVideo); }
      if event.kind == TrackResolving {
        sawTrackResolving := true;
      } else {
        sawBuffering := true;
      }
      r := Ok(false);
    }

    method ObservePlaying(event: SessionEvent, expected: string) returns (r: Result<bool, ContractError>)
      requires event.kind == Playing
      modifies this
      ensures r.Ok? <==> Tolerated(old(Saw()), event, expected)
      ensures Saw() == if r.Ok? then After(old(Saw()), Playing) else old(Saw())
      ensures r.Ok? ==> !r.value
    {
      if !sawPlaying {
        if !sawTrackResolving || !sawBuffering { return Err(OutOfOrder); }
        if !IsExpected(event, expected) { return Err(WrongVideo); }
        sawPlaying := true;
      } else {
        if !IsExpected(event, expected) { return Err(WrongVideo); }
        if sawPaused { sawResumedPlaying := true; }
      }
      r := Ok(false);
    }

    method ObserveEnding(event: SessionEvent, expected: string) returns (r: Result<bool, ContractError>)
      requires event.kind in {Paused, TrackEnded}
      modifies this
      ensures r.Ok? <==> Tolerated(old(Saw()), event, expected)
      ensures Saw() == if r.Ok? then After(old(Saw()), event.kind) else old(Saw())
      ensures r.Ok? ==> (r.value <==> event.kind == TrackEnded)
    {
      if event.kind == Paused {
        if !sawPlaying || sawTrackEnded { return Err(OutOfOrder); }
        if !IsExpected(event, expected) { return Err(WrongVideo); }
        sawPaused := true;
        return Ok(false);
      }
      if !sawVoiceReady || !sawTrackResolving || !sawBuffering { return Err(OutOfOrder); }
      if !sawPlaying || !sawPaused || !sawResumedPlaying { return Err(OutOfOrder); }
      if !IsExpected(event, expected) { return Err(WrongVideo); }
      sawTrackEnded := true;
      r := Ok(true);
    }

    /** Accepts the event exactly when it is tolerated, and then sets what it shows; a rejected event
        changes nothing. */
    method ObserveEvent(event: SessionEvent, expected: string) returns (r: Result<bool, ContractError>)
      modifies this
      ensures r.Ok? <==> Tolerated(old(Saw()), event, expected)
      ensures r.Ok? ==> Saw() == After(old(Saw()), event.kind) && (r.value <==> event.kind == TrackEnded)
      ensures r.Err? ==> Saw() == old(Saw())
    {
      if event.kind in {VoiceConnecting, VoiceReady, TrackResolving, Buffering, Stopped} && sawPlaying && !sawTrackEnded {
        return Err(LeftSteadyPlaying);
      }
      match event.kind {
      case VoiceConnecting => r := ObserveSetup(event, expected);
      case VoiceReady => r := ObserveSetup(event, expected);
      case TrackResolving => r := ObserveSetup(event, expected);
      case Buffering => r := ObserveSetup(event, expected);
      case Playing => r := ObservePlaying(event, expected);
      case Paused => r := ObserveEnding(event, expected);
      case TrackEnded => r := ObserveEnding(event, expected);
      case FatalError => r := Err(Fatal);
      case PlaybackInterrupted => r := Err(Interrupted);
      case VoiceReconnecting =>
        r := Ok(false);
        if sawPlaying && !sawTrackEnded {
          r := Err(if IsExpected(event, expected) then Reconnecting else WrongVideo);
        }
      case _ => r := Ok(false);
      }
    }
  }

  predicate Steady(f: Flags) {
    f.playing && !f.ended
  }

  predicate Tolerated(f: Flags, e: SessionEvent, expected: string) {
    match e.kind
    case VoiceConnecting => !Steady(f) && IsExpectedIfPresent(e, expected)
    case VoiceReady => !Steady(f) && IsExpectedIfPresent(e, expected)
    case TrackResolving => !Steady(f) && IsExpected(e, expected)
    case Buffering => !Steady(f) && f.resolving && IsExpected(e, expected)
    case Stopped => !Steady(f)
    case VoiceReconnecting => !Steady(f)
    case Playing => (f.playing || (f.resolving && f.buffering)) && IsExpected(e, expected)
    case Paused => Steady(f) && IsExpected(e, expected)
    case TrackEnded => f.ready && f.resolving && f.buffering && f.playing && f.paused && f.resumed && IsExpected(e, expected)
    case FatalError => false
    case PlaybackInterrupted => false
    case _ => true
  }

  function After(f: Flags, k: Kind): Flags {
    Flags(f.connecting || k == VoiceConnecting, f.ready || k == VoiceReady, f.resolving || k == TrackResolving,
          f.buffering || k == Buffering, f.playing || k == Playing, f.paused || k == Paused,
          f.resumed || (k == Playing && f.playing && f.paused), f.ended || k == TrackEnded)
  }

  // ------------------------------------------------------------------ whole traces

  /** The flags after a trace every event of which was accepted. */
  function Feed(trace: seq<SessionEvent>, expected: string): Option<Flags> {
    if |trace| == 0 then Some(NONE) else
    var before, e := Feed(trace[..|trace| - 1], expected), trace[|trace| - 1];
    if before.Some? && Tolerated(before.value, e, expected) then Some(After(before.value, e.kind)) else None
  }

  /** `k` occurs among the first `n` events. */
  predicate Occurs(trace: seq<SessionEvent>, k: Kind, n: nat)
    requires n <= |trace|
  {
    n > 0 && (trace[n - 1].kind == k || Occurs(trace, k, n - 1))
  }

  /** A pause among the first `n` events was followed by another Playing among them. */
  predicate Resumed(trace: seq<SessionEvent>, n: nat)
    requires n <= |trace|
  {
    n > 0 && (Resumed(trace, n - 1) || (trace[n - 1].kind == Playing && Occurs(trace, Paused, n - 1)))
  }

  lemma {:induction false} OccursIff(trace: seq<SessionEvent>, k: Kind, n: nat)
    requires n <= |trace|
    ensures Occurs(trace, k, n) <==> exists i :: 0 <= i < n && trace[i].kind == k
  {
    if n > 0 {
      OccursIff(trace, k, n - 1);
    }
  }

  lemma {:induction false} ResumedIff(trace: seq<SessionEvent>, n: nat)
    requires n <= |trace|
    ensures Resumed(trace, n) <==> exists i, j :: 0 <= i < j < n && trace[i].kind == Paused && trace[j].kind == Playing
  {
    if n > 0 {
      ResumedIff(trace, n - 1);
      OccursIff(trace, Paused, n - 1);
    }
  }

  /** The flags as plain statements about the trace. */
  ghost function Meaning(trace: seq<SessionEvent>, n: nat): Flags
    requires n <= |trace|
  {
    Flags(Occurs(trace, VoiceConnecting, n), Occurs(trace, VoiceReady, n), Occurs(trace, TrackResolving, n),
          Occurs(trace, Buffering, n), Occurs(trace, Playing, n), Occurs(trace, Paused, n), Resumed(trace, n),
          Occurs(trace, TrackEnded, n))
  }

  lemma {:induction false} MeaningNext(trace: seq<SessionEvent>, n: nat)
    requires n < |trace| && (Occurs(trace, Paused, n) ==> Occurs(trace, Playing, n))
    ensures Meaning(trace, n + 1) == After(Meaning(trace, n), trace[n].kind)
  {}

  /** Every event is tolerated given what occurred before it. */
  ghost predicate AllTolerated(trace: seq<SessionEvent>, expected: string, n: nat)
    requires n <= |trace|
  {
    n == 0 || (AllTolerated(trace, expected, n - 1) && Tolerated(Meaning(trace, n - 1), trace[n - 1], expected))
  }

  lemma {:induction false} ToleratedAt(trace: seq<SessionEvent>, expected: string, n: nat, j: nat)
    requires j < n <= |trace| && AllTolerated(trace, expected, n)
    ensures Tolerated(Meaning(trace, j), trace[j], expected)
  {
    if j < n - 1 {
      ToleratedAt(trace, expected, n - 1, j);
    }
  }

  predicate PlayedFirst(trace: seq<SessionEvent>, n: nat)
    requires n <= |trace|
  {
    Occurs(trace, Paused, n) ==> Occurs(trace, Playing, n)
  }

  lemma {:induction false} PlayedFirstNext(trace: seq<SessionEvent>, expected: string, n: nat)
    requires n < |trace| && PlayedFirst(trace, n) && Tolerated(Meaning(trace, n), trace[n], expected)
    ensures PlayedFirst(trace, n + 1)
  {}

  lemma {:induction false} FeedNext(trace: seq<SessionEvent>, expected: string, n: nat)
    requires n < |trace|
    ensures Feed(trace[..n + 1], expected)
         == var before := Feed(trace[..n], expected);
            if before.Some? && Tolerated(before.value, trace[n], expected) then Some(After(before.value, trace[n].kind)) else None
  {
    assert trace[..n + 1][..n] == trace[..n];
  }

  /** The validator has got through the first `n` events exactly when they are all tolerated, and then holds their
      meaning. */
  ghost predicate FedUpTo(trace: seq<SessionEvent>, expected: string, n: nat)
    requires n <= |trace|
  {
    if AllTolerated(trace, expected, n)
    then PlayedFirst(trace, n) && Feed(trace[..n], expected) == Some(Meaning(trace, n))
    else Feed(trace[..n], expected).None?
  }

  lemma {:induction false} FedNext(trace: seq<SessionEvent>, expected: string, n: nat)
    requires n < |trace| && FedUpTo(trace, expected, n)
    ensures FedUpTo(trace, expected, n + 1)
  {
    FeedNext(trace, expected, n);
    if AllTolerated(trace, expected, n) && Tolerated(Meaning(trace, n), trace[n], expected) {
      MeaningNext(trace, n);
      PlayedFirstNext(trace, expected, n);
    }
  }

  lemma {:induction false} FeedUpTo(trace: seq<SessionEvent>, expected: string, n: nat)
    requires n <= |trace|
    ensures FedUpTo(trace, expected, n)
  {
    if n > 0 {
      FeedUpTo(trace, expected, n - 1);
      FedNext(trace, expected, n - 1);
    }
  }

  /** A trace is accepted whole exactly when every event is tolerated given which kinds occurred before
      it, and the flags then say just that. */
  lemma {:induction false} AcceptedIff(trace: seq<SessionEvent>, expected: string)
    ensures Feed(trace, expected).Some? <==> AllTolerated(trace, expected, |trace|)
    ensures Feed(trace, expected).Some? ==> Feed(trace, expected).value == Meaning(trace, |trace|)
  {
    FeedUpTo(trace, expected, |trace|);
    assert trace[..|trace|] == trace;
  }

  /** The rules for event `i`, one by one. */
  ghost predicate Obeys(trace: seq<SessionEvent>, expected: string, i: nat)
    requires i < |trace|
  {
    var e := trace[i];
    var playing := Occurs(trace, Playing, i) && !Occurs(trace, TrackEnded, i);
    && e.kind !in {FatalError, PlaybackInterrupted}
    && (e.kind in {VoiceConnecting, VoiceReady, TrackResolving, Buffering, Stopped, VoiceReconnecting} ==> !playing)
    && (e.kind in {TrackResolving, Buffering, Playing, Paused, TrackEnded} ==> Concerns(e, expected))
    && (e.kind in {VoiceConnecting, VoiceReady} && e.videoId.Some? && !Blank(e.videoId.value) ==> Concerns(e, expected))
    && (e.kind in {Buffering, TrackEnded} ==> Occurs(trace, TrackResolving, i))
    && (e.kind == Playing ==>
          Occurs(trace, Playing, i) || (Occurs(trace, TrackResolving, i) && Occurs(trace, Buffering, i)))
    && (e.kind == Paused ==> playing)
    && (e.kind == TrackEnded ==> Occurs(trace, VoiceReady, i) && Occurs(trace, Buffering, i) && Resumed(trace, i))
  }

  /** With a Playing before the first pause, a resumed pause shows both. */
  lemma {:induction false} ResumedNeeds(trace: seq<SessionEvent>, n: nat)
    requires n <= |trace| && Resumed(trace, n)
    ensures Occurs(trace, Paused, n) && Occurs(trace, Playing, n)
  {
    if Resumed(trace, n - 1) {
      ResumedNeeds(trace, n - 1);
    }
  }

  lemma {:induction false} ToleratedIffObeys(trace: seq<SessionEvent>, expected: string, i: nat)
    requires i < |trace|
    ensures Tolerated(Meaning(trace, i), trace[i], expected) <==> Obeys(trace, expected, i)
  {
    ExpectedIff(trace[i], expected);
    if Resumed(trace, i) {
      ResumedNeeds(trace, i);
    }
  }

  lemma {:induction false} AllToleratedIff(trace: seq<SessionEvent>, expected: string, n: nat)
    requires n <= |trace|
    ensures AllTolerated(trace, expected, n) <==> forall i :: 0 <= i < n ==> Obeys(trace, expected, i)
  {
    if n > 0 {
      AllToleratedIff(trace, expected, n - 1);
      ToleratedIffObeys(trace, expected, n - 1);
    }
  }

  /** A trace is accepted whole exactly when every event obeys the rules. */
  lemma {:induction false} AcceptedIffObeyed(trace: seq<SessionEvent>, expected: string)
    ensures Feed(trace, expected).Some? <==> forall i :: 0 <= i < |trace| ==> Obeys(trace, expected, i)
  {
    AcceptedIff(trace, expected);
    AllToleratedIff(trace, expected, |trace|);
  }

  /** Event `i` is of kind `k` and about the expected video. */
  ghost predicate At(trace: seq<SessionEvent>, expected: string, k: Kind, i: nat) {
    i < |trace| && trace[i].kind == k && Concerns(trace[i], expected)
  }

  predicate OfTheTrack(k: Kind) {
    k in {TrackResolving, Buffering, Playing, Paused, TrackEnded}
  }

  /** In every accepted trace each event of the track's own life carries the expected video's id. */
  lemma {:induction false} AcceptedIds(trace: seq<SessionEvent>, expected: string, i: nat)
    requires Feed(trace, expected).Some? && i < |trace| && OfTheTrack(trace[i].kind)
    ensures Concerns(trace[i], expected)
  {
    AcceptedIff(trace, expected);
    ToleratedAt(trace, expected, |trace|, i);
    ExpectedIff(trace[i], expected);
  }

  predicate FirstAt(trace: seq<SessionEvent>, k: Kind, i: nat) {
    i < |trace| && trace[i].kind == k && !Occurs(trace, k, i)
  }

  lemma {:induction false} FirstExists(trace: seq<SessionEvent>, k: Kind, n: nat) returns (i: nat)
    requires n <= |trace| && Occurs(trace, k, n)
    ensures i < n && FirstAt(trace, k, i)
  {
    if Occurs(trace, k, n - 1) {
      i := FirstExists(trace, k, n - 1);
    } else {
      i := n - 1;
    }
  }

  predicate Disturbs(k: Kind) {
    k in {VoiceConnecting, VoiceReady, TrackResolving, Buffering, Stopped, VoiceReconnecting, PlaybackInterrupted, FatalError}
  }

  /** A full life of the expected video, in this order. */
  ghost predicate Life(trace: seq<SessionEvent>, expected: string, resolving: nat, buffering: nat, playing: nat, paused: nat, again: nat, ended: nat) {
    && resolving < buffering < playing < paused < again < ended
    && At(trace, expected, TrackResolving, resolving)
    && At(trace, expected, Buffering, buffering)
    && At(trace, expected, Playing, playing)
    && At(trace, expected, Paused, paused)
    && At(trace, expected, Playing, again)
    && At(trace, expected, TrackEnded, ended)
  }

  lemma {:induction false} OccursBefore(trace: seq<SessionEvent>, expected: string, k: Kind, n: nat) returns (i: nat)
    requires n <= |trace| && AllTolerated(trace, expected, |trace|) && Occurs(trace, k, n)
    requires OfTheTrack(k)
    ensures i < n && FirstAt(trace, k, i) && At(trace, expected, k, i)
  {
    i := FirstExists(trace, k, n);
    ToleratedAt(trace, expected, |trace|, i);
    ExpectedIff(trace[i], expected);
  }

  /** The first pause that was resumed before `n`, and the Playing that resumed it. */
  lemma {:induction false} PausedThenPlaying(trace: seq<SessionEvent>, expected: string, n: nat) returns (p: nat, q: nat)
    requires n <= |trace| && AllTolerated(trace, expected, |trace|) && Resumed(trace, n)
    ensures p < q < n && At(trace, expected, Paused, p) && At(trace, expected, Playing, q) && Occurs(trace, Playing, p)
  {
    ResumedIff(trace, n);
    var i, j :| 0 <= i < j < n && trace[i].kind == Paused && trace[j].kind == Playing;
    p, q := i, j;
    ToleratedAt(trace, expected, |trace|, p);
    ExpectedIff(trace[p], expected);
    ToleratedAt(trace, expected, |trace|, q);
    ExpectedIff(trace[q], expected);
  }

  lemma {:induction false} OccursLater(trace: seq<SessionEvent>, k: Kind, i: nat, n: nat)
    requires i < n <= |trace| && trace[i].kind == k
    ensures Occurs(trace, k, n)
  {
    if i < n - 1 {
      OccursLater(trace, k, i, n - 1);
    }
  }

  lemma {:induction false} OccursOn(trace: seq<SessionEvent>, k: Kind, m: nat, n: nat)
    requires m <= n <= |trace| && Occurs(trace, k, m)
    ensures Occurs(trace, k, n)
  {
    if m < n {
      OccursOn(trace, k, m, n - 1);
    }
  }

  /** Between the first Playing and the first TrackEnded nothing disturbs playback. */
  lemma {:induction false} Undisturbed(trace: seq<SessionEvent>, expected: string, playing: nat, ended: nat, m: nat)
    requires AllTolerated(trace, expected, |trace|)
    requires FirstAt(trace, Playing, playing) && FirstAt(trace, TrackEnded, ended) && playing < m < ended
    ensures !Disturbs(trace[m].kind)
  {
    OccursLater(trace, Playing, playing, m);
    if Occurs(trace, TrackEnded, m) {
      OccursOn(trace, TrackEnded, m, ended);
    }
    ToleratedAt(trace, expected, |trace|, m);
  }

  lemma {:induction false} EndedNeeds(trace: seq<SessionEvent>, expected: string, ended: nat)
    requires ended < |trace| && AllTolerated(trace, expected, |trace|) && trace[ended].kind == TrackEnded
    ensures Occurs(trace, VoiceReady, ended) && Resumed(trace, ended)
  {
    ToleratedAt(trace, expected, |trace|, ended);
  }

  lemma {:induction false} PlayingNeeds(trace: seq<SessionEvent>, expected: string, playing: nat)
    requires AllTolerated(trace, expected, |trace|) && FirstAt(trace, Playing, playing)
    ensures Occurs(trace, Buffering, playing)
  {
    ToleratedAt(trace, expected, |trace|, playing);
  }

  lemma {:induction false} BufferingNeeds(trace: seq<SessionEvent>, expected: string, buffering: nat)
    requires buffering < |trace| && AllTolerated(trace, expected, |trace|) && trace[buffering].kind == Buffering
    ensures Occurs(trace, TrackResolving, buffering)
  {
    ToleratedAt(trace, expected, |trace|, buffering);
  }

  lemma {:induction false} UndisturbedThroughout(trace: seq<SessionEvent>, expected: string, playing: nat, ended: nat)
    requires AllTolerated(trace, expected, |trace|)
    requires FirstAt(trace, Playing, playing) && FirstAt(trace, TrackEnded, ended)
    ensures forall m :: playing < m < ended ==> !Disturbs(trace[m].kind)
  {
    forall m | playing < m < ended
      ensures !Disturbs(trace[m].kind)
    {
      Undisturbed(trace, expected, playing, ended, m);
    }
  }

  /** VoiceReady came before the first Playing: after it, none is tolerated until the track ends. */
  lemma {:induction false} ReadyBeforePlaying(trace: seq<SessionEvent>, playing: nat, ended: nat)
    requires ended < |trace| && Occurs(trace, VoiceReady, ended)
    requires playing < ended && trace[playing].kind == Playing
    requires forall m :: playing < m < ended ==> !Disturbs(trace[m].kind)
    ensures Occurs(trace, VoiceReady, playing)
  {
    OccursIff(trace, VoiceReady, ended);
    var i :| 0 <= i < ended && trace[i].kind == VoiceReady;
    assert Disturbs(trace[i].kind);
    OccursLater(trace, VoiceReady, i, playing);
  }

  /** Every accepted trace that reaches TrackEnded holds a full life of the expected video up to its first
      TrackEnded, became voice-ready before the first Playing, and has no connecting, ready, resolving,
      buffering, stopped, reconnecting, interrupted or fatal event between its first Playing and its first
      TrackEnded. */
  lemma {:induction false} EndedTraces(trace: seq<SessionEvent>, expected: string)
    returns (resolving: nat, buffering: nat, playing: nat, paused: nat, again: nat, ended: nat)
    requires Feed(trace, expected).Some? && Feed(trace, expected).value.ended
    ensures Life(trace, expected, resolving, buffering, playing, paused, again, ended)
    ensures FirstAt(trace, Playing, playing) && FirstAt(trace, TrackEnded, ended)
    ensures Occurs(trace, VoiceReady, playing)
    ensures forall m :: playing < m < ended ==> !Disturbs(trace[m].kind)
  {
    AcceptedIff(trace, expected);
    ended := OccursBefore(trace, expected, TrackEnded, |trace|);
    EndedNeeds(trace, expected, ended);
    paused, again := PausedThenPlaying(trace, expected, ended);
    playing := OccursBefore(trace, expected, Playing, paused);
    PlayingNeeds(trace, expected, playing);
    buffering := OccursBefore(trace, expected, Buffering, playing);
    BufferingNeeds(trace, expected, buffering);
    resolving := OccursBefore(trace, expected, TrackResolving, buffering);
    UndisturbedThroughout(trace, expected, playing, ended);
    ReadyBeforePlaying(trace, playing, ended);
  }
}
