/** The observer's proof that a pause went silent
    (crates/discord-voice-service-live-validation/src/controller.rs, prove_observer_pause_silence and the
    validation of its result). Times are nanoseconds. */
module PauseProof {
  import opened Words
  import BoundarySilence

  const SILENCE_NS := 600_000_000
  const TRANSITION_TIMEOUT_NS := 10_000_000_000

  /** What the observer can receive from the service. `Audio` says whether the frame is the stop-silence
      frame. */
  datatype Activity = Audio(stopSilence: bool) | RtpPacket | Speaking(microphone: bool)

  /** How one wait ends: an activity (whose bookkeeping may fail), a disconnect, another failure, or the
      timeout. */
  datatype Outcome = Received(activity: Activity, recorded: bool) | Disconnected | Failed | TimedOut

  /** One turn of the loop: `before` passes until the deadline is examined, `during` passes in the wait; a
      timeout ends at or after the deadline it was given. */
  datatype Poll = Poll(before: nat, outcome: Outcome, during: nat)

  datatype Seen = Seen(activity: Activity, at: nat)

  datatype PauseError = NoDisappearance | AudioAfterSilence | RtpAfterSilence | SpeakingAfterStop | ServiceLeft | ReceiveFailed

  datatype Evidence = Evidence(gatewaySpeakingStopped: bool, rtpSilenceObserved: bool)

  // ------------------------------------------------------------------ what the counters mean

  /** Stop-silence frames at the end of `seen` with no other audio, RTP or microphone event between. */
  function Tail(seen: seq<Seen>): nat {
    if |seen| == 0 then 0 else
    match seen[|seen| - 1].activity
    case Audio(stop) => if stop then Tail(seen[..|seen| - 1]) + 1 else 0
    case RtpPacket => 0
    case Speaking(microphone) => if microphone then 0 else Tail(seen[..|seen| - 1])
  }

  predicate Disturbs(a: Activity) {
    a == Audio(false) || a == RtpPacket || a == Speaking(true)
  }

  function StopFrames(seen: seq<Seen>): nat {
    if |seen| == 0 then 0
    else StopFrames(seen[..|seen| - 1]) + if seen[|seen| - 1].activity == Audio(true) then 1 else 0
  }

  /** From `from` on, `count` stop-silence frames and nothing that disturbs them. */
  predicate CleanRun(seen: seq<Seen>, from: nat, count: nat) {
    && from <= |seen|
    && StopFrames(seen[from..]) == count
    && forall i :: from <= i < |seen| ==> !Disturbs(seen[i].activity)
  }

  lemma {:induction false} StopFramesPush(seen: seq<Seen>, s: Seen)
    ensures StopFrames(seen + [s]) == StopFrames(seen) + if s.activity == Audio(true) then 1 else 0
  {}

  /** The counter counts exactly such a run. */
  lemma {:induction false} TailIsCleanRun(seen: seq<Seen>) returns (from: nat)
    ensures CleanRun(seen, from, Tail(seen))
  {
    from := |seen|;
    if |seen| > 0 {
      var front, last := seen[..|seen| - 1], seen[|seen| - 1];
      if !Disturbs(last.activity) {
        from := TailIsCleanRun(front);
        assert seen[from..] == front[from..] + [last];
        StopFramesPush(front[from..], last);
        assert forall i :: from <= i < |front| ==> seen[i] == front[i];
      } else {
        assert seen[from..] == [];
      }
    } else {
      assert seen[from..] == [];
    }
  }

  /** No clean run that ends here holds more frames. */
  lemma {:induction false} TailIsLongest(seen: seq<Seen>, from: nat, count: nat)
    requires CleanRun(seen, from, count)
    ensures count <= Tail(seen)
  {
    if from < |seen| {
      var front, last := seen[..|seen| - 1], seen[|seen| - 1];
      assert seen[from..] == front[from..] + [last];
      StopFramesPush(front[from..], last);
      assert forall i :: from <= i < |front| ==> seen[i] == front[i];
      TailIsLongest(front, from, StopFrames(front[from..]));
    }
  }

  /** Five stop-silence frames with nothing disturbing between them were seen, the last of them as event `m - 1` at the
      latest. */
  ghost predicate FiveBy(seen: seq<Seen>, m: nat, from: nat) {
    m <= |seen| && exists count :: count >= 5 && CleanRun(seen[..m], from, count)
  }

  lemma {:induction false} FiveAtSome(seen: seq<Seen>) returns (m: nat, from: nat)
    requires HadFive(seen)
    ensures FiveBy(seen, m, from)
  {
    var front := seen[..|seen| - 1];
    if HadFive(front) {
      m, from := FiveAtSome(front);
      assert front[..m] == seen[..m];
    } else {
      m := |seen|;
      assert seen[..m] == seen;
      from := TailIsCleanRun(seen);
    }
  }

  lemma {:induction false} FiveIsNoticed(seen: seq<Seen>, m: nat, from: nat)
    requires FiveBy(seen, m, from)
    ensures HadFive(seen)
  {
    var front := seen[..|seen| - 1];
    if m == |seen| {
      assert seen[..m] == seen;
      var count :| count >= 5 && CleanRun(seen[..m], from, count);
      TailIsLongest(seen, from, count);
    } else {
      assert front[..m] == seen[..m];
      FiveIsNoticed(front, m, from);
    }
  }

  /** The flag of the loop is set exactly when such five frames were seen. */
  lemma {:induction false} HadFiveIff(seen: seq<Seen>)
    ensures HadFive(seen) <==> exists m, from :: FiveBy(seen, m, from)
  {
    if HadFive(seen) {
      var m, from := FiveAtSome(seen);
    }
    if m, from :| FiveBy(seen, m, from) {
      FiveIsNoticed(seen, m, from);
    }
  }

  predicate Quiet(seen: seq<Seen>, from: nat) {
    forall i :: from <= i < |seen| ==> seen[i].activity.Speaking?
  }

  /** Five stop-silence frames were seen in such a run at some point. */
  predicate HadFive(seen: seq<Seen>) {
    |seen| > 0 && (HadFive(seen[..|seen| - 1]) || Tail(seen) >= BoundarySilence.STOP_SILENCE_FRAMES)
  }

  /** `speaking` disappeared at some point. */
  predicate StoppedSpeaking(seen: seq<Seen>) {
    exists i :: 0 <= i < |seen| && seen[i].activity == Speaking(false)
  }

  predicate HeardAudio(heard: bool, seen: seq<Seen>) {
    heard || exists i :: 0 <= i < |seen| && seen[i].activity.Audio?
  }

  /** The deadline set by the latest of: the frame that completed the first five, a disappearance. */
  function SilenceDeadline(seen: seq<Seen>): Option<nat> {
    if |seen| == 0 then None else
    var front, last := seen[..|seen| - 1], seen[|seen| - 1];
    if last.activity == Speaking(false) || (HadFive(seen) && !HadFive(front)) then Some(last.at + SILENCE_NS)
    else SilenceDeadline(front)
  }

  function LastAt(seen: seq<Seen>): nat {
    if |seen| == 0 then 0 else seen[|seen| - 1].at
  }

  /** How long to wait after having seen `seen`. */
  function DeadlineAfter(heard: bool, seen: seq<Seen>): nat {
    var active := if SilenceDeadline(seen).Some? then SilenceDeadline(seen).value else TRANSITION_TIMEOUT_NS;
    if !StoppedSpeaking(seen) && !HadFive(seen) && HeardAudio(heard, seen) then Min(active, LastAt(seen) + SILENCE_NS) else active
  }

  /** Why the activity must not come after `seen`. */
  function Rejection(seen: seq<Seen>, a: Activity): Option<PauseError> {
    match a
    case Audio(_) => if HadFive(seen) then Some(AudioAfterSilence) else None
    case RtpPacket => if HadFive(seen) then Some(RtpAfterSilence) else None
    case Speaking(microphone) => if microphone && StoppedSpeaking(seen) then Some(SpeakingAfterStop) else None
  }

  /** What is concluded once the deadline has passed at `clock`. */
  function Conclusion(heard: bool, seen: seq<Seen>, clock: nat): Result<Evidence, PauseError> {
    if HadFive(seen) then Ok(Evidence(StoppedSpeaking(seen), true))
    else if (HeardAudio(heard, seen) && SatSub(clock, LastAt(seen)) >= SILENCE_NS) || StoppedSpeaking(seen)
    then Ok(Evidence(StoppedSpeaking(seen), false))
    else Err(NoDisappearance)
  }

  /** Event `k` completes the first five frames, or is a disappearance. */
  predicate SetsDeadline(seen: seq<Seen>, k: nat)
    requires k < |seen|
  {
    seen[k].activity == Speaking(false) || (HadFive(seen[..k + 1]) && !HadFive(seen[..k]))
  }

  /** The silence deadline is 600 ms after the last event that sets it. */
  lemma {:induction false} SilenceDeadlineIs(seen: seq<Seen>, k: nat)
    requires k < |seen| && SetsDeadline(seen, k) && forall j :: k < j < |seen| ==> !SetsDeadline(seen, j)
    ensures SilenceDeadline(seen) == Some(seen[k].at + 600_000_000)
  {
    var n := |seen| - 1;
    assert seen[..n + 1] == seen;
    if k < n {
      assert !SetsDeadline(seen, n);
      var front := seen[..n];
      forall j | k <= j < n
        ensures SetsDeadline(front, j) == SetsDeadline(seen, j)
      {
        assert front[..j] == seen[..j] && front[..j + 1] == seen[..j + 1];
      }
      SilenceDeadlineIs(front, k);
    }
  }

  lemma {:induction false} NoSilenceDeadline(seen: seq<Seen>)
    requires forall j :: 0 <= j < |seen| ==> !SetsDeadline(seen, j)
    ensures SilenceDeadline(seen).None?
  {
    if |seen| > 0 {
      var n := |seen| - 1;
      assert seen[..n + 1] == seen && !SetsDeadline(seen, n);
      var front := seen[..n];
      forall j | 0 <= j < n
        ensures !SetsDeadline(front, j)
      {
        assert !SetsDeadline(seen, j);
        assert front[..j] == seen[..j] && front[..j + 1] == seen[..j + 1];
      }
      NoSilenceDeadline(front);
    }
  }

  /** How long the loop waits: until the silence deadline once there is one, else ten seconds from the start, but once
      audio was heard no longer than 600 ms after the last activity, unless five frames or a disappearance were seen. */
  lemma {:induction false} DeadlineMeaning(heard: bool, seen: seq<Seen>)
    ensures SilenceDeadline(seen).Some? ==> DeadlineAfter(heard, seen) <= SilenceDeadline(seen).value
    ensures SilenceDeadline(seen).None? ==> DeadlineAfter(heard, seen) <= 10_000_000_000
    ensures HadFive(seen) || StoppedSpeaking(seen) || !HeardAudio(heard, seen) ==>
              DeadlineAfter(heard, seen) == if SilenceDeadline(seen).Some? then SilenceDeadline(seen).value else 10_000_000_000
    ensures !HadFive(seen) && !StoppedSpeaking(seen) && HeardAudio(heard, seen) ==>
              DeadlineAfter(heard, seen) <= LastAt(seen) + 600_000_000
  {}

  // ------------------------------------------------------------------ the trace of the polls

  /** The time when poll `i` begins: everything the earlier ones took. */
  function BeginsAt(polls: seq<Poll>, i: nat): nat
    requires i <= |polls|
  {
    if i == 0 then 0 else BeginsAt(polls, i - 1) + polls[i - 1].before + polls[i - 1].during
  }

  /** Poll `i`; when the polls run out, the wait times out. */
  function PollAt(polls: seq<Poll>, i: nat): Poll {
    if i < |polls| then polls[i] else Poll(0, TimedOut, 0)
  }

  /** The time when the deadline of poll `i` is examined. */
  function ExaminedAt(polls: seq<Poll>, i: nat): nat
    requires i <= |polls|
  {
    BeginsAt(polls, i) + PollAt(polls, i).before
  }

  /** Poll `i` brought `s`, stamped with the time it ended. */
  predicate Brings(polls: seq<Poll>, i: nat, s: Seen)
    requires i < |polls|
  {
    && polls[i].outcome.Received? && polls[i].outcome.activity == s.activity
    && (s.activity.Audio? ==> polls[i].outcome.recorded)
    && s.at == BeginsAt(polls, i + 1)
  }

  /** The first `|seen|` polls brought `seen`. */
  predicate Arrived(polls: seq<Poll>, seen: seq<Seen>) {
    |seen| <= |polls| && forall i :: 0 <= i < |seen| ==> Brings(polls, i, seen[i])
  }

  /** No poll began after the deadline in force. */
  predicate InTime(heard: bool, polls: seq<Poll>, n: nat, seen: seq<Seen>)
    requires n <= |seen| && n <= |polls|
  {
    n == 0 || (InTime(heard, polls, n - 1, seen) && ExaminedAt(polls, n - 1) <= DeadlineAfter(heard, seen[..n - 1]))
  }

  /** Nothing was let through that is to be rejected. */
  predicate NoneRejected(seen: seq<Seen>) {
    |seen| == 0
    || (NoneRejected(seen[..|seen| - 1]) && Rejection(seen[..|seen| - 1], seen[|seen| - 1].activity).None?)
  }

  predicate Delivered(heard: bool, polls: seq<Poll>, seen: seq<Seen>) {
    Arrived(polls, seen) && InTime(heard, polls, |seen|, seen) && NoneRejected(seen)
  }

  /** Nothing was rejected exactly when no audio or RTP came after five frames had been seen, and no speaking after it
      had stopped. */
  lemma {:induction false} NoneRejectedIff(seen: seq<Seen>)
    ensures NoneRejected(seen) <==> forall j :: 0 <= j < |seen| ==> !SoundAfterFive(seen, j) && !SpeaksAgain(seen, j)
  {
    if |seen| > 0 {
      var n := |seen| - 1;
      var front := seen[..n];
      NoneRejectedIff(front);
      forall j | 0 <= j < n
        ensures SoundAfterFive(front, j) == SoundAfterFive(seen, j) && SpeaksAgain(front, j) == SpeaksAgain(seen, j)
      {
        assert front[..j] == seen[..j];
      }
      assert Rejection(front, seen[n].activity).Some? <==> SoundAfterFive(seen, n) || SpeaksAgain(seen, n);
    }
  }

  /** Event `j` is speaking, and it had stopped before. */
  predicate SpeaksAgain(seen: seq<Seen>, j: nat)
    requires j < |seen|
  {
    seen[j].activity == Speaking(true) && exists i :: 0 <= i < j && seen[..j][i].activity == Speaking(false)
  }

  /** Event `j` is audio or RTP, and five frames had been seen before. */
  predicate SoundAfterFive(seen: seq<Seen>, j: nat)
    requires j < |seen|
  {
    (seen[j].activity.Audio? || seen[j].activity.RtpPacket?) && HadFive(seen[..j])
  }

  /** What is concluded at the deadline: silence exactly after five frames; an end without that proof after 600 ms
      without activity, if audio had been heard, or after speaking stopped; and a failure otherwise. */
  lemma {:induction false} ConclusionMeaning(heard: bool, seen: seq<Seen>, clock: nat)
    ensures var r := Conclusion(heard, seen, clock);
            var stopped := exists i :: 0 <= i < |seen| && seen[i].activity == Speaking(false);
            var inactive := clock >= LastAt(seen) + 600_000_000 && HeardAudio(heard, seen);
            && (r == Err(NoDisappearance) <==> !HadFive(seen) && !stopped && !inactive)
            && (r.Ok? <==> HadFive(seen) || stopped || inactive)
            && (r.Ok? ==> r.value == Evidence(stopped, HadFive(seen)))
  {}

  /** How the proof ends with the poll after `seen`: at `clock`, with `r`. A timeout ends at or after its
      deadline. */
  predicate Ends(heard: bool, polls: seq<Poll>, seen: seq<Seen>, clock: nat, r: Result<Evidence, PauseError>)
    requires |seen| <= |polls|
  {
    var poll, now, deadline := PollAt(polls, |seen|), ExaminedAt(polls, |seen|), DeadlineAfter(heard, seen);
    if deadline < now then clock == now && r == Conclusion(heard, seen, clock)
    else if poll.outcome == TimedOut then clock == deadline + poll.during && r == Conclusion(heard, seen, clock)
    else
      && clock == now + poll.during
      && match poll.outcome
         case Received(activity, recorded) =>
           if activity.Audio? && !recorded then r == Err(ReceiveFailed)
           else Rejection(seen, activity).Some? && r == Err(Rejection(seen, activity).value)
         case Disconnected => r == Err(ServiceLeft)
         case Failed => r == Err(ReceiveFailed)
         case TimedOut => true
  }

  lemma {:induction false} BeginsInOrder(polls: seq<Poll>, i: nat, j: nat)
    requires i <= j <= |polls|
    ensures BeginsAt(polls, i) <= BeginsAt(polls, j)
  {
    if i < j {
      BeginsInOrder(polls, i, j - 1);
    }
  }

  // ------------------------------------------------------------------ what a proof proves

  predicate TimesInOrder(seen: seq<Seen>) {
    forall i, j :: 0 <= i < j < |seen| ==> seen[i].at <= seen[j].at
  }

  /** Five stop-silence frames ending with event `n - 1`, and neither audio nor RTP after them. */
  predicate FiveThenQuiet(seen: seq<Seen>, n: nat) {
    0 < n <= |seen| && Tail(seen[..n]) >= BoundarySilence.STOP_SILENCE_FRAMES && Quiet(seen, n)
  }

  /** After five, the deadline in force is at least 600 ms after the fifth. */
  lemma {:induction false} FiveMeans(seen: seq<Seen>) returns (n: nat)
    requires NoneRejected(seen) && TimesInOrder(seen) && HadFive(seen)
    ensures FiveThenQuiet(seen, n)
    ensures SilenceDeadline(seen).Some? && SilenceDeadline(seen).value >= seen[n - 1].at + SILENCE_NS
  {
    var k := |seen| - 1;
    var front := seen[..k];
    if HadFive(front) {
      n := FiveMeans(front);
      assert seen[..n] == front[..n] && seen[n - 1] == front[n - 1];
      assert forall i :: n <= i < k ==> seen[i] == front[i];
    } else {
      n := |seen|;
      assert seen[..n] == seen;
    }
  }

  lemma {:induction false} ArrivedInOrder(polls: seq<Poll>, seen: seq<Seen>)
    requires Arrived(polls, seen)
    ensures TimesInOrder(seen)
  {
    forall i, j | 0 <= i < j < |seen|
      ensures seen[i].at <= seen[j].at
    {
      assert Brings(polls, i, seen[i]) && Brings(polls, j, seen[j]);
      BeginsInOrder(polls, i + 1, j + 1);
    }
  }

  /** Poll `i` brought neither audio nor RTP. */
  predicate BroughtNoSound(polls: seq<Poll>, i: nat)
    requires i < |polls|
  {
    polls[i].outcome.Received? && !polls[i].outcome.activity.Audio? && polls[i].outcome.activity != RtpPacket
  }

  /** What a validated pause shows in the polls: five stop-silence frames with no other audio, undecoded RTP or
      microphone event between them, the last brought by poll `n - 1`, then neither audio nor RTP until `clock`, at
      least 600 ms after that poll ended. */
  predicate SilenceShown(polls: seq<Poll>, seen: seq<Seen>, from: nat, n: nat, clock: nat) {
    && Arrived(polls, seen) && 0 < n <= |seen|
    && CleanRun(seen[..n], from, Tail(seen[..n])) && Tail(seen[..n]) >= BoundarySilence.STOP_SILENCE_FRAMES
    && (forall i :: n <= i < |seen| ==> BroughtNoSound(polls, i))
    && clock >= BeginsAt(polls, n) + 600_000_000
  }

  lemma {:induction false} QuietPolls(polls: seq<Poll>, seen: seq<Seen>, n: nat)
    requires Arrived(polls, seen) && Quiet(seen, n)
    ensures forall i :: n <= i < |seen| ==> BroughtNoSound(polls, i)
  {
    forall i | n <= i < |seen|
      ensures BroughtNoSound(polls, i)
    {
      assert Brings(polls, i, seen[i]) && seen[i].activity.Speaking?;
    }
  }

  /** The end comes no earlier than the deadline in force when it comes without an activity. */
  predicate ConcludedAt(heard: bool, polls: seq<Poll>, seen: seq<Seen>)
    requires |seen| <= |polls|
  {
    DeadlineAfter(heard, seen) < ExaminedAt(polls, |seen|) || PollAt(polls, |seen|).outcome == TimedOut
  }

  /** The proof ends with the silence flag exactly when five such frames were seen and the next poll brings
      nothing before the deadline. */
  lemma {:induction false} SilenceFlagIff(heard: bool, polls: seq<Poll>, seen: seq<Seen>, clock: nat, r: Result<Evidence, PauseError>)
    requires |seen| <= |polls| && Ends(heard, polls, seen, clock, r)
    ensures r.Ok? && r.value.rtpSilenceObserved <==> HadFive(seen) && ConcludedAt(heard, polls, seen)
    ensures ConcludedAt(heard, polls, seen) ==> clock >= DeadlineAfter(heard, seen)
  {}

  lemma {:induction false} SilenceIsProved(heard: bool, polls: seq<Poll>, seen: seq<Seen>, clock: nat) returns (from: nat, n: nat)
    requires Delivered(heard, polls, seen) && HadFive(seen) && clock >= DeadlineAfter(heard, seen)
    ensures SilenceShown(polls, seen, from, n, clock)
  {
    ArrivedInOrder(polls, seen);
    n := FiveMeans(seen);
    from := TailIsCleanRun(seen[..n]);
    QuietPolls(polls, seen, n);
    assert Brings(polls, n - 1, seen[n - 1]);
  }

  /** A run that ended went no further: the next poll did not bring anything acceptable in time. */
  lemma {:induction false} EndedNoLater(heard: bool, polls: seq<Poll>, seen: seq<Seen>, longer: seq<Seen>)
    requires Delivered(heard, polls, longer) && |seen| < |longer| && seen == longer[..|seen|]
    ensures ExaminedAt(polls, |seen|) <= DeadlineAfter(heard, seen) && Brings(polls, |seen|, longer[|seen|])
    ensures Rejection(seen, longer[|seen|].activity).None?
    decreases |longer|
  {
    var k := |longer| - 1;
    if |seen| < k {
      InTimePrefix(heard, polls, k, longer, longer[..k]);
      EndedNoLater(heard, polls, seen, longer[..k]);
    }
  }

  lemma {:induction false} InTimePrefix(heard: bool, polls: seq<Poll>, n: nat, a: seq<Seen>, b: seq<Seen>)
    requires n <= |a| && n <= |b| && n <= |polls| && a[..n] == b[..n]
    ensures InTime(heard, polls, n, a) == InTime(heard, polls, n, b)
  {
    if n > 0 {
      assert a[..n - 1] == a[..n][..n - 1] == b[..n][..n - 1] == b[..n - 1];
      InTimePrefix(heard, polls, n - 1, a, b);
    }
  }

  lemma {:induction false} ArrivedAgree(polls: seq<Poll>, a: seq<Seen>, b: seq<Seen>, k: nat)
    requires Arrived(polls, a) && Arrived(polls, b) && k <= |a| && k <= |b|
    ensures a[..k] == b[..k]
  {
    forall i | 0 <= i < k
      ensures a[i] == b[i]
    {
      assert Brings(polls, i, a[i]) && Brings(polls, i, b[i]);
    }
  }

  lemma {:induction false} NoShorterEnd(heard: bool, polls: seq<Poll>, seen: seq<Seen>, clock: nat, r: Result<Evidence, PauseError>, longer: seq<Seen>)
    requires Delivered(heard, polls, seen) && Ends(heard, polls, seen, clock, r) && Delivered(heard, polls, longer)
    ensures |longer| <= |seen|
  {
    if |seen| < |longer| {
      ArrivedAgree(polls, seen, longer, |seen|);
      EndedNoLater(heard, polls, seen, longer);
    }
  }

  /** The polls decide everything: history, time of return and result are unique. */
  lemma {:induction false} EndIsUnique(heard: bool, polls: seq<Poll>, seen: seq<Seen>, clock: nat, r: Result<Evidence, PauseError>,
                    seen': seq<Seen>, clock': nat, r': Result<Evidence, PauseError>)
    requires Delivered(heard, polls, seen) && Ends(heard, polls, seen, clock, r)
    requires Delivered(heard, polls, seen') && Ends(heard, polls, seen', clock', r')
    ensures seen == seen' && clock == clock' && r == r'
  {
    NoShorterEnd(heard, polls, seen, clock, r, seen');
    NoShorterEnd(heard, polls, seen', clock', r', seen);
    ArrivedAgree(polls, seen, seen', |seen|);
    assert seen[..|seen|] == seen && seen'[..|seen|] == seen';
  }

  // ------------------------------------------------------------------ the loop

  /** The variables of the loop; `seen` is the history of what was received. */
  datatype Watch = Watch(
    clock: nat, seen: seq<Seen>, gatewayStopped: bool, silenceObserved: bool,
    silenceDeadline: Option<nat>, lastActivityAt: nat, stopFrames: nat, heard: bool)

  /** The variables say what the history says. */
  ghost predicate WatchInv(heard: bool, w: Watch) {
    && w.stopFrames == Tail(w.seen)
    && (w.gatewayStopped <==> StoppedSpeaking(w.seen))
    && (w.silenceObserved <==> HadFive(w.seen))
    && w.silenceDeadline == SilenceDeadline(w.seen)
    && w.lastActivityAt == LastAt(w.seen)
    && (w.heard <==> HeardAudio(heard, w.seen))
  }

  lemma {:induction false} HistoryPush(heard: bool, seen: seq<Seen>, s: Seen)
    ensures var longer := seen + [s];
            && Tail(longer) == (match s.activity
                                case Audio(stop) => if stop then Tail(seen) + 1 else 0
                                case RtpPacket => 0
                                case Speaking(microphone) => if microphone then 0 else Tail(seen))
            && (StoppedSpeaking(longer) <==> StoppedSpeaking(seen) || s.activity == Speaking(false))
            && (HeardAudio(heard, longer) <==> HeardAudio(heard, seen) || s.activity.Audio?)
            && (HadFive(longer) <==> HadFive(seen) || Tail(longer) >= BoundarySilence.STOP_SILENCE_FRAMES)
            && SilenceDeadline(longer) == (if s.activity == Speaking(false) || (HadFive(longer) && !HadFive(seen))
                                           then Some(s.at + SILENCE_NS) else SilenceDeadline(seen))
            && LastAt(longer) == s.at
  {
    var longer := seen + [s];
    assert longer[..|longer| - 1] == seen;
    assert forall i :: 0 <= i < |seen| ==> longer[i] == seen[i];
    assert longer[|seen|] == s;
  }

  lemma {:induction false} TailBelowFive(seen: seq<Seen>)
    requires !HadFive(seen)
    ensures Tail(seen) < BoundarySilence.STOP_SILENCE_FRAMES
  {}

  method OnActivity(w: Watch, a: Activity, ghost heard: bool) returns (r: Result<Watch, PauseError>)
    requires WatchInv(heard, w)
    ensures match Rejection(w.seen, a)
            case Some(e) => r == Err(e)
            case None => r.Ok? && WatchInv(heard, r.value) && r.value.seen == w.seen + [Seen(a, w.clock)] && r.value.clock == w.clock
  {
    var s := Seen(a, w.clock);
    HistoryPush(heard, w.seen, s);
    var next := w.(seen := w.seen + [s], lastActivityAt := w.clock);
    match a {
    case Audio(stop) =>
      next := next.(stopFrames := if stop then w.stopFrames + 1 else 0, heard := true);
      if w.silenceObserved {
        return Err(AudioAfterSilence);
      }
      if next.stopFrames >= BoundarySilence.STOP_SILENCE_FRAMES {
        next := next.(silenceObserved := true, silenceDeadline := Some(w.clock + SILENCE_NS));
      }
    case RtpPacket =>
      next := next.(stopFrames := 0);
      if w.silenceObserved {
        return Err(RtpAfterSilence);
      }
    case Speaking(microphone) =>
      if microphone {
        if w.gatewayStopped {
          return Err(SpeakingAfterStop);
        }
        next := next.(stopFrames := 0);
      } else {
        if !w.silenceObserved {
          TailBelowFive(w.seen);
        }
        next := next.(gatewayStopped := true, silenceDeadline := Some(w.clock + SILENCE_NS));
      }
    }
    r := Ok(next);
  }

  /** How long the loop may still wait. */
  method ActiveDeadline(w: Watch, ghost heard: bool) returns (deadline: nat)
    requires WatchInv(heard, w)
    ensures deadline == DeadlineAfter(heard, w.seen)
  {
    deadline := if w.silenceDeadline.Some? then w.silenceDeadline.value else TRANSITION_TIMEOUT_NS;
    if !w.gatewayStopped && !w.silenceObserved && w.heard {
      var inferred := w.lastActivityAt + SILENCE_NS;
      if inferred < deadline {
        deadline := inferred;
      }
    }
  }

  /** What is returned once the deadline has passed. */
  method Conclude(w: Watch, ghost heard: bool) returns (r: Result<Evidence, PauseError>)
    requires WatchInv(heard, w)
    ensures r == Conclusion(heard, w.seen, w.clock)
  {
    if w.silenceObserved {
      return Ok(Evidence(w.gatewayStopped, true));
    }
    if w.heard && SatSub(w.clock, w.lastActivityAt) >= SILENCE_NS {
      return Ok(Evidence(w.gatewayStopped, false));
    }
    if w.gatewayStopped {
      return Ok(Evidence(w.gatewayStopped, false));
    }
    r := Err(NoDisappearance);
  }

  datatype Turned = Watching(watch: Watch) | Returned(clock: nat, result: Result<Evidence, PauseError>)

  /** One turn of the loop, with poll `|w.seen|`: it ends the proof, or brings one more acceptable activity in
      time. */
  method Turn(w: Watch, poll: Poll, ghost heard: bool, ghost polls: seq<Poll>) returns (t: Turned)
    requires WatchInv(heard, w) && |w.seen| <= |polls| && w.clock == BeginsAt(polls, |w.seen|)
    requires poll == PollAt(polls, |w.seen|)
    ensures t.Watching? ==>
      && |w.seen| < |polls| && ExaminedAt(polls, |w.seen|) <= DeadlineAfter(heard, w.seen)
      && t.watch.clock == BeginsAt(polls, |w.seen| + 1) && WatchInv(heard, t.watch)
      && poll.outcome.Received? && Rejection(w.seen, poll.outcome.activity).None?
      && t.watch.seen == w.seen + [Seen(poll.outcome.activity, t.watch.clock)]
      && Brings(polls, |w.seen|, Seen(poll.outcome.activity, t.watch.clock))
    ensures t.Returned? ==> Ends(heard, polls, w.seen, t.clock, t.result)
  {
    var v := w.(clock := w.clock + poll.before);
    var deadline := ActiveDeadline(v, heard);
    if deadline < v.clock {
      var r := Conclude(v, heard);
      return Returned(v.clock, r);
    }
    if poll.outcome == TimedOut {
      v := v.(clock := deadline + poll.during);
      var r := Conclude(v, heard);
      return Returned(v.clock, r);
    }
    v := v.(clock := v.clock + poll.during);
    match poll.outcome
    case Received(activity, recorded) =>
      if activity.Audio? && !recorded {
        return Returned(v.clock, Err(ReceiveFailed));
      }
      var next := OnActivity(v, activity, heard);
      t := if next.Ok? then Watching(next.value) else Returned(v.clock, Err(next.error));
    case Disconnected => t := Returned(v.clock, Err(ServiceLeft));
    case Failed => t := Returned(v.clock, Err(ReceiveFailed));
  }

  lemma {:induction false} DeliveredPush(heard: bool, polls: seq<Poll>, seen: seq<Seen>, s: Seen)
    requires Delivered(heard, polls, seen) && |seen| < |polls| && Brings(polls, |seen|, s)
    requires ExaminedAt(polls, |seen|) <= DeadlineAfter(heard, seen) && Rejection(seen, s.activity).None?
    ensures Delivered(heard, polls, seen + [s])
  {
    var longer := seen + [s];
    assert longer[..|seen|] == seen == seen[..|seen|];
    InTimePrefix(heard, polls, |seen|, seen, longer);
    forall i | 0 <= i < |longer|
      ensures Brings(polls, i, longer[i])
    {
      if i < |seen| {
        assert Brings(polls, i, seen[i]);
      }
    }
  }

  /** `heard` says whether audio had been observed before. The history, the time of return and the result are
      exactly those the polls determine. */
  method ProveObserverPauseSilence(heard: bool, polls: seq<Poll>)
    returns (r: Result<Evidence, PauseError>, seen: seq<Seen>, clock: nat)
    ensures Delivered(heard, polls, seen) && Ends(heard, polls, seen, clock, r)
  {
    var w := Watch(0, [], false, false, None, 0, 0, heard);
    var i := 0;
    while true
      invariant |w.seen| == i <= |polls|
      invariant WatchInv(heard, w) && Delivered(heard, polls, w.seen) && w.clock == BeginsAt(polls, i)
      decreases |polls| - i
    {
      var turned := Turn(w, PollAt(polls, i), heard, polls);
      if turned.Returned? {
        return turned.result, w.seen, turned.clock;
      }
      DeliveredPush(heard, polls, w.seen, turned.watch.seen[i]);
      w, i := turned.watch, i + 1;
    }
  }

  /** The controller marks the pause as validated exactly on the explicit silence boundary: five stop-silence
      frames with no other audio, undecoded RTP or microphone event between them, then at least 600 ms with no
      audio and no RTP before the proof returned. */
  method ValidatePause(heard: bool, polls: seq<Poll>)
    returns (validated: bool, seen: seq<Seen>, clock: nat, ghost from: nat, ghost n: nat)
    ensures exists r :: Delivered(heard, polls, seen) && Ends(heard, polls, seen, clock, r)
    ensures validated <==> HadFive(seen) && ConcludedAt(heard, polls, seen)
    ensures validated ==> SilenceShown(polls, seen, from, n, clock)
  {
    var r;
    r, seen, clock := ProveObserverPauseSilence(heard, polls);
    from, n := 0, 0;
    validated := r.Ok? && r.value.rtpSilenceObserved;
    SilenceFlagIff(heard, polls, seen, clock, r);
    if validated {
      from, n := SilenceIsProved(heard, polls, seen, clock);
    }
  }
}
