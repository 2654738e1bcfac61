/** Raw send events and the controller's order check
    (crates/discord-voice-service-live-validation/src/controller.rs, validate_raw_send_event_order). */
module RawSendLog {
  import opened Words

  datatype CommandKind = Track | ScheduledSilence | BoundarySilence | OtherBoundary | Unspecified

  datatype RawSendEvent = RawSendEvent(
    packetIndex: u64,
    kind: CommandKind,
    sendStartedUs: u64,
    sentUs: u64,
    samples: u32,
    rtpSequence: u32,
    rtpTimestamp: u32,
    nonce: Option<u32>,
    epoch: Option<u64>,
    positionMs: Option<u64>,
    positionSamples: Option<u64>,
    committedHeardMedia: bool)

  datatype OrderError =
    | NotSequential
    | KindUnspecified
    | CompletedBeforeStart
    | MovedBackward
    | SequenceGap
    | TimestampGap
    | NonceNotIncreasing
    | NotCommitted
    | NoSourceIdentity
    | ZeroDuration
    | NonTrackCommitted

  predicate WellFormedEvent(e: RawSendEvent, index: nat) {
    && e.packetIndex == index
    && e.kind != Unspecified
    && e.sendStartedUs <= e.sentUs
    && (e.kind == Track <==> e.committedHeardMedia)
    && (e.kind == Track ==> e.epoch.Some? && e.positionMs.Some? && e.positionSamples.Some? && e.samples > 0)
  }

  /** `b` may directly follow `a`: time does not go back, the sequence moves by one and the
      timestamp by `a`'s duration, both with wrap-around. */
  predicate Follows(a: RawSendEvent, b: RawSendEvent) {
    && a.sentUs <= b.sentUs
    && b.rtpSequence == Wrap16(a.rtpSequence + 1)
    && b.rtpTimestamp == Wrap32(a.rtpTimestamp + a.samples)
  }

  /** The first `n` events are in order. */
  predicate OrderedUpTo(events: seq<RawSendEvent>, n: nat)
    requires n <= |events|
  {
    && (forall i :: 0 <= i < n ==> WellFormedEvent(events[i], i))
    && (forall i :: 0 < i < n ==> Follows(events[i - 1], events[i]))
    && (forall i, j :: 0 <= i < j < n && events[i].nonce.Some? && events[j].nonce.Some? ==>
          events[i].nonce.value < events[j].nonce.value)
  }

  /** What an accepted log looks like. */
  predicate Ordered(events: seq<RawSendEvent>) {
    OrderedUpTo(events, |events|)
  }

  function SamplesBefore(events: seq<RawSendEvent>, n: nat): nat
    requires n <= |events|
  {
    if n == 0 then 0 else SamplesBefore(events, n - 1) + events[n - 1].samples
  }

  /** What order means over the whole log: event `k` has number `k`, the sequence number of the first event plus `k` and
      its timestamp plus all durations in between, wrapped; and no send completes before an earlier one. */
  lemma {:induction false} OrderedMeaning(events: seq<RawSendEvent>, k: nat)
    requires Ordered(events) && 0 < k < |events|
    ensures events[k].packetIndex == k && events[k].sendStartedUs <= events[k].sentUs
    ensures events[k].rtpSequence == (events[0].rtpSequence + k) % 0x1_0000
    ensures events[k].rtpTimestamp == (events[0].rtpTimestamp + SamplesBefore(events, k)) % 0x1_0000_0000
    ensures forall i :: 0 <= i <= k ==> events[i].sentUs <= events[k].sentUs
  {
    var a, b := events[k - 1], events[k];
    assert Follows(a, b) && WellFormedEvent(b, k);
    if k > 1 {
      OrderedMeaning(events, k - 1);
      NextWords(a, b, events[0].rtpSequence + (k - 1), events[0].rtpTimestamp + SamplesBefore(events, k - 1));
    } else {
      NextWords(a, b, a.rtpSequence, a.rtpTimestamp);
    }
  }

  /** The words after `a` follow from what those of `a` are the remainders of. */
  lemma {:induction false} NextWords(a: RawSendEvent, b: RawSendEvent, sequence: nat, timestamp: nat)
    requires Follows(a, b)
    requires a.rtpSequence == sequence || a.rtpSequence == sequence % 0x1_0000
    requires a.rtpTimestamp == timestamp || a.rtpTimestamp == timestamp % 0x1_0000_0000
    ensures b.rtpSequence == (sequence + 1) % 0x1_0000 && b.rtpTimestamp == (timestamp + a.samples) % 0x1_0000_0000
  {
    Wrap16IsMod(a.rtpSequence + 1);
    Wrap32IsMod(a.rtpTimestamp + a.samples);
  }

  /** The body of the loop: the first complaint about `event`, given what came before it. */
  method CheckEvent(event: RawSendEvent, index: nat, previous: Option<RawSendEvent>, previousNonce: Option<u32>)
    returns (complaint: Option<OrderError>)
    ensures complaint.None?
       <==> && WellFormedEvent(event, index)
            && (previous.Some? ==> Follows(previous.value, event))
            && (previousNonce.Some? && event.nonce.Some? ==> previousNonce.value < event.nonce.value)
  {
    if event.packetIndex != index {
      return Some(NotSequential);
    }
    if event.kind == Unspecified {
      return Some(KindUnspecified);
    }
    if event.sentUs < event.sendStartedUs {
      return Some(CompletedBeforeStart);
    }
    if previous.Some? {
      var before := previous.value;
      if event.sentUs < before.sentUs {
        return Some(MovedBackward);
      }
      if event.rtpSequence != Wrap16(before.rtpSequence + 1) {
        return Some(SequenceGap);
      }
      if event.rtpTimestamp != Wrap32(before.rtpTimestamp + before.samples) {
        return Some(TimestampGap);
      }
    }
    if event.nonce.Some? && previousNonce.Some? && event.nonce.value <= previousNonce.value {
      return Some(NonceNotIncreasing);
    }
    if event.kind == Track {
      if !event.committedHeardMedia {
        return Some(NotCommitted);
      }
      if event.epoch.None? || event.positionMs.None? || event.positionSamples.None? {
        return Some(NoSourceIdentity);
      }
      if event.samples == 0 {
        return Some(ZeroDuration);
      }
    } else if event.committedHeardMedia {
      return Some(NonTrackCommitted);
    }
    complaint := None;
  }

  /** `last` is the largest nonce among the first `n` events. */
  ghost predicate LastNonce(events: seq<RawSendEvent>, n: nat, last: Option<u32>)
    requires n <= |events|
  {
    && (last.Some? ==> exists k :: 0 <= k < n && events[k].nonce == last)
    && forall k :: 0 <= k < n && events[k].nonce.Some? ==> last.Some? && events[k].nonce.value <= last.value
  }

  predicate StepInOrder(events: seq<RawSendEvent>, n: nat, last: Option<u32>)
    requires n < |events|
  {
    && WellFormedEvent(events[n], n)
    && (n > 0 ==> Follows(events[n - 1], events[n]))
    && (last.Some? && events[n].nonce.Some? ==> last.value < events[n].nonce.value)
  }

  lemma {:induction false} StepExtends(events: seq<RawSendEvent>, n: nat, last: Option<u32>)
    requires n < |events| && OrderedUpTo(events, n) && LastNonce(events, n, last) && StepInOrder(events, n, last)
    ensures OrderedUpTo(events, n + 1)
    ensures LastNonce(events, n + 1, if events[n].nonce.Some? then events[n].nonce else last)
  {}

  lemma {:induction false} StepRefutes(events: seq<RawSendEvent>, n: nat, last: Option<u32>)
    requires n < |events| && LastNonce(events, n, last) && !StepInOrder(events, n, last)
    ensures !Ordered(events)
  {}

  method ValidateRawSendEventOrder(events: seq<RawSendEvent>) returns (r: Result<(), OrderError>)
    ensures r.Ok? <==> Ordered(events)
  {
    var previous: Option<RawSendEvent> := None;
    var previousNonce: Option<u32> := None;
    var index := 0;
    while index < |events|
      invariant 0 <= index <= |events|
      invariant OrderedUpTo(events, index)
      invariant previous == if index == 0 then None else Some(events[index - 1])
      invariant LastNonce(events, index, previousNonce)
    {
      var event := events[index];
      var complaint := CheckEvent(event, index, previous, previousNonce);
      assert complaint.None? <==> StepInOrder(events, index, previousNonce);
      if complaint.Some? {
        StepRefutes(events, index, previousNonce);
        return Err(complaint.value);
      }
      StepExtends(events, index, previousNonce);
      if event.nonce.Some? {
        previousNonce := event.nonce;
      }
      previous := Some(event);
      index := index + 1;
    }
    r := Ok(());
  }
}
