/** What the two independent checkers see of a first-in, first-out sender run: the controller reads the
    sender's log, the observer reads the packets.
    (crates/discord-voice-service-live-validation/src/controller.rs and audio.rs). */
module EgressEvidence {
  import opened Words
  import opened Rtp
  import opened Egress
  import opened FifoCaller
  import RawSendLog
  import Observer

  /** The log line of one Ok send: what the send itself determines is copied from its packet. */
  predicate RecordsSend(e: RawSendLog.RawSendEvent, p: PreparedVoicePacket, index: nat) {
    && e.packetIndex == index
    && e.kind != RawSendLog.Unspecified
    && e.sendStartedUs <= e.sentUs
    && e.samples == p.samples && e.rtpSequence == p.sequence && e.rtpTimestamp == p.timestamp && e.nonce == p.nonce
    && (e.kind == RawSendLog.Track <==> e.committedHeardMedia)
    && (e.kind == RawSendLog.Track ==> e.epoch.Some? && e.positionMs.Some? && e.positionSamples.Some?)
  }

  /** A log of the Ok sends in the order they completed. */
  predicate Records(events: seq<RawSendLog.RawSendEvent>, sent: seq<PreparedVoicePacket>) {
    && |events| == |sent|
    && (forall i :: 0 <= i < |events| ==> RecordsSend(events[i], sent[i], i))
    && (forall i :: 0 < i < |events| ==> events[i - 1].sentUs <= events[i].sentUs)
  }

  /** The observer received the Ok sends in order and could decode each of them. */
  predicate Receives(seen: seq<Observer.ObservedPacket>, sent: seq<PreparedVoicePacket>) {
    && |seen| == |sent|
    && forall i :: 0 <= i < |seen| ==>
         && seen[i].sequence == sent[i].sequence && seen[i].timestamp == sent[i].timestamp
         && seen[i].samples == sent[i].samples && seen[i].decodes
  }

  predicate Contiguous(sent: seq<PreparedVoicePacket>) {
    forall k :: 0 < k < |sent| ==> CursorOf(sent[k]) == Advance(CursorOf(sent[k - 1]), sent[k - 1].samples)
  }

  lemma {:induction false} ChainIsContiguous(sent: seq<PreparedVoicePacket>)
    requires Chain(sent)
    ensures Contiguous(sent)
  {
    forall k | 0 < k < |sent|
      ensures CursorOf(sent[k]) == Advance(CursorOf(sent[k - 1]), sent[k - 1].samples)
    {
      ChainNext(sent, k);
    }
  }

  lemma {:induction false} PlaySentInOrder(protected: bool, moves: seq<Move>)
    requires Play(protected, moves).sys.attempts <= 0x1_0000_0000
    ensures Contiguous(Play(protected, moves).sys.committed)
    ensures NoncesIncrease(Play(protected, moves).sys.committed)
    ensures forall k :: 0 <= k < |Play(protected, moves).sys.committed| ==> Play(protected, moves).sys.committed[k].samples > 0
  {
    PlayKeepsBase(protected, moves);
    PlayKeepsAttempts(protected, moves);
    var sent := Play(protected, moves).sys.committed;
    ChainIsContiguous(sent);
    forall i, j | 0 <= i < j < |sent| && sent[i].nonce.Some? && sent[j].nonce.Some?
      ensures sent[i].nonce.value < sent[j].nonce.value
    {
      SentNoncesIncrease(protected, moves, i, j);
    }
  }

  lemma {:induction false} LogIsOrdered(events: seq<RawSendLog.RawSendEvent>, sent: seq<PreparedVoicePacket>)
    requires Contiguous(sent) && NoncesIncrease(sent) && Records(events, sent)
    requires forall k :: 0 <= k < |sent| ==> sent[k].samples > 0
    ensures RawSendLog.Ordered(events)
  {}

  lemma {:induction false} ReceivedIsRtpChain(seen: seq<Observer.ObservedPacket>, sent: seq<PreparedVoicePacket>)
    requires Contiguous(sent) && Receives(seen, sent)
    ensures Observer.RtpChain(seen)
  {}

  /** A sender that sends first in, first out, whatever it does with its queue at a discard, and makes at most 2^32
      protection attempts passes both checkers, through every wrap-around: its log is accepted by the
      order check, and an observer that receives those packets accepts them all, wherever its
      baselines are reset. */
  lemma {:induction false} FifoRunPassesBothCheckers(protected: bool, moves: seq<Move>, events: seq<RawSendLog.RawSendEvent>, trace: seq<Observer.Input>)
    requires Play(protected, moves).sys.attempts <= 0x1_0000_0000
    requires Records(events, Play(protected, moves).sys.committed)
    requires Receives(Observer.Packets(trace), Play(protected, moves).sys.committed)
    ensures RawSendLog.Ordered(events)
    ensures Observer.Feed(trace).Some?
  {
    PlaySentInOrder(protected, moves);
    var sent := Play(protected, moves).sys.committed;
    LogIsOrdered(events, sent);
    ReceivedIsRtpChain(Observer.Packets(trace), sent);
    Observer.ChainIsAccepted(trace);
  }
}
