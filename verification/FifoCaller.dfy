/** A caller of the egress path that sends its prepared packets first in, first out. At a discard it drops its
    queue, outside of a send, or rewinds the reservation and keeps its queue
    (crates/discord-voice-service-voice/src/udp.rs, used by the playout queue of the runtime). */
module FifoCaller {
  import opened Words
  import opened Rtp
  import opened Egress

  /** What each reserved cursor since the last discard became: a queued packet, or nothing (its
      protection failed, or the caller dropped it). `attempt` counts protection attempts. */
  datatype Slot = Live(packet: PreparedVoicePacket, attempt: nat) | Lost(lostSamples: u32)

  datatype Caller = Caller(sys: System, slots: seq<Slot>, sent: seq<nat>)

  datatype Move =
    | PrepareNext(bytes: seq<u8>, durationMs: u64, samples: u32, isTrack: bool, sealed: bool)
    | DiscardAll
    | Rewind
    | LoadHead
    | SocketHead(accepted: bool)
    | SwapHead
    | DropHead

  function SlotSamples(s: Slot): u32 {
    if s.Live? then s.packet.samples else s.lostSamples
  }

  function Reserved(slots: seq<Slot>): (r: seq<u32>)
    ensures |r| == |slots|
  {
    seq(|slots|, i requires 0 <= i < |slots| => SlotSamples(slots[i]))
  }

  /** The head of the queue: the first slot that still holds a packet. */
  function Head(slots: seq<Slot>): (k: nat)
    ensures k <= |slots|
    ensures k < |slots| ==> slots[k].Live?
    ensures forall j :: 0 <= j < k ==> slots[j].Lost?
  {
    if slots == [] || slots[0].Live? then 0 else 1 + Head(slots[1..])
  }

  function Begin(protected: bool): Caller {
    Caller(Start(protected), [], [])
  }

  function NextPrepared(c: Caller, m: Move): Caller
    requires m.PrepareNext?
  {
    if m.samples == 0 then c else
    var step := Prepare(m.bytes, m.durationMs, m.samples, m.isTrack, m.sealed);
    var sys := NextPrepare(c.sys, step);
    var slot := if |sys.prepared| > |c.sys.prepared|
                then Live(sys.prepared[|c.sys.prepared|].packet, sys.prepared[|c.sys.prepared|].attempt)
                else Lost(m.samples);
    c.(sys := sys, slots := c.slots + [slot])
  }

  predicate IdleSender(c: Caller) {
    |c.sys.senders| == 1 && c.sys.senders[0].Idle?
  }

  function NextSwapped(c: Caller): Caller {
    var k := Head(c.slots);
    var sys := NextSwap(c.sys, 0);
    if k < |c.slots| && SwapSucceeds(c.sys, 0)
    then Caller(sys, c.slots[k + 1..], c.sent + [c.slots[k].attempt])
    else c.(sys := sys)
  }

  function NextMove(c: Caller, m: Move): Caller {
    var k := Head(c.slots);
    match m
    case PrepareNext(_, _, _, _, _) => NextPrepared(c, m)
    case DiscardAll => if IdleSender(c) then c.(sys := Next(c.sys, Discard), slots := []) else c
    case Rewind => c.(sys := Next(c.sys, Discard))
    case LoadHead => if k < |c.slots| then c.(sys := NextLoad(c.sys, 0, c.slots[k].packet)) else c
    case SocketHead(accepted) => c.(sys := NextSocket(c.sys, 0, accepted))
    case SwapHead => NextSwapped(c)
    case DropHead =>
      if IdleSender(c) && k < |c.slots| then c.(slots := c.slots[k := Lost(c.slots[k].packet.samples)]) else c
  }

  function Play(protected: bool, moves: seq<Move>): Caller {
    if |moves| == 0 then Begin(protected) else NextMove(Play(protected, moves[..|moves| - 1]), moves[|moves| - 1])
  }

  // ------------------------------------------------------------------ cursors

  /** Slot `j` was reserved at the send cursor advanced by the slots before it. */
  predicate SlotInPlace(cursor: Cursor, slots: seq<Slot>, j: nat)
    requires j < |slots|
  {
    slots[j].Live? ==> CursorOf(slots[j].packet) == AdvanceAll(cursor, Reserved(slots[..j]))
  }

  predicate QueueInv(cursor: Cursor, reserved: Cursor, slots: seq<Slot>) {
    && reserved == AdvanceAll(cursor, Reserved(slots))
    && forall j :: 0 <= j < |slots| ==> SlotInPlace(cursor, slots, j)
  }

  predicate SendInv(c: Caller) {
    && |c.sys.senders| == 1
    && (!c.sys.senders[0].Idle? ==>
          var k := Head(c.slots);
          && k < |c.slots|
          && c.sys.senders[0].packet == c.slots[k].packet
          && CursorOf(c.slots[k].packet) == c.sys.cursor)
  }

  /** What every caller keeps. */
  predicate BaseInv(c: Caller) {
    CursorInv(c.sys) && SendInv(c)
  }

  /** What a caller that drops its queue at every discard keeps besides. */
  predicate CallerInv(c: Caller) {
    BaseInv(c) && QueueInv(c.sys.cursor, c.sys.reserved, c.slots)
  }

  predicate DropsAtDiscard(moves: seq<Move>) {
    forall i :: 0 <= i < |moves| ==> moves[i] != Rewind
  }

  lemma {:induction false} QueuePush(cursor: Cursor, reserved: Cursor, slots: seq<Slot>, slot: Slot)
    requires QueueInv(cursor, reserved, slots)
    requires slot.Live? ==> CursorOf(slot.packet) == reserved
    ensures QueueInv(cursor, Advance(reserved, SlotSamples(slot)), slots + [slot])
  {
    var longer := slots + [slot];
    assert Reserved(longer) == Reserved(slots) + [SlotSamples(slot)];
    AdvanceAllPush(cursor, Reserved(slots), SlotSamples(slot));
    forall j | 0 <= j < |longer|
      ensures SlotInPlace(cursor, longer, j)
    {
      assert longer[..j] == slots[..j];
      if j < |slots| {
        assert SlotInPlace(cursor, slots, j);
      } else {
        assert slots[..j] == slots;
      }
    }
  }

  lemma {:induction false} HeadPush(slots: seq<Slot>, slot: Slot)
    requires Head(slots) < |slots|
    ensures Head(slots + [slot]) == Head(slots)
  {
    if slots[0].Lost? {
      HeadPush(slots[1..], slot);
      assert (slots + [slot])[1..] == slots[1..] + [slot];
    }
  }

  /** After the packet of slot `k` is sent, the rest of the queue follows the new cursor. */
  lemma {:induction false} QueuePop(cursor: Cursor, reserved: Cursor, slots: seq<Slot>, k: nat)
    requires QueueInv(cursor, reserved, slots) && k < |slots| && slots[k].Live?
    ensures QueueInv(Advance(CursorOf(slots[k].packet), slots[k].packet.samples), reserved, slots[k + 1..])
  {
    var next := Advance(CursorOf(slots[k].packet), slots[k].packet.samples);
    assert SlotInPlace(cursor, slots, k);
    PrefixAdvance(cursor, slots, k);
    var rest := slots[k + 1..];
    SplitAdvance(cursor, slots, k + 1, |slots|);
    assert slots[..|slots|] == slots && slots[k + 1..|slots|] == rest;
    forall j | 0 <= j < |rest|
      ensures SlotInPlace(next, rest, j)
    {
      assert SlotInPlace(cursor, slots, k + 1 + j);
      SplitAdvance(cursor, slots, k + 1, k + 1 + j);
      assert rest[..j] == slots[k + 1..k + 1 + j];
    }
  }

  lemma {:induction false} PrefixAdvance(cursor: Cursor, slots: seq<Slot>, k: nat)
    requires k < |slots|
    ensures AdvanceAll(cursor, Reserved(slots[..k + 1])) == Advance(AdvanceAll(cursor, Reserved(slots[..k])), SlotSamples(slots[k]))
  {
    assert Reserved(slots[..k + 1]) == Reserved(slots[..k]) + [SlotSamples(slots[k])];
    AdvanceAllPush(cursor, Reserved(slots[..k]), SlotSamples(slots[k]));
  }

  lemma {:induction false} SplitAdvance(cursor: Cursor, slots: seq<Slot>, k: nat, n: nat)
    requires k <= n <= |slots|
    ensures AdvanceAll(cursor, Reserved(slots[..n])) == AdvanceAll(AdvanceAll(cursor, Reserved(slots[..k])), Reserved(slots[k..n]))
  {
    assert Reserved(slots[..n]) == Reserved(slots[..k]) + Reserved(slots[k..n]);
    AdvanceAllConcat(cursor, Reserved(slots[..k]), Reserved(slots[k..n]));
  }

  lemma {:induction false} QueueLose(cursor: Cursor, reserved: Cursor, slots: seq<Slot>, k: nat)
    requires QueueInv(cursor, reserved, slots) && k < |slots| && slots[k].Live?
    ensures QueueInv(cursor, reserved, slots[k := Lost(slots[k].packet.samples)])
  {
    var lost := slots[k := Lost(slots[k].packet.samples)];
    assert Reserved(lost) == Reserved(slots);
    forall j | 0 <= j < |lost|
      ensures SlotInPlace(cursor, lost, j)
    {
      assert Reserved(lost[..j]) == Reserved(slots[..j]);
      assert SlotInPlace(cursor, slots, j);
    }
  }

  lemma {:induction false} PrepareKeepsBase(c: Caller, m: Move)
    requires BaseInv(c) && m.PrepareNext?
    ensures BaseInv(NextPrepared(c, m))
  {
    if m.samples > 0 {
      var d := NextPrepared(c, m);
      var step := Prepare(m.bytes, m.durationMs, m.samples, m.isTrack, m.sealed);
      StepKeepsCursorInv(c.sys, step);
      assert Next(c.sys, step) == d.sys;
      if !c.sys.senders[0].Idle? {
        HeadPush(c.slots, d.slots[|c.slots|]);
      }
    }
  }

  lemma {:induction false} MoveKeepsBase(c: Caller, m: Move)
    requires BaseInv(c)
    ensures BaseInv(NextMove(c, m))
  {
    var k := Head(c.slots);
    match m
    case PrepareNext(_, _, _, _, _) => PrepareKeepsBase(c, m);
    case DiscardAll => StepKeepsCursorInv(c.sys, Discard);
    case Rewind => StepKeepsCursorInv(c.sys, Discard);
    case LoadHead =>
      if k < |c.slots| {
        LoadKeepsCursorInv(c.sys, 0, c.slots[k].packet);
      }
    case SocketHead(accepted) => SocketKeepsCursorInv(c.sys, 0, accepted);
    case SwapHead => SwapKeepsCursorInv(c.sys, 0);
    case DropHead =>
  }

  lemma {:induction false} PrepareKeepsQueue(c: Caller, m: Move)
    requires QueueInv(c.sys.cursor, c.sys.reserved, c.slots) && m.PrepareNext?
    ensures var d := NextPrepared(c, m); QueueInv(d.sys.cursor, d.sys.reserved, d.slots)
  {
    if m.samples > 0 {
      QueuePush(c.sys.cursor, c.sys.reserved, c.slots, NextPrepared(c, m).slots[|c.slots|]);
    }
  }

  lemma {:induction false} MoveKeepsQueue(c: Caller, m: Move)
    requires CallerInv(c) && m != Rewind
    ensures var d := NextMove(c, m); QueueInv(d.sys.cursor, d.sys.reserved, d.slots)
  {
    match m
    case PrepareNext(_, _, _, _, _) => PrepareKeepsQueue(c, m);
    case DiscardAll => assert Reserved([]) == [];
    case SwapHead => SwapKeepsQueue(c);
    case DropHead =>
      if Head(c.slots) < |c.slots| {
        QueueLose(c.sys.cursor, c.sys.reserved, c.slots, Head(c.slots));
      }
    case _ =>
  }

  lemma {:induction false} SwapKeepsQueue(c: Caller)
    requires CallerInv(c)
    ensures var d := NextSwapped(c); QueueInv(d.sys.cursor, d.sys.reserved, d.slots)
  {
    if SwapSucceeds(c.sys, 0) {
      QueuePop(c.sys.cursor, c.sys.reserved, c.slots, Head(c.slots));
    }
  }

  lemma {:induction false} PlayKeepsBase(protected: bool, moves: seq<Move>)
    ensures BaseInv(Play(protected, moves))
  {
    if |moves| == 0 {
      RunKeepsCursorInv(protected, []);
    } else {
      PlayKeepsBase(protected, moves[..|moves| - 1]);
      MoveKeepsBase(Play(protected, moves[..|moves| - 1]), moves[|moves| - 1]);
    }
  }

  lemma {:induction false} PlayKeepsInv(protected: bool, moves: seq<Move>)
    requires DropsAtDiscard(moves)
    ensures CallerInv(Play(protected, moves))
  {
    PlayKeepsBase(protected, moves);
    if |moves| == 0 {
      assert Reserved([]) == [];
    } else {
      PlayKeepsInv(protected, moves[..|moves| - 1]);
      MoveKeepsQueue(Play(protected, moves[..|moves| - 1]), moves[|moves| - 1]);
    }
  }

  /** Everything reserved since the last discard follows the send cursor, and each queued packet sits at
      its place in that run. */
  predicate QueueFollowsCursor(c: Caller) {
    && c.sys.reserved == AdvanceAll(c.sys.cursor, Reserved(c.slots))
    && (c.slots == [] ==> c.sys.reserved == c.sys.cursor)
    && forall j :: 0 <= j < |c.slots| && c.slots[j].Live? ==>
         CursorOf(c.slots[j].packet) == AdvanceAll(c.sys.cursor, Reserved(c.slots[..j]))
  }

  lemma {:induction false} InvFollowsCursor(c: Caller)
    requires CallerInv(c)
    ensures QueueFollowsCursor(c)
  {
    forall j | 0 <= j < |c.slots| && c.slots[j].Live?
      ensures CursorOf(c.slots[j].packet) == AdvanceAll(c.sys.cursor, Reserved(c.slots[..j]))
    {
      assert SlotInPlace(c.sys.cursor, c.slots, j);
    }
    if c.slots == [] {
      assert Reserved(c.slots) == [];
    }
  }

  /** The reserved cursor is always the send cursor advanced by everything reserved since the last
      discard. */
  lemma {:induction false} ReservedIsSentPlusQueue(protected: bool, moves: seq<Move>)
    requires DropsAtDiscard(moves)
    ensures QueueFollowsCursor(Play(protected, moves))
  {
    PlayKeepsInv(protected, moves);
    InvFollowsCursor(Play(protected, moves));
  }

  predicate LoadAccepted(c: Caller) {
    Head(c.slots) < |c.slots| && c.sys.cursor == CursorOf(c.slots[Head(c.slots)].packet)
  }

  predicate Waiting(c: Caller) {
    |c.sys.senders| == 1 && c.sys.senders[0].OnWire?
  }

  lemma {:induction false} HeadInInv(c: Caller)
    requires CallerInv(c) && Head(c.slots) < |c.slots|
    ensures LoadAccepted(c) <==> Wrap16(Head(c.slots)) == 0 && Wrap32(Sum(Reserved(c.slots[..Head(c.slots)]))) == 0
    ensures Head(c.slots) == 0 ==> LoadAccepted(c)
    ensures Waiting(c) ==> SwapSucceeds(c.sys, 0)
  {
    var k := Head(c.slots);
    assert SlotInPlace(c.sys.cursor, c.slots, k);
    AdvanceAllFixpoint(c.sys.cursor, Reserved(c.slots[..k]));
    if k == 0 {
      assert Reserved(c.slots[..0]) == [];
    }
  }

  /** The head of the queue is accepted at the load exactly when the slots lost in front of it number
      a multiple of 2^16 and last a multiple of 2^32 samples; once loaded, its send is never refused
      at the compare-exchange. */
  lemma {:induction false} HeadAcceptedIff(protected: bool, moves: seq<Move>)
    requires DropsAtDiscard(moves)
    requires Head(Play(protected, moves).slots) < |Play(protected, moves).slots|
    ensures var c := Play(protected, moves);
            && (LoadAccepted(c)
                <==> Wrap16(Head(c.slots)) == 0 && Wrap32(Sum(Reserved(c.slots[..Head(c.slots)]))) == 0)
            && (Waiting(c) ==> SwapSucceeds(c.sys, 0))
  {
    PlayKeepsInv(protected, moves);
    HeadInInv(Play(protected, moves));
  }

  predicate Faithful(protected: bool, m: Move) {
    && m != DropHead
    && (m.PrepareNext? && protected ==> m.sealed)
  }

  predicate AllLive(slots: seq<Slot>) {
    forall j :: 0 <= j < |slots| ==> slots[j].Live?
  }

  lemma {:induction false} FaithfulPrepare(c: Caller, m: Move)
    requires AllLive(c.slots) && m.PrepareNext? && Faithful(c.sys.protected, m)
    ensures AllLive(NextPrepared(c, m).slots) && NextPrepared(c, m).sys.protected == c.sys.protected
  {}

  lemma {:induction false} FaithfulMove(c: Caller, m: Move)
    requires AllLive(c.slots) && Faithful(c.sys.protected, m)
    ensures AllLive(NextMove(c, m).slots) && NextMove(c, m).sys.protected == c.sys.protected
  {
    if m.PrepareNext? {
      FaithfulPrepare(c, m);
    }
  }

  lemma {:induction false} FaithfulLosesNothing(protected: bool, moves: seq<Move>)
    requires forall i :: 0 <= i < |moves| ==> Faithful(protected, moves[i])
    ensures AllLive(Play(protected, moves).slots) && Play(protected, moves).sys.protected == protected
  {
    if |moves| > 0 {
      FaithfulLosesNothing(protected, moves[..|moves| - 1]);
      FaithfulMove(Play(protected, moves[..|moves| - 1]), moves[|moves| - 1]);
    }
  }

  /** A FIFO caller whose protection calls succeed is never refused: whatever it has queued, the next
      packet passes both the load check and the compare-exchange. */
  lemma {:induction false} NeverRefused(protected: bool, moves: seq<Move>)
    requires DropsAtDiscard(moves)
    requires forall i :: 0 <= i < |moves| ==> Faithful(protected, moves[i])
    ensures var c := Play(protected, moves);
            c.slots != [] ==> Head(c.slots) == 0 && LoadAccepted(c) && (Waiting(c) ==> SwapSucceeds(c.sys, 0))
  {
    FaithfulLosesNothing(protected, moves);
    PlayKeepsInv(protected, moves);
    var c := Play(protected, moves);
    if c.slots != [] {
      assert Head(c.slots) == 0;
      HeadInInv(c);
    }
  }

  // ------------------------------------------------------------------ nonces

  predicate Numbered(protected: bool, attempts: nat, p: PreparedVoicePacket, attempt: nat) {
    && (protected ==> attempt < attempts)
    && p.samples > 0
    && p.nonce == if protected then Some(Wrap32(attempt)) else None
  }

  /** Every sent packet's nonce is its attempt, and attempts grow along the sends. */
  predicate SentInv(protected: bool, attempts: nat, sent: seq<nat>, committed: seq<PreparedVoicePacket>) {
    && |sent| == |committed|
    && (forall i :: 0 <= i < |sent| ==> Numbered(protected, attempts, committed[i], sent[i]))
    && (protected ==> forall i, j :: 0 <= i < j < |sent| ==> sent[i] < sent[j])
  }

  /** The same of the packets in the queue. */
  predicate SlotInv(protected: bool, attempts: nat, slots: seq<Slot>) {
    && (forall j :: 0 <= j < |slots| && slots[j].Live? ==> Numbered(protected, attempts, slots[j].packet, slots[j].attempt))
    && (protected ==> forall i, j :: 0 <= i < j < |slots| && slots[i].Live? && slots[j].Live? ==>
          slots[i].attempt < slots[j].attempt)
  }

  /** Every queued attempt is later than every sent one. */
  predicate SentFirst(sent: seq<nat>, slots: seq<Slot>) {
    forall i, j :: 0 <= i < |sent| && 0 <= j < |slots| && slots[j].Live? ==> sent[i] < slots[j].attempt
  }

  predicate AttemptInv(c: Caller) {
    && SentInv(c.sys.protected, c.sys.attempts, c.sent, c.sys.committed)
    && SlotInv(c.sys.protected, c.sys.attempts, c.slots)
    && (c.sys.protected ==> SentFirst(c.sent, c.slots))
  }

  lemma {:induction false} PrepareKeepsAttempts(c: Caller, m: Move)
    requires AttemptInv(c) && m.PrepareNext?
    ensures AttemptInv(NextPrepared(c, m))
  {}

  lemma {:induction false} SwapKeepsAttempts(c: Caller)
    requires AttemptInv(c) && SendInv(c)
    ensures AttemptInv(NextSwapped(c))
  {}

  lemma {:induction false} MoveKeepsAttempts(c: Caller, m: Move)
    requires AttemptInv(c) && SendInv(c)
    ensures AttemptInv(NextMove(c, m))
  {
    match m
    case PrepareNext(_, _, _, _, _) => PrepareKeepsAttempts(c, m);
    case SwapHead => SwapKeepsAttempts(c);
    case _ =>
  }

  lemma {:induction false} PlayKeepsAttempts(protected: bool, moves: seq<Move>)
    ensures AttemptInv(Play(protected, moves))
  {
    if |moves| > 0 {
      PlayKeepsAttempts(protected, moves[..|moves| - 1]);
      PlayKeepsBase(protected, moves[..|moves| - 1]);
      MoveKeepsAttempts(Play(protected, moves[..|moves| - 1]), moves[|moves| - 1]);
    }
  }

  lemma {:induction false} Wrap32Small(n: nat)
    requires n < 0x1_0000_0000
    ensures Wrap32(n) == n
  {}

  /** Within 2^32 protection attempts the nonces of the Ok sends strictly increase, whether the caller drops its
      queue at a discard or keeps it. */
  lemma {:induction false} SentNoncesIncrease(protected: bool, moves: seq<Move>, i: nat, j: nat)
    requires Play(protected, moves).sys.attempts <= 0x1_0000_0000
    requires i < j < |Play(protected, moves).sys.committed|
    ensures var sent := Play(protected, moves).sys.committed;
            sent[i].nonce.Some? && sent[j].nonce.Some? ==> sent[i].nonce.value < sent[j].nonce.value
  {
    PlayKeepsAttempts(protected, moves);
    var c := Play(protected, moves);
    if c.sys.protected {
      Wrap32Small(c.sent[i]);
      Wrap32Small(c.sent[j]);
    }
  }
}
