/** The egress path of crates/discord-voice-service-voice/src/udp.rs: a preparer that reserves
    cursors ahead of time, and cloned senders that share one packed atomic cursor. */
module Egress {
  import opened Words
  import opened Rtp
  import opened Protection

  datatype PreparedVoicePacket = PreparedVoicePacket(
    bytes: seq<u8>,
    durationMs: u64,
    samples: u32,
    isTrack: bool,
    sequence: u16,
    timestamp: u32,
    nonce: Option<u32>)

  datatype EgressError = DurationInvalid | Protect(error: ProtectionError) | NotNextSend | SocketFailed | AdvancedConcurrently

  function CursorOf(p: PreparedVoicePacket): Cursor {
    Cursor(p.sequence, p.timestamp)
  }

  function Samples(ps: seq<PreparedVoicePacket>): (s: seq<u32>)
    ensures |s| == |ps|
  {
    seq(|ps|, i requires 0 <= i < |ps| => ps[i].samples)
  }

  lemma {:induction false} SamplesPush(ps: seq<PreparedVoicePacket>, p: PreparedVoicePacket)
    ensures Samples(ps + [p]) == Samples(ps) + [p.samples]
  {}

  /** `pack_rtp_cursor_parts`: the timestamp shifted over sixteen sequence bits. */
  function Pack(c: Cursor): u64 {
    c.timestamp * 0x1_0000 + c.sequence
  }

  /** `unpack_rtp_cursor`. */
  function Unpack(word: u64): Cursor {
    Cursor(Wrap16(word), Wrap32(Shift16(word)))
  }

  lemma {:induction false} SplitWord(high: nat, low: u16)
    ensures Wrap16(high * 0x1_0000 + low) == low
    ensures Shift16(high * 0x1_0000 + low) == high
  {
    if high > 0 {
      SplitWord(high - 1, low);
      assert high * 0x1_0000 + low - 0x1_0000 == (high - 1) * 0x1_0000 + low;
    }
  }

  lemma {:induction false} JoinWord(word: nat)
    ensures Shift16(word) * 0x1_0000 + Wrap16(word) == word
  {
    if word >= 0x1_0000 {
      JoinWord(word - 0x1_0000);
    }
  }

  /** Packing loses nothing, and every 48-bit word is the packing of what it unpacks to. */
  lemma {:induction false} PackUnpack(c: Cursor)
    ensures Unpack(Pack(c)) == c
    ensures Pack(c) < 0x1_0000_0000_0000
  {
    SplitWord(c.timestamp, c.sequence);
  }

  lemma {:induction false} UnpackPack(word: u64)
    requires word < 0x1_0000_0000_0000
    ensures Pack(Unpack(word)) == word
  {
    JoinWord(word);
  }

  // ------------------------------------------------------------------ the objects

  class VoicePacketPreparer {
    const ssrc: u32
    const protection: ProtectionContext?
    var reserved: Cursor

    constructor (ssrc: u32, protection: ProtectionContext?)
      ensures this.ssrc == ssrc && this.protection == protection && reserved == START
    {
      this.ssrc := ssrc;
      this.protection := protection;
      reserved := START;
    }

    /** The cursor is reserved before protection runs, so a protection error loses it. */
    method PrepareAudioPacket(frame: seq<u8>, durationMs: u64, samples: u32)
      returns (r: Result<PreparedVoicePacket, EgressError>)
      modifies this
      modifies if protection == null then {} else {protection}
      ensures samples == 0 ==> r == Err(DurationInvalid) && reserved == old(reserved)
      ensures samples == 0 && protection != null ==> protection.nextNonce == old(protection.nextNonce)
      ensures samples > 0 ==> reserved == Advance(old(reserved), samples)
      ensures samples > 0 && protection != null ==> protection.nextNonce == Wrap32(old(protection.nextNonce) + 1)
      ensures r.Ok? ==> CursorOf(r.value) == old(reserved) && r.value.samples == samples
                        && r.value.durationMs == durationMs && r.value.isTrack
      ensures samples > 0 && protection == null ==>
        r.Ok? && r.value.nonce == None && r.value.bytes == BuildHeader(ssrc, old(reserved).sequence, old(reserved).timestamp) + frame
      ensures samples > 0 && protection != null ==>
        match Protection.Protect(protection.aead, protection.mode, protection.key, old(protection.nextNonce),
                                 BuildHeader(ssrc, old(reserved).sequence, old(reserved).timestamp), frame)
        case Ok(bytes) => r.Ok? && r.value.bytes == bytes && r.value.nonce == Some(old(protection.nextNonce))
        case Err(e) => r == Err(EgressError.Protect(e))
    {
      if samples == 0 {
        return Err(DurationInvalid);
      }
      var current := reserved;
      reserved := Advance(reserved, samples);
      var packet := BuildHeader(ssrc, current.sequence, current.timestamp);
      var nonce: Option<u32> := None;
      if protection != null {
        var drawn := protection.nextNonce;
        var protected := protection.ProtectPacket(packet, frame);
        if protected.Err? {
          return Err(EgressError.Protect(protected.error));
        }
        assert protected.value[|protected.value| - 4..] == Be32(drawn);
        Be32RoundTrip(drawn);
        packet := protected.value;
        nonce := Some(NonceOf(packet));
      } else {
        packet := packet + frame;
      }
      r := Ok(PreparedVoicePacket(packet, durationMs, samples, true, current.sequence, current.timestamp, nonce));
    }

    /** Rewinds the reservation; a nonce once drawn stays drawn. */
    method DiscardUnsentPreparedPackets(sentCursor: Cursor)
      modifies this
      ensures reserved == sentCursor
      ensures protection != null ==> protection.nextNonce == old(protection.nextNonce)
    {
      reserved := sentCursor;
    }
  }

  /** The shared `Arc<AtomicU64>`: 48 of its bits are used. */
  class SendCell {
    var word: u64

    ghost predicate Valid()
      reads this
    {
      word < 0x1_0000_0000_0000
    }

    function Current(): Cursor
      reads this
    {
      Unpack(word)
    }

    constructor ()
      ensures Valid() && Current() == START
    {
      word := 0;
    }
  }

  /** A clone of the sender: clones share `cell`. `LoadAndCheck` and `CompareExchange` are the
      atomic sections before and after the socket await; both are stated on the cursor the word
      unpacks to, which is what lets the protocol below speak of cursors. */
  class VoicePreparedPacketSender {
    const cell: SendCell

    constructor (cell: SendCell)
      ensures this.cell == cell
    {
      this.cell := cell;
    }

    method LoadAndCheck(packet: PreparedVoicePacket) returns (ok: bool)
      ensures ok <==> cell.Current() == CursorOf(packet)
    {
      var current := Unpack(cell.word);
      ok := packet.sequence == current.sequence && packet.timestamp == current.timestamp;
    }

    method CompareExchange(packet: PreparedVoicePacket) returns (ok: bool)
      requires cell.Valid()
      modifies cell
      ensures cell.Valid()
      ensures ok <==> old(cell.Current()) == CursorOf(packet)
      ensures cell.Current() == if ok then Advance(CursorOf(packet), packet.samples) else old(cell.Current())
    {
      UnpackPack(cell.word);
      PackUnpack(CursorOf(packet));
      PackUnpack(Advance(CursorOf(packet), packet.samples));
      var expected := Pack(Cursor(packet.sequence, packet.timestamp));
      var next := Pack(Cursor(Wrap16(packet.sequence + 1), Wrap32(packet.timestamp + packet.samples)));
      ok := cell.word == expected;
      if ok {
        cell.word := next;
      }
    }

    /** One whole send with nothing interleaved at the await: it succeeds exactly when the packet
        is next and the socket accepts it, and a refused or failed send leaves the cursor alone. */
    method SendPreparedPacket(packet: PreparedVoicePacket, socketOk: bool) returns (r: Result<(), EgressError>)
      requires cell.Valid()
      modifies cell
      ensures cell.Valid()
      ensures r.Ok? <==> old(cell.Current()) == CursorOf(packet) && socketOk
      ensures cell.Current() == if r.Ok? then Advance(CursorOf(packet), packet.samples) else old(cell.Current())
    {
      var next := LoadAndCheck(packet);
      if !next {
        return Err(NotNextSend);
      }
      if !socketOk {
        return Err(SocketFailed);
      }
      var swapped := CompareExchange(packet);
      if !swapped {
        return Err(AdvancedConcurrently);
      }
      r := Ok(());
    }
  }

  // ------------------------------------------------------------------ the protocol

  /** Where one clone stands inside `send_prepared_packet`. `seen` is a history variable: how
      many sends had returned Ok when this clone loaded the cursor. */
  datatype Phase =
    | Idle
    | Checked(packet: PreparedVoicePacket, seen: nat)
    | OnWire(packet: PreparedVoicePacket, seen: nat)

  datatype Preparation = Preparation(packet: PreparedVoicePacket, attempt: nat)

  /** The shared state, with the history of packets prepared, sent to the socket, refused at the compare-exchange and
      accepted. */
  datatype System = System(
    protected: bool,
    cursor: Cursor,
    reserved: Cursor,
    attempts: nat,
    senders: seq<Phase>,
    prepared: seq<Preparation>,
    wire: seq<PreparedVoicePacket>,
    refused: seq<PreparedVoicePacket>,
    committed: seq<PreparedVoicePacket>)

  datatype Step =
    | Prepare(bytes: seq<u8>, durationMs: u64, samples: u32, isTrack: bool, sealed: bool)
    | Discard
    | Clone
    | Load(sender: nat, packet: PreparedVoicePacket)
    | Socket(sender: nat, accepted: bool)
    | Swap(sender: nat)

  function Start(protected: bool): System {
    System(protected, START, START, 0, [Idle], [], [], [], [])
  }

  function NextPrepare(s: System, step: Step): System
    requires step.Prepare?
  {
    if step.samples == 0 then s else
    var moved := s.(reserved := Advance(s.reserved, step.samples),
                    attempts := if s.protected then s.attempts + 1 else s.attempts);
    if s.protected && !step.sealed then moved else
    var packet := PreparedVoicePacket(step.bytes, step.durationMs, step.samples, step.isTrack,
                                      s.reserved.sequence, s.reserved.timestamp,
                                      if s.protected then Some(Wrap32(s.attempts)) else None);
    moved.(prepared := s.prepared + [Preparation(packet, s.attempts)])
  }

  function NextLoad(s: System, i: nat, packet: PreparedVoicePacket): System {
    if i < |s.senders| && s.senders[i].Idle? && s.cursor == CursorOf(packet)
    then s.(senders := s.senders[i := Checked(packet, |s.committed|)])
    else s
  }

  function NextSocket(s: System, i: nat, accepted: bool): System {
    if i < |s.senders| && s.senders[i].Checked? then
      var p := s.senders[i].packet;
      if accepted then s.(senders := s.senders[i := OnWire(p, s.senders[i].seen)], wire := s.wire + [p])
      else s.(senders := s.senders[i := Idle])
    else s
  }

  /** Whether the compare-exchange of clone `i` would succeed now. */
  predicate SwapSucceeds(s: System, i: nat) {
    i < |s.senders| && s.senders[i].OnWire? && s.cursor == CursorOf(s.senders[i].packet)
  }

  function NextSwap(s: System, i: nat): System {
    if i < |s.senders| && s.senders[i].OnWire? then
      var p := s.senders[i].packet;
      if SwapSucceeds(s, i)
      then s.(senders := s.senders[i := Idle], cursor := Advance(CursorOf(p), p.samples), committed := s.committed + [p])
      else s.(senders := s.senders[i := Idle], refused := s.refused + [p])
    else s
  }

  /** One atomic step; a step that is not enabled leaves the system as it is. */
  function Next(s: System, step: Step): System {
    match step
    case Prepare(_, _, _, _, _) => NextPrepare(s, step)
    case Discard => s.(reserved := s.cursor)
    case Clone => s.(senders := s.senders + [Idle])
    case Load(i, packet) => NextLoad(s, i, packet)
    case Socket(i, accepted) => NextSocket(s, i, accepted)
    case Swap(i) => NextSwap(s, i)
  }

  function Run(protected: bool, steps: seq<Step>): System {
    if |steps| == 0 then Start(protected) else Next(Run(protected, steps[..|steps| - 1]), steps[|steps| - 1])
  }

  // ------------------------------------------------------------------ the objects take these steps

  /** The preparer's part of the system: its reservation, and its nonce counter as the number of attempts, wrapped. */
  ghost predicate Prepares(preparer: VoicePacketPreparer, s: System)
    reads preparer, preparer.protection
  {
    && s.reserved == preparer.reserved && (s.protected <==> preparer.protection != null)
    && (preparer.protection != null ==> preparer.protection.nextNonce == Wrap32(s.attempts))
  }

  /** A call of the preparer is a Prepare step, and an Ok call adds its packet. */
  method TakePrepareStep(preparer: VoicePacketPreparer, frame: seq<u8>, durationMs: u64, samples: u32, ghost s: System)
    returns (r: Result<PreparedVoicePacket, EgressError>, ghost t: System)
    requires Prepares(preparer, s)
    modifies preparer
    modifies if preparer.protection == null then {} else {preparer.protection}
    ensures t == Next(s, Prepare(if r.Ok? then r.value.bytes else [], durationMs, samples, true, r.Ok?)) && Prepares(preparer, t)
    ensures t.prepared == s.prepared + if r.Ok? then [Preparation(r.value, s.attempts)] else []
  {
    r := preparer.PrepareAudioPacket(frame, durationMs, samples);
    t := Next(s, Prepare(if r.Ok? then r.value.bytes else [], durationMs, samples, true, r.Ok?));
    Wrap32Step(s.attempts, 1);
  }

  /** A discard at the current cursor is a Discard step. */
  method TakeDiscardStep(preparer: VoicePacketPreparer, cell: SendCell, ghost s: System) returns (ghost t: System)
    requires Prepares(preparer, s) && cell.Current() == s.cursor
    modifies preparer
    ensures t == Next(s, Discard) && Prepares(preparer, t) && cell.Current() == t.cursor
  {
    preparer.DiscardUnsentPreparedPackets(cell.Current());
    t := Next(s, Discard);
  }

  /** The load of clone `i` is a Load step, and passes exactly when the step does. */
  method TakeLoadStep(sender: VoicePreparedPacketSender, packet: PreparedVoicePacket, ghost i: nat, ghost s: System)
    returns (ok: bool, ghost t: System)
    requires sender.cell.Current() == s.cursor && i < |s.senders| && s.senders[i] == Idle
    ensures t == Next(s, Load(i, packet)) && sender.cell.Current() == t.cursor
    ensures t.senders[i] == if ok then Checked(packet, |s.committed|) else Idle
  {
    ok := sender.LoadAndCheck(packet);
    t := Next(s, Load(i, packet));
  }

  /** The compare-exchange of clone `i` is a Swap step: it returns Ok exactly when the packet is added to the Ok sends,
      and otherwise the packet was refused. */
  method TakeSwapStep(sender: VoicePreparedPacketSender, packet: PreparedVoicePacket, ghost i: nat, ghost s: System)
    returns (ok: bool, ghost t: System)
    requires sender.cell.Valid() && sender.cell.Current() == s.cursor
    requires i < |s.senders| && s.senders[i].OnWire? && s.senders[i].packet == packet
    modifies sender.cell
    ensures t == Next(s, Swap(i)) && sender.cell.Valid() && sender.cell.Current() == t.cursor
    ensures t.committed == s.committed + (if ok then [packet] else []) && t.refused == s.refused + (if ok then [] else [packet])
  {
    ok := sender.CompareExchange(packet);
    t := Next(s, Swap(i));
  }

  // ------------------------------------------------------------------ what every step keeps

  /** The cursor the next Ok send must carry after the sends in `ps`. */
  function After(ps: seq<PreparedVoicePacket>): Cursor {
    AdvanceAll(START, Samples(ps))
  }

  predicate Chain(ps: seq<PreparedVoicePacket>) {
    forall k :: 0 <= k < |ps| ==> CursorOf(ps[k]) == After(ps[..k])
  }

  predicate PhaseInv(s: System, phase: Phase) {
    phase.Idle? || (phase.seen <= |s.committed| && CursorOf(phase.packet) == After(s.committed[..phase.seen]))
  }

  predicate CursorInv(s: System) {
    && s.cursor == After(s.committed)
    && Chain(s.committed)
    && forall i :: 0 <= i < |s.senders| ==> PhaseInv(s, s.senders[i])
  }

  predicate NonceInv(s: System) {
    && (forall i :: 0 <= i < |s.prepared| ==>
          && (s.protected ==> s.prepared[i].attempt < s.attempts)
          && s.prepared[i].packet.nonce == if s.protected then Some(Wrap32(s.prepared[i].attempt)) else None)
    && (s.protected ==> forall i, j :: 0 <= i < j < |s.prepared| ==> s.prepared[i].attempt < s.prepared[j].attempt)
  }

  lemma {:induction false} AfterPush(ps: seq<PreparedVoicePacket>, p: PreparedVoicePacket)
    ensures After(ps + [p]) == Advance(After(ps), p.samples)
  {
    SamplesPush(ps, p);
    AdvanceAllPush(START, Samples(ps), p.samples);
  }

  lemma {:induction false} AfterSplit(ps: seq<PreparedVoicePacket>, n: nat)
    requires n <= |ps|
    ensures After(ps) == AdvanceAll(After(ps[..n]), Samples(ps[n..]))
  {
    assert Samples(ps) == Samples(ps[..n]) + Samples(ps[n..]);
    AdvanceAllConcat(START, Samples(ps[..n]), Samples(ps[n..]));
  }

  lemma {:induction false} ChainPush(ps: seq<PreparedVoicePacket>, p: PreparedVoicePacket)
    requires Chain(ps) && CursorOf(p) == After(ps)
    ensures Chain(ps + [p])
  {
    forall k | 0 <= k < |ps + [p]|
      ensures CursorOf((ps + [p])[k]) == After((ps + [p])[..k])
    {
      assert (ps + [p])[..k] == ps[..k];
      assert ps[..|ps|] == ps;
    }
  }

  lemma {:induction false} PhaseInvPush(s: System, t: System, phase: Phase, p: PreparedVoicePacket)
    requires PhaseInv(s, phase) && t.committed == s.committed + [p]
    ensures PhaseInv(t, phase)
  {
    if !phase.Idle? {
      assert t.committed[..phase.seen] == s.committed[..phase.seen];
    }
  }

  lemma {:induction false} SwapKeepsCursorInv(s: System, i: nat)
    requires CursorInv(s)
    ensures CursorInv(NextSwap(s, i))
  {
    if SwapSucceeds(s, i) {
      var t, p := NextSwap(s, i), s.senders[i].packet;
      AfterPush(s.committed, p);
      ChainPush(s.committed, p);
      forall j | 0 <= j < |t.senders|
        ensures PhaseInv(t, t.senders[j])
      {
        PhaseInvPush(s, t, s.senders[j], p);
      }
    }
  }

  lemma {:induction false} LoadKeepsCursorInv(s: System, i: nat, packet: PreparedVoicePacket)
    requires CursorInv(s)
    ensures CursorInv(NextLoad(s, i, packet))
  {
    assert s.committed[..|s.committed|] == s.committed;
  }

  lemma {:induction false} SocketKeepsCursorInv(s: System, i: nat, accepted: bool)
    requires CursorInv(s)
    ensures CursorInv(NextSocket(s, i, accepted))
  {}

  lemma {:induction false} StepKeepsCursorInv(s: System, step: Step)
    requires CursorInv(s)
    ensures CursorInv(Next(s, step))
  {
    match step
    case Swap(i) => SwapKeepsCursorInv(s, i);
    case Load(i, packet) => LoadKeepsCursorInv(s, i, packet);
    case Socket(i, accepted) => SocketKeepsCursorInv(s, i, accepted);
    case _ =>
  }

  lemma {:induction false} RunKeepsCursorInv(protected: bool, steps: seq<Step>)
    ensures CursorInv(Run(protected, steps))
  {
    if |steps| == 0 {
      assert Samples([]) == [];
    } else {
      RunKeepsCursorInv(protected, steps[..|steps| - 1]);
      StepKeepsCursorInv(Run(protected, steps[..|steps| - 1]), steps[|steps| - 1]);
    }
  }

  /** For any number of clones and any interleaving of load, socket, compare-exchange, prepare
      and discard: the sends that return Ok form one contiguous RTP chain in commit order, and
      the shared cursor is (number of Oks mod 2^16, sum of their durations mod 2^32). */
  lemma {:induction false} OkSendsFormOneChain(protected: bool, steps: seq<Step>)
    ensures OneChain(Run(protected, steps))
  {
    RunKeepsCursorInv(protected, steps);
    InvIsOneChain(Run(protected, steps));
  }

  /** The Ok sends start at zero, each carries the cursor its predecessor advanced to, and the shared cursor is
      their number and their total duration, wrapped. */
  predicate OneChain(s: System) {
    && s.cursor == Cursor(Wrap16(|s.committed|), Wrap32(Sum(Samples(s.committed))))
    && (|s.committed| > 0 ==> CursorOf(s.committed[0]) == START)
    && (forall k :: 0 < k < |s.committed| ==>
          CursorOf(s.committed[k]) == Advance(CursorOf(s.committed[k - 1]), s.committed[k - 1].samples))
  }

  lemma {:induction false} InvIsOneChain(s: System)
    requires CursorInv(s)
    ensures OneChain(s)
  {
    if |s.committed| > 0 {
      assert Samples(s.committed[..0]) == [];
    }
    forall k | 0 < k < |s.committed|
      ensures CursorOf(s.committed[k]) == Advance(CursorOf(s.committed[k - 1]), s.committed[k - 1].samples)
    {
      ChainNext(s.committed, k);
    }
  }

  lemma {:induction false} ChainNext(ps: seq<PreparedVoicePacket>, k: nat)
    requires Chain(ps) && 0 < k < |ps|
    ensures CursorOf(ps[k]) == Advance(CursorOf(ps[k - 1]), ps[k - 1].samples)
  {
    AfterPush(ps[..k - 1], ps[k - 1]);
    assert ps[..k] == ps[..k - 1] + [ps[k - 1]];
  }

  /** The sends that returned Ok since clone `i` loaded the cursor. */
  function Since(s: System, i: nat): seq<PreparedVoicePacket> {
    if i < |s.senders| && !s.senders[i].Idle? && s.senders[i].seen <= |s.committed|
    then s.committed[s.senders[i].seen..] else []
  }

  lemma {:induction false} SwapInInvariant(s: System, i: nat)
    requires CursorInv(s) && i < |s.senders| && s.senders[i].OnWire?
    ensures |Since(s, i)| == |s.committed| - s.senders[i].seen
    ensures SwapSucceeds(s, i) <==> Wrap16(|Since(s, i)|) == 0 && Wrap32(Sum(Samples(Since(s, i)))) == 0
  {
    var phase := s.senders[i];
    assert PhaseInv(s, phase);
    AfterSplit(s.committed, phase.seen);
    AdvanceAllFixpoint(CursorOf(phase.packet), Samples(Since(s, i)));
  }

  /** A compare-exchange succeeds exactly when the sends that returned Ok since this clone's load
      number a multiple of 2^16 and last a multiple of 2^32 samples. */
  lemma {:induction false} SwapSucceedsIff(protected: bool, steps: seq<Step>, i: nat)
    requires i < |Run(protected, steps).senders| && Run(protected, steps).senders[i].OnWire?
    ensures var since := Since(Run(protected, steps), i);
            SwapSucceeds(Run(protected, steps), i) <==> Wrap16(|since|) == 0 && Wrap32(Sum(Samples(since))) == 0
  {
    RunKeepsCursorInv(protected, steps);
    SwapInInvariant(Run(protected, steps), i);
  }

  /** Within 65536 sends of its load, a clone's compare-exchange succeeds exactly when no other
      send returned Ok in between. */
  lemma {:induction false} SwapSucceedsWithinWindow(protected: bool, steps: seq<Step>, i: nat)
    requires i < |Run(protected, steps).senders| && Run(protected, steps).senders[i].OnWire?
    requires |Since(Run(protected, steps), i)| < 0x1_0000
    ensures SwapSucceeds(Run(protected, steps), i) <==> Since(Run(protected, steps), i) == []
  {
    RunKeepsCursorInv(protected, steps);
    var s := Run(protected, steps);
    SwapInInvariant(s, i);
    if Since(s, i) == [] {
      assert Samples(Since(s, i)) == [];
    }
  }

  /** Steps that neither prepare nor discard: the rest of the sends already under way. */
  predicate OnlySends(steps: seq<Step>) {
    forall i :: 0 <= i < |steps| ==> !steps[i].Prepare? && !steps[i].Discard?
  }

  predicate Extends(s: System, t: System) {
    t.reserved == s.cursor && |s.committed| <= |t.committed| && t.committed[..|s.committed|] == s.committed
  }

  lemma {:induction false} SendExtends(s: System, t: System, step: Step)
    requires Extends(s, t) && !step.Prepare? && !step.Discard?
    ensures Extends(s, Next(t, step))
  {}

  lemma {:induction false} SendsAfterDiscard(protected: bool, before: seq<Step>, after: seq<Step>)
    requires OnlySends(after)
    ensures Extends(Run(protected, before), Run(protected, before + [Discard] + after))
  {
    var s := Run(protected, before);
    if |after| == 0 {
      assert before + [Discard] + after == before + [Discard];
      RunExtends(protected, before, Discard, s);
      assert s.committed[..|s.committed|] == s.committed;
    } else {
      var front, last := after[..|after| - 1], after[|after| - 1];
      assert OnlySends(front);
      SendsAfterDiscard(protected, before, front);
      var t := Run(protected, before + [Discard] + front);
      assert before + [Discard] + after == (before + [Discard] + front) + [last];
      RunExtends(protected, before + [Discard] + front, last, t);
      SendExtends(s, t, last);
    }
  }

  /** What a discard at `s` means for a later state `t`: the reservation is still the cursor of `s`, and it meets the
      cursor of `t` exactly when the sends in between wrap around both counters. */
  predicate LeftBehind(s: System, t: System) {
    && t.reserved == s.cursor
    && |s.committed| <= |t.committed| && t.committed[..|s.committed|] == s.committed
    && (t.reserved == t.cursor
        <==> Wrap16(|t.committed| - |s.committed|) == 0 && Wrap32(Sum(Samples(t.committed[|s.committed|..]))) == 0)
  }

  lemma {:induction false} ReservedMeetsCursor(s: System, t: System)
    requires CursorInv(s) && CursorInv(t) && Extends(s, t)
    ensures LeftBehind(s, t)
  {
    AfterSplit(t.committed, |s.committed|);
    AdvanceAllFixpoint(s.cursor, Samples(t.committed[|s.committed|..]));
  }

  /** A discard rewinds the reservation to the cursor it reads. A send that was between socket and
      compare-exchange at that moment moves the cursor afterwards, and the reservation, which the next
      packet will carry, still meets the cursor exactly when the sends that completed since the discard
      number a multiple of 2^16 and last a multiple of 2^32 samples. */
  lemma {:induction false} DiscardDuringSend(protected: bool, before: seq<Step>, after: seq<Step>)
    requires OnlySends(after)
    ensures LeftBehind(Run(protected, before), Run(protected, before + [Discard] + after))
  {
    SendsAfterDiscard(protected, before, after);
    RunKeepsCursorInv(protected, before);
    RunKeepsCursorInv(protected, before + [Discard] + after);
    ReservedMeetsCursor(Run(protected, before), Run(protected, before + [Discard] + after));
  }

  // ------------------------------------------------------------------ the wire

  function Carries(phase: Phase, p: PreparedVoicePacket): nat {
    if phase.OnWire? && phase.packet == p then 1 else 0
  }

  /** How many senders have put `p` on the wire and wait for their compare-exchange. */
  function InFlight(senders: seq<Phase>, p: PreparedVoicePacket): nat {
    if |senders| == 0 then 0 else InFlight(senders[..|senders| - 1], p) + Carries(senders[|senders| - 1], p)
  }

  lemma {:induction false} InFlightUpdate(senders: seq<Phase>, i: nat, phase: Phase, p: PreparedVoicePacket)
    requires i < |senders|
    ensures InFlight(senders[i := phase], p) == InFlight(senders, p) - Carries(senders[i], p) + Carries(phase, p)
  {
    var n := |senders| - 1;
    if i == n {
      assert senders[i := phase][..n] == senders[..n];
    } else {
      InFlightUpdate(senders[..n], i, phase, p);
      assert senders[i := phase][..n] == senders[..n][i := phase];
    }
  }

  predicate WireCounts(s: System, p: PreparedVoicePacket) {
    multiset(s.wire)[p] == multiset(s.committed)[p] + InFlight(s.senders, p) + multiset(s.refused)[p]
  }

  lemma {:induction false} LoadKeepsWireCounts(s: System, i: nat, packet: PreparedVoicePacket, p: PreparedVoicePacket)
    requires WireCounts(s, p)
    ensures WireCounts(NextLoad(s, i, packet), p)
  {
    if i < |s.senders| {
      InFlightUpdate(s.senders, i, Checked(packet, |s.committed|), p);
    }
  }

  lemma {:induction false} SocketKeepsWireCounts(s: System, i: nat, accepted: bool, p: PreparedVoicePacket)
    requires WireCounts(s, p)
    ensures WireCounts(NextSocket(s, i, accepted), p)
  {
    if i < |s.senders| && s.senders[i].Checked? {
      InFlightUpdate(s.senders, i, if accepted then OnWire(s.senders[i].packet, s.senders[i].seen) else Idle, p);
    }
  }

  lemma {:induction false} PushCounts(ps: seq<PreparedVoicePacket>, q: PreparedVoicePacket, p: PreparedVoicePacket)
    ensures multiset(ps + [q])[p] == multiset(ps)[p] + if q == p then 1 else 0
  {}

  lemma {:induction false} SwapKeepsWireCounts(s: System, i: nat, p: PreparedVoicePacket)
    requires WireCounts(s, p)
    ensures WireCounts(NextSwap(s, i), p)
  {
    if i < |s.senders| && s.senders[i].OnWire? {
      InFlightUpdate(s.senders, i, Idle, p);
      PushCounts(s.committed, s.senders[i].packet, p);
      PushCounts(s.refused, s.senders[i].packet, p);
    }
  }

  lemma {:induction false} CloneKeepsWireCounts(s: System, p: PreparedVoicePacket)
    requires WireCounts(s, p)
    ensures WireCounts(Next(s, Clone), p)
  {
    assert (s.senders + [Idle])[..|s.senders|] == s.senders;
  }

  lemma {:induction false} StepKeepsWireCounts(s: System, step: Step, p: PreparedVoicePacket)
    requires WireCounts(s, p)
    ensures WireCounts(Next(s, step), p)
  {
    match step
    case Prepare(_, _, _, _, _) =>
    case Discard =>
    case Clone => CloneKeepsWireCounts(s, p);
    case Load(i, packet) => LoadKeepsWireCounts(s, i, packet, p);
    case Socket(i, accepted) => SocketKeepsWireCounts(s, i, accepted, p);
    case Swap(i) => SwapKeepsWireCounts(s, i, p);
  }

  /** What is on the wire, counted with multiplicity: every Ok send, every send waiting for its compare-exchange and
      every send refused at it, and nothing else. A packet is on the wire more often than it was sent Ok exactly
      when one of its sends is waiting or was refused. */
  lemma {:induction false} WireIsAccountedFor(protected: bool, steps: seq<Step>, p: PreparedVoicePacket)
    ensures var s := Run(protected, steps);
            && multiset(s.wire)[p] == multiset(s.committed)[p] + InFlight(s.senders, p) + multiset(s.refused)[p]
            && (multiset(s.wire)[p] > multiset(s.committed)[p] <==> InFlight(s.senders, p) > 0 || p in s.refused)
  {
    if |steps| > 0 {
      WireIsAccountedFor(protected, steps[..|steps| - 1], p);
      StepKeepsWireCounts(Run(protected, steps[..|steps| - 1]), steps[|steps| - 1], p);
    }
    var s := Run(protected, steps);
    assert p in s.refused <==> multiset(s.refused)[p] > 0;
  }

  /** One sender, whose packet the cursor waits for while a send is under way; the wire is the Ok sends in order, and
      that packet once it is out. */
  predicate Alone(s: System) {
    && |s.senders| == 1 && s.refused == []
    && (!s.senders[0].Idle? ==> s.cursor == CursorOf(s.senders[0].packet))
    && s.wire == s.committed + if s.senders[0].OnWire? then [s.senders[0].packet] else []
  }

  lemma {:induction false} StepKeepsAlone(s: System, step: Step)
    requires Alone(s) && !step.Clone?
    ensures Alone(Next(s, step))
  {}

  /** Duplicates on the wire need a clone: with the one sender a connection starts with, no compare-exchange is
      ever refused, however sends, preparations and discards interleave, and the wire carries exactly the Ok sends
      in order, and at most one packet more. */
  lemma {:induction false} SingleSenderIsNeverRefused(protected: bool, steps: seq<Step>)
    requires forall i :: 0 <= i < |steps| ==> !steps[i].Clone?
    ensures var s := Run(protected, steps);
            && s.refused == [] && |s.senders| == 1
            && s.wire == s.committed + if s.senders[0].OnWire? then [s.senders[0].packet] else []
    ensures Alone(Run(protected, steps))
  {
    if |steps| > 0 {
      SingleSenderIsNeverRefused(protected, steps[..|steps| - 1]);
      StepKeepsAlone(Run(protected, steps[..|steps| - 1]), steps[|steps| - 1]);
    }
  }

  function SamplePacket(sequence: u16, timestamp: u32, nonce: u32): PreparedVoicePacket {
    PreparedVoicePacket([], 20, 960, true, sequence, timestamp, Some(nonce))
  }

  const SAMPLE_PREPARE := Prepare([], 20, 960, true, true)

  lemma {:induction false} RunExtends(protected: bool, steps: seq<Step>, step: Step, s: System)
    requires Run(protected, steps) == s
    ensures Run(protected, steps + [step]) == Next(s, step)
  {}

  /** The converse fails: two clones can both put the same packet on the wire before the
      compare-exchange of one of them is refused. */
  lemma {:induction false} ClonesCanDuplicateOnTheWire() returns (steps: seq<Step>)
    ensures var s := Run(true, steps);
            |s.wire| == 2 && s.wire[0] == s.wire[1] && |s.committed| == 1 && s.senders == [Idle, Idle]
  {
    var p := SamplePacket(0, 0, 0);
    var s;
    steps, s := Perform([], Start(true), SAMPLE_PREPARE);
    assert s.prepared[0].packet == p;
    steps, s := Perform(steps, s, Clone);
    steps, s := BothOnTheWire(steps, s, p);
    steps, s := Perform(steps, s, Swap(0));
    assert s.cursor == Cursor(1, 960);
    steps, s := Perform(steps, s, Swap(1));
  }

  /** Two idle clones load the same packet and hand it to the socket before either compare-exchange. */
  lemma {:induction false} BothOnTheWire(steps: seq<Step>, s: System, p: PreparedVoicePacket) returns (steps': seq<Step>, s': System)
    requires Run(true, steps) == s && s.senders == [Idle, Idle] && s.cursor == CursorOf(p)
    ensures Run(true, steps') == s'
    ensures s'.senders == [OnWire(p, |s.committed|), OnWire(p, |s.committed|)] && s'.wire == s.wire + [p, p]
    ensures s'.cursor == s.cursor && s'.committed == s.committed
  {
    steps', s' := BothLoaded(steps, s, p);
    steps', s' := Perform(steps', s', Socket(0, true));
    steps', s' := Perform(steps', s', Socket(1, true));
  }

  lemma {:induction false} BothLoaded(steps: seq<Step>, s: System, p: PreparedVoicePacket) returns (steps': seq<Step>, s': System)
    requires Run(true, steps) == s && s.senders == [Idle, Idle] && s.cursor == CursorOf(p)
    ensures Run(true, steps') == s' && s' == s.(senders := [Checked(p, |s.committed|), Checked(p, |s.committed|)])
  {
    steps', s' := Perform(steps, s, Load(0, p));
    steps', s' := Perform(steps', s', Load(1, p));
  }

  lemma {:induction false} Perform(steps: seq<Step>, s: System, step: Step) returns (steps': seq<Step>, s': System)
    requires Run(true, steps) == s
    ensures Run(true, steps') == s' && s' == Next(s, step)
  {
    steps', s' := steps + [step], Next(s, step);
    RunExtends(true, steps, step, s);
  }

  // ------------------------------------------------------------------ nonces

  lemma {:induction false} StepKeepsNonceInv(s: System, step: Step)
    requires NonceInv(s)
    ensures NonceInv(Next(s, step))
  {}

  lemma {:induction false} RunKeepsNonceInv(protected: bool, steps: seq<Step>)
    ensures NonceInv(Run(protected, steps)) && Run(protected, steps).protected == protected
  {
    if |steps| > 0 {
      RunKeepsNonceInv(protected, steps[..|steps| - 1]);
      StepKeepsNonceInv(Run(protected, steps[..|steps| - 1]), steps[|steps| - 1]);
    }
  }

  /** Two protected packets share a nonce exactly when their protection attempts are a multiple of
      2^32 apart; within 2^32 attempts all nonces differ, even where a discard makes two packets
      carry the same sequence number. */
  lemma {:induction false} NonceReuse(steps: seq<Step>, i: nat, j: nat)
    requires i < j < |Run(true, steps).prepared|
    ensures var s := Run(true, steps);
            && (s.prepared[i].packet.nonce == s.prepared[j].packet.nonce
                <==> Wrap32(s.prepared[i].attempt) == Wrap32(s.prepared[j].attempt))
            && s.prepared[i].attempt < s.prepared[j].attempt < s.attempts
            && (s.attempts <= 0x1_0000_0000 ==> s.prepared[i].packet.nonce != s.prepared[j].packet.nonce)
  {
    RunKeepsNonceInv(true, steps);
  }

  predicate NoncesIncrease(packets: seq<PreparedVoicePacket>) {
    forall i, j :: 0 <= i < j < |packets| && packets[i].nonce.Some? && packets[j].nonce.Some? ==>
      packets[i].nonce.value < packets[j].nonce.value
  }

  predicate Increasing(at: seq<nat>) {
    forall i, j :: 0 <= i < j < |at| ==> at[i] < at[j]
  }

  /** Packet `k` of `sent` is the preparation number `at[k]`. */
  predicate SentFrom(sent: seq<PreparedVoicePacket>, prepared: seq<Preparation>, at: seq<nat>) {
    |at| == |sent| && forall k :: 0 <= k < |at| ==> at[k] < |prepared| && sent[k] == prepared[at[k]].packet
  }

  lemma {:induction false} NonceIsAttempt(steps: seq<Step>, i: nat)
    requires i < |Run(true, steps).prepared| && Run(true, steps).attempts <= 0x1_0000_0000
    ensures var s := Run(true, steps); s.prepared[i].packet.nonce == Some(s.prepared[i].attempt)
  {
    RunKeepsNonceInv(true, steps);
  }

  /** Exactly when nonces are in order: for any clones, interleavings and discards, within 2^32 attempts, the
      nonces of the Ok sends strictly increase if and only if the packets were sent in the order they were
      prepared. */
  lemma {:induction false} NonceOrderIff(steps: seq<Step>, at: seq<nat>)
    requires Run(true, steps).attempts <= 0x1_0000_0000
    requires SentFrom(Run(true, steps).committed, Run(true, steps).prepared, at)
    ensures NoncesIncrease(Run(true, steps).committed) <==> Increasing(at)
  {
    RunKeepsNonceInv(true, steps);
    var s := Run(true, steps);
    forall k | 0 <= k < |at|
      ensures s.committed[k].nonce == Some(s.prepared[at[k]].attempt)
    {
      NonceIsAttempt(steps, at[k]);
    }
    forall i, j | 0 <= i < j < |at|
      ensures s.committed[i].nonce.value < s.committed[j].nonce.value <==> at[i] < at[j]
    {
      if at[i] != at[j] {
        assert at[i] < at[j] || at[j] < at[i];
      }
    }
  }

  /** The cursor check alone does not keep nonces in order: a packet prepared before a discard is
      still accepted after it when its cursor happens to be next. */
  lemma {:induction false} StalePacketBreaksNonceOrder() returns (steps: seq<Step>)
    ensures var s := Run(true, steps);
            |s.committed| == 2 && s.committed[0].nonce == Some(2) && s.committed[1].nonce == Some(1)
  {
    var stale := SamplePacket(1, 960, 1);
    var newer := SamplePacket(0, 0, 2);
    steps := [];
    var s := Start(true);
    steps, s := Perform(steps, s, SAMPLE_PREPARE);
    steps, s := Perform(steps, s, SAMPLE_PREPARE);
    assert s.prepared[1].packet == stale;
    steps, s := Perform(steps, s, Discard);
    steps, s := Perform(steps, s, SAMPLE_PREPARE);
    assert s.prepared[2].packet == newer;
    steps, s := SendNow(steps, s, newer);
    assert s.cursor == Cursor(1, 960);
    steps, s := SendNow(steps, s, stale);
  }

  /** A discard taken during a send leaves the preparer behind the cursor: the packet it prepares next
      repeats a cursor already sent and is refused. */
  lemma {:induction false} DiscardDuringSendRefusesNext() returns (steps: seq<Step>)
    ensures var s := Run(true, steps);
            && |s.committed| == 1 && |s.prepared| == 2
            && CursorOf(s.prepared[1].packet) == CursorOf(s.committed[0]) != s.cursor
            && Next(s, Load(0, s.prepared[1].packet)) == s
  {
    var p := SamplePacket(0, 0, 0);
    steps := [];
    var s := Start(true);
    steps, s := Perform(steps, s, SAMPLE_PREPARE);
    assert s.prepared[0].packet == p;
    steps, s := Perform(steps, s, Load(0, p));
    steps, s := Perform(steps, s, Socket(0, true));
    steps, s := Perform(steps, s, Discard);
    steps, s := Perform(steps, s, Swap(0));
    assert s.cursor == Cursor(1, 960) && s.committed == [p];
    steps, s := Perform(steps, s, SAMPLE_PREPARE);
  }

  /** One undisturbed send of the next packet. */
  lemma {:induction false} SendNow(steps: seq<Step>, s: System, p: PreparedVoicePacket) returns (steps': seq<Step>, s': System)
    requires Run(true, steps) == s && s.senders == [Idle] && s.cursor == CursorOf(p)
    ensures Run(true, steps') == s'
    ensures s'.cursor == Advance(CursorOf(p), p.samples) && s'.committed == s.committed + [p] && s'.senders == [Idle]
  {
    steps', s' := Perform(steps, s, Load(0, p));
    steps', s' := Perform(steps', s', Socket(0, true));
    steps', s' := Perform(steps', s', Swap(0));
  }
}
