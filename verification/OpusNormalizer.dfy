/** Re-chunking of Opus packets into 20 ms Discord frames
    (crates/discord-voice-service-playback/src/media/opus_normalizer.rs). */
module OpusNormalizer {
  import opened Words

  const FRAME_SAMPLES := 960
  const FRAME_MS := 20
  const FRAME_VALUES := 1920

  datatype Packet = Packet(timestamp: u64, samples: u32, data: seq<u8>)

  datatype Frame = Frame(data: seq<u8>, durationMs: u64, samples: u32, positionMs: u64, position: u64)

  datatype MediaError = NoChannelLayout | ZeroDuration | DecodeFailed | WrongSampleCount | EncoderMissing | EncodeFailed

  /** The Opus library, as functions of what they are given: `decode(channels, data, samples)` yields
      interleaved PCM or fails, `encode` turns one frame of stereo PCM into a packet or fails, and
      `encoderAvailable` says whether an encoder can be created at all. */
  datatype Codec = Codec(
    decode: (nat, seq<u8>, nat) -> Option<seq<real>>,
    encode: seq<real> -> Option<seq<u8>>,
    encoderAvailable: bool)

  /** `toc & 0x04` of the first byte, the stereo flag of section 3.1 of RFC 6716. */
  predicate StereoFlag(toc: u8) {
    (toc / 4) % 2 == 1
  }

  function Channels(data: seq<u8>): Option<nat> {
    if data == [] then None else Some(if StereoFlag(data[0]) then 2 else 1)
  }

  predicate Passthrough(p: Packet) {
    p.samples == FRAME_SAMPLES && Channels(p.data) == Some(2)
  }

  /** `duration_ms_from_samples`. */
  function PositionMs(samples: u64): u64 {
    Quot(Sat64(samples * 1_000), 48_000)
  }

  function Silence(n: nat): (pcm: seq<real>)
    ensures |pcm| == n
  {
    seq(n, _ => 0.0)
  }

  lemma {:induction false} SilenceIsZero(n: nat, i: nat)
    requires i < n
    ensures Silence(n)[i] == 0.0
  {}

  /** Each mono value twice. */
  function Doubled(pcm: seq<real>): (r: seq<real>)
    ensures |r| == 2 * |pcm|
  {
    if pcm == [] then [] else Doubled(pcm[..|pcm| - 1]) + [pcm[|pcm| - 1], pcm[|pcm| - 1]]
  }

  /** The stereo PCM of a packet, or why it is rejected. */
  function DecodeStereo(c: Codec, data: seq<u8>, samples: nat): (r: Result<seq<real>, MediaError>)
    ensures r.Ok? ==> |r.value| == 2 * samples
  {
    var channels := Channels(data);
    if channels.None? then Err(NoChannelLayout)
    else if samples == 0 then Err(ZeroDuration)
    else
      match c.decode(channels.value, data, samples)
      case None => Err(DecodeFailed)
      case Some(pcm) =>
        if |pcm| != samples * channels.value then Err(WrongSampleCount)
        else if channels.value == 1 then Ok(Doubled(pcm))
        else Ok(pcm)
  }

  lemma {:induction false} DoubledAt(pcm: seq<real>, i: nat)
    requires i < |pcm|
    ensures Doubled(pcm)[2 * i] == pcm[i] && Doubled(pcm)[2 * i + 1] == pcm[i]
  {
    if i < |pcm| - 1 {
      DoubledAt(pcm[..|pcm| - 1], i);
    }
  }

  /** The flag in the layout of section 3.1 of RFC 6716: five bits of configuration, one stereo bit, two bits of frame
      count code. */
  lemma {:induction false} TocLayout(config: nat, stereo: nat, code: nat)
    requires config < 32 && stereo < 2 && code < 4
    ensures StereoFlag(8 * config + 4 * stereo + code) <==> stereo == 1
  {}

  // What a packet sounds like, said on its first byte and on what the decoder gives.

  predicate IsStereo(data: seq<u8>) {
    data != [] && (data[0] / 4) % 2 == 1
  }

  /** The decoder for the channels of the packet. */
  function Decoded(c: Codec, data: seq<u8>, samples: nat): Option<seq<real>> {
    c.decode(if IsStereo(data) then 2 else 1, data, samples)
  }

  /** The packet has a first byte and a duration, and the decoder gives one value per sample and channel. */
  predicate Decodable(c: Codec, data: seq<u8>, samples: nat) {
    && data != [] && samples > 0
    && Decoded(c, data, samples).Some?
    && |Decoded(c, data, samples).value| == if IsStereo(data) then 2 * samples else samples
  }

  /** The values of both sides in turn: those of a stereo packet as they are, each of a mono packet on both sides. A
      packet the decoder rejects counts as silence. */
  function StereoPcm(c: Codec, data: seq<u8>, samples: nat): (pcm: seq<real>)
    ensures |pcm| == 2 * samples
  {
    if !Decodable(c, data, samples) then Silence(2 * samples)
    else
      var decoded := Decoded(c, data, samples).value;
      seq(2 * samples, j requires 0 <= j < 2 * samples => decoded[if IsStereo(data) then j else j / 2])
  }

  /** Why a packet does not decode. */
  function Undecodable(c: Codec, data: seq<u8>, samples: nat): MediaError {
    if data == [] then NoChannelLayout
    else if samples == 0 then ZeroDuration
    else if Decoded(c, data, samples).None? then DecodeFailed
    else WrongSampleCount
  }

  /** Decoding succeeds exactly on decodable packets, and gives their PCM. */
  lemma {:induction false} DecodedPcm(c: Codec, data: seq<u8>, samples: nat)
    ensures DecodeStereo(c, data, samples)
         == if Decodable(c, data, samples) then Ok(StereoPcm(c, data, samples)) else Err(Undecodable(c, data, samples))
  {
    if Decodable(c, data, samples) {
      var decoded, pcm := Decoded(c, data, samples).value, DecodeStereo(c, data, samples).value;
      forall j | 0 <= j < 2 * samples
        ensures pcm[j] == StereoPcm(c, data, samples)[j]
      {
        if !IsStereo(data) {
          DoubledAt(decoded, j / 2);
          assert j == 2 * (j / 2) || j == 2 * (j / 2) + 1;
        }
      }
      assert pcm == StereoPcm(c, data, samples);
    }
  }

  // ------------------------------------------------------------------ what the methods compute

  datatype State = State(pending: seq<real>, next: Option<u64>)

  const EMPTY := State([], None)

  /** `next_output_position_samples.unwrap_or(0)`. */
  function PositionOf(s: State): u64 {
    if s.next.Some? then s.next.value else 0
  }

  function FrameAt(data: seq<u8>, position: u64): Frame {
    Frame(data, FRAME_MS, FRAME_SAMPLES, PositionMs(position), position)
  }

  /** The loop of `emit_ready_frames`, with the frames emitted so far. */
  function EmitReady(c: Codec, s: State, frames: seq<Frame>): (State, Result<seq<Frame>, MediaError>)
    decreases |s.pending|
  {
    if |s.pending| < FRAME_VALUES then (s, Ok(frames)) else
    match c.encode(s.pending[..FRAME_VALUES])
    case None => (s, Err(EncodeFailed))
    case Some(data) =>
      var position := PositionOf(s);
      EmitReady(c, State(s.pending[FRAME_VALUES..], Some(Sat64(position + FRAME_SAMPLES))), frames + [FrameAt(data, position)])
  }

  function Emit(c: Codec, s: State): (State, Result<seq<Frame>, MediaError>) {
    if !c.encoderAvailable then (s, Err(EncoderMissing)) else EmitReady(c, s, [])
  }

  function Positioned(s: State, p: Packet): State {
    if s.next.None? then s.(next := Some(p.timestamp)) else s
  }

  function Push(c: Codec, s: State, p: Packet): (State, Result<seq<Frame>, MediaError>) {
    var t := Positioned(s, p);
    if t.pending == [] && Passthrough(p) then
      (t.(next := Some(Sat64(PositionOf(t) + p.samples))), Ok([FrameAt(p.data, PositionOf(t))]))
    else
      match DecodeStereo(c, p.data, p.samples)
      case Err(e) => (t, Err(e))
      case Ok(pcm) => Emit(c, t.(pending := t.pending + pcm))
  }

  function Resized(pcm: seq<real>, n: nat): seq<real> {
    if |pcm| >= n then pcm[..n] else pcm + Silence(n - |pcm|)
  }

  function Flush(c: Codec, s: State): (State, Result<seq<Frame>, MediaError>) {
    if s.pending == [] then (s, Ok([])) else Emit(c, s.(pending := Resized(s.pending, FRAME_VALUES)))
  }

  // ------------------------------------------------------------------ the object

  class DiscordOpusFrameNormalizer {
    const codec: Codec
    var pendingPcm: seq<real>
    var nextOutputPosition: Option<u64>

    function View(): State
      reads this
    {
      State(pendingPcm, nextOutputPosition)
    }

    constructor (codec: Codec)
      ensures this.codec == codec && View() == EMPTY
    {
      this.codec := codec;
      pendingPcm := [];
      nextOutputPosition := None;
    }

    method PushPacket(packet: Packet) returns (r: Result<seq<Frame>, MediaError>)
      modifies this
      ensures (View(), r) == Push(codec, old(View()), packet)
    {
      if nextOutputPosition.None? {
        nextOutputPosition := Some(packet.timestamp);
      }
      if pendingPcm == [] && Passthrough(packet) {
        var position := nextOutputPosition.value;
        nextOutputPosition := Some(Sat64(position + packet.samples));
        return Ok([FrameAt(packet.data, position)]);
      }
      var decoded := DecodePacket(packet);
      if decoded.Err? {
        return Err(decoded.error);
      }
      r := EmitReadyFrames();
    }

    method FlushFrames() returns (r: Result<seq<Frame>, MediaError>)
      modifies this
      ensures (View(), r) == Flush(codec, old(View()))
    {
      if pendingPcm == [] {
        return Ok([]);
      }
      pendingPcm := Resized(pendingPcm, FRAME_VALUES);
      r := EmitReadyFrames();
    }

    method DecodePacket(packet: Packet) returns (r: Result<(), MediaError>)
      modifies this`pendingPcm
      ensures match DecodeStereo(codec, packet.data, packet.samples)
              case Ok(pcm) => r == Ok(()) && pendingPcm == old(pendingPcm) + pcm
              case Err(e) => r == Err(e) && pendingPcm == old(pendingPcm)
    {
      var channels := Channels(packet.data);
      if channels.None? {
        return Err(NoChannelLayout);
      }
      if packet.samples == 0 {
        return Err(ZeroDuration);
      }
      var decoded := codec.decode(channels.value, packet.data, packet.samples);
      if decoded.None? {
        return Err(DecodeFailed);
      }
      var pcm := decoded.value;
      if |pcm| != packet.samples * channels.value {
        return Err(WrongSampleCount);
      }
      if channels.value == 1 {
        for i := 0 to |pcm|
          invariant pendingPcm == old(pendingPcm) + Doubled(pcm[..i])
        {
          assert pcm[..i + 1][..i] == pcm[..i];
          pendingPcm := pendingPcm + [pcm[i]];
          pendingPcm := pendingPcm + [pcm[i]];
        }
        assert pcm[..|pcm|] == pcm;
      } else {
        pendingPcm := pendingPcm + pcm;
      }
      r := Ok(());
    }

    method EmitReadyFrames() returns (r: Result<seq<Frame>, MediaError>)
      modifies this
      ensures (View(), r) == Emit(codec, old(View()))
    {
      if !codec.encoderAvailable {
        return Err(EncoderMissing);
      }
      var frames: seq<Frame> := [];
      while |pendingPcm| >= FRAME_VALUES
        invariant EmitReady(codec, View(), frames) == EmitReady(codec, old(View()), [])
        decreases |pendingPcm|
      {
        var encoded := codec.encode(pendingPcm[..FRAME_VALUES]);
        if encoded.None? {
          return Err(EncodeFailed);
        }
        var position := if nextOutputPosition.Some? then nextOutputPosition.value else 0;
        frames := frames + [FrameAt(encoded.value, position)];
        nextOutputPosition := Some(Sat64(position + FRAME_SAMPLES));
        pendingPcm := pendingPcm[FRAME_VALUES..];
      }
      r := Ok(frames);
    }
  }

  // ------------------------------------------------------------------ re-chunking is exact

  /** All the PCM of a packet sequence. */
  function Pcm(c: Codec, packets: seq<Packet>): seq<real> {
    if |packets| == 0 then [] else
    var last := packets[|packets| - 1];
    Pcm(c, packets[..|packets| - 1]) + StereoPcm(c, last.data, last.samples)
  }

  /** `data` is a packet for exactly these 960 stereo samples: their encoding, or a packet that already
      decodes to them. */
  predicate Carries(c: Codec, data: seq<u8>, pcm: seq<real>) {
    || c.encode(pcm) == Some(data)
    || (IsStereo(data) && pcm == StereoPcm(c, data, FRAME_SAMPLES))
  }

  function Slice(pcm: seq<real>, k: nat): seq<real>
    requires FRAME_VALUES * (k + 1) <= |pcm|
  {
    pcm[FRAME_VALUES * k..FRAME_VALUES * (k + 1)]
  }

  /** `frames` are the frames of `pcm` from the position `first` on, and `pending` is what is left. */
  predicate Chunked(c: Codec, pcm: seq<real>, first: u64, frames: seq<Frame>, pending: seq<real>) {
    && FRAME_VALUES * |frames| <= |pcm|
    && pending == pcm[FRAME_VALUES * |frames|..]
    && forall k :: 0 <= k < |frames| ==> FrameOf(c, pcm, first, frames[k], k)
  }

  predicate FrameOf(c: Codec, pcm: seq<real>, first: u64, frame: Frame, k: nat) {
    && FRAME_VALUES * (k + 1) <= |pcm|
    && Carries(c, frame.data, Slice(pcm, k))
    && frame == FrameAt(frame.data, Sat64(first + FRAME_SAMPLES * k))
  }

  lemma {:induction false} FrameOfLonger(c: Codec, pcm: seq<real>, more: seq<real>, first: u64, frame: Frame, k: nat)
    requires FrameOf(c, pcm, first, frame, k)
    ensures FrameOf(c, pcm + more, first, frame, k)
  {
    assert Slice(pcm + more, k) == Slice(pcm, k);
  }

  lemma {:induction false} ChunkedLonger(c: Codec, pcm: seq<real>, more: seq<real>, first: u64, frames: seq<Frame>, pending: seq<real>)
    requires Chunked(c, pcm, first, frames, pending)
    ensures Chunked(c, pcm + more, first, frames, pending + more)
  {
    forall k | 0 <= k < |frames|
      ensures FrameOf(c, pcm + more, first, frames[k], k)
    {
      FrameOfLonger(c, pcm, more, first, frames[k], k);
    }
  }

  lemma {:induction false} ChunkedPush(c: Codec, pcm: seq<real>, first: u64, frames: seq<Frame>, pending: seq<real>, data: seq<u8>)
    requires Chunked(c, pcm, first, frames, pending)
    requires |pending| >= FRAME_VALUES && Carries(c, data, pending[..FRAME_VALUES])
    ensures Chunked(c, pcm, first, frames + [FrameAt(data, Sat64(first + FRAME_SAMPLES * |frames|))], pending[FRAME_VALUES..])
  {
    var more := frames + [FrameAt(data, Sat64(first + FRAME_SAMPLES * |frames|))];
    assert Slice(pcm, |frames|) == pending[..FRAME_VALUES];
    forall k | 0 <= k < |more|
      ensures FrameOf(c, pcm, first, more[k], k)
    {
      if k < |frames| {
        assert FrameOf(c, pcm, first, frames[k], k);
      }
    }
  }

  /** The state after frames `frames`, all counted from `first`. */
  predicate Reached(c: Codec, pcm: seq<real>, first: u64, frames: seq<Frame>, s: State) {
    && Chunked(c, pcm, first, frames, s.pending)
    && s.next == Some(Sat64(first + FRAME_SAMPLES * |frames|))
  }

  lemma {:induction false} EmitReadyReaches(c: Codec, pcm: seq<real>, first: u64, before: seq<Frame>, s: State, frames: seq<Frame>)
    requires Reached(c, pcm, first, before + frames, s)
    ensures var (t, r) := EmitReady(c, s, frames);
            r.Ok? ==> Reached(c, pcm, first, before + r.value, t) && |t.pending| < FRAME_VALUES
    decreases |s.pending|
  {
    if |s.pending| >= FRAME_VALUES {
      var encoded := c.encode(s.pending[..FRAME_VALUES]);
      if encoded.Some? {
        var position := PositionOf(s);
        ChunkedPush(c, pcm, first, before + frames, s.pending, encoded.value);
        var longer := frames + [FrameAt(encoded.value, position)];
        assert before + longer == (before + frames) + [FrameAt(encoded.value, position)];
        EmitReadyReaches(c, pcm, first, before, State(s.pending[FRAME_VALUES..], Some(Sat64(position + FRAME_SAMPLES))), longer);
      }
    }
  }

  /** One Ok push extends the chunking by the packet's PCM, whether it was passed through or decoded. */
  lemma {:induction false} PushReaches(c: Codec, pcm: seq<real>, first: u64, before: seq<Frame>, s: State, p: Packet)
    requires Reached(c, pcm, first, before, Positioned(s, p)) && |s.pending| < FRAME_VALUES
    ensures var (t, r) := Push(c, s, p);
            r.Ok? ==> Reached(c, pcm + StereoPcm(c, p.data, p.samples), first, before + r.value, t) && |t.pending| < FRAME_VALUES
  {
    var t, more := Positioned(s, p), StereoPcm(c, p.data, p.samples);
    ChunkedLonger(c, pcm, more, first, before, t.pending);
    if t.pending == [] && Passthrough(p) {
      assert (t.pending + more)[..FRAME_VALUES] == more;
      ChunkedPush(c, pcm + more, first, before, t.pending + more, p.data);
    } else if DecodeStereo(c, p.data, p.samples).Ok? {
      DecodedPcm(c, p.data, p.samples);
      assert before + [] == before;
      EmitReadyReaches(c, pcm + more, first, before, t.(pending := t.pending + more), []);
    }
  }

  datatype Outcome = Outcome(state: State, frames: seq<Frame>)

  /** An Ok sequence of pushes into a new normalizer. */
  function PushAll(c: Codec, packets: seq<Packet>): Option<Outcome> {
    if |packets| == 0 then Some(Outcome(EMPTY, [])) else
    var before := PushAll(c, packets[..|packets| - 1]);
    if before.None? then None else
    var (t, r) := Push(c, before.value.state, packets[|packets| - 1]);
    if r.Err? then None else Some(Outcome(t, before.value.frames + r.value))
  }

  function TotalSamples(packets: seq<Packet>): nat {
    if |packets| == 0 then 0 else TotalSamples(packets[..|packets| - 1]) + packets[|packets| - 1].samples
  }

  lemma {:induction false} PcmLength(c: Codec, packets: seq<Packet>)
    ensures |Pcm(c, packets)| == 2 * TotalSamples(packets)
  {
    if |packets| > 0 {
      PcmLength(c, packets[..|packets| - 1]);
    }
  }

  lemma {:induction false} PushAllStep(c: Codec, packets: seq<Packet>)
    requires |packets| > 0 && PushAll(c, packets).Some?
    ensures var front, last := packets[..|packets| - 1], packets[|packets| - 1];
            && PushAll(c, front).Some?
            && var o := PushAll(c, front).value;
               var pushed := Push(c, o.state, last);
               pushed.1.Ok? && PushAll(c, packets).value == Outcome(pushed.0, o.frames + pushed.1.value)
  {}

  lemma {:induction false} FirstReached(c: Codec, p: Packet)
    ensures Reached(c, [], p.timestamp, [], Positioned(EMPTY, p))
  {}

  lemma {:induction false} Repositioned(c: Codec, pcm: seq<real>, first: u64, frames: seq<Frame>, s: State, p: Packet)
    requires Reached(c, pcm, first, frames, s)
    ensures Positioned(s, p) == s
  {}

  lemma {:induction false} PushAllReaches(c: Codec, packets: seq<Packet>)
    requires |packets| > 0 && PushAll(c, packets).Some?
    ensures var o := PushAll(c, packets).value;
            Reached(c, Pcm(c, packets), packets[0].timestamp, o.frames, o.state) && |o.state.pending| < FRAME_VALUES
  {
    var front, last := packets[..|packets| - 1], packets[|packets| - 1];
    PushAllStep(c, packets);
    var o := PushAll(c, front).value;
    if |front| > 0 {
      PushAllReaches(c, front);
      Repositioned(c, Pcm(c, front), packets[0].timestamp, o.frames, o.state, last);
    } else {
      FirstReached(c, last);
    }
    PushReaches(c, Pcm(c, front), packets[0].timestamp, o.frames, o.state, last);
  }

  /** `o` holds the frames of `pcm` in order and at their positions, and less than a frame that is left. */
  predicate Exact(c: Codec, pcm: seq<real>, first: u64, o: Outcome) {
    && FRAME_VALUES * |o.frames| + |o.state.pending| == |pcm| && |o.state.pending| < FRAME_VALUES
    && o.state.pending == pcm[FRAME_VALUES * |o.frames|..]
    && (forall k :: 0 <= k < |o.frames| ==> FrameOf(c, pcm, first, o.frames[k], k))
    && o.state.next == Some(Sat64(first + FRAME_SAMPLES * |o.frames|))
  }

  /** Re-chunking is exact. After any Ok sequence of pushes, frame k carries 960 samples from position
      first + 960 k on, the frames' PCM followed by the held PCM is the PCM of the packets, fewer than
      960 samples are held, and the next position and the held samples add up to the first timestamp plus
      all samples pushed. Positions saturate at 2^64 - 1. */
  lemma {:induction false} RechunkingIsExact(c: Codec, packets: seq<Packet>)
    requires |packets| > 0 && PushAll(c, packets).Some?
    ensures var o, pcm, first := PushAll(c, packets).value, Pcm(c, packets), packets[0].timestamp;
            && |pcm| == 2 * TotalSamples(packets)
            && Exact(c, pcm, first, o)
            && (o.state.next.value < 0xFFFF_FFFF_FFFF_FFFF ==>
                  2 * o.state.next.value + |o.state.pending| == 2 * (first + TotalSamples(packets)))
  {
    PushAllReaches(c, packets);
    PcmLength(c, packets);
  }

  lemma {:induction false} EmitOneFrame(c: Codec, s: State)
    requires |s.pending| == FRAME_VALUES
    ensures var (t, r) := EmitReady(c, s, []);
            match c.encode(s.pending)
            case None => t == s && r == Err(EncodeFailed)
            case Some(data) => t == State([], Some(Sat64(PositionOf(s) + FRAME_SAMPLES))) && r == Ok([FrameAt(data, PositionOf(s))])
  {
    assert s.pending[..FRAME_VALUES] == s.pending && s.pending[FRAME_VALUES..] == [];
    var encoded := c.encode(s.pending);
    if encoded.Some? {
      var t, frame := State([], Some(Sat64(PositionOf(s) + FRAME_SAMPLES))), FrameAt(encoded.value, PositionOf(s));
      assert EmitReady(c, t, [frame]) == (t, Ok([frame]));
      assert [] + [frame] == [frame];
    }
  }

  /** From any state, an Ok flush emits exactly one frame, at the next position, if and only if PCM is held, and
      then nothing is held. The frame carries the held PCM padded with silence, or its first 960 samples if more
      is held. */
  lemma {:induction false} FlushPadsOnce(c: Codec, s: State)
    ensures var (t, r) := Flush(c, s);
            r.Ok? ==>
              && t.pending == []
              && |r.value| == (if s.pending == [] then 0 else 1)
              && (s.pending != [] ==>
                    && c.encode(if |s.pending| <= FRAME_VALUES then s.pending + Silence(FRAME_VALUES - |s.pending|)
                                else s.pending[..FRAME_VALUES]) == Some(r.value[0].data)
                    && r.value[0] == FrameAt(r.value[0].data, PositionOf(s))
                    && t.next == Some(Sat64(PositionOf(s) + FRAME_SAMPLES)))
  {
    if s.pending != [] {
      EmitOneFrame(c, s.(pending := Resized(s.pending, FRAME_VALUES)));
      if |s.pending| == FRAME_VALUES {
        assert s.pending + Silence(0) == s.pending[..FRAME_VALUES];
      }
    }
  }

  // ------------------------------------------------------------------ what a flush can lose

  /** A flush hands out `pcm`, in a frame of its own, and holds the rest. */
  predicate HandsOut(c: Codec, r: Result<seq<Frame>, MediaError>, pcm: seq<real>) {
    if r.Ok? && r.value != [] then |r.value| == 1 && c.encode(pcm) == Some(r.value[0].data) else pcm == []
  }

  /** From any state and whether or not it succeeds, a flush keeps all held PCM, in what it hands out and what it
      goes on holding, if and only if no more than a frame is held; otherwise it keeps the first frame and drops
      the rest. */
  lemma {:induction false} FlushKeepsAllIff(c: Codec, s: State) returns (pcm: seq<real>)
    ensures HandsOut(c, Flush(c, s).1, pcm)
    ensures s.pending <= pcm + Flush(c, s).0.pending <==> |s.pending| <= FRAME_VALUES
    ensures |s.pending| > FRAME_VALUES ==> pcm + Flush(c, s).0.pending == s.pending[..FRAME_VALUES]
  {
    var resized := Resized(s.pending, FRAME_VALUES);
    pcm := [];
    if s.pending != [] {
      EmitOneFrame(c, s.(pending := resized));
      if Flush(c, s).1.Ok? {
        pcm := resized;
      }
    }
    assert s.pending != [] ==> pcm + Flush(c, s).0.pending == resized;
  }

  lemma {:induction false} FlushHoldsAtMostAFrame(c: Codec, s: State)
    ensures |Flush(c, s).0.pending| <= FRAME_VALUES
  {
    if s.pending != [] {
      EmitOneFrame(c, s.(pending := Resized(s.pending, FRAME_VALUES)));
    }
  }

  /** The PCM that remains after the leading frames that can be encoded have been emitted. */
  function Unencoded(c: Codec, pcm: seq<real>): (rest: seq<real>)
    ensures |rest| <= |pcm|
    decreases |pcm|
  {
    if |pcm| < FRAME_VALUES || c.encode(pcm[..FRAME_VALUES]).None? then pcm else Unencoded(c, pcm[FRAME_VALUES..])
  }

  lemma {:induction false} EmitReadyLeaves(c: Codec, s: State, frames: seq<Frame>)
    requires s.next.Some?
    ensures var (t, r) := EmitReady(c, s, frames);
            && t.pending == Unencoded(c, s.pending)
            && (if |t.pending| < FRAME_VALUES then r.Ok? else r == Err(EncodeFailed))
            && t.next == Some(Sat64(s.next.value + (|s.pending| - |t.pending|) / 2))
    decreases |s.pending|
  {
    if |s.pending| >= FRAME_VALUES {
      var encoded := c.encode(s.pending[..FRAME_VALUES]);
      if encoded.Some? {
        Sat64Step(PositionOf(s) + FRAME_SAMPLES, (|s.pending[FRAME_VALUES..]| - |Unencoded(c, s.pending)|) / 2);
        EmitReadyLeaves(c, State(s.pending[FRAME_VALUES..], Some(Sat64(PositionOf(s) + FRAME_SAMPLES))),
                        frames + [FrameAt(encoded.value, PositionOf(s))]);
      }
    }
  }

  /** What a push leaves held: nothing for a packet passed through, what it found if the packet does not decode,
      and otherwise that with the packet's PCM, less the leading frames that were emitted. */
  predicate Leaves(c: Codec, s: State, p: Packet, held: seq<real>, r: Result<seq<Frame>, MediaError>) {
    var pcm := StereoPcm(c, p.data, p.samples);
    if s.pending == [] && p.samples == 960 && IsStereo(p.data) then held == [] && r.Ok?
    else if !Decodable(c, p.data, p.samples) then held == s.pending && r == Err(Undecodable(c, p.data, p.samples))
    else if !c.encoderAvailable then held == s.pending + pcm && r == Err(EncoderMissing)
    else held == Unencoded(c, s.pending + pcm) && if |held| < FRAME_VALUES then r.Ok? else r == Err(EncodeFailed)
  }

  /** The next position moves by the samples that went out, from the timestamp of the first packet on, also of one that
      failed. */
  lemma {:induction false} PushLeaves(c: Codec, s: State, p: Packet)
    ensures Leaves(c, s, p, Push(c, s, p).0.pending, Push(c, s, p).1)
    ensures var (t, r) := Push(c, s, p);
            var at := if s.next.Some? then s.next.value else p.timestamp;
            var taken := |s.pending| + (if Decodable(c, p.data, p.samples) then 2 * p.samples else 0) - |t.pending|;
            t.next == Some(Sat64(at + if s.pending == [] && p.samples == 960 && IsStereo(p.data) then 960 else taken / 2))
  {
    DecodedPcm(c, p.data, p.samples);
    var pcm := DecodeStereo(c, p.data, p.samples);
    if pcm.Ok? {
      EmitReadyLeaves(c, Positioned(s, p).(pending := s.pending + pcm.value), []);
    }
  }

  datatype Call = PushCall(packet: Packet) | FlushCall

  function Perform(c: Codec, s: State, call: Call): (State, Result<seq<Frame>, MediaError>) {
    match call
    case PushCall(p) => Push(c, s, p)
    case FlushCall => Flush(c, s)
  }

  /** A new normalizer after the first `n` calls, whatever they returned. */
  function After(c: Codec, calls: seq<Call>, n: nat): State
    requires n <= |calls|
  {
    if n == 0 then EMPTY else Perform(c, After(c, calls, n - 1), calls[n - 1]).0
  }

  function Returned(c: Codec, calls: seq<Call>, i: nat): Result<seq<Frame>, MediaError>
    requires i < |calls|
  {
    Perform(c, After(c, calls, i), calls[i]).1
  }

  /** Call `i` was a push whose packet decoded but could not be emitted: no encoder, or a failed encode. */
  predicate PilesUp(c: Codec, calls: seq<Call>, i: nat)
    requires i < |calls|
  {
    calls[i].PushCall? && Returned(c, calls, i) in {Err(EncoderMissing), Err(EncodeFailed)}
  }

  lemma {:induction false} HeldBefore(c: Codec, calls: seq<Call>, i: nat)
    requires i < |calls| && calls[i].PushCall? && !PilesUp(c, calls, i)
    requires |After(c, calls, i + 1).pending| > FRAME_VALUES
    ensures Returned(c, calls, i).Err? && |After(c, calls, i).pending| > FRAME_VALUES
  {
    PushLeaves(c, After(c, calls, i), calls[i].packet);
  }

  /** Every way to hold more than a frame: a push that decoded but found no encoder or failed to encode, and after
      it nothing but pushes that failed too. */
  lemma {:induction false} MoreThanAFrameHeld(c: Codec, calls: seq<Call>, n: nat) returns (i: nat)
    requires n <= |calls| && |After(c, calls, n).pending| > FRAME_VALUES
    ensures i < n && PilesUp(c, calls, i)
    ensures forall j :: i < j < n ==> calls[j].PushCall? && Returned(c, calls, j).Err?
  {
    i := n - 1;
    var s := After(c, calls, i);
    match calls[i]
    case FlushCall =>
      FlushHoldsAtMostAFrame(c, s);
    case PushCall(p) =>
      if !PilesUp(c, calls, i) {
        HeldBefore(c, calls, i);
        i := MoreThanAFrameHeld(c, calls, i);
      }
  }

  /** It does happen: without an encoder a push leaves its whole packet held, and the next flush cuts it. */
  lemma {:induction false} FlushCanCut() returns (c: Codec, p: Packet)
    ensures Push(c, EMPTY, p).1 == Err(EncoderMissing)
    ensures var held := Push(c, EMPTY, p).0; |held.pending| > FRAME_VALUES == |Flush(c, held).0.pending|
  {
    c := Codec((channels: nat, data: seq<u8>, samples: nat) => Some(Silence(2 * samples)), pcm => None, false);
    p := Packet(0, 1_920, [4]);
    PushLeaves(c, EMPTY, p);
    assert |DecodeStereo(c, p.data, p.samples).value| == 3_840;
  }

  // ------------------------------------------------------------------ when a push succeeds

  /** Every full frame of `pcm` can be encoded. */
  ghost predicate Encodable(c: Codec, pcm: seq<real>) {
    forall k: nat :: FRAME_VALUES * (k + 1) <= |pcm| ==> c.encode(Slice(pcm, k)).Some?
  }

  lemma {:induction false} EncodableStep(c: Codec, pcm: seq<real>)
    requires |pcm| >= FRAME_VALUES
    ensures Encodable(c, pcm) <==> c.encode(pcm[..FRAME_VALUES]).Some? && Encodable(c, pcm[FRAME_VALUES..])
  {
    var rest := pcm[FRAME_VALUES..];
    assert Slice(pcm, 0) == pcm[..FRAME_VALUES];
    assert forall k: nat :: FRAME_VALUES * (k + 1) <= |rest| ==> Slice(rest, k) == Slice(pcm, k + 1);
    if c.encode(pcm[..FRAME_VALUES]).Some? && Encodable(c, rest) {
      forall k: nat | FRAME_VALUES * (k + 1) <= |pcm|
        ensures c.encode(Slice(pcm, k)).Some?
      {
        if k > 0 {
          assert Slice(rest, k - 1) == Slice(pcm, k);
        }
      }
    }
    if Encodable(c, pcm) {
      forall k: nat | FRAME_VALUES * (k + 1) <= |rest|
        ensures c.encode(Slice(rest, k)).Some?
      {
        assert Slice(rest, k) == Slice(pcm, k + 1);
      }
    }
  }

  lemma {:induction false} EmitReadyOkIff(c: Codec, s: State, frames: seq<Frame>)
    ensures EmitReady(c, s, frames).1.Ok? <==> Encodable(c, s.pending)
    decreases |s.pending|
  {
    if |s.pending| >= FRAME_VALUES {
      EncodableStep(c, s.pending);
      var encoded := c.encode(s.pending[..FRAME_VALUES]);
      if encoded.Some? {
        EmitReadyOkIff(c, State(s.pending[FRAME_VALUES..], Some(Sat64(PositionOf(s) + FRAME_SAMPLES))),
                       frames + [FrameAt(encoded.value, PositionOf(s))]);
      }
    }
  }

  /** A push succeeds exactly when the packet is passed through, or it decodes, an encoder exists and every
      frame it completes can be encoded. */
  lemma {:induction false} PushOkIff(c: Codec, s: State, p: Packet)
    ensures Push(c, s, p).1.Ok?
       <==> || (s.pending == [] && p.samples == 960 && IsStereo(p.data))
            || (&& Decodable(c, p.data, p.samples) && c.encoderAvailable
                && Encodable(c, s.pending + StereoPcm(c, p.data, p.samples)))
  {
    DecodedPcm(c, p.data, p.samples);
    var pcm := DecodeStereo(c, p.data, p.samples);
    if pcm.Ok? {
      EmitReadyOkIff(c, Positioned(s, p).(pending := s.pending + pcm.value), []);
    }
  }

  /** A 20 ms stereo packet that finds nothing held goes out as it is, whatever the codec: one frame with its bytes at
      the next position, or at its own timestamp if it is the first. */
  lemma {:induction false} PassthroughIsVerbatim(c: Codec, s: State, p: Packet)
    requires s.pending == [] && p.samples == 960 && IsStereo(p.data)
    ensures var at := if s.next.Some? then s.next.value else p.timestamp;
            && Push(c, s, p).0 == State([], Some(Sat64(at + 960)))
            && Push(c, s, p).1.Ok? && |Push(c, s, p).1.value| == 1
            && Push(c, s, p).1.value[0].data == p.data && Push(c, s, p).1.value[0].position == at
  {}

  /** What a frame says of itself: 20 ms, 960 samples, and its position also in whole milliseconds. */
  lemma {:induction false} FrameFields(data: seq<u8>, position: u64)
    ensures var f := FrameAt(data, position);
            && f.data == data && f.durationMs == 20 && f.samples == 960 && f.position == position
            && (1000 * position < 0x1_0000_0000_0000_0000 ==> 48 * f.positionMs <= position < 48 * f.positionMs + 48)
  {
    var ms := PositionMs(position);
    QuotBelow(Sat64(position * 1_000), 48_000, ms);
    QuotBelow(Sat64(position * 1_000), 48_000, ms + 1);
  }

  // ------------------------------------------------------------------ every frame is a full frame

  predicate FullFrames(frames: seq<Frame>) {
    forall k :: 0 <= k < |frames| ==> frames[k].samples == FRAME_SAMPLES
  }

  lemma {:induction false} EmitReadyFull(c: Codec, s: State, frames: seq<Frame>)
    requires FullFrames(frames)
    ensures EmitReady(c, s, frames).1.Ok? ==> FullFrames(EmitReady(c, s, frames).1.value)
    decreases |s.pending|
  {
    if |s.pending| >= FRAME_VALUES {
      var encoded := c.encode(s.pending[..FRAME_VALUES]);
      if encoded.Some? {
        EmitReadyFull(c, State(s.pending[FRAME_VALUES..], Some(Sat64(PositionOf(s) + FRAME_SAMPLES))),
                      frames + [FrameAt(encoded.value, PositionOf(s))]);
      }
    }
  }

  lemma {:induction false} PushFull(c: Codec, s: State, p: Packet)
    ensures Push(c, s, p).1.Ok? ==> FullFrames(Push(c, s, p).1.value)
  {
    var t := Positioned(s, p);
    var pcm := DecodeStereo(c, p.data, p.samples);
    if pcm.Ok? {
      EmitReadyFull(c, t.(pending := t.pending + pcm.value), []);
    }
  }

  lemma {:induction false} FlushFull(c: Codec, s: State)
    ensures Flush(c, s).1.Ok? ==> FullFrames(Flush(c, s).1.value)
  {
    EmitReadyFull(c, s.(pending := Resized(s.pending, FRAME_VALUES)), []);
  }
}
