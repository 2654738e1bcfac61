/** The stream of frames the worker produces, tied to the PCM of the source: what a listener hears of a source
    that is read without failures (crates/discord-voice-service-playback/src/worker.rs over
    media/opus_normalizer.rs). */
module PlaybackStream {
  import opened Words
  import opened OpusNormalizer
  import opened OpusQueue
  import opened PlaybackPipeline
  import opened SourceRecovery

  lemma {:induction false} PushAllPrefix(c: Codec, packets: seq<Packet>, n: nat)
    requires n <= |packets| && PushAll(c, packets).Some?
    ensures PushAll(c, packets[..n]).Some?
  {
    if n < |packets| {
      PushAllStep(c, packets);
      PushAllPrefix(c, packets[..|packets| - 1], n);
      assert packets[..|packets| - 1][..n] == packets[..n];
    } else {
      assert packets[..n] == packets;
    }
  }

  lemma {:induction false} PushAllExtends(c: Codec, done: seq<Packet>, p: Packet)
    requires PushAll(c, done).Some?
    ensures var o := PushAll(c, done).value;
            var pushed := Push(c, o.state, p);
            PushAll(c, done + [p]) == if pushed.1.Ok? then Some(Outcome(pushed.0, o.frames + pushed.1.value)) else None
  {}

  predicate FlushesOk(c: Codec, packets: seq<Packet>) {
    PushAll(c, packets).Some? && Flush(c, PushAll(c, packets).value.state).1.Ok?
  }

  /** All the frames of a packet sequence: those pushed out, then the flush. */
  function AllFrames(c: Codec, packets: seq<Packet>): seq<Frame>
    requires FlushesOk(c, packets)
  {
    PushAll(c, packets).value.frames + Flush(c, PushAll(c, packets).value.state).1.value
  }

  lemma {:induction false} ChunkFirst(events: seq<ReadEvent>)
    requires events != [] && events[0].Chunk?
    ensures PacketsIn(events) == events[0].packets + PacketsIn(events[1..])
  {
    assert events == [events[0]] + events[1..];
    PacketsConcat([events[0]], events[1..]);
    assert PacketsIn([events[0]][..0]) == [];
  }

  lemma {:induction false} ComingFirst(c: Codec, held: State, packets: seq<Packet>, unread: seq<ReadEvent>)
    requires packets != [] && Push(c, held, packets[0]).1.Ok?
    ensures var (next, r) := Push(c, held, packets[0]);
            Coming(c, held, packets, unread) == r.value + Coming(c, next, packets[1..], unread)
  {}

  lemma {:induction false} Regroup(a: seq<Frame>, b: seq<Frame>, rest: seq<Frame>)
    ensures a + (b + rest) == (a + b) + rest
  {}

  /** Taking one packet moves its frames from those to come to those pushed out. */
  lemma {:induction false} PacketComes(c: Codec, done: seq<Packet>, packets: seq<Packet>, unread: seq<ReadEvent>)
    requires packets != [] && PushAll(c, done).Some? && PushAll(c, done + [packets[0]]).Some?
    ensures var o, next := PushAll(c, done).value, PushAll(c, done + [packets[0]]).value;
            o.frames + Coming(c, o.state, packets, unread) == next.frames + Coming(c, next.state, packets[1..], unread)
  {
    var o, next := PushAll(c, done).value, PushAll(c, done + [packets[0]]).value;
    PushAllExtends(c, done, packets[0]);
    ComingFirst(c, o.state, packets, unread);
    Regroup(o.frames, Push(c, o.state, packets[0]).1.value, Coming(c, next.state, packets[1..], unread));
  }

  lemma {:induction false} MoveFirst(done: seq<Packet>, packets: seq<Packet>, rest: seq<Packet>)
    requires packets != []
    ensures done + [packets[0]] + packets[1..] + rest == done + packets + rest
    ensures (done + packets + rest)[..|done| + 1] == done + [packets[0]]
  {
    assert packets == [packets[0]] + packets[1..];
  }

  lemma {:induction false} FrontPushes(c: Codec, done: seq<Packet>, packets: seq<Packet>, rest: seq<Packet>)
    requires packets != [] && PushAll(c, done + packets + rest).Some?
    ensures PushAll(c, done + [packets[0]]).Some?
    ensures done + [packets[0]] + packets[1..] + rest == done + packets + rest
  {
    MoveFirst(done, packets, rest);
    PushAllPrefix(c, done + packets + rest, |done| + 1);
  }

  /** Reading on after `done` yields the rest of the frames of everything. */
  lemma {:induction false} ComingIsTheRest(c: Codec, done: seq<Packet>, packets: seq<Packet>, unread: seq<ReadEvent>)
    requires AllChunks(unread) && PushAll(c, done).Some? && FlushesOk(c, done + packets + PacketsIn(unread))
    ensures var o := PushAll(c, done).value;
            o.frames + Coming(c, o.state, packets, unread) == AllFrames(c, done + packets + PacketsIn(unread))
    decreases |unread|, |packets|
  {
    var all := done + packets + PacketsIn(unread);
    if packets != [] {
      FrontPushes(c, done, packets, PacketsIn(unread));
      PacketComes(c, done, packets, unread);
      ComingIsTheRest(c, done + [packets[0]], packets[1..], unread);
    } else if unread != [] {
      assert AllChunks(unread[1..]);
      ChunkFirst(unread);
      assert done + unread[0].packets + PacketsIn(unread[1..]) == all;
      ComingIsTheRest(c, done, unread[0].packets, unread[1..]);
    } else {
      assert all == done;
    }
  }

  /** `frames` is the whole re-chunking of `pcm`: frame k carries samples 960 k to 960 (k + 1) at position
      first + 960 k, and a last frame pads what remains with silence. */
  predicate Chunks(c: Codec, pcm: seq<real>, first: u64, frames: seq<Frame>) {
    var last := |frames| - 1;
    && FRAME_VALUES * last < |pcm| <= FRAME_VALUES * |frames|
    && (forall k :: 0 <= k < last ==> FrameOf(c, pcm, first, frames[k], k))
    && (last >= 0 && |pcm| == FRAME_VALUES * |frames| ==> FrameOf(c, pcm, first, frames[last], last))
    && (last >= 0 && |pcm| < FRAME_VALUES * |frames| ==> PaddedFrame(c, pcm, first, frames[last], last))
  }

  /** `frame` carries what `pcm` has left after `k` frames, padded with silence. */
  predicate PaddedFrame(c: Codec, pcm: seq<real>, first: u64, frame: Frame, k: nat) {
    && FRAME_VALUES * k <= |pcm| <= FRAME_VALUES * (k + 1)
    && c.encode(pcm[FRAME_VALUES * k..] + Silence(FRAME_VALUES * (k + 1) - |pcm|)) == Some(frame.data)
    && frame == FrameAt(frame.data, Sat64(first + FRAME_SAMPLES * k))
  }

  /** The frames are the re-chunking of the PCM of the packets, from the first packet's timestamp on. */
  predicate Rechunked(c: Codec, packets: seq<Packet>, frames: seq<Frame>)
    requires packets != []
  {
    Chunks(c, Pcm(c, packets), packets[0].timestamp, frames)
  }

  lemma {:induction false} FlushCompletes(c: Codec, pcm: seq<real>, first: u64, frames: seq<Frame>, flushed: seq<Frame>)
    requires forall k :: 0 <= k < |frames| ==> FrameOf(c, pcm, first, frames[k], k)
    requires if flushed == [] then |pcm| == FRAME_VALUES * |frames|
             else |flushed| == 1 && 0 < |pcm| - FRAME_VALUES * |frames| < FRAME_VALUES && PaddedFrame(c, pcm, first, flushed[0], |frames|)
    ensures Chunks(c, pcm, first, frames + flushed)
  {
    var all := frames + flushed;
    assert forall k :: 0 <= k < |frames| ==> all[k] == frames[k];
    if flushed == [] {
      assert all == frames;
    } else {
      assert all[|frames|] == flushed[0];
    }
  }

  lemma {:induction false} AllFramesRechunked(c: Codec, packets: seq<Packet>)
    requires packets != [] && FlushesOk(c, packets)
    ensures Rechunked(c, packets, AllFrames(c, packets))
  {
    RechunkingIsExact(c, packets);
    FlushedChunks(c, Pcm(c, packets), packets[0].timestamp, PushAll(c, packets).value);
  }

  lemma {:induction false} FlushedChunks(c: Codec, pcm: seq<real>, first: u64, o: Outcome)
    requires Exact(c, pcm, first, o) && Flush(c, o.state).1.Ok?
    ensures Chunks(c, pcm, first, o.frames + Flush(c, o.state).1.value)
  {
    FlushPadsOnce(c, o.state);
    FlushCompletes(c, pcm, first, o.frames, Flush(c, o.state).1.value);
  }

  /** A new worker's stream is the re-chunking of its source. As the fill loop leaves this stream unchanged,
      this is what the queue receives. */
  lemma {:induction false} StreamIsRechunking(c: Codec, p: Pipeline)
    requires Contents(p.staged) == [] && p.held == EMPTY && AllChunks(p.unread)
    requires p.packets + PacketsIn(p.unread) != [] && FlushesOk(c, p.packets + PacketsIn(p.unread))
    ensures Rechunked(c, p.packets + PacketsIn(p.unread), Stream(c, p))
  {
    var all := p.packets + PacketsIn(p.unread);
    assert [] + p.packets + PacketsIn(p.unread) == all;
    ComingIsTheRest(c, [], p.packets, p.unread);
    AllFramesRechunked(c, all);
  }

  /** From a reopened source to the listener: a source resumed at `resume` over a gap-free stream that starts by
      then and extends past it makes a new worker play the re-chunking of exactly the packets ending after it,
      and the first frame, be it only the flush's, has a position p with p <= resume < p + the first packet's
      duration. */
  lemma {:induction false} ResumedStream(c: Codec, events: seq<ReadEvent>, n: nat, resume: u64, pending: seq<Packet>, position: u64, p: Pipeline)
    requires ReadUpTo(events, n, resume, pending, position) && (pending == [] ==> n == |events|) && AllChunks(events)
    requires GapFree(PacketsIn(events)) && PacketsIn(events) != []
    requires PacketsIn(events)[0].timestamp <= resume < Reach(PacketsIn(events))
    requires Contents(p.staged) == [] && p.held == EMPTY && p.packets == pending && p.unread == events[n..]
    requires FlushesOk(c, Overlapping(PacketsIn(events), resume))
    ensures pending != [] && pending[0].timestamp <= resume < pending[0].timestamp + pending[0].samples
    ensures Overlapping(PacketsIn(events), resume) != [] && Rechunked(c, Overlapping(PacketsIn(events), resume), Stream(c, p))
    ensures Stream(c, p) != [] && Stream(c, p)[0].position == pending[0].timestamp
  {
    var all := Overlapping(PacketsIn(events), resume);
    ResumeKeepsEverything(events, n, resume, pending, position);
    assert pending + PacketsIn(events[n..]) == all;
    StreamIsRechunking(c, p);
    PcmLength(c, all);
    FirstPacketCounts(all);
    RechunkedStartsAt(c, all, Stream(c, p));
  }

  lemma {:induction false} FirstPacketCounts(packets: seq<Packet>)
    requires packets != []
    ensures TotalSamples(packets) >= packets[0].samples
  {
    if |packets| > 1 {
      FirstPacketCounts(packets[..|packets| - 1]);
    }
  }

  /** The first frame of a re-chunking sits at the first packet's timestamp. */
  lemma {:induction false} RechunkedStartsAt(c: Codec, packets: seq<Packet>, frames: seq<Frame>)
    requires packets != [] && Rechunked(c, packets, frames) && Pcm(c, packets) != []
    ensures frames != [] && frames[0].position == packets[0].timestamp
  {
    if |frames| > 1 || |Pcm(c, packets)| == FRAME_VALUES * |frames| {
      assert FrameOf(c, Pcm(c, packets), packets[0].timestamp, frames[0], 0);
    }
  }
}
