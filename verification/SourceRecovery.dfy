/** Reopening a source at a resume position
    (crates/discord-voice-service-playback/src/recovery.rs, open_from_position). */
module SourceRecovery {
  import opened Words
  import opened OpusNormalizer
  import opened PlaybackPipeline

  datatype Opened = Opened(pendingPackets: seq<Packet>, unread: seq<ReadEvent>, timestampSamples: u64, sentSamples: u64)

  datatype OpenError = UnexpectedEnd | EndedBeforeResume | OpenFailed(error: FillError)

  /** `packet_end_samples`. */
  function EndOf(p: Packet): u64 {
    Sat64(p.timestamp + p.samples)
  }

  predicate OverlapsResume(p: Packet, resume: u64) {
    EndOf(p) > resume
  }

  /** The packets of the chunks, in order. */
  function PacketsIn(events: seq<ReadEvent>): seq<Packet> {
    if |events| == 0 then []
    else PacketsIn(events[..|events| - 1]) + if events[|events| - 1].Chunk? then events[|events| - 1].packets else []
  }

  function Overlapping(packets: seq<Packet>, resume: u64): seq<Packet> {
    if |packets| == 0 then [] else
    var last := packets[|packets| - 1];
    Overlapping(packets[..|packets| - 1], resume) + if OverlapsResume(last, resume) then [last] else []
  }

  /** How far the packets reach: the largest end. */
  function Reach(packets: seq<Packet>): u64 {
    if |packets| == 0 then 0 else Max(Reach(packets[..|packets| - 1]), EndOf(packets[|packets| - 1]))
  }

  predicate AllChunks(events: seq<ReadEvent>) {
    forall i :: 0 <= i < |events| ==> events[i].Chunk?
  }

  /** What is left when the first `n` events have been read and their packets filtered. */
  predicate ReadUpTo(events: seq<ReadEvent>, n: nat, resume: u64, pending: seq<Packet>, position: u64) {
    && n <= |events|
    && AllChunks(events[..n])
    && pending == Overlapping(PacketsIn(events[..n]), resume)
    && position == Reach(PacketsIn(events[..n]))
  }

  lemma {:induction false} OverlappingConcat(a: seq<Packet>, b: seq<Packet>, resume: u64)
    ensures Overlapping(a + b, resume) == Overlapping(a, resume) + Overlapping(b, resume)
  {
    if |b| == 0 {
      assert a + b == a;
    } else {
      OverlappingConcat(a, b[..|b| - 1], resume);
      var c, n := a + b, |a + b| - 1;
      assert c[..n] == a + b[..|b| - 1] && c[n] == b[|b| - 1];
    }
  }

  lemma {:induction false} ReachConcat(a: seq<Packet>, b: seq<Packet>)
    ensures Reach(a + b) == Max(Reach(a), Reach(b))
  {
    if |b| == 0 {
      assert a + b == a;
    } else {
      ReachConcat(a, b[..|b| - 1]);
      var c, n := a + b, |a + b| - 1;
      assert c[..n] == a + b[..|b| - 1] && c[n] == b[|b| - 1];
    }
  }

  lemma {:induction false} PacketsConcat(a: seq<ReadEvent>, b: seq<ReadEvent>)
    ensures PacketsIn(a + b) == PacketsIn(a) + PacketsIn(b)
  {
    if |b| == 0 {
      assert a + b == a;
    } else {
      PacketsConcat(a, b[..|b| - 1]);
      var c, n := a + b, |a + b| - 1;
      assert c[..n] == a + b[..|b| - 1] && c[n] == b[|b| - 1];
    }
  }

  /** The two places where `open_from_position` takes the packets of a chunk. */
  method TakeChunk(packets: seq<Packet>, resume: u64, pending: seq<Packet>, position: u64)
    returns (pending': seq<Packet>, position': u64)
    ensures pending' == pending + Overlapping(packets, resume)
    ensures position' == Max(position, Reach(packets))
  {
    pending', position' := pending, position;
    for i := 0 to |packets|
      invariant pending' == pending + Overlapping(packets[..i], resume)
      invariant position' == Max(position, Reach(packets[..i]))
    {
      assert packets[..i + 1][..i] == packets[..i];
      position' := Max(position', EndOf(packets[i]));
      if OverlapsResume(packets[i], resume) {
        pending' := pending' + [packets[i]];
      }
    }
    assert packets[..|packets|] == packets;
  }

  lemma {:induction false} ReadOneMore(events: seq<ReadEvent>, n: nat, resume: u64, pending: seq<Packet>, position: u64)
    requires n < |events| && ReadUpTo(events, n, resume, pending, position) && events[n].Chunk?
    ensures ReadUpTo(events, n + 1, resume, pending + Overlapping(events[n].packets, resume), Max(position, Reach(events[n].packets)))
  {
    assert events[..n + 1] == events[..n] + [events[n]];
    OverlappingConcat(PacketsIn(events[..n]), events[n].packets, resume);
    ReachConcat(PacketsIn(events[..n]), events[n].packets);
  }

  /** The chunks read so far hold no packet past the resume position, or do not reach it. */
  predicate NeedsMore(events: seq<ReadEvent>, resume: u64) {
    Overlapping(PacketsIn(events), resume) == [] || Reach(PacketsIn(events)) < resume
  }

  lemma {:induction false} PrefixReach(events: seq<ReadEvent>, n: nat)
    requires n <= |events|
    ensures Reach(PacketsIn(events[..n])) <= Reach(PacketsIn(events))
  {
    assert events == events[..n] + events[n..];
    PacketsConcat(events[..n], events[n..]);
    ReachConcat(PacketsIn(events[..n]), PacketsIn(events[n..]));
  }

  /** The chunks before event `n` all need more, and event `n` fails with `error`. */
  predicate FailsAt(events: seq<ReadEvent>, n: nat, resume: u64, error: FillError) {
    && n < |events| && AllChunks(events[..n])
    && (forall m :: 0 < m <= n ==> NeedsMore(events[..m], resume))
    && EventFailure(events[n]) == Some(error)
  }

  /** None of the first prefixes, up to `n` chunks, was enough. */
  predicate NeededAll(events: seq<ReadEvent>, n: nat, resume: u64)
    requires n <= |events|
  {
    forall m :: 0 < m < n ==> NeedsMore(events[..m], resume)
  }

  lemma {:induction false} NeededOneMore(events: seq<ReadEvent>, n: nat, resume: u64, pending: seq<Packet>, position: u64)
    requires n < |events| && ReadUpTo(events, n, resume, pending, position) && NeededAll(events, n, resume)
    requires pending == [] || position < resume
    ensures NeededAll(events, n + 1, resume)
  {}

  lemma {:induction false} FailsHere(events: seq<ReadEvent>, n: nat, resume: u64, pending: seq<Packet>, position: u64, error: FillError)
    requires n < |events| && ReadUpTo(events, n, resume, pending, position) && NeededAll(events, n, resume)
    requires pending == [] || position < resume
    requires EventFailure(events[n]) == Some(error)
    ensures FailsAt(events, n, resume, error)
  {}

  /** When `n` chunks were enough, or all there are, no failure is met. */
  lemma {:induction false} FailsNowhere(events: seq<ReadEvent>, n: nat, resume: u64, pending: seq<Packet>, position: u64)
    requires 0 < n <= |events| && ReadUpTo(events, n, resume, pending, position)
    requires n == |events| || (pending != [] && position >= resume)
    ensures forall k: nat, e :: !FailsAt(events, k, resume, e)
  {
    forall k: nat, e
      ensures !FailsAt(events, k, resume, e)
    {
      if k < n {
        assert events[..n][k] == events[k];
      }
    }
  }

  function EventFailure(e: ReadEvent): Option<FillError> {
    match e case Chunk(_) => None case ReadFails => Some(Read) case DemuxFails => Some(Demux)
  }

  /** Reads until a packet past the resume position is in hand and the position is reached. `n` is the
      number of chunks read. */
  method OpenFromPosition(events: seq<ReadEvent>, resume: u64) returns (r: Result<Opened, OpenError>, ghost n: nat)
    ensures r.Ok? ==>
      && ReadUpTo(events, n, resume, r.value.pendingPackets, r.value.timestampSamples)
      && r.value.unread == events[n..] && r.value.sentSamples == resume
      && r.value.timestampSamples >= resume
      && n > 0 && (r.value.pendingPackets == [] ==> n == |events|)
      && NeededAll(events, n, resume)
    ensures r == Err(UnexpectedEnd) <==> events == []
    ensures r == Err(EndedBeforeResume) <==> events != [] && AllChunks(events) && Reach(PacketsIn(events)) < resume
    ensures r.Err? && r.error.OpenFailed? <==> exists k: nat, e :: FailsAt(events, k, resume, e)
    ensures r.Err? && r.error.OpenFailed? ==> FailsAt(events, n, resume, r.error.error)
  {
    n := 0;
    var pending: seq<Packet>, position: u64, unread := [], 0, events;
    if unread == [] {
      return Err(UnexpectedEnd), 0;
    }
    var opening := unread[0];
    if EventFailure(opening).Some? {
      assert FailsAt(events, 0, resume, EventFailure(opening).value);
      return Err(OpenFailed(EventFailure(opening).value)), 0;
    }
    assert ReadUpTo(events, 0, resume, pending, position);
    ReadOneMore(events, 0, resume, pending, position);
    pending, position := TakeChunk(opening.packets, resume, pending, position);
    unread, n := unread[1..], 1;
    while pending == [] || position < resume
      invariant 0 < n <= |events| && unread == events[n..]
      invariant ReadUpTo(events, n, resume, pending, position)
      invariant NeededAll(events, n, resume)
      decreases |unread|
    {
      if unread == [] {
        break;
      }
      var next := unread[0];
      if EventFailure(next).Some? {
        FailsHere(events, n, resume, pending, position, EventFailure(next).value);
        return Err(OpenFailed(EventFailure(next).value)), n;
      }
      ReadOneMore(events, n, resume, pending, position);
      NeededOneMore(events, n, resume, pending, position);
      pending, position := TakeChunk(next.packets, resume, pending, position);
      unread, n := unread[1..], n + 1;
    }
    FailsNowhere(events, n, resume, pending, position);
    if position < resume {
      assert events[..n] == events;
      return Err(EndedBeforeResume), n;
    }
    PrefixReach(events, n);
    var sent := 0;
    if resume != 0 {
      sent := resume;
    }
    r := Ok(Opened(pending, unread, position, sent));
  }

  // ------------------------------------------------------------------ resuming loses nothing

  /** Each packet starts where the one before it ends. */
  predicate GapFree(packets: seq<Packet>) {
    forall i :: 0 < i < |packets| ==> packets[i].timestamp == packets[i - 1].timestamp + packets[i - 1].samples
  }

  /** In a gap-free stream, what follows an overlapping packet overlaps too. */
  lemma {:induction false} LaterOverlaps(packets: seq<Packet>, resume: u64, i: nat, j: nat)
    requires GapFree(packets) && i <= j < |packets| && OverlapsResume(packets[i], resume)
    ensures OverlapsResume(packets[j], resume)
    decreases j
  {
    if i < j {
      LaterOverlaps(packets, resume, i, j - 1);
      assert packets[j].timestamp == packets[j - 1].timestamp + packets[j - 1].samples;
    }
  }

  /** The first packet kept is the first that overlaps. */
  lemma {:induction false} FirstKept(packets: seq<Packet>, resume: u64) returns (k: nat)
    requires Overlapping(packets, resume) != []
    ensures k < |packets| && Overlapping(packets, resume)[0] == packets[k] && OverlapsResume(packets[k], resume)
    ensures forall i :: 0 <= i < k ==> !OverlapsResume(packets[i], resume)
  {
    var n := |packets| - 1;
    if Overlapping(packets[..n], resume) != [] {
      k := FirstKept(packets[..n], resume);
    } else {
      k := n;
      NoneKept(packets[..n], resume);
    }
  }

  lemma {:induction false} NoneKept(packets: seq<Packet>, resume: u64)
    requires Overlapping(packets, resume) == []
    ensures forall i :: 0 <= i < |packets| ==> !OverlapsResume(packets[i], resume)
    ensures Reach(packets) <= resume
  {
    if |packets| > 0 {
      NoneKept(packets[..|packets| - 1], resume);
    }
  }

  lemma {:induction false} AllOverlap(packets: seq<Packet>, resume: u64)
    requires forall i :: 0 <= i < |packets| ==> OverlapsResume(packets[i], resume)
    ensures Overlapping(packets, resume) == packets
  {
    if |packets| > 0 {
      AllOverlap(packets[..|packets| - 1], resume);
      assert packets[..|packets| - 1] + [packets[|packets| - 1]] == packets;
    }
  }

  /** Once a packet read so far overlaps, every unread packet does. */
  lemma {:induction false} RestOverlaps(front: seq<Packet>, rest: seq<Packet>, resume: u64)
    requires GapFree(front + rest) && Overlapping(front, resume) != []
    ensures Overlapping(rest, resume) == rest
  {
    var k := FirstKept(front, resume);
    forall i | 0 <= i < |rest|
      ensures OverlapsResume(rest[i], resume)
    {
      LaterOverlaps(front + rest, resume, k, |front| + i);
    }
    AllOverlap(rest, resume);
  }

  /** The first overlapping packet of a gap-free stream that starts by the resume position contains it. */
  lemma {:induction false} FirstKeptContainsResume(packets: seq<Packet>, resume: u64)
    requires GapFree(packets) && Overlapping(packets, resume) != [] && packets[0].timestamp <= resume
    ensures var first := Overlapping(packets, resume)[0];
            first.timestamp <= resume < first.timestamp + first.samples
  {
    var k := FirstKept(packets, resume);
    if k > 0 {
      assert packets[k].timestamp == packets[k - 1].timestamp + packets[k - 1].samples;
    }
  }

  lemma {:induction false} KeptSomething(front: seq<Packet>, rest: seq<Packet>, resume: u64)
    requires Reach(front + rest) > resume && (Overlapping(front, resume) == [] ==> rest == [])
    ensures Overlapping(front, resume) != []
  {
    ReachConcat(front, rest);
    if Overlapping(front, resume) == [] {
      NoneKept(front, resume);
    }
  }

  /** Resuming over a gap-free stream that starts at or before the resume position and extends past it:
      the packets kept and those still unread are, in order, exactly the packets ending after it, and the
      first of them contains it. Nothing unheard is skipped, at most one packet is partly replayed. */
  lemma {:induction false} ResumeKeepsEverything(events: seq<ReadEvent>, n: nat, resume: u64, pending: seq<Packet>, position: u64)
    requires ReadUpTo(events, n, resume, pending, position) && (pending == [] ==> n == |events|)
    requires GapFree(PacketsIn(events)) && PacketsIn(events) != []
    requires PacketsIn(events)[0].timestamp <= resume < Reach(PacketsIn(events))
    ensures pending + PacketsIn(events[n..]) == Overlapping(PacketsIn(events), resume)
    ensures pending != [] && pending[0].timestamp <= resume < pending[0].timestamp + pending[0].samples
  {
    var all, front, rest := PacketsIn(events), PacketsIn(events[..n]), PacketsIn(events[n..]);
    assert events == events[..n] + events[n..];
    PacketsConcat(events[..n], events[n..]);
    OverlappingConcat(front, rest, resume);
    KeptSomething(front, rest, resume);
    RestOverlaps(front, rest, resume);
    FirstKeptContainsResume(all, resume);
  }

  /** The first frame played after resuming starts at or before the resume position, and within one source
      packet of it. */
  lemma {:induction false} FirstResumedFrame(c: Codec, packets: seq<Packet>, resume: u64)
    requires |packets| > 0 && packets[0].timestamp <= resume < packets[0].timestamp + packets[0].samples
    requires PushAll(c, packets).Some? && PushAll(c, packets).value.frames != []
    ensures var p := PushAll(c, packets).value.frames[0].position;
            p <= resume < p + packets[0].samples
  {
    RechunkingIsExact(c, packets);
    assert FrameOf(c, Pcm(c, packets), packets[0].timestamp, PushAll(c, packets).value.frames[0], 0);
  }
}
