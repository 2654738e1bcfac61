/** Everything between the stream and the listener as one value, the steps the fill loop takes on it
    (crates/discord-voice-service-playback/src/worker.rs), and what every path of such steps keeps. */
module PlaybackPipeline {
  import opened Words
  import opened OpusNormalizer
  import opened OpusQueue

  /** What the next read of the stream will bring: the packets demuxed from a chunk, or a failure of the
      read or of the demuxer. A stream with no event left is at its end. */
  datatype ReadEvent = Chunk(packets: seq<Packet>) | ReadFails | DemuxFails

  datatype FillError = Media(error: MediaError) | Read | Demux

  // ------------------------------------------------------------------ the simple form

  /** Everything between the stream and the listener: the three staging buffers, the held PCM and the
      unread stream. */
  datatype Pipeline = Pipeline(staged: Staged, held: State, packets: seq<Packet>, unread: seq<ReadEvent>)

  /** The frames still to come from the held PCM, the demuxed packets and the unread stream, up to the
      first failure; the end of the stream flushes. */
  function Coming(c: Codec, held: State, packets: seq<Packet>, unread: seq<ReadEvent>): seq<Frame>
    decreases |unread|, |packets|
  {
    if packets != [] then
      var (next, r) := Push(c, held, packets[0]);
      if r.Ok? then r.value + Coming(c, next, packets[1..], unread) else []
    else if unread == [] then
      var (_, r) := Flush(c, held);
      if r.Ok? then r.value else []
    else
      match unread[0]
      case Chunk(more) => Coming(c, held, more, unread[1..])
      case _ => []
  }

  /** The failure the rest of the stream runs into, if any. */
  function Failure(c: Codec, held: State, packets: seq<Packet>, unread: seq<ReadEvent>): Option<FillError>
    decreases |unread|, |packets|
  {
    if packets != [] then
      var (next, r) := Push(c, held, packets[0]);
      if r.Ok? then Failure(c, next, packets[1..], unread) else Some(Media(r.error))
    else if unread == [] then
      var (_, r) := Flush(c, held);
      if r.Ok? then None else Some(Media(r.error))
    else
      match unread[0]
      case Chunk(more) => Failure(c, held, more, unread[1..])
      case ReadFails => Some(Read)
      case DemuxFails => Some(Demux)
  }

  function FailureOf(c: Codec, p: Pipeline): Option<FillError> {
    Failure(c, p.held, p.packets, p.unread)
  }

  /** The whole stream of frames as the listener will hear it. */
  function Stream(c: Codec, p: Pipeline): seq<Frame> {
    Contents(p.staged) + Coming(c, p.held, p.packets, p.unread)
  }

  /** With full frames of at most `bound` bytes everywhere, the byte limit never decides. */
  predicate Tame(c: Codec, p: Pipeline, bound: nat) {
    && Modest(p.staged.queue, bound) && Roomy(p.staged.queue, bound)
    && FullFrames(p.staged.pending) && Small(Stream(c, p), bound)
  }

  /** From `p` to `q` no frame was lost or duplicated, nothing left the queue, what lies ahead fails as before or
      not at all, and the order is kept too where the byte limit never decides. */
  predicate Refines(c: Codec, bound: nat, p: Pipeline, q: Pipeline) {
    && multiset(Stream(c, q)) == multiset(Stream(c, p))
    && FailureOf(c, q) == FailureOf(c, p)
    && p.staged.queue.frames <= q.staged.queue.frames
    && (Tame(c, p, bound) ==> Stream(c, q) == Stream(c, p) && Tame(c, q, bound))
  }

  lemma {:induction false} RefinesItself(c: Codec, bound: nat, p: Pipeline)
    ensures Refines(c, bound, p, p)
  {}

  lemma {:induction false} RefinesChain(c: Codec, bound: nat, p: Pipeline, q: Pipeline, r: Pipeline)
    requires Refines(c, bound, p, q) && Refines(c, bound, q, r)
    ensures Refines(c, bound, p, r)
  {}

  /** The stream of `p` runs into `e`, and every frame before that has been staged. */
  predicate RunsInto(c: Codec, bound: nat, p: Pipeline, staged: Staged, e: FillError) {
    && FailureOf(c, p) == Some(e)
    && multiset(Contents(staged)) == multiset(Stream(c, p))
    && p.staged.queue.frames <= staged.queue.frames
    && (Tame(c, p, bound) ==> Contents(staged) == Stream(c, p))
  }

  /** Where nothing comes before the failure. */
  predicate FailsNext(c: Codec, p: Pipeline, e: FillError) {
    FailureOf(c, p) == Some(e) && Coming(c, p.held, p.packets, p.unread) == []
  }

  lemma {:induction false} RefinesThenFails(c: Codec, bound: nat, p: Pipeline, q: Pipeline, e: FillError)
    requires Refines(c, bound, p, q) && FailsNext(c, q, e)
    ensures RunsInto(c, bound, p, q.staged, e)
  {
    assert Stream(c, q) == Contents(q.staged);
  }

  lemma {:induction false} SmallParts(a: seq<Frame>, b: seq<Frame>, bound: nat)
    ensures Small(a + b, bound) <==> Small(a, bound) && Small(b, bound)
  {
    assert forall k :: 0 <= k < |a| ==> (a + b)[k] == a[k];
    assert forall k :: 0 <= k < |b| ==> (a + b)[|a| + k] == b[k];
  }

  lemma {:induction false} DrainRefines(c: Codec, bound: nat, p: Pipeline)
    ensures Refines(c, bound, p, p.(staged := Drain(p.staged)))
  {
    DrainKeepsOrder(p.staged);
    if Tame(c, p, bound) {
      SmallParts(Contents(p.staged), Coming(c, p.held, p.packets, p.unread), bound);
      SmallParts(p.staged.queue.frames, p.staged.pending, bound);
      DrainStaysModest(p.staged, bound);
    }
  }

  /** Frames taken from what is to come and enqueued while nothing waits. */
  lemma {:induction false} EnqueueRefines(c: Codec, bound: nat, p: Pipeline, q: Pipeline, frames: seq<Frame>)
    requires p.staged.pending == [] && FullFrames(frames)
    requires q.staged == Enqueue(p.staged, frames)
    requires Coming(c, p.held, p.packets, p.unread) == frames + Coming(c, q.held, q.packets, q.unread)
    requires FailureOf(c, p) == FailureOf(c, q)
    ensures Refines(c, bound, p, q)
  {
    var rest := Coming(c, q.held, q.packets, q.unread);
    EnqueueConserves(p.staged, frames);
    assert Contents(p.staged) + (frames + rest) == Contents(p.staged) + frames + rest;
    if Tame(c, p, bound) {
      SmallParts(Contents(p.staged), frames + rest, bound);
      SmallParts(frames, rest, bound);
      RoomyNeverOvertakes(p.staged.queue, frames, bound);
      EnqueueKeepsOrderIff(p.staged, frames);
      EnqueueStaysModest(p.staged, frames, bound);
    }
  }

  /** Buffering the first waiting packet. */
  lemma {:induction false} PushRefines(c: Codec, bound: nat, p: Pipeline)
    requires p.staged.pending == [] && p.packets != [] && Push(c, p.held, p.packets[0]).1.Ok?
    ensures var (next, r) := Push(c, p.held, p.packets[0]);
            Refines(c, bound, p, Pipeline(Enqueue(p.staged, r.value), next, p.packets[1..], p.unread))
  {
    var (next, r) := Push(c, p.held, p.packets[0]);
    PushFull(c, p.held, p.packets[0]);
    EnqueueRefines(c, bound, p, Pipeline(Enqueue(p.staged, r.value), next, p.packets[1..], p.unread), r.value);
  }

  lemma {:induction false} ReadRefines(c: Codec, bound: nat, p: Pipeline)
    requires p.packets == [] && p.unread != [] && p.unread[0].Chunk?
    ensures Refines(c, bound, p, p.(packets := p.unread[0].packets, unread := p.unread[1..]))
  {}

  /** The flush at the end of the stream, after which nothing is to come. */
  lemma {:induction false} FlushRefines(c: Codec, bound: nat, p: Pipeline)
    requires p.staged.pending == [] && p.packets == [] && p.unread == []
    requires Flush(c, p.held).1.Ok?
    ensures var (next, r) := Flush(c, p.held);
            Refines(c, bound, p, p.(staged := Enqueue(p.staged, r.value), held := next)) && next.pending == []
  {
    var (next, r) := Flush(c, p.held);
    FlushPadsOnce(c, p.held);
    FlushFull(c, p.held);
    assert r.value + [] == r.value;
    EnqueueRefines(c, bound, p, p.(staged := Enqueue(p.staged, r.value), held := next), r.value);
  }

  // ------------------------------------------------------------------ the steps of the loop

  predicate Below(q: Queue, target: u64) {
    q.samples < target && !Full(q)
  }

  predicate Drains(p: Pipeline, q: Pipeline) {
    q == p.(staged := Drain(p.staged))
  }

  predicate Reads(p: Pipeline, q: Pipeline) {
    && p.staged.pending == [] && p.packets == [] && p.unread != [] && p.unread[0].Chunk?
    && q == p.(packets := p.unread[0].packets, unread := p.unread[1..])
  }

  predicate Pushes(c: Codec, p: Pipeline, q: Pipeline) {
    && p.staged.pending == [] && p.packets != []
    && var (next, r) := Push(c, p.held, p.packets[0]);
       r.Ok? && q == Pipeline(Enqueue(p.staged, r.value), next, p.packets[1..], p.unread)
  }

  predicate Flushes(c: Codec, p: Pipeline, q: Pipeline) {
    && p.staged.pending == [] && p.packets == [] && p.unread == []
    && var (next, r) := Flush(c, p.held);
       r.Ok? && q == p.(staged := Enqueue(p.staged, r.value), held := next)
  }

  /** One step: only while the target is not met and the queue is not full, and nothing new is staged while a
      frame waits. */
  predicate Step(c: Codec, target: u64, p: Pipeline, q: Pipeline) {
    Below(p.staged.queue, target) && (Drains(p, q) || Reads(p, q) || Pushes(c, p, q) || Flushes(c, p, q))
  }

  predicate IsPath(c: Codec, target: u64, path: seq<Pipeline>) {
    |path| > 0
    && (|path| == 1 || (IsPath(c, target, path[..|path| - 1]) && Step(c, target, path[|path| - 2], path[|path| - 1])))
  }

  function Last(path: seq<Pipeline>): Pipeline
    requires |path| > 0
  {
    path[|path| - 1]
  }

  lemma {:induction false} PathPush(c: Codec, target: u64, path: seq<Pipeline>, q: Pipeline)
    requires IsPath(c, target, path) && Step(c, target, Last(path), q)
    ensures IsPath(c, target, path + [q]) && Last(path + [q]) == q && (path + [q])[0] == path[0]
  {
    assert (path + [q])[..|path|] == path;
  }

  // ------------------------------------------------------------------ what every path keeps

  lemma {:induction false} StepRefines(c: Codec, bound: nat, target: u64, p: Pipeline, q: Pipeline)
    requires Step(c, target, p, q)
    ensures Refines(c, bound, p, q)
  {
    if Drains(p, q) {
      DrainRefines(c, bound, p);
    } else if Reads(p, q) {
      ReadRefines(c, bound, p);
    } else if Pushes(c, p, q) {
      PushRefines(c, bound, p);
    } else {
      FlushRefines(c, bound, p);
    }
  }

  /** Whatever the path, nothing is lost or duplicated, and the failure ahead stays the same. */
  lemma {:induction false} PathRefines(c: Codec, bound: nat, target: u64, path: seq<Pipeline>)
    requires IsPath(c, target, path)
    ensures Refines(c, bound, path[0], Last(path))
  {
    if |path| == 1 {
      RefinesItself(c, bound, path[0]);
    } else {
      var front := path[..|path| - 1];
      PathRefines(c, bound, target, front);
      StepRefines(c, bound, target, Last(front), Last(path));
      RefinesChain(c, bound, path[0], Last(front), Last(path));
    }
  }

  /** The frames an enqueue step takes, none for the other steps. */
  function Taken(c: Codec, p: Pipeline, q: Pipeline): seq<Frame> {
    if Pushes(c, p, q) then Push(c, p.held, p.packets[0]).1.value
    else if Flushes(c, p, q) then Flush(c, p.held).1.value
    else []
  }

  /** No enqueue of the path lets a frame overtake one that was refused. */
  predicate NoneOvertakes(c: Codec, path: seq<Pipeline>) {
    |path| <= 1
    || (NoneOvertakes(c, path[..|path| - 1])
        && NoOvertaking(path[|path| - 2].staged.queue, Taken(c, path[|path| - 2], path[|path| - 1])))
  }

  /** From `p` to `q` the staged frames of `p` stay where they are, and what `q` has not staged is as it was. */
  predicate Settles(c: Codec, p: Pipeline, q: Pipeline) {
    var m, n := |Contents(p.staged)|, |Contents(q.staged)|;
    && m <= n <= |Stream(c, p)| == |Stream(c, q)|
    && Stream(c, q)[..m] == Stream(c, p)[..m]
    && Stream(c, q)[n..] == Stream(c, p)[n..]
  }

  lemma {:induction false} EnqueueAppends(s: Staged, frames: seq<Frame>)
    requires s.pending == []
    ensures |Contents(Enqueue(s, frames))| == |Contents(s)| + |frames|
    ensures Contents(Enqueue(s, frames))[..|Contents(s)|] == Contents(s)
  {
    EnqueueConserves(s, frames);
    var t := Enqueue(s, frames);
    assert |multiset(Contents(t))| == |Contents(t)|;
    assert Contents(s) == s.queue.frames;
    assert Contents(t)[..|s.queue.frames|] == t.queue.frames[..|s.queue.frames|];
  }

  lemma {:induction false} SameStream(a: seq<Frame>, b: seq<Frame>, rest: seq<Frame>)
    requires |a| == |b|
    ensures a + rest == b + rest <==> a == b
  {
    if a + rest == b + rest {
      assert a == (a + rest)[..|a|] == (b + rest)[..|a|] == b;
    }
  }

  /** Two streams with the same rest, and contents of which one starts like the other. */
  lemma {:induction false} Aligned(old': seq<Frame>, frames: seq<Frame>, new': seq<Frame>, rest: seq<Frame>)
    requires |new'| == |old'| + |frames| && new'[..|old'|] == old'
    ensures (new' + rest)[..|old'|] == (old' + (frames + rest))[..|old'|]
    ensures (new' + rest)[|new'|..] == (old' + (frames + rest))[|new'|..]
    ensures new' + rest == old' + (frames + rest) <==> new' == old' + frames
  {
    assert old' + (frames + rest) == (old' + frames) + rest;
    SameStream(new', old' + frames, rest);
  }

  /** An enqueue of frames that come next. */
  lemma {:induction false} EnqueueOrder(c: Codec, p: Pipeline, q: Pipeline, frames: seq<Frame>)
    requires p.staged.pending == [] && q.staged == Enqueue(p.staged, frames)
    requires Coming(c, p.held, p.packets, p.unread) == frames + Coming(c, q.held, q.packets, q.unread)
    ensures Settles(c, p, q)
    ensures Stream(c, q) == Stream(c, p) <==> NoOvertaking(p.staged.queue, frames)
  {
    EnqueueAppends(p.staged, frames);
    EnqueueKeepsOrderIff(p.staged, frames);
    Aligned(Contents(p.staged), frames, Contents(q.staged), Coming(c, q.held, q.packets, q.unread));
  }

  lemma {:induction false} PushComing(c: Codec, p: Pipeline, q: Pipeline)
    requires Pushes(c, p, q)
    ensures Coming(c, p.held, p.packets, p.unread) == Taken(c, p, q) + Coming(c, q.held, q.packets, q.unread)
    ensures q.staged == Enqueue(p.staged, Taken(c, p, q))
  {}

  lemma {:induction false} FlushComing(c: Codec, p: Pipeline, q: Pipeline)
    requires Flushes(c, p, q)
    ensures Coming(c, p.held, p.packets, p.unread) == Taken(c, p, q) + Coming(c, q.held, q.packets, q.unread)
    ensures q.staged == Enqueue(p.staged, Taken(c, p, q))
  {
    FlushPadsOnce(c, p.held);
    assert Taken(c, p, q) + [] == Taken(c, p, q);
  }

  lemma {:induction false} SameStreamSettles(c: Codec, p: Pipeline, q: Pipeline)
    requires Stream(c, q) == Stream(c, p) && |Contents(p.staged)| == |Contents(q.staged)|
    ensures Settles(c, p, q)
  {}

  lemma {:induction false} StepOrder(c: Codec, target: u64, p: Pipeline, q: Pipeline)
    requires Step(c, target, p, q)
    ensures Settles(c, p, q)
    ensures Stream(c, q) == Stream(c, p) <==> NoOvertaking(p.staged.queue, Taken(c, p, q))
  {
    if Pushes(c, p, q) {
      PushComing(c, p, q);
      EnqueueOrder(c, p, q, Taken(c, p, q));
    } else if Flushes(c, p, q) {
      FlushComing(c, p, q);
      EnqueueOrder(c, p, q, Taken(c, p, q));
    } else {
      if Drains(p, q) {
        DrainKeepsOrder(p.staged);
      }
      assert Stream(c, q) == Stream(c, p);
      SameStreamSettles(c, p, q);
    }
  }

  /** What is staged later cannot undo a reordering. */
  lemma {:induction false} SettlesChain(c: Codec, p: Pipeline, q: Pipeline, r: Pipeline)
    requires Settles(c, p, q) && Settles(c, q, r)
    ensures Settles(c, p, r)
    ensures Stream(c, r) == Stream(c, p) <==> Stream(c, q) == Stream(c, p) && Stream(c, r) == Stream(c, q)
  {
    var a, b, d := Stream(c, p), Stream(c, q), Stream(c, r);
    var k, m, n := |Contents(p.staged)|, |Contents(q.staged)|, |Contents(r.staged)|;
    assert d[..k] == d[..m][..k] == b[..m][..k] == b[..k];
    assert a[n..] == a[m..][n - m..] == b[m..][n - m..] == b[n..];
    if d == a {
      assert b == b[..m] + b[m..] == d[..m] + a[m..] == a;
    }
  }

  /** Over a whole path the order of the stream is kept if and only if no enqueue on it lets a frame overtake a
      refused one. */
  lemma {:induction false} PathKeepsOrderIff(c: Codec, target: u64, path: seq<Pipeline>)
    requires IsPath(c, target, path)
    ensures Settles(c, path[0], Last(path))
    ensures Stream(c, Last(path)) == Stream(c, path[0]) <==> NoneOvertakes(c, path)
  {
    if |path| == 1 {
      SameStreamSettles(c, path[0], path[0]);
    } else {
      var front, p, q, r := path[..|path| - 1], path[0], path[|path| - 2], path[|path| - 1];
      PathKeepsOrderIff(c, target, front);
      assert front[0] == p && Last(front) == q && Last(path) == r;
      PathOrderStep(c, target, p, q, r);
    }
  }

  lemma {:induction false} PathOrderStep(c: Codec, target: u64, p: Pipeline, q: Pipeline, r: Pipeline)
    requires Settles(c, p, q) && Step(c, target, q, r)
    ensures Settles(c, p, r)
    ensures Stream(c, r) == Stream(c, p) <==> Stream(c, q) == Stream(c, p) && NoOvertaking(q.staged.queue, Taken(c, q, r))
  {
    StepOrder(c, target, q, r);
    SettlesChain(c, p, q, r);
  }

  /** A path that ends where the stream fails next has staged every frame before the failure. */
  lemma {:induction false} PathRunsInto(c: Codec, bound: nat, target: u64, path: seq<Pipeline>, e: FillError)
    requires IsPath(c, target, path) && FailsNext(c, Last(path), e)
    ensures RunsInto(c, bound, path[0], Last(path).staged, e)
  {
    PathRefines(c, bound, target, path);
    RefinesThenFails(c, bound, path[0], Last(path), e);
  }

  predicate EndsWith(packets: seq<Packet>, tail: seq<Packet>) {
    |tail| <= |packets| && packets[|packets| - |tail|..] == tail
  }

  /** Some step of the path read a chunk that ends with `tail`. */
  predicate ReadChunkEndingIn(path: seq<Pipeline>, tail: seq<Packet>) {
    exists i :: 0 < i < |path| && Reads(path[i - 1], path[i]) && EndsWith(path[i].packets, tail)
  }

  lemma {:induction false} ReadOnTheWay(path: seq<Pipeline>, read: Pipeline, longer: seq<Pipeline>, tail: seq<Packet>)
    requires path != [] && Reads(Last(path), read) && path + [read] <= longer && EndsWith(read.packets, tail)
    ensures ReadChunkEndingIn(longer, tail)
  {
    var i := |path|;
    assert longer[i] == (path + [read])[i] == read && longer[i - 1] == (path + [read])[i - 1] == Last(path);
  }
}
