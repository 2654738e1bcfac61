/** The fill loop that moves media from the source through the normalizer into the queue
    (crates/discord-voice-service-playback/src/worker.rs). */
module PlaybackWorker {
  import opened Words
  import opened OpusNormalizer
  import opened OpusQueue
  import opened PlaybackPipeline

  /** The source as the fill loop sees it. */
  class PacketSource {
    var pendingPackets: seq<Packet>
    var unread: seq<ReadEvent>

    constructor (pendingPackets: seq<Packet>, unread: seq<ReadEvent>)
      ensures this.pendingPackets == pendingPackets && this.unread == unread
    {
      this.pendingPackets := pendingPackets;
      this.unread := unread;
    }

    /** One read of the stream and one pass of the demuxer; None at the end. */
    method ReadPackets() returns (r: Result<Option<seq<Packet>>, FillError>)
      modifies this`unread
      ensures old(unread) == [] ==> r == Ok(None) && unread == []
      ensures old(unread) != [] ==>
        && unread == old(unread)[1..]
        && r == match old(unread)[0]
                case Chunk(packets) => Ok(Some(packets))
                case ReadFails => Err(Read)
                case DemuxFails => Err(Demux)
    {
      if unread == [] {
        return Ok(None);
      }
      var event := unread[0];
      unread := unread[1..];
      match event
      case Chunk(packets) => r := Ok(Some(packets));
      case ReadFails => r := Err(Read);
      case DemuxFails => r := Err(Demux);
    }
  }

  class Worker {
    const normalizer: DiscordOpusFrameNormalizer
    var pendingFrames: seq<Frame>

    constructor (codec: Codec)
      ensures normalizer.codec == codec && normalizer.View() == EMPTY && pendingFrames == []
      ensures fresh(normalizer)
    {
      normalizer := new DiscordOpusFrameNormalizer(codec);
      pendingFrames := [];
    }

    function StagedIn(queue: OpusFrameQueue): Staged
      reads this, queue
    {
      Staged(queue.View(), pendingFrames)
    }

    function View(queue: OpusFrameQueue, source: PacketSource): Pipeline
      reads this, queue, source, normalizer
    {
      Pipeline(StagedIn(queue), normalizer.View(), source.pendingPackets, source.unread)
    }

    method DrainPendingFrames(queue: OpusFrameQueue) returns (drained: bool)
      modifies this, queue
      ensures StagedIn(queue) == Drain(old(StagedIn(queue)))
      ensures drained <==> pendingFrames == []
    {
      while pendingFrames != []
        invariant Drain(StagedIn(queue)) == Drain(old(StagedIn(queue)))
        decreases |pendingFrames|
      {
        if !Fits(queue.View(), pendingFrames[0]) {
          return false;
        }
        var ok := queue.Push(pendingFrames[0]);
        pendingFrames := pendingFrames[1..];
      }
      drained := true;
    }

    method EnqueueFrames(queue: OpusFrameQueue, frames: seq<Frame>)
      modifies this, queue
      ensures StagedIn(queue) == Enqueue(old(StagedIn(queue)), frames)
    {
      for i := 0 to |frames|
        invariant Enqueue(StagedIn(queue), frames[i..]) == Enqueue(old(StagedIn(queue)), frames)
      {
        assert frames[i..][0] == frames[i] && frames[i..][1..] == frames[i + 1..];
        if Fits(queue.View(), frames[i]) {
          var ok := queue.Push(frames[i]);
        } else {
          pendingFrames := pendingFrames + [frames[i]];
        }
      }
    }

    method BufferPacket(queue: OpusFrameQueue, packet: Packet) returns (r: Result<(), FillError>)
      modifies this, queue, normalizer
      ensures var (next, pushed) := Push(normalizer.codec, old(normalizer.View()), packet);
              && normalizer.View() == next
              && match pushed
                 case Ok(frames) => r == Ok(()) && StagedIn(queue) == Enqueue(old(StagedIn(queue)), frames)
                 case Err(e) => r == Err(Media(e)) && StagedIn(queue) == old(StagedIn(queue))
    {
      var pushed := normalizer.PushPacket(packet);
      if pushed.Err? {
        return Err(Media(pushed.error));
      }
      EnqueueFrames(queue, pushed.value);
      r := Ok(());
    }

    /** Nothing stops the loop: no frame waits, the target is not met and the queue is not full. */
    predicate Going(queue: OpusFrameQueue, target: u64)
      reads this, queue
    {
      pendingFrames == [] && Below(queue.View(), target)
    }

    /** Buffers the first of the packets `p.packets`, where `p` is the end of `path`: one more step, or the failure
        that comes next. */
    method BufferFirst(queue: OpusFrameQueue, packet: Packet, target: u64, ghost path: seq<Pipeline>)
      returns (r: Result<(), FillError>, ghost path': seq<Pipeline>)
      requires Going(queue, target) && IsPath(normalizer.codec, target, path)
      requires Last(path).staged == StagedIn(queue) && Last(path).held == normalizer.View()
      requires Last(path).packets != [] && Last(path).packets[0] == packet
      modifies this, queue, normalizer
      ensures r.Ok? ==>
        && IsPath(normalizer.codec, target, path') && path <= path'
        && Last(path') == Pipeline(StagedIn(queue), normalizer.View(), Last(path).packets[1..], Last(path).unread)
      ensures r.Err? ==>
        && path' == path && StagedIn(queue) == old(StagedIn(queue)) && FailsNext(normalizer.codec, Last(path), r.error)
    {
      r := BufferPacket(queue, packet);
      path' := path;
      if r.Ok? {
        ghost var next := Pipeline(StagedIn(queue), normalizer.View(), Last(path).packets[1..], Last(path).unread);
        PathPush(normalizer.codec, target, path, next);
        path' := path + [next];
      }
    }

    /** The packets of one chunk: buffered until the target is met, the queue is full or a frame waits; the rest go to
        the source. On an error the failing packet and all packets behind it are gone. */
    method BufferChunk(queue: OpusFrameQueue, source: PacketSource, packets: seq<Packet>, target: u64, ghost path: seq<Pipeline>)
      returns (r: Result<(), FillError>, ghost path': seq<Pipeline>)
      requires source.pendingPackets == [] && IsPath(normalizer.codec, target, path)
      requires Last(path) == View(queue, source).(packets := packets)
      modifies this, queue, normalizer, source`pendingPackets
      ensures IsPath(normalizer.codec, target, path') && path <= path'
      ensures r.Ok? ==> Last(path') == View(queue, source) && (source.pendingPackets != [] ==> !Going(queue, target))
      ensures r.Err? ==>
        && FailsNext(normalizer.codec, Last(path'), r.error) && Last(path').staged == StagedIn(queue) && Going(queue, target)
        && Last(path').packets != [] && EndsWith(packets, Last(path').packets)
        && Last(path').unread == source.unread && source.pendingPackets == []
    {
      path' := path;
      for i := 0 to |packets|
        invariant source.pendingPackets == [] && source.unread == old(source.unread)
        invariant IsPath(normalizer.codec, target, path') && path <= path'
        invariant Last(path') == View(queue, source).(packets := packets[i..])
      {
        if queue.durationSamples >= target || Full(queue.View()) || pendingFrames != [] {
          source.pendingPackets := packets[i..];
          return Ok(()), path';
        }
        assert packets[i..][0] == packets[i] && packets[i..][1..] == packets[i + 1..];
        r, path' := BufferFirst(queue, packets[i], target, path');
        if r.Err? {
          return;
        }
      }
      r := Ok(());
    }

    /** Buffers the chunk just read: the read is a step of its own. */
    method BufferRead(queue: OpusFrameQueue, source: PacketSource, packets: seq<Packet>, target: u64, ghost path: seq<Pipeline>)
      returns (r: Result<(), FillError>, ghost path': seq<Pipeline>)
      requires Going(queue, target) && source.pendingPackets == [] && IsPath(normalizer.codec, target, path)
      requires Reads(Last(path), View(queue, source).(packets := packets))
      modifies this, queue, normalizer, source`pendingPackets
      ensures IsPath(normalizer.codec, target, path') && path <= path'
      ensures r.Ok? ==> Last(path') == View(queue, source) && (source.pendingPackets != [] ==> !Going(queue, target))
      ensures r.Err? ==>
        && FailsNext(normalizer.codec, Last(path'), r.error) && Last(path').staged == StagedIn(queue) && Going(queue, target)
        && Last(path').packets != [] && ReadChunkEndingIn(path', Last(path').packets)
        && Last(path').unread == source.unread && source.pendingPackets == []
    {
      ghost var chunked := View(queue, source).(packets := packets);
      PathPush(normalizer.codec, target, path, chunked);
      r, path' := BufferChunk(queue, source, packets, target, path + [chunked]);
      if r.Err? {
        ReadOnTheWay(path, chunked, path', Last(path').packets);
      }
    }

    /** At the end of the stream the held PCM is flushed into the queue. */
    method FlushInto(queue: OpusFrameQueue, source: PacketSource, target: u64, ghost path: seq<Pipeline>)
      returns (r: Result<(), FillError>, ghost path': seq<Pipeline>)
      requires Going(queue, target) && source.pendingPackets == [] && source.unread == []
      requires IsPath(normalizer.codec, target, path) && Last(path) == View(queue, source)
      modifies this, queue, normalizer
      ensures r.Ok? ==>
        && IsPath(normalizer.codec, target, path') && path <= path' && Last(path') == View(queue, source)
        && normalizer.pendingPcm == []
      ensures r.Err? ==>
        && path' == path && StagedIn(queue) == old(StagedIn(queue)) && FailsNext(normalizer.codec, Last(path), r.error)
    {
      path' := path;
      FlushPadsOnce(normalizer.codec, normalizer.View());
      var flushed := normalizer.FlushFrames();
      if flushed.Err? {
        return Err(Media(flushed.error)), path;
      }
      EnqueueFrames(queue, flushed.value);
      ghost var next := View(queue, source);
      PathPush(normalizer.codec, target, path, next);
      r, path' := Ok(()), path + [next];
    }

    predicate AtEnd(source: PacketSource)
      reads this, source, normalizer
    {
      source.pendingPackets == [] && source.unread == [] && normalizer.pendingPcm == []
    }

    /** What an error leaves of the packets and events ahead of `failed`, where the stream failed. A packet that fails
        is gone: alone if it was waiting in the source, and with the rest of its chunk if that had just been read. A
        failed read is gone. */
    predicate LeavesBehind(source: PacketSource, path: seq<Pipeline>, failed: Pipeline, waiting: bool)
      reads source
    {
      if failed.packets == [] then
        source.pendingPackets == [] && source.unread == if failed.unread == [] then [] else failed.unread[1..]
      else if waiting then
        source.pendingPackets == failed.packets[1..] && source.unread == failed.unread
      else
        source.pendingPackets == [] && source.unread == failed.unread && ReadChunkEndingIn(path, failed.packets)
    }

    /** The rest of one turn of the loop, while nothing stops it: a demuxed packet, the next chunk or, at the end of
        the stream, the flush. False means the end. */
    method BufferNext(queue: OpusFrameQueue, source: PacketSource, target: u64, ghost path: seq<Pipeline>)
      returns (r: Result<bool, FillError>, ghost path': seq<Pipeline>)
      requires Going(queue, target) && IsPath(normalizer.codec, target, path) && Last(path) == View(queue, source)
      modifies this, queue, normalizer, source
      ensures IsPath(normalizer.codec, target, path') && path <= path'
      ensures r.Ok? ==> Last(path') == View(queue, source)
      ensures r == Ok(true) ==>
        || |source.unread| < old(|source.unread|)
        || (source.unread == old(source.unread) && |source.pendingPackets| < old(|source.pendingPackets|))
      ensures r == Ok(false) ==> AtEnd(source)
      ensures r.Err? ==>
        && FailsNext(normalizer.codec, Last(path'), r.error) && Last(path').staged == StagedIn(queue) && Going(queue, target)
        && LeavesBehind(source, path', Last(path'), old(source.pendingPackets) != [])
    {
      path' := path;
      if source.pendingPackets != [] {
        var packet := source.pendingPackets[0];
        source.pendingPackets := source.pendingPackets[1..];
        var buffered;
        buffered, path' := BufferFirst(queue, packet, target, path);
        if buffered.Err? {
          return Err(buffered.error), path';
        }
        return Ok(true), path';
      }
      var read := source.ReadPackets();
      if read.Err? {
        return Err(read.error), path;
      }
      if read.value.None? {
        var flushed;
        flushed, path' := FlushInto(queue, source, target, path);
        if flushed.Err? {
          return Err(flushed.error), path';
        }
        return Ok(false), path';
      }
      var chunk;
      chunk, path' := BufferRead(queue, source, read.value.value, target, path);
      if chunk.Err? {
        return Err(chunk.error), path';
      }
      r := Ok(true);
    }

    predicate Stopped(queue: OpusFrameQueue, source: PacketSource, target: u64)
      reads this, queue, source, normalizer
    {
      || queue.durationSamples >= target
      || Full(queue.View())
      || (pendingFrames != [] && !Fits(queue.View(), pendingFrames[0]))
      || AtEnd(source)
    }

    /** One turn of the loop: drain the waiting frames, then buffer what is next. False means the loop stops. */
    method FillOnce(queue: OpusFrameQueue, source: PacketSource, target: u64, ghost path: seq<Pipeline>)
      returns (r: Result<bool, FillError>, ghost path': seq<Pipeline>)
      requires Below(queue.View(), target) && IsPath(normalizer.codec, target, path) && Last(path) == View(queue, source)
      modifies this, queue, normalizer, source
      ensures IsPath(normalizer.codec, target, path') && path <= path'
      ensures r.Ok? ==> Last(path') == View(queue, source)
      ensures r == Ok(true) ==>
        || |source.unread| < old(|source.unread|)
        || (source.unread == old(source.unread) && |source.pendingPackets| < old(|source.pendingPackets|))
      ensures r == Ok(false) ==> Stopped(queue, source, target)
      ensures r.Err? ==>
        && FailsNext(normalizer.codec, Last(path'), r.error) && Last(path').staged == StagedIn(queue) && Going(queue, target)
        && LeavesBehind(source, path', Last(path'), old(source.pendingPackets) != [])
    {
      DrainKeepsOrder(StagedIn(queue));
      var drained := DrainPendingFrames(queue);
      ghost var here := View(queue, source);
      PathPush(normalizer.codec, target, path, here);
      if !drained {
        return Ok(false), path + [here];
      }
      if queue.durationSamples >= target || Full(queue.View()) {
        return Ok(false), path + [here];
      }
      r, path' := BufferNext(queue, source, target, path + [here]);
    }

    /** The call walks a path of steps, each taken below the target, so nothing is staged beyond the packet that
        meets it. An Ok call ends where the loop has to stop: the stream of frames (queue, waiting frames, held PCM,
        demuxed packets, unread stream) is unchanged as a multiset, and as a sequence if and only if no enqueue on the
        path let a frame overtake a refused one, which is certain where the byte limit never decides. A failing call
        ends where the stream fails next, with every frame before that staged, and leaves behind what
        `LeavesBehind` says. On a stream that never fails every call is Ok. */
    method FillQueueToDurationMs(queue: OpusFrameQueue, source: PacketSource, targetMs: u64, ghost bound: nat)
      returns (r: Result<(), FillError>, ghost path: seq<Pipeline>)
      modifies this, queue, normalizer, source
      ensures IsPath(normalizer.codec, Sat64(Max(targetMs, 1) * 48), path) && path[0] == old(View(queue, source))
      ensures r.Ok? ==> Last(path) == View(queue, source) && Stopped(queue, source, Sat64(Max(targetMs, 1) * 48))
      ensures r.Ok? ==> Refines(normalizer.codec, bound, old(View(queue, source)), View(queue, source))
      ensures r.Ok? ==>
        (Stream(normalizer.codec, View(queue, source)) == Stream(normalizer.codec, old(View(queue, source)))
         <==> NoneOvertakes(normalizer.codec, path))
      ensures r.Err? ==>
        && FailsNext(normalizer.codec, Last(path), r.error) && Last(path).staged == StagedIn(queue)
        && RunsInto(normalizer.codec, bound, old(View(queue, source)), StagedIn(queue), r.error)
        && Going(queue, Sat64(Max(targetMs, 1) * 48))
        && (LeavesBehind(source, path, Last(path), true) || LeavesBehind(source, path, Last(path), false))
    {
      var target := Sat64(Max(targetMs, 1) * 48);
      path := [View(queue, source)];
      while queue.durationSamples < target && !Full(queue.View())
        invariant IsPath(normalizer.codec, target, path) && path[0] == old(View(queue, source)) && Last(path) == View(queue, source)
        decreases |source.unread|, |source.pendingPackets|
      {
        var more;
        more, path := FillOnce(queue, source, target, path);
        if more.Err? {
          PathRunsInto(normalizer.codec, bound, target, path, more.error);
          return Err(more.error), path;
        }
        if !more.value {
          break;
        }
      }
      PathRefines(normalizer.codec, bound, target, path);
      PathKeepsOrderIff(normalizer.codec, target, path);
      r := Ok(());
    }
  }
}
