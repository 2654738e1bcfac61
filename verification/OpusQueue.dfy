/** The bounded frame queue and the two ways the worker moves frames into it
    (crates/discord-voice-service-playback/src/media/opus_queue.rs, and drain_pending_frames and
    enqueue_frames of worker.rs). */
module OpusQueue {
  import opened Words
  import opened OpusNormalizer

  datatype Queue = Queue(capacity: nat, maxBytes: u64, maxSamples: u64, samples: u64, bytes: u64, frames: seq<Frame>)

  predicate Fits(q: Queue, f: Frame) {
    && |q.frames| < q.capacity
    && Sat64(q.bytes + |f.data|) <= q.maxBytes
    && Sat64(q.samples + f.samples) <= q.maxSamples
  }

  predicate Full(q: Queue) {
    |q.frames| >= q.capacity || q.bytes >= q.maxBytes || q.samples >= q.maxSamples
  }

  function Pushed(q: Queue, f: Frame): Queue {
    q.(samples := Sat64(q.samples + f.samples), bytes := Sat64(q.bytes + |f.data|), frames := q.frames + [f])
  }

  class OpusFrameQueue {
    const capacity: nat
    const maxBytes: u64
    const maxDurationSamples: u64
    var durationSamples: u64
    var bytes: u64
    var inner: seq<Frame>

    function View(): Queue
      reads this
    {
      Queue(capacity, maxBytes, maxDurationSamples, durationSamples, bytes, inner)
    }

    constructor (capacity: nat, maxBytes: u64, maxDurationMs: u64)
      ensures View() == Queue(capacity, maxBytes, Sat64(maxDurationMs * 48), 0, 0, [])
    {
      this.capacity := capacity;
      this.maxBytes := maxBytes;
      this.maxDurationSamples := Sat64(maxDurationMs * 48);
      durationSamples, bytes, inner := 0, 0, [];
    }

    method Push(frame: Frame) returns (ok: bool)
      modifies this
      ensures ok <==> Fits(old(View()), frame)
      ensures View() == if ok then Pushed(old(View()), frame) else old(View())
    {
      ok := Fits(View(), frame);
      if ok {
        durationSamples := Sat64(durationSamples + frame.samples);
        bytes := Sat64(bytes + |frame.data|);
        inner := inner + [frame];
      }
    }
  }

  // ------------------------------------------------------------------ what a queue may hold

  function TotalBytes(frames: seq<Frame>): nat {
    if |frames| == 0 then 0 else TotalBytes(frames[..|frames| - 1]) + |frames[|frames| - 1].data|
  }

  function TotalDuration(frames: seq<Frame>): nat {
    if |frames| == 0 then 0 else TotalDuration(frames[..|frames| - 1]) + frames[|frames| - 1].samples
  }

  /** `n` is above the limit; the largest 64-bit number is no limit, as the counters saturate there. */
  predicate Exceeds(n: nat, limit: u64) {
    limit < n && limit < 0xFFFF_FFFF_FFFF_FFFF
  }

  /** The counters are those of the frames, and no limit is exceeded. */
  predicate Accurate(q: Queue) {
    && q.bytes == Sat64(TotalBytes(q.frames)) && q.samples == Sat64(TotalDuration(q.frames))
    && |q.frames| <= q.capacity
    && !Exceeds(TotalBytes(q.frames), q.maxBytes) && !Exceeds(TotalDuration(q.frames), q.maxSamples)
  }

  /** A new queue after trying to push `frames` one by one. */
  function PushTries(q: Queue, frames: seq<Frame>): Queue {
    if |frames| == 0 then q else
    var before, f := PushTries(q, frames[..|frames| - 1]), frames[|frames| - 1];
    if Fits(before, f) then Pushed(before, f) else before
  }

  /** In an accurate queue a frame is refused exactly when it would be one too many, or too many bytes or samples. */
  lemma {:induction false} RefusedIff(q: Queue, f: Frame)
    requires Accurate(q)
    ensures !Fits(q, f)
       <==> || |q.frames| + 1 > q.capacity
            || Exceeds(TotalBytes(q.frames) + |f.data|, q.maxBytes)
            || Exceeds(TotalDuration(q.frames) + f.samples, q.maxSamples)
    ensures Fits(q, f) ==> Accurate(Pushed(q, f))
  {
    Sat64Step(TotalBytes(q.frames), |f.data|);
    Sat64Step(TotalDuration(q.frames), f.samples);
    assert (q.frames + [f])[..|q.frames|] == q.frames;
  }

  /** An accurate queue is full exactly when its frames, their bytes or their samples reach a limit. */
  lemma {:induction false} FullIff(q: Queue)
    requires Accurate(q)
    ensures Full(q)
       <==> |q.frames| == q.capacity || TotalBytes(q.frames) >= q.maxBytes || TotalDuration(q.frames) >= q.maxSamples
  {}

  /** Whatever is pushed into a new queue, its counters are those of the frames it holds and it exceeds none of its
      limits. */
  lemma {:induction false} QueueIsAccurate(capacity: nat, maxBytes: u64, maxSamples: u64, frames: seq<Frame>)
    ensures Accurate(PushTries(Queue(capacity, maxBytes, maxSamples, 0, 0, []), frames))
  {
    if |frames| > 0 {
      QueueIsAccurate(capacity, maxBytes, maxSamples, frames[..|frames| - 1]);
      RefusedIff(PushTries(Queue(capacity, maxBytes, maxSamples, 0, 0, []), frames[..|frames| - 1]), frames[|frames| - 1]);
    }
  }

  /** Draining and enqueueing keep a queue accurate. */
  lemma {:induction false} DrainKeepsAccurate(s: Staged)
    requires Accurate(s.queue)
    ensures Accurate(Drain(s).queue)
    decreases |s.pending|
  {
    if s.pending != [] {
      RefusedIff(s.queue, s.pending[0]);
      if Fits(s.queue, s.pending[0]) {
        DrainKeepsAccurate(Staged(Pushed(s.queue, s.pending[0]), s.pending[1..]));
      }
    }
  }

  lemma {:induction false} EnqueueKeepsAccurate(s: Staged, frames: seq<Frame>)
    requires Accurate(s.queue)
    ensures Accurate(Enqueue(s, frames).queue)
    decreases |frames|
  {
    if frames != [] {
      RefusedIff(s.queue, frames[0]);
      if Fits(s.queue, frames[0]) {
        EnqueueKeepsAccurate(s.(queue := Pushed(s.queue, frames[0])), frames[1..]);
      } else {
        EnqueueKeepsAccurate(s.(pending := s.pending + [frames[0]]), frames[1..]);
      }
    }
  }

  // ------------------------------------------------------------------ staging

  /** The queue and the frames waiting to enter it. */
  datatype Staged = Staged(queue: Queue, pending: seq<Frame>)

  function Contents(s: Staged): seq<Frame> {
    s.queue.frames + s.pending
  }

  /** `enqueue_frames`: a frame that does not fit waits, and the next one is tried all the same. */
  function Enqueue(s: Staged, frames: seq<Frame>): Staged
    decreases |frames|
  {
    if frames == [] then s
    else if Fits(s.queue, frames[0]) then Enqueue(s.(queue := Pushed(s.queue, frames[0])), frames[1..])
    else Enqueue(s.(pending := s.pending + [frames[0]]), frames[1..])
  }

  /** `drain_pending_frames`: stops at the first frame that does not fit. */
  function Drain(s: Staged): Staged
    decreases |s.pending|
  {
    if s.pending == [] || !Fits(s.queue, s.pending[0]) then s
    else Drain(Staged(Pushed(s.queue, s.pending[0]), s.pending[1..]))
  }

  predicate SameLimits(p: Queue, q: Queue) {
    p.capacity == q.capacity && p.maxBytes == q.maxBytes && p.maxSamples == q.maxSamples
  }

  lemma {:induction false} DrainKeepsOrder(s: Staged)
    ensures Contents(Drain(s)) == Contents(s)
    ensures s.queue.frames <= Drain(s).queue.frames && SameLimits(s.queue, Drain(s).queue)
    ensures Drain(s).pending != [] ==> !Fits(Drain(s).queue, Drain(s).pending[0])
    decreases |s.pending|
  {
    if s.pending != [] && Fits(s.queue, s.pending[0]) {
      var t := Staged(Pushed(s.queue, s.pending[0]), s.pending[1..]);
      assert Contents(t) == Contents(s);
      DrainKeepsOrder(t);
    }
  }

  /** No frame is lost or duplicated by an enqueue, whatever the limits. */
  lemma {:induction false} EnqueueConserves(s: Staged, frames: seq<Frame>)
    ensures multiset(Contents(Enqueue(s, frames))) == multiset(Contents(s)) + multiset(frames)
    ensures s.queue.frames <= Enqueue(s, frames).queue.frames && SameLimits(s.queue, Enqueue(s, frames).queue)
    decreases |frames|
  {
    if frames != [] {
      assert frames == [frames[0]] + frames[1..];
      if Fits(s.queue, frames[0]) {
        EnqueueConserves(s.(queue := Pushed(s.queue, frames[0])), frames[1..]);
      } else {
        EnqueueConserves(s.(pending := s.pending + [frames[0]]), frames[1..]);
      }
    }
  }

  /** After the longest prefix that fits, no later frame fits either. */
  predicate NoOvertaking(q: Queue, frames: seq<Frame>)
    decreases |frames|
  {
    || frames == []
    || if Fits(q, frames[0]) then NoOvertaking(Pushed(q, frames[0]), frames[1..])
       else forall j :: 0 <= j < |frames| ==> !Fits(q, frames[j])
  }

  lemma {:induction false} NoneFits(s: Staged, frames: seq<Frame>)
    requires forall j :: 0 <= j < |frames| ==> !Fits(s.queue, frames[j])
    ensures Enqueue(s, frames) == s.(pending := s.pending + frames)
    decreases |frames|
  {
    if frames == [] {
      assert s.pending + [] == s.pending;
    } else {
      NoneFits(s.(pending := s.pending + [frames[0]]), frames[1..]);
      assert s.pending + [frames[0]] + frames[1..] == s.pending + frames;
    }
  }

  /** The first frame that fits is the next one in the queue. */
  lemma {:induction false} FirstFit(s: Staged, frames: seq<Frame>, j: nat)
    requires j < |frames| && Fits(s.queue, frames[j])
    ensures var t := Enqueue(s, frames);
            |t.queue.frames| > |s.queue.frames| && Fits(s.queue, t.queue.frames[|s.queue.frames|])
    decreases |frames|
  {
    if Fits(s.queue, frames[0]) {
      var t := s.(queue := Pushed(s.queue, frames[0]));
      EnqueueConserves(t, frames[1..]);
      assert t.queue.frames[|s.queue.frames|] == frames[0];
    } else {
      FirstFit(s.(pending := s.pending + [frames[0]]), frames[1..], j - 1);
    }
  }

  /** An enqueue with nothing waiting keeps the order of the frames exactly when no frame overtakes one
      that was refused, that is, when no frame after the first refused one fits the queue at that point. */
  lemma {:induction false} EnqueueKeepsOrderIff(s: Staged, frames: seq<Frame>)
    requires s.pending == []
    ensures Contents(Enqueue(s, frames)) == Contents(s) + frames <==> NoOvertaking(s.queue, frames)
    decreases |frames|
  {
    if frames == [] {
    } else if Fits(s.queue, frames[0]) {
      var t := s.(queue := Pushed(s.queue, frames[0]));
      EnqueueKeepsOrderIff(t, frames[1..]);
      assert Contents(t) + frames[1..] == Contents(s) + frames;
    } else if j :| 0 <= j < |frames| && Fits(s.queue, frames[j]) {
      FirstFit(s, frames, j);
      var t, n := Enqueue(s, frames), |s.queue.frames|;
      assert Contents(t)[n] == t.queue.frames[n];
      assert (Contents(s) + frames)[n] == frames[0];
    } else {
      NoneFits(s, frames);
    }
  }

  /** A byte limit can reorder: a short frame overtakes a long one that was refused. */
  lemma {:induction false} ByteLimitCanReorder() returns (q: Queue, frames: seq<Frame>)
    ensures q.frames == [] && FullFrames(frames) && |frames| == 2 && frames[0] != frames[1]
    ensures Contents(Enqueue(Staged(q, []), frames)) == [frames[1], frames[0]]
  {
    var long, short := FrameAt([1, 2, 3], 0), FrameAt([1], 960);
    q := Queue(1024, 2, 240_000, 0, 0, []);
    frames := [long, short];
    var waiting := Staged(q, [long]);
    assert frames[1..] == [short] && [] + [long] == [long];
    assert Enqueue(waiting, [short]) == Enqueue(Staged(Pushed(q, short), [long]), []);
    assert Enqueue(Staged(q, []), frames) == Enqueue(waiting, [short]);
  }

  // ------------------------------------------------------------------ when the byte limit never binds

  predicate Small(frames: seq<Frame>, bound: nat) {
    forall k :: 0 <= k < |frames| ==> |frames[k].data| <= bound
  }

  /** The queue holds full frames of at most `bound` bytes. */
  predicate Modest(q: Queue, bound: nat) {
    q.samples == Sat64(FRAME_SAMPLES * |q.frames|) && q.bytes <= bound * |q.frames|
  }

  /** Frames of `bound` bytes run out of slots or of duration before they run out of bytes. */
  predicate Roomy(q: Queue, bound: nat) {
    || bound * q.capacity <= q.maxBytes
    || (q.maxSamples < 0xFFFF_FFFF_FFFF_FFFF && bound * Quot(q.maxSamples, FRAME_SAMPLES) <= q.maxBytes)
  }

  lemma {:induction false} ScaleUp(b: nat, m: nat, n: nat)
    requires m <= n
    ensures b * m <= b * n
  {}

  lemma {:induction false} BytesFit(q: Queue, bound: nat)
    requires Roomy(q, bound) && |q.frames| < q.capacity && Sat64(FRAME_SAMPLES * (|q.frames| + 1)) <= q.maxSamples
    ensures bound * (|q.frames| + 1) <= q.maxBytes
  {
    var n := |q.frames| + 1;
    if bound * q.capacity <= q.maxBytes {
      ScaleUp(bound, n, q.capacity);
    } else {
      QuotBelow(q.maxSamples, FRAME_SAMPLES, n);
      ScaleUp(bound, n, Quot(q.maxSamples, FRAME_SAMPLES));
    }
  }

  /** A small full frame fits exactly when a slot and 20 ms are left. */
  lemma {:induction false} FitsBySlots(q: Queue, f: Frame, bound: nat)
    requires Modest(q, bound) && Roomy(q, bound) && f.samples == FRAME_SAMPLES && |f.data| <= bound
    ensures Fits(q, f) <==> |q.frames| < q.capacity && Sat64(FRAME_SAMPLES * (|q.frames| + 1)) <= q.maxSamples
    ensures Fits(q, f) ==> Modest(Pushed(q, f), bound)
  {
    Sat64Step(FRAME_SAMPLES * |q.frames|, FRAME_SAMPLES);
    if |q.frames| < q.capacity && Sat64(FRAME_SAMPLES * (|q.frames| + 1)) <= q.maxSamples {
      BytesFit(q, bound);
    }
    assert bound * (|q.frames| + 1) == bound * |q.frames| + bound;
  }

  lemma {:induction false} RoomyNeverOvertakes(q: Queue, frames: seq<Frame>, bound: nat)
    requires Modest(q, bound) && Roomy(q, bound) && FullFrames(frames) && Small(frames, bound)
    ensures NoOvertaking(q, frames)
    decreases |frames|
  {
    if frames != [] {
      FitsBySlots(q, frames[0], bound);
      if Fits(q, frames[0]) {
        RoomyNeverOvertakes(Pushed(q, frames[0]), frames[1..], bound);
      } else {
        forall j | 0 <= j < |frames|
          ensures !Fits(q, frames[j])
        {
          FitsBySlots(q, frames[j], bound);
        }
      }
    }
  }

  lemma {:induction false} EnqueueStaysModest(s: Staged, frames: seq<Frame>, bound: nat)
    requires Modest(s.queue, bound) && Roomy(s.queue, bound) && FullFrames(frames) && Small(frames, bound)
    ensures Modest(Enqueue(s, frames).queue, bound)
    ensures FullFrames(s.pending) ==> FullFrames(Enqueue(s, frames).pending)
    decreases |frames|
  {
    if frames != [] {
      FitsBySlots(s.queue, frames[0], bound);
      if Fits(s.queue, frames[0]) {
        EnqueueStaysModest(s.(queue := Pushed(s.queue, frames[0])), frames[1..], bound);
      } else {
        EnqueueStaysModest(s.(pending := s.pending + [frames[0]]), frames[1..], bound);
      }
    }
  }

  lemma {:induction false} DrainStaysModest(s: Staged, bound: nat)
    requires Modest(s.queue, bound) && Roomy(s.queue, bound) && FullFrames(s.pending) && Small(s.pending, bound)
    ensures Modest(Drain(s).queue, bound) && FullFrames(Drain(s).pending)
    decreases |s.pending|
  {
    if s.pending != [] && Fits(s.queue, s.pending[0]) {
      FitsBySlots(s.queue, s.pending[0], bound);
      DrainStaysModest(Staged(Pushed(s.queue, s.pending[0]), s.pending[1..]), bound);
    }
  }

  /** The limits the runtime gives its queues: frames of up to 4096 bytes cannot be reordered. */
  lemma {:induction false} RuntimeQueueIsRoomy(maxSamples: u64)
    ensures Roomy(Queue(1024, 4 * 1024 * 1024, maxSamples, 0, 0, []), 4096)
  {}
}
