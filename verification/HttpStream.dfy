/** The byte stream under the demuxer, with its reopen, retry and re-resolve logic
    (crates/discord-voice-service-playback/src/media/http_stream.rs, and read_stream_chunk of recovery.rs
    over source.rs). */
module HttpStream {
  import opened Words

  const MAX_READ_CHUNK_BYTES := 65536

  // ------------------------------------------------------------------ the network

  datatype ContentRange = Absent | Malformed | ContentRange(start: u64, end: u64, complete: Option<u64>)

  datatype OpenReply = NoReply | Reply(status: nat, range: ContentRange, length: Option<u64>)

  datatype BodyReply = Bytes(count: nat) | BodyEnd | BodyError

  /** What the network does at the next await: nothing before the deadline, or an answer to a request at
      some offset, or the next piece of an open response. */
  datatype Moment = Stall | Moment(onOpen: u64 -> OpenReply, onBody: BodyReply)

  datatype HttpError = Http(status: Option<nat>) | RangeNotHonored | EndedBeforeAdvancing | TimedOut | ResolveFailed

  /** The resource, the same behind every resolved URL, and the moments still to come. */
  class Network {
    const content: seq<u8>
    var script: seq<Moment>

    constructor (content: seq<u8>, script: seq<Moment>)
      ensures this.content == content && this.script == script
    {
      this.content := content;
      this.script := script;
    }

    /** A script that has run out stalls. */
    method Await() returns (m: Moment)
      modifies this
      ensures old(script) == [] ==> m == Stall && script == []
      ensures old(script) != [] ==> m == old(script)[0] && script == old(script)[1..]
    {
      if script == [] {
        return Stall;
      }
      m, script := script[0], script[1..];
    }
  }

  datatype Extent = Extent(responseEnd: Option<u64>, resourceEnd: Option<u64>)

  /** `open_response` and `response_extent`: None is the end of the resource. */
  function Opening(reply: OpenReply, offset: u64): Result<Option<Extent>, HttpError> {
    if reply.NoReply? then Err(Http(None))
    else if offset > 0 && reply.status == 416 then Ok(None)
    else if 400 <= reply.status < 600 then Err(Http(Some(reply.status)))
    else if offset > 0 && (reply.status != 206 || !reply.range.ContentRange?) then Err(RangeNotHonored)
    else
      match reply.range
      case Absent => Ok(Some(Extent(if reply.length.Some? then Some(Sat64(offset + reply.length.value)) else None, None)))
      case Malformed => Err(RangeNotHonored)
      case ContentRange(start, end, complete) =>
        if start != offset then Err(RangeNotHonored) else Ok(Some(Extent(Some(Sat64(end + 1)), complete)))
  }

  /** Where the body of a response starts, by what the response declares: at the start of its Content-Range for a
      partial response, at the beginning of the resource for any other. */
  function BodyStart(reply: OpenReply): nat {
    if reply.Reply? && reply.status == 206 && reply.range.ContentRange? then reply.range.start else 0
  }

  /** The checks on status and Content-Range let through only responses whose body starts where it was asked for: a
      server that ignores or misreads the range is refused. */
  lemma {:induction false} AcceptedBodyStartsAtOffset(reply: OpenReply, offset: u64)
    ensures Opening(reply, offset).Ok? && Opening(reply, offset).value.Some? ==> BodyStart(reply) == offset
  {}

  // What a reply to a request at `offset` means, by its status, Content-Range and Content-Length alone.

  /** The range asked for lies past the end. */
  predicate PastEnd(reply: OpenReply, offset: u64) {
    reply.Reply? && reply.status == 416 && offset > 0
  }

  /** A client or server error; 416 is one only for a request without a range. */
  predicate ErrorStatus(reply: OpenReply, offset: u64) {
    reply.Reply? && 400 <= reply.status <= 599 && !PastEnd(reply, offset)
  }

  /** A body from the offset on: a 206 whose range starts there, or, for a request from the beginning, any success
      without a range or with one that starts at 0. */
  predicate ServesFrom(reply: OpenReply, offset: u64) {
    && reply.Reply? && !(400 <= reply.status <= 599)
    && (if offset > 0 then reply.status == 206 && reply.range.ContentRange? else !reply.range.Malformed?)
    && (reply.range.ContentRange? ==> reply.range.start == offset)
  }

  /** Such a reply says where the resource ends: by the complete length, the end of the range or the length of the
      body. */
  predicate DeclaresEnd(reply: OpenReply, offset: u64, size: nat) {
    && reply.Reply?
    && if reply.range.ContentRange? then reply.range.complete == Some(size) || Sat64(reply.range.end + 1) == size
       else reply.length.Some? && Sat64(offset + reply.length.value) == size
  }

  /** The reply is a reason for `e`. */
  predicate Refuses(reply: OpenReply, offset: u64, e: HttpError) {
    if reply.NoReply? then e == Http(None)
    else if ErrorStatus(reply, offset) then e == Http(Some(reply.status))
    else !PastEnd(reply, offset) && !ServesFrom(reply, offset) && e == RangeNotHonored
  }

  predicate TellsEnd(e: Extent, size: nat) {
    e.responseEnd == Some(size) || e.resourceEnd == Some(size)
  }

  predicate HonestReply(reply: OpenReply, offset: u64, size: nat) {
    && (PastEnd(reply, offset) ==> offset >= size)
    && (ServesFrom(reply, offset) ==> DeclaresEnd(reply, offset, size))
  }

  /** What an opening makes of a reply. */
  lemma {:induction false} OpeningByReply(reply: OpenReply, offset: u64)
    ensures Opening(reply, offset) == Ok(None) <==> PastEnd(reply, offset)
    ensures Opening(reply, offset).Ok? && Opening(reply, offset).value.Some? <==> ServesFrom(reply, offset)
    ensures forall e :: Opening(reply, offset) == Err(e) <==> Refuses(reply, offset, e)
    ensures forall size: nat :: ServesFrom(reply, offset) && DeclaresEnd(reply, offset, size) ==>
              TellsEnd(Opening(reply, offset).value.value, size)
  {}

  /** A server that refuses a range only past the end and always tells where the resource ends. */
  predicate HonestScript(script: seq<Moment>, size: nat) {
    forall i, offset: u64 :: 0 <= i < |script| && script[i].Moment? ==> HonestReply(script[i].onOpen(offset), offset, size)
  }

  // ------------------------------------------------------------------ what one read does

  /** `bodyAt` belongs to the server: where in the resource the next byte of the response comes from. */
  datatype Response = Response(bodyAt: nat, start: u64, extent: Extent)

  /** The stream's fields: the place reached, the open response and the bytes received but not yet returned. */
  datatype Stream = Stream(offset: u64, response: Option<Response>, pending: seq<u8>)

  datatype ReadResult = ReadResult(stream: Stream, script: seq<Moment>, result: Result<Option<seq<u8>>, HttpError>)

  /** A stream that has just been set to `offset`. */
  function At(offset: u64): Stream {
    Stream(offset, None, [])
  }

  /** `should_reopen_after_response_eof`. */
  function Reopens(s: Stream, r: Response): Result<bool, HttpError> {
    var beforeResponseEnd := r.extent.responseEnd.Some? && s.offset < r.extent.responseEnd.value;
    var beforeResourceEnd := r.extent.resourceEnd.Some? && s.offset < r.extent.resourceEnd.value;
    if !beforeResponseEnd && !beforeResourceEnd then Ok(false)
    else if s.offset <= r.start then Err(EndedBeforeAdvancing)
    else Ok(true)
  }

  /** The stream with the response it accepted: the body starts where the response says. */
  function Opened(s: Stream, reply: OpenReply, extent: Extent): Stream {
    s.(response := Some(Response(BodyStart(reply), s.offset, extent)))
  }

  /** Up to `count` bytes of the resource from `at` on. */
  function Piece(content: seq<u8>, at: nat, count: nat): (piece: seq<u8>)
    ensures |piece| == Min(count, SatSub(|content|, at))
    ensures piece != [] ==> piece == content[at..at + |piece|]
  {
    if at >= |content| then [] else content[at..at + Min(count, |content| - at)]
  }

  /** The stream after one await on its open response, and whether the loop goes on (true) or has reached the
      end of the resource (false). */
  function Received(content: seq<u8>, s: Stream, reply: BodyReply): (Stream, Result<bool, HttpError>)
    requires s.response.Some?
  {
    var r := s.response.value;
    match reply
    case Bytes(count) =>
      var piece := Piece(content, r.bodyAt, count);
      (s.(response := Some(r.(bodyAt := r.bodyAt + |piece|)), pending := s.pending + piece), Ok(true))
    case BodyEnd => (s.(response := None), Reopens(s, r))
    case BodyError => (s.(response := None), if s.offset > r.start then Ok(true) else Err(Http(None)))
  }

  /** `read_chunk` under its timeout, moment by moment: the next pending bytes, or one more await. */
  ghost function ReadOf(content: seq<u8>, s: Stream, script: seq<Moment>): ReadResult
    decreases |script|
  {
    if s.pending != [] then
      var n := Min(|s.pending|, MAX_READ_CHUNK_BYTES);
      ReadResult(s.(offset := Sat64(s.offset + n), pending := s.pending[n..]), script, Ok(Some(s.pending[..n])))
    else if script == [] then ReadResult(s, [], Err(TimedOut))
    else if script[0].Stall? then ReadResult(s, script[1..], Err(TimedOut))
    else if s.response.None? then
      match Opening(script[0].onOpen(s.offset), s.offset)
      case Err(e) => ReadResult(s, script[1..], Err(e))
      case Ok(None) => ReadResult(s, script[1..], Ok(None))
      case Ok(Some(extent)) => ReadOf(content, Opened(s, script[0].onOpen(s.offset), extent), script[1..])
    else
      var (next, r) := Received(content, s, script[0].onBody);
      match r
      case Err(e) => ReadResult(next, script[1..], Err(e))
      case Ok(false) => ReadResult(next, script[1..], Ok(None))
      case Ok(true) => ReadOf(content, next, script[1..])
  }

  // ------------------------------------------------------------------ what every read keeps

  /** Bytes received and not yet returned continue the bytes returned so far. */
  predicate ValidStream(content: seq<u8>, s: Stream) {
    && |content| < 0x1_0000_0000_0000_0000
    && (s.pending != [] ==> s.offset + |s.pending| <= |content| && s.pending == content[s.offset..s.offset + |s.pending|])
    && (s.response.Some? ==> s.response.value.bodyAt == s.offset + |s.pending|)
  }

  predicate HonestStream(content: seq<u8>, s: Stream) {
    s.response.Some? ==> TellsEnd(s.response.value.extent, |content|)
  }

  lemma {:induction false} ReceivedValid(content: seq<u8>, s: Stream, reply: BodyReply)
    requires ValidStream(content, s) && s.response.Some? && s.pending == []
    ensures ValidStream(content, Received(content, s, reply).0) && Received(content, s, reply).0.offset == s.offset
  {}

  /** Whatever the network does, a chunk continues exactly where the last one ended, and anything else leaves
      the offset alone. */
  lemma {:induction false} ReadContinues(content: seq<u8>, s: Stream, script: seq<Moment>)
    requires ValidStream(content, s)
    ensures var r := ReadOf(content, s, script);
            && ValidStream(content, r.stream)
            && match r.result
               case Ok(Some(bytes)) =>
                 && 0 < |bytes| <= MAX_READ_CHUNK_BYTES
                 && r.stream.offset == s.offset + |bytes| <= |content|
                 && bytes == content[s.offset..r.stream.offset]
               case _ => r.stream.offset == s.offset
    decreases |script|
  {
    if s.pending == [] && script != [] && script[0].Moment? {
      if s.response.None? {
        var opening := Opening(script[0].onOpen(s.offset), s.offset);
        if opening.Ok? && opening.value.Some? {
          AcceptedBodyStartsAtOffset(script[0].onOpen(s.offset), s.offset);
          ReadContinues(content, Opened(s, script[0].onOpen(s.offset), opening.value.value), script[1..]);
        }
      } else {
        ReceivedValid(content, s, script[0].onBody);
        ReadContinues(content, Received(content, s, script[0].onBody).0, script[1..]);
      }
    }
  }

  /** With an honest server the end is reported only at the end of the resource (or past it, where a stream
      set there already is). */
  lemma {:induction false} ReadEndsHonestly(content: seq<u8>, s: Stream, script: seq<Moment>)
    requires HonestStream(content, s) && HonestScript(script, |content|)
    ensures var r := ReadOf(content, s, script);
            && HonestStream(content, r.stream) && HonestScript(r.script, |content|)
            && (r.result == Ok(None) ==> r.stream.offset >= |content|)
    decreases |script|
  {
    if s.pending == [] && script != [] && script[0].Moment? {
      if s.response.None? {
        assert HonestReply(script[0].onOpen(s.offset), s.offset, |content|);
        OpeningByReply(script[0].onOpen(s.offset), s.offset);
        var opening := Opening(script[0].onOpen(s.offset), s.offset);
        if opening.Ok? && opening.value.Some? {
          ReadEndsHonestly(content, Opened(s, script[0].onOpen(s.offset), opening.value.value), script[1..]);
        }
      } else {
        ReadEndsHonestly(content, Received(content, s, script[0].onBody).0, script[1..]);
      }
    }
  }

  /** Moment `m`, met at `offset`, is a reason for `e`. */
  predicate Shows(m: Moment, offset: u64, e: HttpError) {
    if m.Stall? then e == TimedOut
    else || Refuses(m.onOpen(offset), offset, e)
         || (m.onBody == BodyError && e == Http(None))
         || (m.onBody == BodyEnd && e == EndedBeforeAdvancing)
  }

  /** Moment `m`, met at `offset`, is a reason to report the end. */
  predicate ShowsEnd(m: Moment, offset: u64) {
    m.Moment? && (PastEnd(m.onOpen(offset), offset) || m.onBody == BodyEnd)
  }

  /** Either the script ran out, or the last of the `k` moments used is the reason for a result without data. */
  ghost predicate Explains(script: seq<Moment>, k: nat, offset: u64, result: Result<Option<seq<u8>>, HttpError>)
    requires k <= |script|
  {
    match result
    case Ok(Some(_)) => true
    case Ok(None) => k > 0 && ShowsEnd(script[k - 1], offset)
    case Err(e) => (k == |script| && e == TimedOut) || (k > 0 && Shows(script[k - 1], offset, e))
  }

  lemma {:induction false} ExplainsLater(script: seq<Moment>, k: nat, offset: u64, result: Result<Option<seq<u8>>, HttpError>)
    requires script != [] && k <= |script| - 1 && Explains(script[1..], k, offset, result)
    ensures Explains(script, k + 1, offset, result) && script[1..][k..] == script[k + 1..]
  {}

  /** Whether the read goes on after the first moment, and with which stream. */
  function GoesOn(content: seq<u8>, s: Stream, m: Moment): Option<Stream> {
    if m.Stall? then None
    else if s.response.None? then
      var opening := Opening(m.onOpen(s.offset), s.offset);
      if opening.Ok? && opening.value.Some? then Some(Opened(s, m.onOpen(s.offset), opening.value.value)) else None
    else
      var (next, r) := Received(content, s, m.onBody);
      if r == Ok(true) then Some(next) else None
  }

  lemma {:induction false} ReadGoesOn(content: seq<u8>, s: Stream, script: seq<Moment>)
    requires s.pending == [] && script != [] && GoesOn(content, s, script[0]).Some?
    ensures ReadOf(content, s, script) == ReadOf(content, GoesOn(content, s, script[0]).value, script[1..])
  {}

  lemma {:induction false} ReadStops(content: seq<u8>, s: Stream, script: seq<Moment>)
    requires s.pending == [] && script != [] && GoesOn(content, s, script[0]).None?
    ensures var r := ReadOf(content, s, script);
            r.script == script[1..] && Explains(script, 1, r.stream.offset, r.result)
  {
    if script[0].Moment? {
      OpeningByReply(script[0].onOpen(s.offset), s.offset);
    }
  }

  /** A read that returns no data used `k` moments from the front of the script, and the last of them, or the
      script's running out, is the reason. */
  lemma {:induction false} ReadExplained(content: seq<u8>, s: Stream, script: seq<Moment>) returns (k: nat)
    ensures var r := ReadOf(content, s, script);
            k <= |script| && r.script == script[k..] && Explains(script, k, r.stream.offset, r.result)
    decreases |script|
  {
    if s.pending != [] || script == [] {
      k := 0;
    } else if GoesOn(content, s, script[0]).None? {
      ReadStops(content, s, script);
      k := 1;
    } else {
      ReadGoesOn(content, s, script);
      var r := ReadOf(content, s, script);
      k := ReadExplained(content, GoesOn(content, s, script[0]).value, script[1..]);
      ExplainsLater(script, k, r.stream.offset, r.result);
      k := k + 1;
    }
  }

  /** Nothing the network delivers is dropped: the piece an open response brings is what the read returns, up
      to the size of a chunk. */
  lemma {:induction false} PieceIsReturned(content: seq<u8>, s: Stream, script: seq<Moment>)
    requires ValidStream(content, s) && s.pending == [] && s.response.Some? && s.offset < |content|
    requires script != [] && script[0].Moment? && script[0].onBody.Bytes? && script[0].onBody.count > 0
    ensures var n := Min(Min(script[0].onBody.count, |content| - s.offset), 65536);
            var r := ReadOf(content, s, script);
            r.result == Ok(Some(content[s.offset..s.offset + n])) && r.script == script[1..]
  {
    var next := Received(content, s, script[0].onBody).0;
    ReadGoesOn(content, s, script);
    var piece := Piece(content, s.offset, script[0].onBody.count);
    assert next.pending == [] + piece == piece;
    var n := Min(|piece|, MAX_READ_CHUNK_BYTES);
    assert piece[..n] == content[s.offset..s.offset + n];
  }

  /** A read that has to open a response is decided by the reply to its request: past the end it reports the end, an
      error status or no reply fails it, a body from another place is refused, each after this one moment and with the
      stream as it was; a body from the offset on is read, knowing the ends the reply declares. */
  lemma {:induction false} ReplyDecides(content: seq<u8>, s: Stream, script: seq<Moment>)
    requires s.pending == [] && s.response.None? && script != [] && script[0].Moment?
    ensures var reply, r := script[0].onOpen(s.offset), ReadOf(content, s, script);
            && (PastEnd(reply, s.offset) ==> r == ReadResult(s, script[1..], Ok(None)))
            && (ErrorStatus(reply, s.offset) ==> r == ReadResult(s, script[1..], Err(Http(Some(reply.status)))))
            && (reply.NoReply? ==> r == ReadResult(s, script[1..], Err(Http(None))))
            && (ServesFrom(reply, s.offset) ==>
                  exists extent :: ExtentOf(reply, s.offset, extent)
                    && r == ReadOf(content, Stream(s.offset, Some(Response(s.offset, s.offset, extent)), []), script[1..]))
            && (reply.Reply? && !PastEnd(reply, s.offset) && !ErrorStatus(reply, s.offset) && !ServesFrom(reply, s.offset) ==>
                  r == ReadResult(s, script[1..], Err(RangeNotHonored)))
  {
    var reply := script[0].onOpen(s.offset);
    OpeningByReply(reply, s.offset);
    if ServesFrom(reply, s.offset) {
      AcceptedBodyStartsAtOffset(reply, s.offset);
      var extent := Opening(reply, s.offset).value.value;
      assert ExtentOf(reply, s.offset, extent);
      assert Opened(s, reply, extent) == Stream(s.offset, Some(Response(s.offset, s.offset, extent)), []);
    }
  }

  /** The ends a reply declares: of the response by its range or its length, of the resource by the complete length. */
  predicate ExtentOf(reply: OpenReply, offset: u64, e: Extent)
    requires reply.Reply?
  {
    match reply.range
    case ContentRange(_, end, complete) => e == Extent(Some(Sat64(end + 1)), complete)
    case _ => e == Extent(if reply.length.Some? then Some(Sat64(offset + reply.length.value)) else None, None)
  }

  /** Nothing known says that the resource goes on after `offset`. */
  predicate NothingMissing(offset: u64, e: Extent) {
    && (e.responseEnd.Some? ==> e.responseEnd.value <= offset)
    && (e.resourceEnd.Some? ==> e.resourceEnd.value <= offset)
  }

  /** A read whose open response ends or breaks off: at the end of the response the end is reported exactly when
      nothing is known to be missing; a response that brought nothing fails the read, with its own error if it broke
      off; and one that brought something is opened anew at the place reached. */
  lemma {:induction false} BreakDecides(content: seq<u8>, s: Stream, script: seq<Moment>)
    requires s.pending == [] && s.response.Some? && script != [] && script[0].Moment? && !script[0].onBody.Bytes?
    ensures var open, r := s.response.value, ReadOf(content, s, script);
            var ended := script[0].onBody == BodyEnd && NothingMissing(s.offset, open.extent);
            && (ended ==> r == ReadResult(At(s.offset), script[1..], Ok(None)))
            && (!ended && s.offset > open.start ==> r == ReadOf(content, At(s.offset), script[1..]))
            && (!ended && s.offset <= open.start ==>
                  r == ReadResult(At(s.offset), script[1..],
                                  Err(if script[0].onBody == BodyEnd then EndedBeforeAdvancing else Http(None))))
  {}

  // ------------------------------------------------------------------ the stream

  class HttpOpusStream {
    const network: Network
    var byteOffset: u64
    var response: Option<Response>
    var pending: seq<u8>

    function View(): Stream
      reads this
    {
      Stream(byteOffset, response, pending)
    }

    constructor (network: Network)
      ensures this.network == network && View() == At(0)
    {
      this.network := network;
      byteOffset, response, pending := 0, None, [];
    }

    method SetResumeOffset(offset: u64)
      modifies this
      ensures View() == At(offset)
    {
      byteOffset, response, pending := offset, None, [];
    }

    method TakePendingChunk() returns (bytes: seq<u8>)
      requires pending != []
      modifies this
      ensures |bytes| == Min(old(|pending|), MAX_READ_CHUNK_BYTES) && bytes + pending == old(pending)
      ensures byteOffset == Sat64(old(byteOffset) + |bytes|) && response == old(response)
    {
      var n := Min(|pending|, MAX_READ_CHUNK_BYTES);
      bytes, pending := pending[..n], pending[n..];
      byteOffset := Sat64(byteOffset + n);
    }

    /** Refines `ReadOf`: the same state, the same moments used and the same result. */
    method ReadChunk() returns (r: Result<Option<seq<u8>>, HttpError>)
      modifies this, network
      ensures ReadResult(View(), network.script, r) == ReadOf(network.content, old(View()), old(network.script))
    {
      ghost var content, goal := network.content, ReadOf(network.content, View(), network.script);
      while true
        invariant ReadOf(content, View(), network.script) == goal
        decreases |network.script|, if response.None? then 1 else 0
      {
        if pending != [] {
          ghost var before := pending;
          var bytes := TakePendingChunk();
          assert bytes == before[..|bytes|] && pending == before[|bytes|..];
          return Ok(Some(bytes));
        }
        var m := network.Await();
        if m.Stall? {
          return Err(TimedOut);
        }
        if response.None? {
          var reply := m.onOpen(byteOffset);
          match Opening(reply, byteOffset)
          case Err(e) => return Err(e);
          case Ok(None) => return Ok(None);
          case Ok(Some(extent)) => response := Some(Response(BodyStart(reply), byteOffset, extent));
        } else {
          var more := Receive(m.onBody);
          if more.Err? {
            return Err(more.error);
          }
          if !more.value {
            return Ok(None);
          }
        }
      }
    }

    /** What one piece, end or error of the open response does. */
    method Receive(reply: BodyReply) returns (r: Result<bool, HttpError>)
      requires response.Some?
      modifies this
      ensures (View(), r) == Received(network.content, old(View()), reply)
    {
      var open := response.value;
      match reply
      case Bytes(count) =>
        var piece := Piece(network.content, open.bodyAt, count);
        pending := pending + piece;
        response := Some(open.(bodyAt := open.bodyAt + |piece|));
        r := Ok(true);
      case BodyEnd =>
        r := Reopens(View(), open);
        response := None;
      case BodyError =>
        response := None;
        r := if byteOffset > open.start then Ok(true) else Err(Http(None));
    }
  }

  // ------------------------------------------------------------------ the source

  predicate StaleStatus(status: nat) {
    status in {401, 403, 404, 410}
  }

  predicate ShouldReresolve(e: HttpError) {
    e == TimedOut || (e.Http? && e.status.Some? && StaleStatus(e.status.value))
  }

  function Chunk(r: Result<Option<seq<u8>>, HttpError>): seq<u8> {
    match r case Ok(Some(bytes)) => bytes case _ => []
  }

  /** One timed read: where it started, with what the network had in store, and what came of it. */
  datatype ReadRecord = ReadRecord(before: Stream, script: seq<Moment>, outcome: ReadResult)

  /** The history of a source: `returned` holds all bytes that Ok reads have returned, `made` every timed read
      in order and `replaced` how often the stream was replaced by one for a new URL. */
  class PlaybackSource {
    var stream: HttpOpusStream
    ghost var returned: seq<u8>
    ghost var made: seq<ReadRecord>
    ghost var replaced: nat

    /** Everything returned so far is a prefix of the resource, up to the place of the stream. */
    ghost predicate Valid()
      reads this, stream, stream.network
    {
      && ValidStream(stream.network.content, stream.View())
      && stream.byteOffset <= |stream.network.content|
      && returned == stream.network.content[..stream.byteOffset]
    }

    constructor (network: Network)
      requires |network.content| < 0x1_0000_0000_0000_0000
      ensures Valid() && returned == [] && made == [] && replaced == 0
      ensures stream.network == network && stream.View() == At(0) && fresh(stream)
    {
      stream := new HttpOpusStream(network);
      returned, made, replaced := [], [], 0;
    }

    method ResetStreamToCurrentByteOffset()
      modifies stream
      ensures stream.View() == At(old(stream.byteOffset))
      ensures old(Valid()) ==> Valid()
    {
      stream.SetResumeOffset(stream.byteOffset);
    }

    method ReplaceResolvedStreamAtCurrentByteOffset()
      modifies this`stream, this`replaced
      ensures fresh(stream) && stream.network == old(stream.network)
      ensures stream.View() == At(old(stream.byteOffset)) && replaced == old(replaced) + 1
      ensures old(Valid()) ==> Valid()
    {
      var replacement := new HttpOpusStream(stream.network);
      replacement.SetResumeOffset(stream.byteOffset);
      stream := replacement;
      replaced := replaced + 1;
    }

    /** One timed read, recorded. */
    method Read() returns (r: Result<Option<seq<u8>>, HttpError>)
      requires Valid()
      modifies stream, stream.network, this`returned, this`made
      ensures var outcome := ReadOf(stream.network.content, old(stream.View()), old(stream.network.script));
              && stream.View() == outcome.stream && stream.network.script == outcome.script && r == outcome.result
              && made == old(made) + [ReadRecord(old(stream.View()), old(stream.network.script), outcome)]
      ensures Valid() && returned == old(returned) + Chunk(r)
      ensures r.Ok? && r.value.Some? ==> 0 < |r.value.value| <= MAX_READ_CHUNK_BYTES
      ensures Genuine(stream.network.content, made[|old(made)|])
    {
      ghost var content, before, script := stream.network.content, stream.View(), stream.network.script;
      ReadContinues(content, before, script);
      r := stream.ReadChunk();
      returned := returned + Chunk(r);
      made := made + [ReadRecord(before, script, ReadOf(content, before, script))];
      assert content[..stream.byteOffset] == content[..before.offset] + content[before.offset..stream.byteOffset];
    }
  }

  // ------------------------------------------------------------------ retry and re-resolve

  /** The next read is made at the place the last one left, on a stream set there anew, with what the network
      still has in store. */
  ghost predicate ReadsOn(last: ReadRecord, next: ReadRecord) {
    next.before == At(last.outcome.stream.offset) && next.script == last.outcome.script
  }

  /** The timed reads of one call: a first timeout is retried once; a stale or timed-out read is followed by
      asking the resolver, and by another read if that succeeds; nothing else is retried. */
  ghost predicate FollowsPolicy(log: seq<ReadRecord>, hasVideo: bool, resolves: bool, retried: bool, asked: bool,
                                r: Result<Option<seq<u8>>, HttpError>)
  {
    && |log| == 1 + (if retried then 1 else 0) + (if asked && resolves then 1 else 0)
    && (retried <==> log[0].outcome.result == Err(TimedOut))
    && var decisive := log[if retried then 1 else 0].outcome.result;
       && (asked <==> hasVideo && CallsForNewUrl(decisive))
       && r == if !asked then decisive else if resolves then log[|log| - 1].outcome.result else Err(ResolveFailed)
  }

  /** A read that timed out or met one of the statuses of an expired URL. */
  predicate CallsForNewUrl(r: Result<Option<seq<u8>>, HttpError>) {
    r == Err(TimedOut) || r in {Err(Http(Some(401))), Err(Http(Some(403))), Err(Http(Some(404))), Err(Http(Some(410)))}
  }

  /** The record is what a read from there really gives. */
  ghost predicate Genuine(content: seq<u8>, record: ReadRecord) {
    record.outcome == ReadOf(content, record.before, record.script)
  }

  /** The log consists of genuine reads, each made where the one before it left off. */
  ghost predicate Chained(content: seq<u8>, log: seq<ReadRecord>) {
    |log| > 0 && Genuine(content, log[|log| - 1])
    && (|log| == 1 || (Chained(content, log[..|log| - 1]) && ReadsOn(log[|log| - 2], log[|log| - 1])))
  }

  /** Such a log, from the given stream and script to the later ones. */
  ghost predicate Accounts(content: seq<u8>, log: seq<ReadRecord>, s: Stream, script: seq<Moment>, t: Stream, rest: seq<Moment>) {
    && Chained(content, log)
    && log[0].before == s && log[0].script == script
    && log[|log| - 1].outcome.stream == t && log[|log| - 1].outcome.script == rest
  }

  lemma {:induction false} AccountsFirst(content: seq<u8>, first: ReadRecord)
    requires Genuine(content, first)
    ensures Accounts(content, [first], first.before, first.script, first.outcome.stream, first.outcome.script)
  {}

  /** One more read where the log left off. */
  lemma {:induction false} AccountsPush(content: seq<u8>, log: seq<ReadRecord>, s: Stream, script: seq<Moment>, t: Stream, rest: seq<Moment>, next: ReadRecord)
    requires Accounts(content, log, s, script, t, rest)
    requires Genuine(content, next) && next.before == At(t.offset) && next.script == rest
    ensures Accounts(content, log + [next], s, script, next.outcome.stream, next.outcome.script)
  {
    assert (log + [next])[..|log|] == log;
  }

  /** With an honest server, a log whose last read reports the end has reached it. */
  lemma {:induction false} LogEndsHonestly(content: seq<u8>, log: seq<ReadRecord>)
    requires Chained(content, log)
    ensures HonestStream(content, log[0].before) && HonestScript(log[0].script, |content|) ==>
              var last := log[|log| - 1].outcome;
              && HonestStream(content, last.stream) && HonestScript(last.script, |content|)
              && (last.result == Ok(None) ==> last.stream.offset >= |content|)
  {
    var last := log[|log| - 1];
    if |log| > 1 {
      LogEndsHonestly(content, log[..|log| - 1]);
    }
    if HonestStream(content, log[0].before) && HonestScript(log[0].script, |content|) {
      ReadEndsHonestly(content, last.before, last.script);
    }
  }

  /** A first timeout and its retry. */
  lemma {:induction false} PolicyRetries(first: ReadRecord, second: ReadRecord)
    requires first.outcome.result == Err(TimedOut)
    ensures FollowsPolicy([first, second], false, false, true, false, second.outcome.result)
  {}

  lemma {:induction false} ReresolvesIff(r: Result<Option<seq<u8>>, HttpError>)
    ensures r.Err? && ShouldReresolve(r.error) <==> CallsForNewUrl(r)
  {}

  /** Without a call for a new URL the policy ends with the read and its retry. */
  lemma {:induction false} PolicyStands(log: seq<ReadRecord>, hasVideo: bool, resolves: bool, r: Result<Option<seq<u8>>, HttpError>)
    requires FollowsPolicy(log, false, false, |log| == 2, false, r) && !CallsForNewUrl(r)
    ensures FollowsPolicy(log, hasVideo, resolves, |log| == 2, false, r)
  {}

  /** The read after a successful re-resolve completes the policy. */
  lemma {:induction false} PolicyExtends(log: seq<ReadRecord>, retried: bool, r: Result<Option<seq<u8>>, HttpError>, next: ReadRecord)
    requires FollowsPolicy(log, false, false, retried, false, r) && r.Err? && ShouldReresolve(r.error)
    ensures FollowsPolicy(log + [next], true, true, retried, true, next.outcome.result)
  {}

  lemma {:induction false} FirstIsGenuine(content: seq<u8>, log: seq<ReadRecord>)
    requires Chained(content, log)
    ensures Genuine(content, log[0])
  {
    if |log| > 1 {
      FirstIsGenuine(content, log[..|log| - 1]);
    }
  }

  /** From the status line to the new URL: a call whose first request is answered 401, 403, 404 or 410 is not retried
      on the old URL; with a video id the resolver is asked, and the next read is the answer. */
  lemma {:induction false} ExpiredUrlIsReresolved(content: seq<u8>, log: seq<ReadRecord>, hasVideo: bool, resolves: bool,
                                                  retried: bool, asked: bool, r: Result<Option<seq<u8>>, HttpError>)
    requires Chained(content, log) && FollowsPolicy(log, hasVideo, resolves, retried, asked, r)
    requires log[0].before.pending == [] && log[0].before.response.None? && log[0].script != [] && log[0].script[0].Moment?
    requires var reply := log[0].script[0].onOpen(log[0].before.offset); reply.Reply? && reply.status in {401, 403, 404, 410}
    ensures !retried && asked == hasVideo
    ensures r == if !hasVideo then Err(Http(Some(log[0].script[0].onOpen(log[0].before.offset).status)))
                 else if resolves then log[1].outcome.result else Err(ResolveFailed)
  {
    FirstIsGenuine(content, log);
    ReplyDecides(content, log[0].before, log[0].script);
  }

  class PlaybackRecovery {
    var httpRetryCount: nat
    var urlReresolveCount: nat

    constructor ()
      ensures httpRetryCount == 0 && urlReresolveCount == 0
    {
      httpRetryCount, urlReresolveCount := 0, 0;
    }

    /** `resolves` is the answer of the resolver, should it be asked. */
    method ReresolveSteadySource(hasVideo: bool, source: PlaybackSource, original: HttpError, resolves: bool)
      returns (r: Result<(), HttpError>)
      modifies this`urlReresolveCount, source`stream, source`replaced
      ensures r == if !hasVideo then Err(original) else if resolves then Ok(()) else Err(ResolveFailed)
      ensures r.Ok? ==> && fresh(source.stream) && source.stream.network == old(source.stream.network)
                        && source.stream.View() == At(old(source.stream.byteOffset)) && source.replaced == old(source.replaced) + 1
      ensures r.Err? ==> source.stream == old(source.stream) && source.replaced == old(source.replaced)
      ensures old(source.Valid()) ==> source.Valid()
      ensures urlReresolveCount == old(urlReresolveCount) + if hasVideo then 1 else 0
    {
      if !hasVideo {
        return Err(original);
      }
      urlReresolveCount := urlReresolveCount + 1;
      if !resolves {
        return Err(ResolveFailed);
      }
      source.ReplaceResolvedStreamAtCurrentByteOffset();
      r := Ok(());
    }

    /** A read, and a second one at the same place if the first timed out. */
    method ReadWithRetry(source: PlaybackSource) returns (r: Result<Option<seq<u8>>, HttpError>, ghost log: seq<ReadRecord>)
      requires source.Valid()
      modifies this`httpRetryCount, source`returned, source`made, source.stream, source.stream.network
      ensures source.Valid() && source.returned == old(source.returned) + Chunk(r)
      ensures r.Ok? && r.value.Some? ==> 0 < |r.value.value| <= MAX_READ_CHUNK_BYTES
      ensures source.made == old(source.made) + log
      ensures Accounts(source.stream.network.content, log, old(source.stream.View()), old(source.stream.network.script),
                       source.stream.View(), source.stream.network.script)
      ensures httpRetryCount == old(httpRetryCount) + |log| - 1
      ensures FollowsPolicy(log, false, false, |log| == 2, false, r)
    {
      ghost var content, before := source.stream.network.content, source.made;
      r := source.Read();
      ghost var first := source.made[|before|];
      log := [first];
      AccountsFirst(content, first);
      if r == Err(TimedOut) {
        httpRetryCount := httpRetryCount + 1;
        source.ResetStreamToCurrentByteOffset();
        r := source.Read();
        ghost var second := source.made[|before| + 1];
        AccountsPush(content, [first], first.before, first.script, first.outcome.stream, first.outcome.script, second);
        PolicyRetries(first, second);
        log := [first] + [second];
      }
    }

    /** What follows a stale or timed-out read: the resolver is asked and, if it answers, one more read is made
        at the same place. */
    method ReresolveAndRead(hasVideo: bool, source: PlaybackSource, original: HttpError, resolves: bool)
      returns (r: Result<Option<seq<u8>>, HttpError>)
      requires source.Valid()
      modifies this`urlReresolveCount, source, source.stream, source.stream.network
      ensures source.Valid() && source.stream.network == old(source.stream.network)
      ensures source.returned == old(source.returned) + Chunk(r)
      ensures r.Ok? && r.value.Some? ==> 0 < |r.value.value| <= MAX_READ_CHUNK_BYTES
      ensures urlReresolveCount == old(urlReresolveCount) + if hasVideo then 1 else 0
      ensures source.replaced == old(source.replaced) + if hasVideo && resolves then 1 else 0
      ensures hasVideo && resolves ==>
        && |source.made| == |old(source.made)| + 1 && source.made == old(source.made) + [source.made[|old(source.made)|]]
        && var last := source.made[|old(source.made)|];
           && last.before == At(old(source.stream.byteOffset)) && last.script == old(source.stream.network.script)
           && last.outcome == ReadResult(source.stream.View(), source.stream.network.script, r)
           && Genuine(source.stream.network.content, last)
      ensures !(hasVideo && resolves) ==>
        && r == Err(if hasVideo then ResolveFailed else original) && source.made == old(source.made)
        && source.stream.View() == old(source.stream.View()) && source.stream.network.script == old(source.stream.network.script)
    {
      var resolved := ReresolveSteadySource(hasVideo, source, original, resolves);
      if resolved.Err? {
        return Err(resolved.error);
      }
      r := source.Read();
    }

    /** The same, with the log of the call so far carried on. */
    method ReresolveAndLog(hasVideo: bool, source: PlaybackSource, original: HttpError, resolves: bool,
                            ghost earlier: seq<ReadRecord>, ghost log: seq<ReadRecord>)
      returns (r: Result<Option<seq<u8>>, HttpError>, ghost all: seq<ReadRecord>)
      requires source.Valid() && log != [] && source.made == earlier + log
      requires Accounts(source.stream.network.content, log, log[0].before, log[0].script, source.stream.View(), source.stream.network.script)
      requires FollowsPolicy(log, false, false, |log| == 2, false, Err(original)) && ShouldReresolve(original)
      modifies this`urlReresolveCount, source, source.stream, source.stream.network
      ensures source.Valid() && source.stream.network == old(source.stream.network)
      ensures source.returned == old(source.returned) + Chunk(r)
      ensures r.Ok? && r.value.Some? ==> 0 < |r.value.value| <= MAX_READ_CHUNK_BYTES
      ensures source.made == earlier + all && log <= all
      ensures Accounts(source.stream.network.content, all, log[0].before, log[0].script, source.stream.View(), source.stream.network.script)
      ensures urlReresolveCount == old(urlReresolveCount) + if hasVideo then 1 else 0
      ensures source.replaced == old(source.replaced) + if hasVideo && resolves then 1 else 0
      ensures FollowsPolicy(all, hasVideo, resolves, |log| == 2, hasVideo, r)
    {
      ghost var t, rest := source.stream.View(), source.stream.network.script;
      ghost var before := source.made;
      r := ReresolveAndRead(hasVideo, source, original, resolves);
      all := log;
      if hasVideo && resolves {
        ghost var next := source.made[|before|];
        AccountsPush(source.stream.network.content, log, log[0].before, log[0].script, t, rest, next);
        PolicyExtends(log, |log| == 2, Err(original), next);
        all := log + [next];
        assert earlier + all == (earlier + log) + [next];
      }
    }

    /** For any pattern of stalls, stale statuses, broken or short responses and re-resolutions: an Ok chunk
        continues the bytes returned so far, which are always a prefix of the resource, and anything else
        returns nothing. `log` holds the timed reads made: one, a retry exactly after a first timeout, and one more
        after a re-resolve, which is asked for exactly after a stale or timed-out read of a known video. With an
        honest server the end is reported only at the end. */
    method ReadStreamChunk(hasVideo: bool, source: PlaybackSource, resolves: bool)
      returns (r: Result<Option<seq<u8>>, HttpError>, ghost log: seq<ReadRecord>)
      requires source.Valid()
      modifies this, source, source.stream, source.stream.network
      ensures source.Valid() && source.stream.network == old(source.stream.network)
      ensures source.returned == old(source.returned) + Chunk(r)
      ensures r.Ok? && r.value.Some? ==> 0 < |r.value.value| <= MAX_READ_CHUNK_BYTES
      ensures source.made == old(source.made) + log && |log| <= 3
      ensures Accounts(source.stream.network.content, log, old(source.stream.View()), old(source.stream.network.script),
                       source.stream.View(), source.stream.network.script)
      ensures var retried, asked := httpRetryCount != old(httpRetryCount), urlReresolveCount != old(urlReresolveCount);
              && (retried ==> httpRetryCount == old(httpRetryCount) + 1)
              && (asked ==> urlReresolveCount == old(urlReresolveCount) + 1)
              && source.replaced == old(source.replaced) + (if asked && resolves then 1 else 0)
              && FollowsPolicy(log, hasVideo, resolves, retried, asked, r)
      ensures r == Ok(None) && HonestStream(source.stream.network.content, log[0].before)
              && HonestScript(log[0].script, |source.stream.network.content|) ==>
        source.returned == source.stream.network.content
    {
      ghost var earlier := source.made;
      r, log := ReadWithRetry(source);
      ReresolvesIff(r);
      if r.Err? && ShouldReresolve(r.error) {
        r, log := ReresolveAndLog(hasVideo, source, r.error, resolves, earlier, log);
      } else {
        PolicyStands(log, hasVideo, resolves, r);
      }
      LogEndsHonestly(source.stream.network.content, log);
    }
  }
}
