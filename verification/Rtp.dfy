/** RTP headers and the egress cursor (crates/discord-voice-service-voice/src/rtp.rs). */
module Rtp {
  import opened Words

  datatype RtpError = TooShort | UnsupportedVersion | CsrcTruncated | ExtensionHeaderTruncated | ExtensionTruncated

  datatype RtpHeader = RtpHeader(
    version: u8,
    padding: bool,
    extension: bool,
    csrcCount: u8,
    marker: bool,
    payloadType: u8,
    sequence: u16,
    timestamp: u32,
    ssrc: u32,
    headerLen: nat)

  /** `to_be_bytes`: the low `k` bytes of `n`, most significant first. */
  function ToBe(n: nat, k: nat): (b: seq<u8>)
    ensures |b| == k
  {
    if k == 0 then [] else ToBe(n / 0x100, k - 1) + [n % 0x100]
  }

  /** `from_be_bytes`. */
  function FromBe(b: seq<u8>): (n: nat)
    ensures |b| <= 1 ==> n < 0x100
    ensures |b| <= 2 ==> n < 0x1_0000
    ensures |b| <= 3 ==> n < 0x100_0000
    ensures |b| <= 4 ==> n < 0x1_0000_0000
  {
    if |b| == 0 then 0 else FromBe(b[..|b| - 1]) * 0x100 + b[|b| - 1]
  }

  function Pow256(k: nat): nat {
    if k == 0 then 1 else 0x100 * Pow256(k - 1)
  }

  lemma {:induction false} FromToBe(n: nat, k: nat)
    requires n < Pow256(k)
    ensures FromBe(ToBe(n, k)) == n
  {
    if k != 0 {
      FromToBe(n / 0x100, k - 1);
      assert ToBe(n, k)[..k - 1] == ToBe(n / 0x100, k - 1);
    }
  }

  function Be16(n: u16): (b: seq<u8>)
    ensures |b| == 2
  {
    ToBe(n, 2)
  }

  function Be32(n: u32): (b: seq<u8>)
    ensures |b| == 4
  {
    ToBe(n, 4)
  }

  lemma {:induction false} Be16RoundTrip(n: u16)
    ensures FromBe(Be16(n)) == n
  {
    assert Pow256(2) == 0x1_0000;
    FromToBe(n, 2);
  }

  lemma {:induction false} Be32RoundTrip(n: u32)
    ensures FromBe(Be32(n)) == n
  {
    assert Pow256(4) == 0x1_0000_0000;
    FromToBe(n, 4);
  }

  /** `RtpPacketBuilder::build_header`: version 2, no padding, extension or CSRC,
      payload type 0x78. */
  function BuildHeader(ssrc: u32, sequence: u16, timestamp: u32): (h: seq<u8>)
    ensures |h| == 12
  {
    [0x80, 0x78] + Be16(sequence) + Be32(timestamp) + Be32(ssrc)
  }

  function ParseRtpHeader(packet: seq<u8>): Result<RtpHeader, RtpError> {
    if |packet| < 12 then Err(TooShort) else
    var first := packet[0];
    if first / 64 != 2 then Err(UnsupportedVersion) else
    var extension := first / 16 % 2 == 1;
    var fixedLen := 12 + first % 16 * 4;
    if |packet| < fixedLen then Err(CsrcTruncated)
    else if !extension then Ok(HeaderOf(packet, fixedLen))
    else if |packet| < fixedLen + 4 then Err(ExtensionHeaderTruncated)
    else
      var words := FromBe(packet[fixedLen + 2..fixedLen + 4]);
      var headerLen := fixedLen + 4 + words * 4;
      if |packet| < headerLen then Err(ExtensionTruncated) else Ok(HeaderOf(packet, headerLen))
  }

  /** The fields the parser reads from the twelve fixed bytes. */
  function HeaderOf(packet: seq<u8>, headerLen: nat): RtpHeader
    requires |packet| >= 12
  {
    RtpHeader(
      packet[0] / 64, packet[0] / 32 % 2 == 1, packet[0] / 16 % 2 == 1, packet[0] % 16,
      packet[1] / 128 == 1, packet[1] % 128,
      FromBe(packet[2..4]),
      FromBe(packet[4..8]),
      FromBe(packet[8..12]),
      headerLen)
  }

  /** The numbers that two and four bytes stand for, the most significant byte first. */
  function InOrder16(a: nat, b: nat): nat {
    a * 0x100 + b
  }

  function InOrder32(a: nat, b: nat, c: nat, d: nat): nat {
    a * 0x100_0000 + b * 0x1_0000 + c * 0x100 + d
  }

  /** Two bytes in network order. */
  lemma {:induction false} BigEndian16(b: seq<u8>, i: nat)
    requires i + 2 <= |b|
    ensures FromBe(b[i..i + 2]) == InOrder16(b[i], b[i + 1])
  {
    var two := b[i..i + 2];
    var one := two[..1];
    assert one[..0] == [] && FromBe(one) == one[0] == b[i];
  }

  /** Four bytes in network order. */
  lemma {:induction false} BigEndian32(b: seq<u8>, i: nat)
    requires i + 4 <= |b|
    ensures FromBe(b[i..i + 4]) == InOrder32(b[i], b[i + 1], b[i + 2], b[i + 3])
  {
    BigEndian16(b, i);
    var four := b[i..i + 4];
    assert four[..3][..2] == b[i..i + 2];
    assert FromBe(four[..3]) == FromBe(four[..3][..2]) * 0x100 + b[i + 2];
    assert FromBe(four) == FromBe(four[..3]) * 0x100 + b[i + 3];
  }

  /** The twelve bytes of a built header: version 2 and nothing else, payload type 120, and the three numbers in network
      order. */
  lemma {:induction false} BuiltBytes(ssrc: u32, sequence: u16, timestamp: u32)
    ensures var h := BuildHeader(ssrc, sequence, timestamp);
            && h[0] == 128 && h[1] == 120
            && InOrder16(h[2], h[3]) == sequence
            && InOrder32(h[4], h[5], h[6], h[7]) == timestamp
            && InOrder32(h[8], h[9], h[10], h[11]) == ssrc
  {
    var h := BuildHeader(ssrc, sequence, timestamp);
    assert h[2..4] == Be16(sequence) && h[4..8] == Be32(timestamp) && h[8..12] == Be32(ssrc);
    Be16RoundTrip(sequence);
    Be32RoundTrip(timestamp);
    Be32RoundTrip(ssrc);
    BigEndian16(h, 2);
    BigEndian32(h, 4);
    BigEndian32(h, 8);
  }

  /** A packet parses exactly when its first byte says version 2 and it is long enough for the fixed part, for the CSRC
      list of the length that byte gives and, with the extension bit set, for the extension header and for as many
      words as that announces. */
  lemma {:induction false} ParseOkIff(packet: seq<u8>)
    ensures ParseRtpHeader(packet).Ok?
       <==> && |packet| >= 12 && 128 <= packet[0] < 192
            && var at := 12 + 4 * (packet[0] % 16);
               && at <= |packet|
               && ((packet[0] / 16) % 2 == 1 ==>
                     at + 4 <= |packet| && at + 4 + 4 * InOrder16(packet[at + 2], packet[at + 3]) <= |packet|)
  {
    if |packet| >= 12 {
      var at := 12 + 4 * (packet[0] % 16);
      if at + 4 <= |packet| {
        BigEndian16(packet, at + 2);
      }
    }
  }

  /** The wire layout of sections 5.1 and 5.3.1 of RFC 3550, written from the fields:
      the reference the parser is checked against. */
  datatype Layout = Layout(
    padding: bool,
    marker: bool,
    payloadType: u8,
    sequence: u16,
    timestamp: u32,
    ssrc: u32,
    csrcs: seq<u32>,
    extension: Option<Extension>)

  datatype Extension = Extension(profile: u16, words: seq<u32>)

  predicate WellFormed(l: Layout) {
    && l.payloadType < 128
    && |l.csrcs| < 16
    && (l.extension.Some? ==> |l.extension.value.words| < 0x1_0000)
  }

  function Words32(ws: seq<u32>): (b: seq<u8>)
    ensures |b| == 4 * |ws|
  {
    if ws == [] then [] else Be32(ws[0]) + Words32(ws[1..])
  }

  function ExtensionBytes(e: Option<Extension>): (b: seq<u8>)
    requires e.Some? ==> |e.value.words| < 0x1_0000
    ensures |b| == if e.None? then 0 else 4 + 4 * |e.value.words|
  {
    if e.None? then [] else Be16(e.value.profile) + Be16(|e.value.words|) + Words32(e.value.words)
  }

  function FirstByte(l: Layout): u8
    requires WellFormed(l)
  {
    128 + (if l.padding then 32 else 0) + (if l.extension.Some? then 16 else 0) + |l.csrcs|
  }

  function Encode(l: Layout): (b: seq<u8>)
    requires WellFormed(l)
    ensures |b| == 12 + 4 * |l.csrcs| + (if l.extension.None? then 0 else 4 + 4 * |l.extension.value.words|)
  {
    [FirstByte(l), (if l.marker then 128 else 0) + l.payloadType]
    + Be16(l.sequence) + Be32(l.timestamp) + Be32(l.ssrc)
    + Words32(l.csrcs) + ExtensionBytes(l.extension)
  }

  function Described(l: Layout): RtpHeader
    requires WellFormed(l)
  {
    RtpHeader(2, l.padding, l.extension.Some?, |l.csrcs|, l.marker, l.payloadType,
              l.sequence, l.timestamp, l.ssrc, |Encode(l)|)
  }

  lemma {:induction false} FirstByteFields(l: Layout)
    requires WellFormed(l)
    ensures var b := FirstByte(l);
            && b / 64 == 2
            && (b / 32 % 2 == 1 <==> l.padding)
            && (b / 16 % 2 == 1 <==> l.extension.Some?)
            && b % 16 == |l.csrcs|
  {}

  /** The twelve fixed bytes every layout starts with. */
  function FixedPart(l: Layout): (b: seq<u8>)
    requires WellFormed(l)
    ensures |b| == 12
  {
    [FirstByte(l), (if l.marker then 128 else 0) + l.payloadType]
    + Be16(l.sequence) + Be32(l.timestamp) + Be32(l.ssrc)
  }

  lemma {:induction false} FixedPartFields(l: Layout, rest: seq<u8>, headerLen: nat)
    requires WellFormed(l)
    ensures HeaderOf(FixedPart(l) + rest, headerLen)
         == RtpHeader(2, l.padding, l.extension.Some?, |l.csrcs|, l.marker, l.payloadType,
                      l.sequence, l.timestamp, l.ssrc, headerLen)
  {
    var packet := FixedPart(l) + rest;
    assert packet[2..4] == Be16(l.sequence);
    assert packet[4..8] == Be32(l.timestamp);
    assert packet[8..12] == Be32(l.ssrc);
    FirstByteFields(l);
    Be16RoundTrip(l.sequence);
    Be32RoundTrip(l.timestamp);
    Be32RoundTrip(l.ssrc);
  }

  lemma {:induction false} ExtensionLengthField(before: seq<u8>, e: Extension, rest: seq<u8>)
    requires |e.words| < 0x1_0000
    ensures var packet := before + ExtensionBytes(Some(e)) + rest;
            FromBe(packet[|before| + 2..|before| + 4]) == |e.words|
  {
    var packet := before + ExtensionBytes(Some(e)) + rest;
    assert packet == (before + Be16(e.profile)) + Be16(|e.words|) + (Words32(e.words) + rest);
    assert packet[|before| + 2..|before| + 4] == Be16(|e.words|);
    Be16RoundTrip(|e.words|);
  }

  lemma {:induction false} ParseAtLength(packet: seq<u8>, csrcs: nat, words: Option<nat>, headerLen: nat)
    requires |packet| >= headerLen >= 12
    requires packet[0] / 64 == 2 && packet[0] % 16 == csrcs
    requires packet[0] / 16 % 2 == 1 <==> words.Some?
    requires headerLen == 12 + 4 * csrcs + (if words.None? then 0 else 4 + 4 * words.value)
    requires words.Some? ==> FromBe(packet[12 + 4 * csrcs + 2..12 + 4 * csrcs + 4]) == words.value
    ensures ParseRtpHeader(packet) == Ok(HeaderOf(packet, headerLen))
  {}

  /** Parsing inverts encoding for every CSRC count and every extension length, whatever
      payload follows: the parser stops exactly at the end of the header. */
  lemma {:induction false} ParseInvertsEncode(l: Layout, payload: seq<u8>)
    requires WellFormed(l)
    ensures ParseRtpHeader(Encode(l) + payload) == Ok(Described(l))
  {
    var packet := Encode(l) + payload;
    var rest := Words32(l.csrcs) + ExtensionBytes(l.extension) + payload;
    EncodeSplits(l, payload);
    assert packet[0] == FirstByte(l);
    FirstByteFields(l);
    var words := if l.extension.None? then None else Some(|l.extension.value.words|);
    if l.extension.Some? {
      ExtensionLengthField(FixedPart(l) + Words32(l.csrcs), l.extension.value, payload);
    }
    ParseAtLength(packet, |l.csrcs|, words, |Encode(l)|);
    FixedPartFields(l, rest, |Encode(l)|);
  }

  lemma {:induction false} EncodeSplits(l: Layout, payload: seq<u8>)
    requires WellFormed(l)
    ensures var csrcs, extension := Words32(l.csrcs), ExtensionBytes(l.extension);
            && Encode(l) + payload == FixedPart(l) + (csrcs + extension + payload)
            && Encode(l) + payload == FixedPart(l) + csrcs + extension + payload
            && |FixedPart(l) + csrcs| == 12 + 4 * |l.csrcs|
  {
    var csrcs, extension := Words32(l.csrcs), ExtensionBytes(l.extension);
    assert Encode(l) == FixedPart(l) + csrcs + extension;
    Reassociate(FixedPart(l), csrcs, extension, payload);
  }

  lemma {:induction false} Reassociate(a: seq<u8>, b: seq<u8>, c: seq<u8>, d: seq<u8>)
    ensures a + b + c + d == a + (b + c + d)
  {}

  /** Every header the builder writes is a twelve-byte header with exactly the reserved
      sequence, timestamp and SSRC. */
  lemma {:induction false} ParseInvertsBuild(ssrc: u32, sequence: u16, timestamp: u32, payload: seq<u8>)
    ensures ParseRtpHeader(BuildHeader(ssrc, sequence, timestamp) + payload)
         == Ok(RtpHeader(2, false, false, 0, false, 0x78, sequence, timestamp, ssrc, 12))
  {
    var l := Layout(false, false, 0x78, sequence, timestamp, ssrc, [], None);
    ParseInvertsEncode(l, payload);
    assert Encode(l) == BuildHeader(ssrc, sequence, timestamp);
  }

  /** A parsed header lies inside the packet and covers the fixed part and the CSRC list. */
  lemma {:induction false} ParsedLengthBounds(packet: seq<u8>)
    requires ParseRtpHeader(packet).Ok?
    ensures var h := ParseRtpHeader(packet).value;
            && 12 + 4 * h.csrcCount + (if h.extension then 4 else 0) <= h.headerLen <= |packet|
            && h.version == 2
  {}

  /** Parsing looks at no byte past the header it returns: any packet with the same header
      bytes parses to the same header. */
  lemma {:induction false} ParseIsLocal(packet: seq<u8>, other: seq<u8>)
    requires ParseRtpHeader(packet).Ok?
    requires |other| >= ParseRtpHeader(packet).value.headerLen
    requires other[..ParseRtpHeader(packet).value.headerLen] == packet[..ParseRtpHeader(packet).value.headerLen]
    ensures ParseRtpHeader(other) == ParseRtpHeader(packet)
  {
    var n := ParseRtpHeader(packet).value.headerLen;
    ParsedLengthBounds(packet);
    SameSlice(packet, other, n, 2, 4);
    SameSlice(packet, other, n, 4, 8);
    SameSlice(packet, other, n, 8, 12);
    assert other[0] == other[..n][0] == packet[..n][0] == packet[0];
    assert other[1] == other[..n][1] == packet[..n][1] == packet[1];
    var fixedLen := 12 + packet[0] % 16 * 4;
    if packet[0] / 16 % 2 == 1 {
      SameSlice(packet, other, n, fixedLen + 2, fixedLen + 4);
    }
  }

  lemma {:induction false} SameSlice(a: seq<u8>, b: seq<u8>, n: nat, i: nat, j: nat)
    requires i <= j <= n <= |a| && n <= |b| && b[..n] == a[..n]
    ensures b[i..j] == a[i..j]
  {
    assert b[i..j] == b[..n][i..j] == a[..n][i..j] == a[i..j];
  }

  /** `RtpSequenceState`: the pair the next packet will carry. */
  datatype Cursor = Cursor(sequence: u16, timestamp: u32)

  const START := Cursor(0, 0)

  /** `advance_by_samples`. */
  function Advance(c: Cursor, samples: u32): Cursor {
    Cursor(Wrap16(c.sequence + 1), Wrap32(c.timestamp + samples))
  }

  /** A cursor advanced by a whole run of packets. */
  function AdvanceAll(c: Cursor, samples: seq<u32>): Cursor {
    Cursor(Wrap16(c.sequence + |samples|), Wrap32(c.timestamp + Sum(samples)))
  }

  lemma {:induction false} AdvanceAllPush(c: Cursor, samples: seq<u32>, x: u32)
    ensures AdvanceAll(c, samples + [x]) == Advance(AdvanceAll(c, samples), x)
  {
    SumPush(samples, x);
    Wrap16Step(c.sequence + |samples|, 1);
    Wrap32Step(c.timestamp + Sum(samples), x);
  }

  lemma {:induction false} AdvanceAllConcat(c: Cursor, a: seq<u32>, b: seq<u32>)
    ensures AdvanceAll(c, a + b) == AdvanceAll(AdvanceAll(c, a), b)
  {
    SumConcat(a, b);
    Wrap16Step(c.sequence + |a|, |b|);
    Wrap32Step(c.timestamp + Sum(a), Sum(b));
  }

  /** Advancing returns to the same cursor exactly when both counters wrap around together. */
  lemma {:induction false} AdvanceAllFixpoint(c: Cursor, samples: seq<u32>)
    ensures AdvanceAll(c, samples) == c <==> Wrap16(|samples|) == 0 && Wrap32(Sum(samples)) == 0
  {
    Wrap16Fix(c.sequence, |samples|);
    Wrap32Fix(c.timestamp, Sum(samples));
  }
}
