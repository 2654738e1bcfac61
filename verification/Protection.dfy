/** Transport protection of RTP packets (crates/discord-voice-service-voice/src/protection.rs).
    The two ciphers are a parameter: an `Aead` is a pair of functions, and `Correct` is the
    law that opening inverts sealing. */
module Protection {
  import opened Words
  import opened Rtp

  const TAG_LEN := 16
  const NONCE_SUFFIX_LEN := 4

  datatype Mode = AeadAes256GcmRtpsize | AeadXChaCha20Poly1305Rtpsize

  datatype ProtectionError =
    | KeyInvalid
    | ProtectionFailed
    | Header(error: RtpError)
    | Truncated
    | BodyTooShort
    | UnprotectFailed
    | PaddingInvalid

  datatype Sealed = Sealed(ciphertext: seq<u8>, tag: seq<u8>)

  /** `seal` and `open` take the mode, the key, the nonce suffix and the associated data. */
  datatype Aead = Aead(
    seal: (Mode, seq<u8>, seq<u8>, seq<u8>, seq<u8>) -> Option<Sealed>,
    open: (Mode, seq<u8>, seq<u8>, seq<u8>, Sealed) -> Option<seq<u8>>)

  ghost predicate Correct(a: Aead) {
    forall mode, key, nonce, aad, plain: seq<u8> :: a.seal(mode, key, nonce, aad, plain).Some? ==>
      var s := a.seal(mode, key, nonce, aad, plain).value;
      && |s.ciphertext| == |plain|
      && |s.tag| == TAG_LEN
      && a.open(mode, key, nonce, aad, s) == Some(plain)
  }

  /** The bytes `protect_packet` returns when it draws `nonce`. */
  function Protect(a: Aead, mode: Mode, key: seq<u8>, nonce: u32, header: seq<u8>, payload: seq<u8>)
    : Result<seq<u8>, ProtectionError>
  {
    var sealed := a.seal(mode, key, Be32(nonce), header, payload);
    if sealed.None? then Err(ProtectionFailed)
    else Ok(header + sealed.value.ciphertext + sealed.value.tag + Be32(nonce))
  }

  function StripPadding(padded: bool, plain: seq<u8>): Result<seq<u8>, ProtectionError> {
    if !padded then Ok(plain)
    else if plain == [] then Err(PaddingInvalid)
    else
      var n := plain[|plain| - 1];
      if n == 0 || n > |plain| then Err(PaddingInvalid) else Ok(plain[..|plain| - n])
  }

  function Unprotect(a: Aead, mode: Mode, key: seq<u8>, packet: seq<u8>)
    : Result<(RtpHeader, seq<u8>), ProtectionError>
  {
    var parsed := ParseRtpHeader(packet);
    if parsed.Err? then Err(Header(parsed.error)) else
    var header := parsed.value;
    if header.headerLen > |packet| then Err(Truncated) else
    if |packet| - header.headerLen < TAG_LEN + NONCE_SUFFIX_LEN then Err(BodyTooShort) else
    var nonceAt := |packet| - NONCE_SUFFIX_LEN;
    var tagAt := nonceAt - TAG_LEN;
    var plain := a.open(mode, key, packet[nonceAt..], packet[..header.headerLen],
                        Sealed(packet[header.headerLen..tagAt], packet[tagAt..nonceAt]));
    if plain.None? then Err(UnprotectFailed) else
    var stripped := StripPadding(header.padding, plain.value);
    if stripped.Err? then Err(stripped.error) else Ok((header, stripped.value))
  }

  /** `protection_nonce_from_packet` on a protected packet. */
  function NonceOf(packet: seq<u8>): u32
    requires |packet| >= NONCE_SUFFIX_LEN
  {
    FromBe(packet[|packet| - NONCE_SUFFIX_LEN..])
  }

  /** A header that parses to exactly its own length. */
  predicate SelfContained(header: seq<u8>) {
    ParseRtpHeader(header).Ok? && ParseRtpHeader(header).value.headerLen == |header|
  }

  /** Unprotecting a protected packet gives back the header and, after RTP padding is
      stripped, the payload; nothing but a malformed padding count can make it fail. */
  lemma {:induction false} UnprotectInvertsProtect(a: Aead, mode: Mode, key: seq<u8>, nonce: u32, header: seq<u8>, payload: seq<u8>)
    requires Correct(a)
    requires SelfContained(header)
    requires Protect(a, mode, key, nonce, header, payload).Ok?
    ensures var packet := Protect(a, mode, key, nonce, header, payload).value;
            var parsed := ParseRtpHeader(header).value;
            && |packet| == |header| + |payload| + TAG_LEN + NONCE_SUFFIX_LEN
            && NonceOf(packet) == nonce
            && packet[..|header|] == header
            && a.seal(mode, key, packet[|packet| - 4..], header, payload)
               == Some(Sealed(packet[|header|..|header| + |payload|], packet[|header| + |payload|..|packet| - 4]))
            && Unprotect(a, mode, key, packet)
               == match StripPadding(parsed.padding, payload)
                  case Ok(plain) => Ok((parsed, plain))
                  case Err(e) => Err(e)
  {
    var packet := Protect(a, mode, key, nonce, header, payload).value;
    var sealed := a.seal(mode, key, Be32(nonce), header, payload).value;
    assert packet[..|header|] == header == header[..|header|];
    ParseIsLocal(header, packet);
    var nonceAt := |packet| - NONCE_SUFFIX_LEN;
    var tagAt := nonceAt - TAG_LEN;
    assert tagAt == |header| + |payload|;
    assert packet[nonceAt..] == Be32(nonce);
    assert packet[tagAt..nonceAt] == sealed.tag;
    assert packet[|header|..tagAt] == sealed.ciphertext;
    Be32RoundTrip(nonce);
  }

  /** The packets this service builds: no padding, so the payload comes back verbatim. */
  lemma {:induction false} BuiltPacketRoundTrip(a: Aead, mode: Mode, key: seq<u8>, nonce: u32,
                             ssrc: u32, sequence: u16, timestamp: u32, payload: seq<u8>)
    requires Correct(a)
    requires Protect(a, mode, key, nonce, BuildHeader(ssrc, sequence, timestamp), payload).Ok?
    ensures Unprotect(a, mode, key, Protect(a, mode, key, nonce, BuildHeader(ssrc, sequence, timestamp), payload).value)
         == Ok((RtpHeader(2, false, false, 0, false, 0x78, sequence, timestamp, ssrc, 12), payload))
  {
    var header := BuildHeader(ssrc, sequence, timestamp);
    ParseInvertsBuild(ssrc, sequence, timestamp, []);
    assert header + [] == header;
    UnprotectInvertsProtect(a, mode, key, nonce, header, payload);
  }

  /** Any header layout of RFC 3550, with or without padding, survives the round trip. */
  lemma {:induction false} LayoutRoundTrip(a: Aead, mode: Mode, key: seq<u8>, nonce: u32, l: Layout, payload: seq<u8>)
    requires Correct(a) && WellFormed(l)
    requires Protect(a, mode, key, nonce, Encode(l), payload).Ok?
    ensures var result := Unprotect(a, mode, key, Protect(a, mode, key, nonce, Encode(l), payload).value);
            && (!l.padding ==> result == Ok((Described(l), payload)))
            && (l.padding ==> (result.Ok? <==> payload != [] && 0 < payload[|payload| - 1] <= |payload|))
            && (l.padding && result.Ok? ==> result.value == (Described(l), payload[..|payload| - payload[|payload| - 1]]))
            && (result.Err? ==> result == Err(PaddingInvalid))
  {
    ParseInvertsEncode(l, []);
    assert Encode(l) + [] == Encode(l);
    UnprotectInvertsProtect(a, mode, key, nonce, Encode(l), payload);
  }

  /** `ProtectionContext`: the nonce counter moves on every attempt, even a failed one. */
  class ProtectionContext {
    const aead: Aead
    const mode: Mode
    const key: seq<u8>
    var nextNonce: u32

    constructor (aead: Aead, mode: Mode, key: seq<u8>)
      requires |key| == 32
      ensures this.aead == aead && this.mode == mode && this.key == key && nextNonce == 0
    {
      this.aead := aead;
      this.mode := mode;
      this.key := key;
      nextNonce := 0;
    }

    method ProtectPacket(header: seq<u8>, payload: seq<u8>) returns (r: Result<seq<u8>, ProtectionError>)
      modifies this
      ensures nextNonce == Wrap32(old(nextNonce) + 1)
      ensures r == Protect(aead, mode, key, old(nextNonce), header, payload)
    {
      var suffix := Be32(nextNonce);
      nextNonce := Wrap32(nextNonce + 1);
      var packet := header;
      var payloadStart := |packet|;
      packet := packet + payload;
      var sealed := aead.seal(mode, key, suffix, header, packet[payloadStart..]);
      if sealed.None? {
        return Err(ProtectionFailed);
      }
      packet := packet[..payloadStart] + sealed.value.ciphertext;
      packet := packet + sealed.value.tag;
      packet := packet + suffix;
      r := Ok(packet);
    }

    method UnprotectPacket(packet: seq<u8>) returns (r: Result<(RtpHeader, seq<u8>), ProtectionError>)
      ensures r == Unprotect(aead, mode, key, packet)
    {
      var parsed := ParseRtpHeader(packet);
      if parsed.Err? {
        return Err(Header(parsed.error));
      }
      var header := parsed.value;
      if header.headerLen > |packet| {
        return Err(Truncated);
      }
      var body := packet[header.headerLen..];
      if |body| < TAG_LEN + NONCE_SUFFIX_LEN {
        return Err(BodyTooShort);
      }
      var nonceAt := |body| - NONCE_SUFFIX_LEN;
      var ciphertext, tag := body[..nonceAt - TAG_LEN], body[nonceAt - TAG_LEN..nonceAt];
      assert body[nonceAt..] == packet[|packet| - NONCE_SUFFIX_LEN..];
      assert tag == packet[|packet| - NONCE_SUFFIX_LEN - TAG_LEN..|packet| - NONCE_SUFFIX_LEN];
      assert ciphertext == packet[header.headerLen..|packet| - NONCE_SUFFIX_LEN - TAG_LEN];
      var plaintext := aead.open(mode, key, body[nonceAt..], packet[..header.headerLen], Sealed(ciphertext, tag));
      if plaintext.None? {
        return Err(UnprotectFailed);
      }
      var plain := plaintext.value;
      if header.padding {
        if plain == [] {
          return Err(PaddingInvalid);
        }
        var padding := plain[|plain| - 1];
        if padding == 0 || padding > |plain| {
          return Err(PaddingInvalid);
        }
        plain := plain[..|plain| - padding];
      }
      r := Ok((header, plain));
    }
  }
}
