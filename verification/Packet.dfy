/**
 The inform packet codec (internal/inform/inform.go, codec.go, crypto_cbc.go): framing,
 padding, and the response envelope. AES is a pair of functions handed in; what is assumed
 of them is stated by Sound.
 */
module Packet {
  import opened Options
  import opened SshBlob

  type Bytes = seq<byte>

  const MAGIC: Bytes := [0x54, 0x4E, 0x42, 0x55]
  const DATA_VERSION := 1
  const MAX_BODY := 0xA00000
  const HEADER_LEN := 40

  datatype Packet = Packet(version: nat, mac: Bytes, flags: nat, iv: Bytes, dataVersion: nat, payload: Bytes)

  datatype ParseError = TooShort | TooLong | BadMagic | HeaderTooShort | BadLength | BadDataVersion

  predicate Bit(flags: nat, bit: nat)
    requires bit > 0
  {
    flags / bit % 2 == 1
  }

  const CBC := 1
  const SNAPPY := 4
  const GCM := 8

  function Word16(n: nat): Bytes
    requires n < 0x1_0000
  {
    [n / 256, n % 256]
  }

  function BigEndian16(b: Bytes): nat
    requires |b| == 2
  {
    b[0] as nat * 256 + b[1] as nat
  }

  /** Field widths of a packet value. */
  predicate Valid(p: Packet) {
    p.version < 0x1_0000_0000 && |p.mac| == 6 && p.flags < 0x1_0000 && |p.iv| == 16
    && p.dataVersion < 0x1_0000_0000 && |p.payload| < 0x1_0000_0000
  }

  function HeaderBytes(p: Packet, payloadLen: nat): (h: Bytes)
    requires Valid(p) && payloadLen < 0x1_0000_0000
    ensures |h| == HEADER_LEN
  {
    MAGIC + Length32(p.version) + p.mac + Word16(p.flags) + p.iv + Length32(p.dataVersion) + Length32(payloadLen)
  }

  function Serialize(p: Packet): Bytes
    requires Valid(p)
  {
    HeaderBytes(p, |p.payload|) + p.payload
  }

  /** ParsePacket, the checks in the order the source makes them. */
  function ParsePacket(body: Bytes): Result<Packet, ParseError> {
    if |body| < 8 then Failure(TooShort)
    else if |body| > MAX_BODY then Failure(TooLong)
    else if body[0..4] != MAGIC then Failure(BadMagic)
    else if |body| < HEADER_LEN then Failure(HeaderTooShort)
    else
      var dataLen := BigEndian32(body[36..40]);
      if dataLen > |body| - HEADER_LEN then Failure(BadLength)
      else if BigEndian32(body[32..36]) != DATA_VERSION then Failure(BadDataVersion)
      else Success(Packet(BigEndian32(body[4..8]), body[8..14], BigEndian16(body[14..16]), body[16..32],
                          DATA_VERSION, body[40..40 + dataLen]))
  }

  /** putHeader: the header written field by field into a buffer. */
  method PutHeader(buf: array<byte>, p: Packet, payloadLen: nat)
    requires Valid(p) && payloadLen < 0x1_0000_0000 && buf.Length >= HEADER_LEN
    modifies buf
    ensures buf[..HEADER_LEN] == HeaderBytes(p, payloadLen)
    ensures buf[HEADER_LEN..] == old(buf[HEADER_LEN..])
  {
    hide Length32;
    CopyAt(buf, 0, MAGIC);
    CopyAt(buf, 4, Length32(p.version));
    CopyAt(buf, 8, p.mac);
    CopyAt(buf, 14, Word16(p.flags));
    CopyAt(buf, 16, p.iv);
    CopyAt(buf, 32, Length32(p.dataVersion));
    CopyAt(buf, 36, Length32(payloadLen));
  }

  method CopyAt(buf: array<byte>, off: nat, src: Bytes)
    requires off + |src| <= buf.Length
    modifies buf
    ensures buf[..off + |src|] == old(buf[..off]) + src
    ensures forall k :: 0 <= k < buf.Length && (k < off || k >= off + |src|) ==> buf[k] == old(buf[k])
  {
    for i := 0 to |src|
      invariant forall k :: 0 <= k < i ==> buf[off + k] == src[k]
      invariant forall k :: 0 <= k < buf.Length && (k < off || k >= off + i) ==> buf[k] == old(buf[k])
    {
      buf[off + i] := src[i];
    }
  }

  lemma HeaderFields(p: Packet, n: nat, rest: Bytes)
    requires Valid(p) && n < 0x1_0000_0000
    ensures var b := HeaderBytes(p, n) + rest;
            && b[0..4] == MAGIC && b[4..8] == Length32(p.version) && b[8..14] == p.mac
            && b[14..16] == Word16(p.flags) && b[16..32] == p.iv
            && b[32..36] == Length32(p.dataVersion) && b[36..40] == Length32(n) && b[40..] == rest
  {
    var h0 := MAGIC + Length32(p.version);
    var h1 := h0 + p.mac;
    var h2 := h1 + Word16(p.flags);
    var h3 := h2 + p.iv;
    var h4 := h3 + Length32(p.dataVersion);
    assert |h0| == 8 && |h1| == 14 && |h2| == 16 && |h3| == 32 && |h4| == 36;
  }

  /** Parsing a serialized packet gives it back. */
  lemma ParseSerialized(p: Packet)
    requires Valid(p) && p.dataVersion == DATA_VERSION && HEADER_LEN + |p.payload| <= MAX_BODY
    ensures ParsePacket(Serialize(p)) == Success(p)
  {
    var b := Serialize(p);
    HeaderFields(p, |p.payload|, p.payload);
    Length32RoundTrip(p.version);
    Length32RoundTrip(p.dataVersion);
    Length32RoundTrip(|p.payload|);
    assert BigEndian16(Word16(p.flags)) == p.flags;
    assert b[40..40 + |p.payload|] == p.payload;
  }

  /** Serializing an accepted body gives back the header and payload it carried, without trailing bytes. */
  lemma SerializeParsed(body: Bytes)
    requires ParsePacket(body).Success?
    ensures var p := ParsePacket(body).value;
            Valid(p) && Serialize(p) == body[..HEADER_LEN + |p.payload|]
  {
    var p := ParsePacket(body).value;
    BigEndian32Injective(body[4..8]);
    BigEndian32Injective(body[32..36]);
    BigEndian32Injective(body[36..40]);
    assert Word16(BigEndian16(body[14..16])) == body[14..16];
    assert body[..HEADER_LEN + |p.payload|] ==
           body[0..4] + body[4..8] + body[8..14] + body[14..16] + body[16..32] + body[32..36] + body[36..40] + p.payload;
  }

  // ---- the header byte by byte ------------------------------------------------------------------

  ghost predicate Word16At(b: Bytes, at: nat, n: int)
    requires at + 2 <= |b|
  {
    n == b[at] as int * 0x100 + b[at + 1] as int
  }

  /** A body carries this packet: every header field at its offset, numbers big-endian, then the payload. */
  ghost predicate Carries(body: Bytes, p: Packet)
    requires |body| >= 40
  {
    && body[0] == 0x54 && body[1] == 0x4E && body[2] == 0x42 && body[3] == 0x55
    && Word32At(body, 4, p.version) && body[8..14] == p.mac && Word16At(body, 14, p.flags) && body[16..32] == p.iv
    && Word32At(body, 32, p.dataVersion) && Word32At(body, 36, |p.payload|)
    && |p.payload| <= |body| - 40 && body[40..40 + |p.payload|] == p.payload
  }

  lemma MagicBytes(body: Bytes)
    requires |body| >= 4
    ensures body[0..4] == MAGIC <==> body[0] == 0x54 && body[1] == 0x4E && body[2] == 0x42 && body[3] == 0x55
  {
    var m := body[0..4];
    assert m[0] == body[0] && m[1] == body[1] && m[2] == body[2] && m[3] == body[3];
  }

  /** The parser accepts exactly the bodies of 40 bytes to 10 MiB that carry a packet of data version 1, and returns that packet. */
  lemma AcceptedIff(body: Bytes, p: Packet)
    ensures ParsePacket(body) == Success(p) <==> 40 <= |body| <= 0xA00000 && p.dataVersion == 1 && Carries(body, p)
  {
    hide BigEndian32, Word32At;
    if 40 <= |body| <= 0xA00000 {
      MagicBytes(body);
      WordIsBigEndian(body, 4, p.version);
      WordIsBigEndian(body, 32, p.dataVersion);
      WordIsBigEndian(body, 36, |p.payload|);
      assert body[14..16][0] == body[14] && body[14..16][1] == body[15];
      if Carries(body, p) && p.dataVersion == 1 { assert BigEndian32(body[36..40]) == |p.payload|; }
    }
  }

  /** Why a body is refused, the first reason in this order: length, magic, header, declared length, data version. */
  lemma RefusedBecause(body: Bytes)
    ensures var r := ParsePacket(body); r.Failure? ==>
      match r.error
      case TooShort => |body| < 8
      case TooLong => |body| > 0xA00000
      case BadMagic => 8 <= |body| <= 0xA00000 && !(body[0] == 0x54 && body[1] == 0x4E && body[2] == 0x42 && body[3] == 0x55)
      case HeaderTooShort => 8 <= |body| < 40 && body[0] == 0x54 && body[1] == 0x4E && body[2] == 0x42 && body[3] == 0x55
      case BadLength => 40 <= |body| <= 0xA00000 && exists n :: Word32At(body, 36, n) && n > |body| - 40
      case BadDataVersion => 40 <= |body| <= 0xA00000 && !Word32At(body, 32, 1) && exists n :: Word32At(body, 36, n) && n <= |body| - 40
  {
    hide BigEndian32, Word32At;
    if 8 <= |body| <= 0xA00000 { MagicBytes(body); }
    if 40 <= |body| <= 0xA00000 {
      WordIsBigEndian(body, 36, BigEndian32(body[36..40]));
      WordIsBigEndian(body, 32, 1);
    }
  }

  lemma WordWritten(n: nat, b: Bytes, at: nat)
    requires n < 0x1_0000_0000 && at + 4 <= |b| && b[at..at + 4] == Length32(n)
    ensures Word32At(b, at, n)
  {
    hide Length32, BigEndian32;
    Length32RoundTrip(n);
    WordIsBigEndian(b, at, n);
  }

  /** What is sent carries the packet, and nothing after it. */
  lemma SentCarries(p: Packet)
    requires Valid(p)
    ensures |Serialize(p)| == 40 + |p.payload| && Carries(Serialize(p), p)
  {
    var b := Serialize(p);
    HeaderFields(p, |p.payload|, p.payload);
    hide Length32, Word32At;
    MagicBytes(b);
    WordWritten(p.version, b, 4);
    WordWritten(p.dataVersion, b, 32);
    WordWritten(|p.payload|, b, 36);
    var w := b[14..16];
    assert w[0] == b[14] && w[1] == b[15];
    assert b[40..40 + |p.payload|] == p.payload;
  }

  // ---- padding (section 10.3 of RFC 2315) ------------------------------------------------------

  const BLOCK := 16

  function Repeated(b: byte, n: nat): Bytes {
    seq(n, _ => b)
  }

  function Pad(data: Bytes): Bytes {
    var n := BLOCK - |data| % BLOCK;
    data + Repeated(n, n)
  }

  /** pkcs7Unpad: None when the padding is malformed. */
  function Unpad(b: Bytes): Option<Bytes> {
    if |b| == 0 || |b| % BLOCK != 0 then None
    else
      var n := b[|b| - 1];
      if n < 1 || n > BLOCK || n > |b| then None
      else if b[|b| - n..] != Repeated(n, n) then None
      else Some(b[..|b| - n])
  }

  /** trimLegacyPad: trailing NUL bytes removed. */
  function TrimLegacyPad(b: Bytes): Bytes {
    if |b| > 0 && b[|b| - 1] == 0 then TrimLegacyPad(b[..|b| - 1]) else b
  }

  method Pkcs7Unpad(b: Bytes) returns (r: Option<Bytes>)
    ensures r == Unpad(b)
  {
    if |b| == 0 || |b| % BLOCK != 0 {
      return None;
    }
    var n := b[|b| - 1];
    if n < 1 || n > BLOCK || n > |b| {
      return None;
    }
    for i := |b| - n to |b|
      invariant forall k :: |b| - n <= k < i ==> b[k] == n
    {
      if b[i] != n {
        assert b[|b| - n..][i - (|b| - n)] != Repeated(n, n)[i - (|b| - n)];
        return None;
      }
    }
    assert b[|b| - n..] == Repeated(n, n);
    r := Some(b[..|b| - n]);
  }

  method TrimPad(b: Bytes) returns (r: Bytes)
    ensures r == TrimLegacyPad(b)
    ensures r <= b && (forall k :: |r| <= k < |b| ==> b[k] == 0) && (r == [] || r[|r| - 1] != 0)
  {
    r := b;
    while |r| > 0 && r[|r| - 1] == 0
      invariant r <= b && forall k :: |r| <= k < |b| ==> b[k] == 0
      invariant TrimLegacyPad(r) == TrimLegacyPad(b)
    {
      r := r[..|r| - 1];
    }
  }

  /** Unpadding undoes padding on every input, and padded data is whole blocks. */
  lemma UnpadPadded(data: Bytes)
    ensures Unpad(Pad(data)) == Some(data) && |Pad(data)| % BLOCK == 0 && |Pad(data)| > |data|
  {
    var n := BLOCK - |data| % BLOCK;
    var b := Pad(data);
    assert b[|b| - n..] == Repeated(n, n) && b[..|b| - n] == data;
    assert b[|b| - 1] == n;
  }

  /** Only padded data unpads: a successful unpad determines its input. */
  lemma UnpadOnlyPadded(b: Bytes)
    requires Unpad(b).Some?
    ensures Pad(Unpad(b).value) == b
  {
    var n := b[|b| - 1];
    var data := b[..|b| - n];
    assert b == data + b[|b| - n..];
    assert (|b| - n) % BLOCK == (BLOCK - n) % BLOCK;
  }

  // ---- sealing -------------------------------------------------------------------------------------

  /** The block cipher and AEAD for one key. */
  datatype Ciphers = Ciphers(
    encryptCbc: (Bytes, Bytes) -> Bytes,             // padded plaintext, IV
    decryptCbc: (Bytes, Bytes) -> Bytes,             // ciphertext, IV
    seal: (Bytes, Bytes, Bytes) -> Bytes,            // plaintext, nonce, AAD
    open: (Bytes, Bytes, Bytes) -> Option<Bytes>)    // ciphertext||tag, nonce, AAD

  const TAG := 16

  /** What is assumed of AES-CBC and AES-GCM on one message. */
  ghost predicate Sound(c: Ciphers, plain: Bytes, padded: Bytes, iv: Bytes, aad: Bytes) {
    && |c.encryptCbc(padded, iv)| == |padded|
    && c.decryptCbc(c.encryptCbc(padded, iv), iv) == padded
    && |c.seal(plain, iv, aad)| == |plain| + TAG
    && c.open(c.seal(plain, iv, aad), iv, aad) == Some(plain)
  }

  datatype DecryptError = Snappy | BadCiphertext

  /** DecryptPayload without zlib: inflating is not part of this model. */
  function DecryptPayload(p: Packet, c: Ciphers): Result<Bytes, DecryptError>
    requires Valid(p)
  {
    if Bit(p.flags, SNAPPY) then Failure(Snappy)
    else if Bit(p.flags, GCM) then
      if |p.payload| < TAG then Failure(BadCiphertext)
      else match c.open(p.payload, p.iv, HeaderBytes(p, |p.payload|))
        case None => Failure(BadCiphertext)
        case Some(plain) => Success(plain)
    else if Bit(p.flags, CBC) then
      if |p.payload| == 0 || |p.payload| % BLOCK != 0 then Failure(BadCiphertext)
      else
        var raw := c.decryptCbc(p.payload, p.iv);
        Success(match Unpad(raw) case Some(plain) => plain case None => TrimLegacyPad(raw))
    else Success(p.payload)
  }

  function EncryptedPayload(p: Packet, c: Ciphers, plain: Bytes): Bytes
    requires Valid(p) && |plain| + TAG < 0x1_0000_0000
  {
    if Bit(p.flags, GCM) then c.seal(plain, p.iv, HeaderBytes(p, |plain| + TAG))
    else c.encryptCbc(Pad(plain), p.iv)
  }

  /** The response header: flags are fixed before sealing and the IV is fresh. */
  function ResponseHeader(request: Packet, iv: Bytes): Packet
    requires |iv| == 16
  {
    request.(flags := if Bit(request.flags, GCM) then GCM + CBC else CBC, iv := iv)
  }

  function Respond(request: Packet, c: Ciphers, plain: Bytes, iv: Bytes): Bytes
    requires Valid(request) && |iv| == 16 && |plain| + TAG < 0x1_0000_0000
    requires |EncryptedPayload(ResponseHeader(request, iv), c, plain)| < 0x1_0000_0000
  {
    var h := ResponseHeader(request, iv);
    Serialize(h.(payload := EncryptedPayload(h, c, plain)))
  }

  /**
   What the device parses and decrypts is what the controller sent, on the GCM lane and the
   CBC lane: in particular the AAD written before sealing equals the header that is parsed.
   */
  lemma ResponseRoundTrip(request: Packet, c: Ciphers, plain: Bytes, iv: Bytes)
    requires Valid(request) && request.dataVersion == DATA_VERSION && |iv| == 16
    requires HEADER_LEN + |plain| + TAG <= MAX_BODY
    requires Sound(c, plain, Pad(plain), iv, HeaderBytes(ResponseHeader(request, iv), |plain| + TAG))
    ensures |EncryptedPayload(ResponseHeader(request, iv), c, plain)| < 0x1_0000_0000
    ensures var parsed := ParsePacket(Respond(request, c, plain, iv));
            && parsed.Success? && Valid(parsed.value)
            && parsed.value.mac == request.mac && parsed.value.version == request.version && parsed.value.iv == iv
            && parsed.value.flags == (if Bit(request.flags, GCM) then 9 else 1)
            && Bit(parsed.value.flags, GCM) == Bit(request.flags, GCM)
            && DecryptPayload(parsed.value, c) == Success(plain)
  {
    var h := ResponseHeader(request, iv);
    UnpadPadded(plain);
    assert |Pad(plain)| <= |plain| + BLOCK;
    var sealed := h.(payload := EncryptedPayload(h, c, plain));
    ParseSerialized(sealed);
    assert HeaderBytes(sealed, |plain| + TAG) == HeaderBytes(h, |plain| + TAG);
  }

  // ---- key trial ----------------------------------------------------------------------------------

  /** What one candidate key does to a packet: not a key at all, no plaintext, plaintext that is no JSON object, or one. */
  datatype Trial = Unusable | Undecryptable(cause: DecryptError) | NotObject | Opened(body: Bytes)

  datatype DecodeError = NotJsonObject | NoValidJson(cause: Option<DecryptError>)

  ghost predicate FirstOpened(keys: seq<string>, trial: string -> Trial, i: int) {
    0 <= i < |keys| && trial(keys[i]).Opened? && forall j :: 0 <= j < i ==> !trial(keys[j]).Opened?
  }

  ghost predicate LastUndecryptable(keys: seq<string>, trial: string -> Trial, i: int) {
    0 <= i < |keys| && trial(keys[i]).Undecryptable? && forall j :: i < j < |keys| ==> !trial(keys[j]).Undecryptable?
  }

  /**
   Decode: candidates in order, the first that opens wins; a packet sent in the clear is
   attributed to no key. A malformed body outranks a decryption failure.
   */
  method Decode(keys: seq<string>, trial: string -> Trial, plain: bool) returns (r: Result<(Bytes, Option<string>), DecodeError>)
    ensures r.Success? ==>
      exists i :: FirstOpened(keys, trial, i) && r.value == (trial(keys[i]).body, if plain then None else Some(keys[i]))
    ensures r.Failure? ==> forall i :: 0 <= i < |keys| ==> !trial(keys[i]).Opened?
    ensures r.Failure? ==> (r.error.NotJsonObject? <==> exists i :: 0 <= i < |keys| && trial(keys[i]).NotObject?)
    ensures r.Failure? && r.error.NoValidJson? && r.error.cause.None? ==> forall i :: 0 <= i < |keys| ==> trial(keys[i]).Unusable?
    ensures r.Failure? && r.error.NoValidJson? && r.error.cause.Some? ==>
      exists i :: LastUndecryptable(keys, trial, i) && trial(keys[i]).cause == r.error.cause.value
  {
    var notJson := false;
    var lastErr: Option<DecryptError> := None;
    ghost var last: nat := 0;
    for i := 0 to |keys|
      invariant forall j :: 0 <= j < i ==> !trial(keys[j]).Opened?
      invariant notJson <==> exists j :: 0 <= j < i && trial(keys[j]).NotObject?
      invariant lastErr.None? <==> forall j :: 0 <= j < i ==> !trial(keys[j]).Undecryptable?
      invariant lastErr.Some? ==> last < i && trial(keys[last]) == Undecryptable(lastErr.value)
      invariant lastErr.Some? ==> forall j :: last < j < i ==> !trial(keys[j]).Undecryptable?
    {
      match trial(keys[i]) {
        case Unusable =>
        case Undecryptable(e) => lastErr, last := Some(e), i;
        case NotObject => notJson := true;
        case Opened(body) =>
          assert FirstOpened(keys, trial, i);
          return Success((body, if plain then None else Some(keys[i])));
      }
    }
    if notJson {
      return Failure(NotJsonObject);
    }
    if lastErr.Some? {
      assert LastUndecryptable(keys, trial, last);
    }
    r := Failure(NoValidJson(lastErr));
  }
}
