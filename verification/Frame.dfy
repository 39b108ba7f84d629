/** Control-plane frames: a fixed header with its own checksum, a payload and a digest over both. */
module Frame {
  import opened Prelude
  import opened LengthField
  import Crc32
  import Fnv

  datatype Header = Header(version: bv16, kind: bv16, flags: bv16, sequence: bv64, length: Length)

  datatype Message = Message(header: Header, payload: seq<bv8>)

  const HEADER_BYTES := 28
  const TRAILER_BYTES := 8
  const CHECKED_BYTES := 24
  const MAX_PAYLOAD := 4 * 1024 * 1024
  const MAGIC: seq<bv8> := [0x48, 0x41, 0x46, 0x31]
  const OLDEST_VERSION: bv16 := 1
  const VERSION: bv16 := 1

  // ---- Little-endian fields ---------------------------------------------------------------

  function Put16(v: bv16): (b: seq<bv8>)
    ensures |b| == 2
  {
    [(v & 0xFF) as bv8, ((v >> 8) & 0xFF) as bv8]
  }

  function Get16(b: seq<bv8>): bv16
    requires |b| == 2
  {
    (b[0] as bv16) | ((b[1] as bv16) << 8)
  }

  function Put32(v: bv32): (b: seq<bv8>)
    ensures |b| == 4
  {
    [(v & 0xFF) as bv8, ((v >> 8) & 0xFF) as bv8, ((v >> 16) & 0xFF) as bv8, ((v >> 24) & 0xFF) as bv8]
  }

  function Get32(b: seq<bv8>): bv32
    requires |b| == 4
  {
    (b[0] as bv32) | ((b[1] as bv32) << 8) | ((b[2] as bv32) << 16) | ((b[3] as bv32) << 24)
  }

  function LowWord(v: bv64): bv32 { (v & 0xFFFF_FFFF) as bv32 }

  function HighWord(v: bv64): bv32 { (v >> 32) as bv32 }

  function Join(low: bv32, high: bv32): bv64 { (low as bv64) | ((high as bv64) << 32) }

  function Put64(v: bv64): (b: seq<bv8>)
    ensures |b| == 8
  {
    Put32(LowWord(v)) + Put32(HighWord(v))
  }

  function Get64(b: seq<bv8>): bv64
    requires |b| == 8
  {
    Join(Get32(b[..4]), Get32(b[4..]))
  }

  lemma RoundTrip16(v: bv16)
    ensures Get16(Put16(v)) == v
  {
  }

  lemma RoundTrip32(v: bv32)
    ensures Get32(Put32(v)) == v
  {
  }

  lemma RoundTrip64(v: bv64)
    ensures Get64(Put64(v)) == v
  {
    hide LowWord, HighWord, Join, Put32, Get32;
    assert Put64(v)[..4] == Put32(LowWord(v)) && Put64(v)[4..] == Put32(HighWord(v));
    RoundTrip32(LowWord(v));
    RoundTrip32(HighWord(v));
    JoinHalves(v);
  }

  lemma JoinHalves(v: bv64)
    ensures Join(LowWord(v), HighWord(v)) == v
  {
  }

  lemma SplitJoin(low: bv32, high: bv32)
    ensures LowWord(Join(low, high)) == low && HighWord(Join(low, high)) == high
  {
  }

  lemma Rebuild64(b: seq<bv8>)
    requires |b| == 8
    ensures Put64(Get64(b)) == b
  {
    hide LowWord, HighWord, Join, Put32, Get32;
    SplitJoin(Get32(b[..4]), Get32(b[4..]));
    Rebuild32(b[..4]);
    Rebuild32(b[4..]);
  }

  lemma Rebuild16(b: seq<bv8>)
    requires |b| == 2
    ensures Put16(Get16(b)) == b
  {
    var p := Put16(Get16(b));
    assert p[0] == b[0];
    assert p[1] == b[1];
  }

  lemma Rebuild32(b: seq<bv8>)
    requires |b| == 4
    ensures Put32(Get32(b)) == b
  {
    var p := Put32(Get32(b));
    assert p[0] == b[0];
    assert p[1] == b[1];
    assert p[2] == b[2];
    assert p[3] == b[3];
  }

  // ---- The layout -------------------------------------------------------------------------

  /** The checked part of a header. */
  function HeaderBody(h: Header): (b: seq<bv8>)
    ensures |b| == CHECKED_BYTES
  {
    MAGIC + Put16(h.version) + Put16(h.kind) + Put16(h.flags) + Put16(0) + Put64(h.sequence) + PutLength(h.length)
  }

  function HeaderBytes(h: Header): (b: seq<bv8>)
    ensures |b| == HEADER_BYTES
  {
    HeaderBody(h) + Put32(Crc32.Checksum(HeaderBody(h)))
  }

  function TrailerDigest(header: seq<bv8>, payload: seq<bv8>): bv64 {
    Fnv.Digest(Fnv.Digest(Fnv.OFFSET_BASIS, header), payload)
  }

  /** The header that goes out states the payload's true length. */
  function Sent(m: Message): Header
    requires |m.payload| <= MAX_PAYLOAD
  {
    m.header.(length := |m.payload|)
  }

  function FrameBytes(m: Message): seq<bv8>
    requires |m.payload| <= MAX_PAYLOAD
  {
    var header := HeaderBytes(Sent(m));
    header + m.payload + Put64(TrailerDigest(header, m.payload))
  }

  predicate Supported(version: bv16) { OLDEST_VERSION <= version <= VERSION }

  function Fields(b: seq<bv8>): Header
    requires |b| >= HEADER_BYTES
  {
    Header(Get16(b[4..6]), Get16(b[6..8]), Get16(b[8..10]), Get64(b[12..20]), GetLength(b[20..24]))
  }

  /** What is checked of a header before its fields are believed, in the order of the checks. */
  function DecodeHeader(b: seq<bv8>, maximum: nat): Result<Header> {
    if |b| < HEADER_BYTES then Err(TruncatedFrame)
    else if b[..4] != MAGIC then Err(ProtocolViolation)
    else if Get16(b[10..12]) != 0 then Err(ProtocolViolation)
    else if Get32(b[24..28]) != Crc32.Checksum(b[..CHECKED_BYTES]) then Err(CorruptPayload)
    else
      var h := Fields(b);
      if !Supported(h.version) then Err(UnsupportedProtocolVersion)
      else if h.length > MAX_PAYLOAD then Err(FrameTooLarge)
      else if h.length > maximum then Err(FrameTooLarge)
      else Ok(h)
  }

  function CheckTrailer(header: seq<bv8>, payload: seq<bv8>, trailer: seq<bv8>): Option<ErrorCode> {
    if |trailer| < TRAILER_BYTES then Some(TruncatedFrame)
    else if TrailerDigest(header, payload) != Get64(trailer[..TRAILER_BYTES]) then Some(CorruptPayload)
    else None
  }

  /** A receiver's whole path: header, then as many payload bytes as it declares, then trailer. */
  function Receive(b: seq<bv8>, maximum: nat): Result<Message> {
    match DecodeHeader(b, maximum)
    case Err(e) => Err(e)
    case Ok(h) =>
      var n := h.length;
      if |b| < HEADER_BYTES + n then Err(TruncatedFrame)
      else
        var payload := b[HEADER_BYTES..HEADER_BYTES + n];
        match CheckTrailer(b[..HEADER_BYTES], payload, b[HEADER_BYTES + n..])
        case Some(e) => Err(e)
        case None => Ok(Message(h, payload))
  }

  // ---- Encoding and decoding in place -----------------------------------------------------

  /** Writes bytes into a buffer at an offset and leaves the rest of the buffer alone. */
  method PutAt(out: array<bv8>, offset: nat, bytes: seq<bv8>)
    requires offset + |bytes| <= out.Length
    modifies out
    ensures out[..] == old(out[..offset]) + bytes + old(out[offset + |bytes|..])
  {
    for i := 0 to |bytes|
      invariant out[..offset] == old(out[..offset]) && out[offset..offset + i] == bytes[..i]
      invariant out[offset + |bytes|..] == old(out[offset + |bytes|..])
    {
      out[offset + i] := bytes[i];
      assert out[offset..offset + i + 1] == out[offset..offset + i] + [bytes[i]];
      assert bytes[..i + 1] == bytes[..i] + [bytes[i]];
    }
    assert bytes[..|bytes|] == bytes;
    assert out[..] == out[..offset] + out[offset..offset + |bytes|] + out[offset + |bytes|..];
  }

  method WriteHeader(out: array<bv8>, h: Header)
    requires out.Length >= HEADER_BYTES
    modifies out
    ensures out[..HEADER_BYTES] == HeaderBytes(h) && out[HEADER_BYTES..] == old(out[HEADER_BYTES..])
  {
    hide Put16, Put32, Put64, PutLength, Crc32.Checksum, MAGIC, HeaderBody;
    var body := HeaderBody(h);
    PutAt(out, 0, body);
    assert out[..CHECKED_BYTES] == body && out[CHECKED_BYTES..] == old(out[CHECKED_BYTES..]);
    var checksum := Crc32.Compute(out[..CHECKED_BYTES]);
    PutAt(out, CHECKED_BYTES, Put32(checksum));
    assert out[..HEADER_BYTES] == body + Put32(checksum);
  }

  method Digest(header: seq<bv8>, payload: seq<bv8>) returns (digest: bv64)
    ensures digest == TrailerDigest(header, payload)
  {
    hide Fnv.Digest;
    digest := Fnv.Update(Fnv.OFFSET_BASIS, header);
    digest := Fnv.Update(digest, payload);
  }

  method EncodeFrame(m: Message) returns (r: Result<seq<bv8>>)
    ensures |m.payload| > MAX_PAYLOAD ==> r == Err(FrameTooLarge)
    ensures |m.payload| <= MAX_PAYLOAD ==> r == Ok(FrameBytes(m))
  {
    hide HeaderBytes, Put64, TrailerDigest;
    if |m.payload| > MAX_PAYLOAD { return Err(FrameTooLarge); }
    var n, header := |m.payload|, m.header.(length := |m.payload|);
    var buffer := new bv8[HEADER_BYTES + n + TRAILER_BYTES];
    WriteHeader(buffer, header);
    PutAt(buffer, HEADER_BYTES, m.payload);
    assert buffer[..HEADER_BYTES] == HeaderBytes(header) && buffer[HEADER_BYTES..HEADER_BYTES + n] == m.payload;
    var digest := Digest(buffer[..HEADER_BYTES], m.payload);
    PutAt(buffer, HEADER_BYTES + n, Put64(digest));
    assert buffer[..] == HeaderBytes(header) + m.payload + Put64(digest);
    return Ok(buffer[..]);
  }

  method DecodeFrameHeader(b: seq<bv8>, maximum: nat) returns (r: Result<Header>)
    ensures r == DecodeHeader(b, maximum)
  {
    hide Get16, Get32, Get64, GetLength, Crc32.Checksum, MAGIC, Supported;
    if |b| < HEADER_BYTES { return Err(TruncatedFrame); }
    if b[..4] != MAGIC { return Err(ProtocolViolation); }
    if Get16(b[10..12]) != 0 { return Err(ProtocolViolation); }
    var checksum := Crc32.Compute(b[..CHECKED_BYTES]);
    if Get32(b[24..28]) != checksum { return Err(CorruptPayload); }
    var h := Header(Get16(b[4..6]), Get16(b[6..8]), Get16(b[8..10]), Get64(b[12..20]), GetLength(b[20..24]));
    if !Supported(h.version) { return Err(UnsupportedProtocolVersion); }
    if h.length > MAX_PAYLOAD { return Err(FrameTooLarge); }
    if h.length > maximum { return Err(FrameTooLarge); }
    return Ok(h);
  }

  method VerifyFrameTrailer(header: seq<bv8>, payload: seq<bv8>, trailer: seq<bv8>) returns (code: Option<ErrorCode>)
    ensures code == CheckTrailer(header, payload, trailer)
  {
    hide Get64, TrailerDigest;
    if |trailer| < TRAILER_BYTES { return Some(TruncatedFrame); }
    var digest := Digest(header, payload);
    return if digest != Get64(trailer[..TRAILER_BYTES]) then Some(CorruptPayload) else None;
  }

  // ---- Round trips ------------------------------------------------------------------------

  lemma BodyFields(h: Header)
    ensures
      var b := HeaderBody(h);
      && b[..4] == MAGIC && b[4..6] == Put16(h.version) && b[6..8] == Put16(h.kind) && b[8..10] == Put16(h.flags)
      && b[10..12] == Put16(0) && b[12..20] == Put64(h.sequence) && b[20..24] == PutLength(h.length)
  {
    hide Put16, Put32, Put64, PutLength;
    var b, front := HeaderBody(h), MAGIC + Put16(h.version) + Put16(h.kind) + Put16(h.flags);
    assert front[..4] == MAGIC && front[4..6] == Put16(h.version) && front[6..8] == Put16(h.kind) && front[8..10] == Put16(h.flags);
    assert b[..10] == front;
    assert b[..4] == front[..4] && b[4..6] == front[4..6] && b[6..8] == front[6..8] && b[8..10] == front[8..10];
    BodyTail(h);
  }

  lemma BodyTail(h: Header)
    ensures
      var b := HeaderBody(h);
      b[10..12] == Put16(0) && b[12..20] == Put64(h.sequence) && b[20..24] == PutLength(h.length)
  {
    hide Put16, Put32, Put64, PutLength;
    var b, tail := HeaderBody(h), Put16(0) + Put64(h.sequence) + PutLength(h.length);
    assert tail[..2] == Put16(0) && tail[2..10] == Put64(h.sequence) && tail[10..] == PutLength(h.length);
    assert b[10..] == tail;
    assert b[10..12] == b[10..][..2] && b[12..20] == b[10..][2..10] && b[20..24] == b[10..][10..];
  }

  lemma HeaderFields(h: Header, rest: seq<bv8>)
    ensures
      var b := HeaderBytes(h) + rest;
      && b[..4] == MAGIC && b[..CHECKED_BYTES] == HeaderBody(h) && b[24..28] == Put32(Crc32.Checksum(HeaderBody(h)))
      && b[4..6] == Put16(h.version) && b[6..8] == Put16(h.kind) && b[8..10] == Put16(h.flags)
      && b[10..12] == Put16(0) && b[12..20] == Put64(h.sequence) && b[20..24] == PutLength(h.length)
  {
    BodyFields(h);
    hide Put16, Put32, Put64, PutLength, HeaderBody, Crc32.Checksum;
    var b := HeaderBytes(h) + rest;
    var body := HeaderBody(h);
    assert b[..CHECKED_BYTES] == body;
    assert b[..4] == body[..4] && b[4..6] == body[4..6] && b[6..8] == body[6..8] && b[8..10] == body[8..10];
    assert b[10..12] == body[10..12] && b[12..20] == body[12..20] && b[20..24] == body[20..24];
  }

  /** Every header with a supported version and a permitted length decodes to itself. */
  lemma HeaderRoundTrip(h: Header, rest: seq<bv8>, maximum: nat)
    requires Supported(h.version) && h.length <= MAX_PAYLOAD && h.length <= maximum
    ensures DecodeHeader(HeaderBytes(h) + rest, maximum) == Ok(h)
  {
    hide Put16, Put32, Put64, PutLength, Get16, Get32, Get64, GetLength, HeaderBytes, Crc32.Checksum, Supported;
    HeaderFields(h, rest);
    RoundTrip16(h.version);
    RoundTrip16(h.kind);
    RoundTrip16(h.flags);
    RoundTrip16(0);
    RoundTrip64(h.sequence);
    RoundTripLength(h.length);
    RoundTrip32(Crc32.Checksum(HeaderBody(h)));
  }

  /** Every accepted header is the encoding of what it decodes to: no header has two forms. */
  lemma AcceptedHeadersAreCanonical(b: seq<bv8>, maximum: nat)
    requires DecodeHeader(b, maximum).Ok?
    ensures b[..HEADER_BYTES] == HeaderBytes(DecodeHeader(b, maximum).value)
  {
    hide Put16, Put32, Put64, PutLength, Get16, Get32, Get64, GetLength, Crc32.Checksum, Supported, MAGIC;
    Rebuild16(b[4..6]);
    Rebuild16(b[6..8]);
    Rebuild16(b[8..10]);
    Rebuild16(b[10..12]);
    Rebuild64(b[12..20]);
    RebuildLength(b[20..24]);
    Rebuild32(b[24..28]);
    var h := Fields(b);
    assert HeaderBody(h) == b[..4] + b[4..6] + b[6..8] + b[8..10] + b[10..12] + b[12..20] + b[20..24];
    assert HeaderBody(h) == b[..CHECKED_BYTES];
    assert b[..HEADER_BYTES] == b[..CHECKED_BYTES] + b[24..28];
  }

  /** A receiver takes a well-formed buffer apart into the parts it was made of. */
  lemma ReceiveParts(header: seq<bv8>, payload: seq<bv8>, trailer: seq<bv8>, h: Header, maximum: nat)
    requires |header| == HEADER_BYTES && DecodeHeader(header, maximum) == Ok(h) && h.length == |payload|
    ensures
      Receive(header + payload + trailer, maximum) ==
        match CheckTrailer(header, payload, trailer) case Some(e) => Err(e) case None => Ok(Message(h, payload))
  {
    hide DecodeHeader, CheckTrailer;
    var b, n := header + payload + trailer, |payload|;
    assert b[..HEADER_BYTES] == header && header[..HEADER_BYTES] == header;
    assert b[HEADER_BYTES..HEADER_BYTES + n] == payload && b[HEADER_BYTES + n..] == trailer;
    SameHeaderDecodesSame(header, b, maximum);
  }

  lemma SentHeaderDecodes(m: Message, maximum: nat)
    requires |m.payload| <= MAX_PAYLOAD && |m.payload| <= maximum && Supported(m.header.version)
    ensures DecodeHeader(HeaderBytes(Sent(m)), maximum) == Ok(Sent(m)) && Sent(m).length == |m.payload|
  {
    hide HeaderBytes, DecodeHeader, Supported;
    HeaderRoundTrip(Sent(m), [], maximum);
    assert HeaderBytes(Sent(m)) + [] == HeaderBytes(Sent(m));
  }

  /** Every encoded frame is received as it was sent. */
  lemma FrameRoundTrip(m: Message, maximum: nat)
    requires |m.payload| <= MAX_PAYLOAD && |m.payload| <= maximum && Supported(m.header.version)
    ensures Receive(FrameBytes(m), maximum) == Ok(Message(Sent(m), m.payload))
  {
    hide HeaderBytes, DecodeHeader, TrailerDigest, Put64, Get64, Supported, Sent, Receive;
    SentHeaderDecodes(m, maximum);
    var header := HeaderBytes(Sent(m));
    var trailer := Put64(TrailerDigest(header, m.payload));
    ReceiveParts(header, m.payload, trailer, Sent(m), maximum);
    RoundTrip64(TrailerDigest(header, m.payload));
    assert trailer[..TRAILER_BYTES] == trailer;
  }

  // ---- Corruption is detected -------------------------------------------------------------

  /** What the register holds after any header with a correct checksum. */
  function Residue(): bv32 {
    Crc32.ByteShift(Crc32.ByteShift(Crc32.ByteShift(Crc32.ByteShift(Crc32.ALL_ONES))))
  }

  lemma WordIsField(b: seq<bv8>)
    requires |b| == 4
    ensures Crc32.WordOf(b) == Get32(b)
  {
  }

  lemma FieldEquation(r: bv32, field: bv32)
    ensures field == Crc32.Xor(r, Crc32.ALL_ONES) <==> Crc32.Xor(r, field) == Crc32.ALL_ONES
  {
    hide Crc32.Xor, Crc32.ALL_ONES;
    Crc32.XorLaws(r, Crc32.ALL_ONES, r);
    Crc32.XorLaws(r, field, r);
  }

  /** The checksum field is correct exactly when the whole header leaves the residue behind. */
  lemma ChecksumMeansResidue(b: seq<bv8>)
    requires |b| == HEADER_BYTES
    ensures Get32(b[24..]) == Crc32.Checksum(b[..CHECKED_BYTES]) <==> Crc32.Register(Crc32.ALL_ONES, b) == Residue()
  {
    hide Crc32.Register, Get32, Crc32.WordOf, Crc32.ByteShift, Crc32.Xor, Crc32.ALL_ONES;
    var r, field := Crc32.Register(Crc32.ALL_ONES, b[..CHECKED_BYTES]), b[24..];
    assert b == b[..CHECKED_BYTES] + field;
    Crc32.RegisterConcat(Crc32.ALL_ONES, b[..CHECKED_BYTES], field);
    Crc32.RegisterOfFour(r, field);
    WordIsField(field);
    FieldEquation(r, Get32(field));
    if Crc32.Register(Crc32.ALL_ONES, b) == Residue() {
      Crc32.UndoShifts(Crc32.Xor(r, Get32(field)), Crc32.ALL_ONES);
    }
  }

  lemma AcceptedLeavesResidue(b: seq<bv8>, maximum: nat)
    requires DecodeHeader(b, maximum).Ok?
    ensures Crc32.Register(Crc32.ALL_ONES, b[..HEADER_BYTES]) == Residue()
  {
    hide Crc32.Register, Crc32.Checksum, Get16, Get32, Get64, GetLength, Residue, Supported, MAGIC;
    var h := b[..HEADER_BYTES];
    assert h[24..] == b[24..28] && h[..CHECKED_BYTES] == b[..CHECKED_BYTES];
    ChecksumMeansResidue(h);
  }

  /** The two headers agree outside thirty-two consecutive bits. */
  ghost predicate DifferInBurst(g: seq<bv8>, h: seq<bv8>, i: nat)
    requires |g| == |h| == HEADER_BYTES
  {
    var x, y := Crc32.Bits(g), Crc32.Bits(h);
    i + 32 <= |x| && x[..i] == y[..i] && x[i + 32..] == y[i + 32..]
  }

  /** No two different acceptable headers agree outside thirty-two consecutive bits, wherever these
      begin: whatever such a burst does to an accepted header, the result is rejected. */
  lemma BurstInHeaderIsRejected(b: seq<bv8>, c: seq<bv8>, i: nat, maximum: nat)
    requires |b| >= HEADER_BYTES && |c| >= HEADER_BYTES && DecodeHeader(b, maximum).Ok?
    requires DifferInBurst(b[..HEADER_BYTES], c[..HEADER_BYTES], i) && b[..HEADER_BYTES] != c[..HEADER_BYTES]
    ensures DecodeHeader(c, maximum).Err?
  {
    hide DecodeHeader, Residue, Crc32.Register, Crc32.RegisterBits, Crc32.Bits, Crc32.ALL_ONES;
    AcceptedLeavesResidue(b, maximum);
    var g, h := b[..HEADER_BYTES], c[..HEADER_BYTES];
    if Crc32.Bits(g) == Crc32.Bits(h) { Crc32.BitsAreFaithful(g, h); }
    Crc32.RegisterIsBits(Crc32.ALL_ONES, g);
    Crc32.RegisterIsBits(Crc32.ALL_ONES, h);
    Crc32.BurstChangesRegister(Crc32.ALL_ONES, Crc32.Bits(g), Crc32.Bits(h), i);
    hide *;
    if DecodeHeader(c, maximum).Ok? { AcceptedLeavesResidue(c, maximum); }
  }

  lemma ByteIsBurst(g: seq<bv8>, h: seq<bv8>, i: nat)
    requires |g| == |h| == HEADER_BYTES && i + 4 <= HEADER_BYTES && g[..i] == h[..i] && g[i + 4..] == h[i + 4..]
    ensures DifferInBurst(g, h, 8 * i)
  {
    hide Crc32.Bits;
    Crc32.BitsSplit(g, i);
    Crc32.BitsSplit(h, i);
    Crc32.BitsSplit(g, i + 4);
    Crc32.BitsSplit(h, i + 4);
  }

  lemma GetIsInjective(a: seq<bv8>, b: seq<bv8>)
    requires |a| == |b| == 8 && a != b
    ensures Get64(a) != Get64(b)
  {
    hide Get64, Put64;
    Rebuild64(a);
    Rebuild64(b);
  }

  lemma SameHeaderDecodesSame(b: seq<bv8>, c: seq<bv8>, maximum: nat)
    requires |b| >= HEADER_BYTES && |c| >= HEADER_BYTES && b[..HEADER_BYTES] == c[..HEADER_BYTES]
    ensures DecodeHeader(b, maximum) == DecodeHeader(c, maximum)
  {
    hide Get16, Get32, Get64, GetLength, Crc32.Checksum, Supported, MAGIC;
    var g, h := b[..HEADER_BYTES], c[..HEADER_BYTES];
    assert b[..4] == g[..4] && b[4..6] == g[4..6] && b[6..8] == g[6..8] && b[8..10] == g[8..10] && b[10..12] == g[10..12];
    assert b[12..20] == g[12..20] && b[20..24] == g[20..24] && b[24..28] == g[24..28] && b[..24] == g[..24];
    assert c[..4] == h[..4] && c[4..6] == h[4..6] && c[6..8] == h[6..8] && c[8..10] == h[8..10] && c[10..12] == h[10..12];
    assert c[12..20] == h[12..20] && c[20..24] == h[20..24] && c[24..28] == h[24..28] && c[..24] == h[..24];
  }

  lemma WrongDigestIsNoticed(header: seq<bv8>, payload: seq<bv8>, trailer: seq<bv8>)
    requires |trailer| == TRAILER_BYTES && TrailerDigest(header, payload) != Get64(trailer)
    ensures CheckTrailer(header, payload, trailer).Some?
  {
    hide Get64, TrailerDigest;
    assert trailer[..TRAILER_BYTES] == trailer;
  }

  lemma BadHeaderIsRefused(b: seq<bv8>, maximum: nat)
    requires DecodeHeader(b, maximum).Err?
    ensures Receive(b, maximum).Err?
  {
    hide DecodeHeader;
  }

  lemma ByteInHeaderIsRejected(header: seq<bv8>, maximum: nat, i: nat, x: bv8)
    requires |header| == HEADER_BYTES && DecodeHeader(header, maximum).Ok? && i < HEADER_BYTES && header[i] != x
    ensures DecodeHeader(header[i := x], maximum).Err?
  {
    hide DecodeHeader;
    var c := header[i := x];
    assert header[..HEADER_BYTES] == header && c[..HEADER_BYTES] == c;
    assert c[i] != header[i];
    var first := if i < 24 then i else 24;
    ByteIsBurst(header, c, first);
    BurstInHeaderIsRejected(header, c, 8 * first, maximum);
  }

  lemma HeaderCorruption(header: seq<bv8>, rest: seq<bv8>, maximum: nat, i: nat, x: bv8)
    requires |header| == HEADER_BYTES && DecodeHeader(header, maximum).Ok? && i < HEADER_BYTES && header[i] != x
    ensures Receive(header[i := x] + rest, maximum).Err?
  {
    hide DecodeHeader, Receive;
    ByteInHeaderIsRejected(header, maximum, i, x);
    var c := header[i := x];
    assert (c + rest)[..HEADER_BYTES] == c && c[..HEADER_BYTES] == c;
    SameHeaderDecodesSame(c, c + rest, maximum);
    BadHeaderIsRefused(c + rest, maximum);
  }

  lemma PayloadCorruption(m: Message, maximum: nat, i: nat, x: bv8)
    requires |m.payload| <= MAX_PAYLOAD && |m.payload| <= maximum && Supported(m.header.version)
    requires i < |m.payload| && m.payload[i] != x
    ensures Receive(HeaderBytes(Sent(m)) + m.payload[i := x] + Put64(TrailerDigest(HeaderBytes(Sent(m)), m.payload)), maximum).Err?
  {
    hide HeaderBytes, DecodeHeader, Put64, Get64, Supported, Fnv.Digest, Sent, CheckTrailer, Receive;
    SentHeaderDecodes(m, maximum);
    var header, payload := HeaderBytes(Sent(m)), m.payload[i := x];
    var trailer := Put64(TrailerDigest(header, m.payload));
    Fnv.OneByteChangesDigest(Fnv.Digest(Fnv.OFFSET_BASIS, header), m.payload, i, x);
    RoundTrip64(TrailerDigest(header, m.payload));
    WrongDigestIsNoticed(header, payload, trailer);
    ReceiveParts(header, payload, trailer, Sent(m), maximum);
  }

  lemma TrailerCorruption(m: Message, maximum: nat, trailer: seq<bv8>)
    requires |m.payload| <= MAX_PAYLOAD && |m.payload| <= maximum && Supported(m.header.version)
    requires |trailer| == TRAILER_BYTES && trailer != Put64(TrailerDigest(HeaderBytes(Sent(m)), m.payload))
    ensures Receive(HeaderBytes(Sent(m)) + m.payload + trailer, maximum).Err?
  {
    hide HeaderBytes, DecodeHeader, Put64, Get64, Supported, TrailerDigest, Sent, CheckTrailer, Receive;
    SentHeaderDecodes(m, maximum);
    var header := HeaderBytes(Sent(m));
    GetIsInjective(trailer, Put64(TrailerDigest(header, m.payload)));
    RoundTrip64(TrailerDigest(header, m.payload));
    WrongDigestIsNoticed(header, m.payload, trailer);
    ReceiveParts(header, m.payload, trailer, Sent(m), maximum);
  }

  lemma UpdateParts(a: seq<bv8>, b: seq<bv8>, c: seq<bv8>, i: nat, x: bv8)
    requires i < |a| + |b| + |c|
    ensures i < |a| ==> (a + b + c)[i] == a[i] && (a + b + c)[i := x] == a[i := x] + (b + c)
    ensures |a| <= i < |a| + |b| ==> (a + b + c)[i] == b[i - |a|] && (a + b + c)[i := x] == a + b[i - |a| := x] + c
    ensures |a| + |b| <= i ==> (a + b + c)[i] == c[i - |a| - |b|] && (a + b + c)[i := x] == a + b + c[i - |a| - |b| := x]
  {
  }

  /** Changing any single byte of a frame, wherever it lies, makes the receiver refuse it. */
  lemma SingleByteCorruptionIsRejected(m: Message, maximum: nat, i: nat, x: bv8)
    requires |m.payload| <= MAX_PAYLOAD && |m.payload| <= maximum && Supported(m.header.version)
    requires i < |FrameBytes(m)| && FrameBytes(m)[i] != x
    ensures Receive(FrameBytes(m)[i := x], maximum).Err?
  {
    hide HeaderBytes, DecodeHeader, Put64, Get64, Supported, TrailerDigest, Sent, CheckTrailer, Receive;
    SentHeaderDecodes(m, maximum);
    var header, n := HeaderBytes(Sent(m)), |m.payload|;
    var trailer := Put64(TrailerDigest(header, m.payload));
    UpdateParts(header, m.payload, trailer, i, x);
    if i < HEADER_BYTES {
      HeaderCorruption(header, m.payload + trailer, maximum, i, x);
    } else if i < HEADER_BYTES + n {
      PayloadCorruption(m, maximum, i - HEADER_BYTES, x);
    } else {
      var changed := trailer[i - HEADER_BYTES - n := x];
      assert changed[i - HEADER_BYTES - n] != trailer[i - HEADER_BYTES - n];
      TrailerCorruption(m, maximum, changed);
    }
  }
}
