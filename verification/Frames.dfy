/** The frame format: a 24-byte big-endian header followed by a JSON body and raw data, checked by a CRC
    over the frame with a zero checksum field. */
module Frames {
  import opened Crc32
  import opened Octets

  type uint16 = n: int | 0 <= n < 0x1_0000
  type uint32 = n: int | 0 <= n < 0x1_0000_0000

  const MAGIC: uint16 := 0x4D46
  const VERSION: uint16 := 1
  const HEADER_SIZE: nat := 24

  datatype Header = Header(
    magic: uint16, version: uint16, msgType: uint32, bodyLength: uint32, dataLength: uint32, requestId: uint32,
        checksum: bv32)

  datatype Message = Message(header: Header, body: Bytes, data: Bytes)

  // ---------------------------------------------------------------- big-endian words

  function ByteOf(n: int): Byte
    requires 0 <= n < 256
  {
    n as bv8
  }

  function Value(b: Byte): (n: int)
    ensures 0 <= n < 256
  {
    b as int
  }

  lemma ValueOfByte(n: int)
    requires 0 <= n < 256
    ensures Value(ByteOf(n)) == n
  {
    RawThereAndBack(n);
  }

  lemma ByteOfValue(b: Byte)
    ensures ByteOf(Value(b)) == b
  {
  }

  function Put16(n: uint16): (r: Bytes)
    ensures |r| == 2
  {
    [ByteOf(n / 256), ByteOf(n % 256)]
  }

  function Get16(a: Byte, b: Byte): uint16 {
    Value(a) * 256 + Value(b)
  }

  function Put32(n: uint32): (r: Bytes)
    ensures |r| == 4
  {
    [ByteOf(n / 256 / 256 / 256), ByteOf(n / 256 / 256 % 256), ByteOf(n / 256 % 256), ByteOf(n % 256)]
  }

  function Get32(a: Byte, b: Byte, c: Byte, d: Byte): uint32 {
    ((Value(a) * 256 + Value(b)) * 256 + Value(c)) * 256 + Value(d)
  }

  /** The checksum field is a machine word. */
  function PutWord(w: bv32): (r: Bytes)
    ensures |r| == 4
  {
    [(w >> 24) as bv8, ((w >> 16) & 0xFF) as bv8, ((w >> 8) & 0xFF) as bv8, (w & 0xFF) as bv8]
  }

  function GetWord(a: Byte, b: Byte, c: Byte, d: Byte): bv32 {
    ((a as bv32) << 24) | ((b as bv32) << 16) | ((c as bv32) << 8) | (d as bv32)
  }

  lemma Get16Put16(n: uint16)
    ensures Get16(Put16(n)[0], Put16(n)[1]) == n
  {
    ValueOfByte(n / 256);
    ValueOfByte(n % 256);
    hide ByteOf, Value;
  }

  lemma Put16Get16(a: Byte, b: Byte)
    ensures Put16(Get16(a, b)) == [a, b]
  {
    ByteOfValue(a);
    ByteOfValue(b);
    hide ByteOf, Value;
    var n := Get16(a, b);
    assert n / 256 == Value(a) && n % 256 == Value(b);
  }

  lemma Get32Put32(n: uint32)
    ensures Get32(Put32(n)[0], Put32(n)[1], Put32(n)[2], Put32(n)[3]) == n
  {
    ValueOfByte(n / 256 / 256 / 256);
    ValueOfByte(n / 256 / 256 % 256);
    ValueOfByte(n / 256 % 256);
    ValueOfByte(n % 256);
    hide ByteOf, Value;
  }

  lemma Put32Get32(a: Byte, b: Byte, c: Byte, d: Byte)
    ensures Put32(Get32(a, b, c, d)) == [a, b, c, d]
  {
    ByteOfValue(a);
    ByteOfValue(b);
    ByteOfValue(c);
    ByteOfValue(d);
    hide ByteOf, Value;
    var n := Get32(a, b, c, d);
    assert n / 256 == (Value(a) * 256 + Value(b)) * 256 + Value(c) && n % 256 == Value(d);
    assert n / 256 / 256 == Value(a) * 256 + Value(b) && n / 256 % 256 == Value(c);
    assert n / 256 / 256 / 256 == Value(a) && n / 256 / 256 % 256 == Value(b);
  }

  lemma RawJoinSplit(w: bv32, a: bv8, b: bv8, c: bv8, d: bv8)
    requires a == (w >> 24) as bv8 && b == ((w >> 16) & 0xFF) as bv8 && c == ((w >> 8) & 0xFF) as bv8
    requires d == (w & 0xFF) as bv8
    ensures ((a as bv32) << 24) | ((b as bv32) << 16) | ((c as bv32) << 8) | (d as bv32) == w
  {
  }

  lemma GetWordPutWord(w: bv32)
    ensures GetWord(PutWord(w)[0], PutWord(w)[1], PutWord(w)[2], PutWord(w)[3]) == w
  {
    RawJoinSplit(w, PutWord(w)[0], PutWord(w)[1], PutWord(w)[2], PutWord(w)[3]);
  }

  lemma RawSplitJoin(w: bv32, a: bv8, b: bv8, c: bv8, d: bv8)
    requires w == ((a as bv32) << 24) | ((b as bv32) << 16) | ((c as bv32) << 8) | (d as bv32)
    ensures (w >> 24) == a as bv32 && ((w >> 16) & 0xFF) == b as bv32 && ((w >> 8) & 0xFF) == c as bv32
    ensures (w & 0xFF) == d as bv32
  {
  }

  lemma PutWordGetWord(a: Byte, b: Byte, c: Byte, d: Byte)
    ensures PutWord(GetWord(a, b, c, d)) == [a, b, c, d]
  {
    RawSplitJoin(GetWord(a, b, c, d), a, b, c, d);
  }

  // ---------------------------------------------------------------- headers

  function EncodeHeader(h: Header): (r: Bytes)
    ensures |r| == HEADER_SIZE
  {
    Put16(h.magic) + Put16(h.version) + Put32(h.msgType)
      + Put32(h.bodyLength) + Put32(h.dataLength) + Put32(h.requestId) + PutWord(h.checksum)
  }

  function DecodeHeader(b: Bytes): Header
    requires |b| >= HEADER_SIZE
  {
    Header(Get16(b[0], b[1]), Get16(b[2], b[3]), Get32(b[4], b[5], b[6], b[7]), Get32(b[8], b[9], b[10], b[11]),
           Get32(b[12], b[13], b[14], b[15]), Get32(b[16], b[17], b[18], b[19]), GetWord(b[20], b[21], b[22], b[23]))
  }

  /** Reading back a written header gives the same header, whatever follows it. */
  lemma HeaderRoundTrip(h: Header, rest: Bytes)
    ensures DecodeHeader(EncodeHeader(h) + rest) == h
  {
    hide Put16, Put32, PutWord, Get16, Get32, GetWord;
    Get16Put16(h.magic);
    Get16Put16(h.version);
    Get32Put32(h.msgType);
    Get32Put32(h.bodyLength);
    Get32Put32(h.dataLength);
    Get32Put32(h.requestId);
    GetWordPutWord(h.checksum);
  }

  /** Writing a header that was read gives the same 24 bytes: no information is lost either way. */
  lemma HeaderBytesRoundTrip(b: Bytes)
    requires |b| >= HEADER_SIZE
    ensures EncodeHeader(DecodeHeader(b)) == b[..HEADER_SIZE]
  {
    hide Put16, Put32, PutWord, Get16, Get32, GetWord;
    Put16Get16(b[0], b[1]);
    Put16Get16(b[2], b[3]);
    Put32Get32(b[4], b[5], b[6], b[7]);
    Put32Get32(b[8], b[9], b[10], b[11]);
    Put32Get32(b[12], b[13], b[14], b[15]);
    Put32Get32(b[16], b[17], b[18], b[19]);
    PutWordGetWord(b[20], b[21], b[22], b[23]);
  }

  // ---------------------------------------------------------------- what lies where

  /** The number two bytes spell, the most significant first. */
  function HalfAt(b: Bytes, at: nat): int
    requires at + 2 <= |b|
  {
    (b[at] as int) * 0x100 + (b[at + 1] as int)
  }

  /** The number four bytes spell, the most significant first. */
  function WordAt(b: Bytes, at: nat): int
    requires at + 4 <= |b|
  {
    (b[at] as int) * 0x100_0000 + (b[at + 1] as int) * 0x1_0000 + (b[at + 2] as int) * 0x100 + (b[at + 3] as int)
  }

  /** The layout of a header: each field at its offset, in network byte order. */
  predicate LaidOut(b: Bytes, h: Header) {
    && |b| >= HEADER_SIZE
    && HalfAt(b, 0) == h.magic && HalfAt(b, 2) == h.version && WordAt(b, 4) == h.msgType
    && WordAt(b, 8) == h.bodyLength && WordAt(b, 12) == h.dataLength && WordAt(b, 16) == h.requestId
    && WordAt(b, 20) == h.checksum as int
  }

  lemma RawWordSum(w: bv32, a: bv8, b: bv8, c: bv8, d: bv8)
    requires w == ((a as bv32) << 24) | ((b as bv32) << 16) | ((c as bv32) << 8) | (d as bv32)
    ensures w as int == (a as int) * 0x100_0000 + (b as int) * 0x1_0000 + (c as int) * 0x100 + (d as int)
  {
  }

  lemma RawSameWord(v: bv32, w: bv32)
    requires v as int == w as int
    ensures v == w
  {
    assert (v as int) as bv32 == v;
  }

  lemma DecodedIsLaidOut(b: Bytes)
    requires |b| >= HEADER_SIZE
    ensures LaidOut(b, DecodeHeader(b))
  {
    RawWordSum(GetWord(b[20], b[21], b[22], b[23]), b[20], b[21], b[22], b[23]);
  }

  lemma OneLayout(b: Bytes, g: Header, h: Header)
    requires LaidOut(b, g) && LaidOut(b, h)
    ensures g == h
  {
    hide HalfAt, WordAt;
    RawSameWord(g.checksum, h.checksum);
  }

  /** Reading a header finds exactly the one that is laid out there. */
  lemma ReadsTheLayout(b: Bytes, h: Header)
    ensures LaidOut(b, h) <==> |b| >= HEADER_SIZE && DecodeHeader(b) == h
  {
    if |b| >= HEADER_SIZE {
      DecodedIsLaidOut(b);
      hide LaidOut, DecodeHeader;
      if LaidOut(b, h) {
        OneLayout(b, DecodeHeader(b), h);
      }
    }
  }

  /** Writing a header lays it out, in exactly those 24 bytes. */
  lemma WritesTheLayout(b: Bytes, h: Header)
    ensures LaidOut(b, h) <==> EncodeHeader(h) <= b
  {
    hide LaidOut, DecodeHeader, EncodeHeader;
    ReadsTheLayout(b, h);
    if |b| >= HEADER_SIZE {
      HeaderBytesRoundTrip(b);
      if EncodeHeader(h) <= b {
        assert b == EncodeHeader(h) + b[HEADER_SIZE..];
        HeaderRoundTrip(h, b[HEADER_SIZE..]);
      }
    }
  }

  // ---------------------------------------------------------------- frames

  function Low32(n: nat): uint32 {
    n % 0x1_0000_0000
  }

  /** The CRC of a frame: its header with a zero checksum, its body and its data. */
  function FrameCrc(h: Header, body: Bytes, data: Bytes): bv32 {
    Crc(EncodeHeader(h.(checksum := 0)) + body + data)
  }

  /** The header a message travels with: lengths and checksum filled in. */
  function FrameHeader(m: Message): Header {
    var h := m.header.(bodyLength := Low32(|m.body|), dataLength := Low32(|m.data|), checksum := 0);
    h.(checksum := FrameCrc(h, m.body, m.data))
  }

  /** The message as a receiver sees it. */
  function Framed(m: Message): Message {
    m.(header := FrameHeader(m))
  }

  function Encode(m: Message): Bytes {
    EncodeHeader(FrameHeader(m)) + m.body + m.data
  }

  function EncodeBatch(ms: seq<Message>): Bytes {
    if ms == [] then [] else Encode(ms[0]) + EncodeBatch(ms[1..])
  }

  /** What the decoder can be asked to reproduce: the protocol's magic and sizes that fit their fields. */
  predicate Sendable(m: Message) {
    m.header.magic == MAGIC && |m.body| < 0x1_0000_0000 && |m.data| < 0x1_0000_0000
  }

  // ---------------------------------------------------------------- what a peer sees

  /** A frame byte by byte, as any implementation of the protocol reads it. */
  predicate FrameOf(f: Bytes, m: Message) {
    && |f| == 24 + |m.body| + |m.data|
    && f[0] == 0x4D && f[1] == 0x46
    && HalfAt(f, 2) == m.header.version && WordAt(f, 4) == m.header.msgType
    && WordAt(f, 8) == |m.body| && WordAt(f, 12) == |m.data| && WordAt(f, 16) == m.header.requestId
    && WordAt(f, 20) == Crc(f[..20] + [0, 0, 0, 0] + f[24..]) as int
    && f[24..24 + |m.body|] == m.body && f[24 + |m.body|..] == m.data
  }

  lemma RawMagic(a: Byte, b: Byte)
    requires (a as int) * 0x100 + (b as int) == 0x4D46
    ensures a == 0x4D && b == 0x46
  {
    ValueOfByte(0x4D);
    ValueOfByte(0x46);
    assert a as int == 0x4D && b as int == 0x46;
    ByteOfValue(a);
    ByteOfValue(b);
  }

  /** The frame of any sendable message starts with the bytes 4D and 46, then version, type, length of the body, length
      of the data, request id and checksum, each in network byte order, and then the body and the data themselves. The
      checksum is that of the frame with four zero bytes in its place. No other bytes are a frame of the message. */
  lemma EncodesTheFrame(f: Bytes, m: Message)
    requires Sendable(m)
    ensures FrameOf(f, m) <==> f == Encode(m)
  {
    hide EncodeHeader, DecodeHeader, FrameCrc, Crc, HalfAt, WordAt;
    if f == Encode(m) {
      WritesTheLayout(f, FrameHeader(m));
      MagicBytes(f);
      ChecksummedBytes(f, m, FrameHeader(m));
    }
    if FrameOf(f, m) {
      var g := FrameHeader(m).(checksum := Crc(f[..20] + [0, 0, 0, 0] + f[24..]));
      MagicBytes(f);
      WritesTheLayout(f, g);
      assert f == EncodeHeader(g) + m.body + m.data;
      ChecksummedBytes(f, m, g);
    }
  }

  lemma MagicBytes(f: Bytes)
    requires |f| >= HEADER_SIZE
    ensures HalfAt(f, 0) == 0x4D46 <==> f[0] == 0x4D && f[1] == 0x46
  {
    ValueOfByte(0x4D);
    ValueOfByte(0x46);
    if HalfAt(f, 0) == 0x4D46 {
      RawMagic(f[0], f[1]);
    }
  }

  /** The checksum of a message covers the frame with four zero bytes in place of the checksum, whatever stands
      there. */
  lemma ChecksummedBytes(f: Bytes, m: Message, g: Header)
    requires g == FrameHeader(m).(checksum := g.checksum) && f == EncodeHeader(g) + m.body + m.data
    ensures FrameHeader(m).checksum == Crc(f[..20] + [0, 0, 0, 0] + f[24..])
  {
    ZeroChecksum();
    hide Crc, Put16, Put32, PutWord;
    assert EncodeHeader(g.(checksum := 0)) == EncodeHeader(g)[..20] + [0, 0, 0, 0];
    assert f[..20] + [0, 0, 0, 0] + f[24..] == EncodeHeader(g.(checksum := 0)) + m.body + m.data;
    assert g.(checksum := 0) == m.header.(bodyLength := Low32(|m.body|), dataLength := Low32(|m.data|), checksum := 0);
  }

  lemma ZeroChecksum()
    ensures PutWord(0) == [0, 0, 0, 0]
  {
  }
}
