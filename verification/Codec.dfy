/** Encoder and decoder as they are written: a lookup table filled in place, a header struct, and a state machine
    over a growing buffer. */
module Codec {
  import opened Octets
  import opened Schema
  import opened Crc32
  import opened Frames
  import opened Decoding

  // ---------------------------------------------------------------- encoder

  /** A byte as an index word. */
  function Index(b: Byte): bv32 {
    b as bv32
  }

  lemma RawLowByte(x: bv32, b: bv8)
    requires b == (x & 0xFF) as bv8
    ensures b as bv32 == x & 0xFF
  {
  }

  function LowByte(x: bv32): Byte {
    (x & 0xFF) as bv8
  }

  lemma LowByteIsLow(x: bv32)
    ensures Index(LowByte(x)) == Low(x)
  {
    RawLowByte(x, LowByte(x));
  }

  lemma {:induction false} StepsSnoc(x: bv32, n: nat)
    ensures Steps(x, n + 1) == Step(Steps(x, n))
    decreases n
  {
    hide Step;
    if n == 0 {
      assert Steps(Step(x), 0) == Step(x);
    } else {
      StepsSnoc(Step(x), n - 1);
    }
  }

  lemma OneMoreByte(crc: bv32, data: Bytes, i: nat)
    requires i < |data|
    ensures FeedBits(crc, Bits(data[..i + 1])) == FeedBits(FeedBits(crc, Bits(data[..i])), ByteBits(data[i]))
  {
    hide FeedBits, ByteBits;
    assert data[..i + 1] == data[..i] + [data[i]];
    BitsAppended(data[..i], [data[i]]);
    assert Bits([data[i]]) == ByteBits(data[i]) by {
      assert [data[i]][1..] == [];
      assert ByteBits(data[i]) + [] == ByteBits(data[i]);
    }
    FeedAppended(crc, Bits(data[..i]), ByteBits(data[i]));
  }

  lemma NoBytes(data: Bytes)
    ensures FeedBits(ONES, Bits(data[..0])) == ONES
  {
  }

  class Encoder {
    const table: array<bv32>
    var initialized: bool

    ghost predicate Valid()
      reads this, table
    {
      table.Length == 256 && (initialized ==> forall b: Byte :: table[Value(b)] == TableEntry(Index(b)))
    }

    constructor ()
      ensures Valid() && fresh(table)
    {
      table := new bv32[256](_ => 0);
      initialized := false;
    }

    /** Entry `i` is `i` after eight steps of the shift register. */
    method InitCRC32Table()
      requires Valid()
      modifies this`initialized, table
      ensures Valid() && initialized
    {
      hide Step, Value, ByteOf;
      var i := 0;
      while i < 256
        invariant 0 <= i <= 256
        invariant forall b: Byte :: Value(b) < i ==> table[Value(b)] == TableEntry(Index(b))
      {
        var index := ByteOf(i);
        ValueOfByte(i);
        var crc := Index(index);
        for j := 0 to 8
          invariant crc == Steps(Index(index), j)
          modifies {}
        {
          StepsSnoc(Index(index), j);
          crc := Step(crc);
        }
        table[i] := crc;
        forall b: Byte | Value(b) == i ensures b == index {
          ByteOfValue(b);
        }
        i := i + 1;
      }
      initialized := true;
    }

    /** The table-driven loop computes the CRC that is defined bit by bit. */
    method CRC32(data: Bytes) returns (crc: bv32)
      requires Valid()
      modifies this`initialized, table
      ensures Valid() && crc == Crc(data)
    {
      hide FeedBits, Bits, ByteBits, TableEntry, Low, High, Xor, Index, LowByte;
      if !initialized {
        InitCRC32Table();
      }
      var register := ONES;
      NoBytes(data);
      for i := 0 to |data|
        invariant Valid() && initialized
        invariant register == FeedBits(ONES, Bits(data[..i]))
      {
        ByteUpdate(register, data[i]);
        OneMoreByte(ONES, data, i);
        LowByteIsLow(Xor(register, Widened(data[i])));
        register := Xor(table[Value(LowByte(Xor(register, Widened(data[i]))))], High(register));
      }
      assert data[..|data|] == data;
      crc := Xor(register, ONES);
    }
  }

  function Widened(b: Byte): bv32 {
    b as bv32
  }

  // ---------------------------------------------------------------- header

  class MessageHeader {
    var magic: uint16
    var version: uint16
    var msgType: uint32
    var bodyLength: uint32
    var dataLength: uint32
    var requestId: uint32
    var checksum: bv32

    function Contents(): Header
      reads this
    {
      Header(magic, version, msgType, bodyLength, dataLength, requestId, checksum)
    }

    constructor ()
      ensures Contents() == Header(MAGIC, VERSION, 0, 0, 0, 0, 0)
    {
      magic, version, msgType, bodyLength, dataLength, requestId, checksum := MAGIC, VERSION, 0, 0, 0, 0, 0;
    }

    method Copy(h: Header)
      modifies this
      ensures Contents() == h
    {
      magic, version, msgType := h.magic, h.version, h.msgType;
      bodyLength, dataLength, requestId, checksum := h.bodyLength, h.dataLength, h.requestId, h.checksum;
    }

    /** Write the fields big-endian into the first 24 bytes of a buffer, each at its own offset. */
    method EncodeTo(buffer: array<Byte>)
      requires buffer.Length >= HEADER_SIZE
      modifies buffer
      ensures buffer[..HEADER_SIZE] == EncodeHeader(Contents())
      ensures HalfAt(buffer[..], 0) == magic && HalfAt(buffer[..], 2) == version && WordAt(buffer[..], 4) == msgType
      ensures WordAt(buffer[..], 8) == bodyLength && WordAt(buffer[..], 12) == dataLength
      ensures WordAt(buffer[..], 16) == requestId && WordAt(buffer[..], 20) == checksum as int
      ensures forall i :: HEADER_SIZE <= i < buffer.Length ==> buffer[i] == old(buffer[i])
    {
      hide Put16, Put32, PutWord, HalfAt, WordAt;
      PutAt(buffer, 0, Put16(magic));
      assert buffer[..2] == Put16(magic);
      PutAt(buffer, 2, Put16(version));
      PutAt(buffer, 4, Put32(msgType));
      PutAt(buffer, 8, Put32(bodyLength));
      PutAt(buffer, 12, Put32(dataLength));
      PutAt(buffer, 16, Put32(requestId));
      PutAt(buffer, 20, PutWord(checksum));
      assert buffer[..][..HEADER_SIZE] == buffer[..HEADER_SIZE];
      WritesTheLayout(buffer[..], Contents());
    }

    /** Read the fields back; false if the magic is not the protocol's. */
    method DecodeFrom(buffer: Bytes) returns (ok: bool)
      requires |buffer| >= HEADER_SIZE
      modifies this
      ensures Contents() == DecodeHeader(buffer) && ok == (magic == MAGIC)
      ensures magic == HalfAt(buffer, 0) && version == HalfAt(buffer, 2) && msgType == WordAt(buffer, 4)
      ensures bodyLength == WordAt(buffer, 8) && dataLength == WordAt(buffer, 12)
      ensures requestId == WordAt(buffer, 16) && checksum as int == WordAt(buffer, 20)
      ensures ok <==> buffer[0] == 0x4D && buffer[1] == 0x46
    {
      hide Get16, Get32, GetWord, HalfAt, WordAt;
      DecodedIsLaidOut(buffer);
      MagicBytes(buffer);
      magic := Get16(buffer[0], buffer[1]);
      version := Get16(buffer[2], buffer[3]);
      msgType := Get32(buffer[4], buffer[5], buffer[6], buffer[7]);
      bodyLength := Get32(buffer[8], buffer[9], buffer[10], buffer[11]);
      dataLength := Get32(buffer[12], buffer[13], buffer[14], buffer[15]);
      requestId := Get32(buffer[16], buffer[17], buffer[18], buffer[19]);
      checksum := GetWord(buffer[20], buffer[21], buffer[22], buffer[23]);
      ok := magic == MAGIC;
    }
  }

  /** Copy some bytes into a buffer. */
  method PutAt(buffer: array<Byte>, at: nat, bytes: Bytes)
    requires at + |bytes| <= buffer.Length
    modifies buffer
    ensures buffer[..at + |bytes|] == old(buffer[..at]) + bytes
    ensures forall i :: at + |bytes| <= i < buffer.Length ==> buffer[i] == old(buffer[i])
  {
    forall i | 0 <= i < |bytes| {
      buffer[at + i] := bytes[i];
    }
  }

  // ---------------------------------------------------------------- encoding

  /** Serialize a header into 24 fresh bytes. */
  method HeaderBytes(h: Header) returns (bytes: Bytes)
    ensures bytes == EncodeHeader(h)
  {
    var header := new MessageHeader();
    header.Copy(h);
    var buffer := new Byte[HEADER_SIZE];
    header.EncodeTo(buffer);
    bytes := buffer[..];
  }

  method EncodeMessage(encoder: Encoder, m: Message) returns (frame: Bytes)
    requires encoder.Valid()
    modifies encoder`initialized, encoder.table
    ensures encoder.Valid() && frame == Encode(m)
    ensures Sendable(m) ==> FrameOf(frame, m)
  {
    hide EncodeHeader, Crc, FrameOf;
    var h := m.header.(bodyLength := Low32(|m.body|), dataLength := Low32(|m.data|), checksum := 0);
    assert h.(checksum := 0) == h;
    var front := HeaderBytes(h);
    var crc := encoder.CRC32(front + m.body + m.data);
    var header := HeaderBytes(h.(checksum := crc));
    frame := header + m.body + m.data;
    if Sendable(m) {
      EncodesTheFrame(frame, m);
    }
  }

  lemma {:induction false} BatchSnoc(ms: seq<Message>, m: Message)
    ensures EncodeBatch(ms + [m]) == EncodeBatch(ms) + Encode(m)
  {
    hide Encode;
    if ms == [] {
      assert [m][1..] == [] && [] + [m] == [m];
      assert EncodeBatch([m]) == Encode(m) + EncodeBatch([]);
    } else {
      assert (ms + [m])[1..] == ms[1..] + [m];
      BatchSnoc(ms[1..], m);
    }
  }

  method EncodeAll(encoder: Encoder, ms: seq<Message>) returns (stream: Bytes)
    requires encoder.Valid()
    modifies encoder`initialized, encoder.table
    ensures encoder.Valid() && stream == EncodeBatch(ms)
  {
    hide Encode;
    stream := [];
    for i := 0 to |ms|
      invariant encoder.Valid() && stream == EncodeBatch(ms[..i])
    {
      var frame := EncodeMessage(encoder, ms[i]);
      BatchSnoc(ms[..i], ms[i]);
      assert ms[..i + 1] == ms[..i] + [ms[i]];
      stream := stream + frame;
    }
    assert ms[..|ms|] == ms;
  }

  // ---------------------------------------------------------------- decoder

  datatype Stage = WaitHeader | WaitBody

  class Decoder {
    const encoder: Encoder
    var stage: Stage
    var buffer: Bytes
    var currentHeader: Header

    /** Waiting for a body, the header at the front of the buffer has been read already. */
    ghost predicate Valid()
      reads this, encoder, encoder.table
    {
      && encoder.Valid()
      && (stage.WaitBody? ==>
            |buffer| >= HEADER_SIZE && currentHeader == DecodeHeader(buffer) && currentHeader.magic == MAGIC)
    }

    constructor (encoder: Encoder)
      requires encoder.Valid()
      ensures Valid() && this.encoder == encoder && stage == WaitHeader && buffer == []
    {
      this.encoder := encoder;
      stage, buffer, currentHeader := WaitHeader, [], Header(MAGIC, VERSION, 0, 0, 0, 0, 0);
    }

    method Reset()
      requires Valid()
      modifies this
      ensures Valid() && stage == WaitHeader && buffer == []
    {
      stage, buffer := WaitHeader, [];
    }

    /** One attempt at a message. What it does depends on the buffer alone: it delivers the message at its front,
        discards one byte, or waits for more. */
    method TryParseMessage() returns (delivered: Option<Message>)
      requires Valid()
      modifies this, encoder`initialized, encoder.table
      ensures Valid()
      ensures match Head(old(buffer))
              case Wait => delivered == None && buffer == old(buffer)
                           && stage == if |buffer| >= HEADER_SIZE then WaitBody else WaitHeader
              case Next(e) => buffer == Rest(old(buffer)) && stage == WaitHeader
                              && delivered == if e.Emitted? then Some(e.message) else None
    {
      hide DecodeHeader, EncodeHeader, Crc, Encode, HalfAt, WordAt;
      if stage.WaitHeader? {
        if |buffer| < HEADER_SIZE {
          return None;
        }
        var header := new MessageHeader();
        var ok := header.DecodeFrom(buffer);
        currentHeader := header.Contents();
        if !ok {
          buffer := buffer[1..];
          return None;
        }
        stage := WaitBody;
      }
      var needed := HEADER_SIZE + currentHeader.bodyLength + currentHeader.dataLength;
      if |buffer| < needed {
        return None;
      }
      var body := buffer[HEADER_SIZE..HEADER_SIZE + currentHeader.bodyLength];
      var data := buffer[HEADER_SIZE + currentHeader.bodyLength..needed];
      var front := HeaderBytes(currentHeader.(checksum := 0));
      var calculated := encoder.CRC32(front + body + data);
      if calculated != currentHeader.checksum {
        buffer, stage := buffer[1..], WaitHeader;
        return None;
      }
      delivered := Some(Message(currentHeader, body, data));
      EmittedIsFramed(buffer);
      buffer, stage := buffer[needed..], WaitHeader;
    }

    /** Append the bytes and deliver every message that can be had without discarding anything. */
    method Feed(data: Bytes) returns (result: seq<Message>)
      requires Valid()
      modifies this, encoder`initialized, encoder.table
      ensures Valid() && buffer == Kept(old(buffer) + data)
      ensures result == MessagesOf(FeedLog(old(buffer) + data))
      ensures stage == WaitHeader || Head(buffer).Wait?
      ensures Head(buffer).Wait? && |buffer| < HEADER_SIZE ==> stage == WaitHeader
    {
      hide Head, Raw;
      buffer := buffer + data;
      ghost var whole := buffer;
      result := [];
      while true
        invariant Valid()
        invariant MessagesOf(FeedLog(whole)) == result + MessagesOf(FeedLog(buffer)) && Kept(whole) == Kept(buffer)
        decreases |buffer|
      {
        ghost var before := buffer;
        var message := TryParseMessage();
        if message.None? {
          break;
        }
        assert FeedLog(before)[1..] == FeedLog(buffer);
        result := result + [message.value];
      }
    }
  }
}
