/** The second implementation of the frame format, over a socket that delivers bytes in pieces of its own choosing. */
module Wire {
  import opened Octets
  import opened Schema
  import opened Crc32
  import opened Frames
  import opened Decoding
  import Codec

  const MAX_JSON: nat := 1024 * 1024
  const MAX_DATA: nat := 4 * 1024 * 1024
  const RECV_LIMIT: nat := 65536

  /** What `receive` returns: JSON body, data and request id. */
  datatype Request = Request(body: Bytes, data: Bytes, requestId: uint32)

  /** One end of a connection: the bytes the peer will still send before closing, and the bytes sent to it. */
  class Socket {
    var incoming: Bytes
    var outgoing: Bytes

    constructor (incoming: Bytes)
      ensures this.incoming == incoming && outgoing == []
    {
      this.incoming, outgoing := incoming, [];
    }

    /** Between one and `limit` bytes, as many as happen to have arrived; none only once the peer has closed. */
    method Recv(limit: nat) returns (part: Bytes)
      requires limit > 0
      modifies this`incoming
      ensures |part| <= limit && old(incoming) == part + incoming && (part == [] <==> old(incoming) == [])
    {
      if incoming == [] {
        return [];
      }
      var n: nat :| 1 <= n <= limit && n <= |incoming|;
      part, incoming := incoming[..n], incoming[n..];
    }

    method SendAll(bytes: Bytes)
      modifies this`outgoing
      ensures outgoing == old(outgoing) + bytes
    {
      outgoing := outgoing + bytes;
    }
  }

  /** Exactly `size` bytes, however they arrive, or nothing if the connection ends first. */
  method Exact(sock: Socket, size: nat) returns (r: Result<Bytes>)
    modifies sock`incoming
    ensures size <= |old(sock.incoming)| ==>
              r == Ok(old(sock.incoming)[..size]) && sock.incoming == old(sock.incoming)[size..]
    ensures |old(sock.incoming)| < size ==> r == Fail(Truncated) && sock.incoming == []
  {
    var out: Bytes := [];
    while |out| < size
      invariant |out| <= size && old(sock.incoming) == out + sock.incoming
      decreases size - |out|
    {
      var part := sock.Recv(if size - |out| < RECV_LIMIT then size - |out| else RECV_LIMIT);
      if part == [] {
        return Fail(Truncated);
      }
      out := out + part;
    }
    r := Ok(out);
  }

  predicate Acceptable(h: Header) {
    h.magic == MAGIC && h.version == VERSION && (h.msgType == 1 || h.msgType == 2)
  }

  predicate WithinLimits(h: Header) {
    h.bodyLength <= MAX_JSON && h.dataLength <= MAX_DATA
  }

  /** What `receive` makes of the bytes still to come. `isObject` stands for the JSON parser. */
  function Received(stream: Bytes, isObject: Bytes -> bool): Result<Request> {
    if |stream| < HEADER_SIZE then Fail(Truncated)
    else
      var h := DecodeHeader(stream);
      if !Acceptable(h) then Fail(Protocol)
      else if !WithinLimits(h) then Fail(LimitExceeded)
      else if |stream| < Needed(h) then Fail(Truncated)
      else if Crc(Cleared(stream[..Needed(h)])) != h.checksum then Fail(Protocol)
      else if !isObject(BodyOf(stream, h)) then Fail(Invalid)
      else Ok(Request(BodyOf(stream, h), DataOf(stream, h), h.requestId))
  }

  method Receive(sock: Socket, isObject: Bytes -> bool, encoder: Codec.Encoder) returns (r: Result<Request>)
    requires encoder.Valid()
    modifies sock`incoming, encoder`initialized, encoder.table
    ensures encoder.Valid() && r == Received(old(sock.incoming), isObject)
    ensures r.Ok? ==> sock.incoming == old(sock.incoming)[Needed(DecodeHeader(old(sock.incoming)))..]
  {
    hide Crc, DecodeHeader, PutWord, BodyOf, DataOf, Cleared;
    ghost var stream := sock.incoming;
    var raw :- Exact(sock, HEADER_SIZE);
    var h := DecodeHeader(raw);
    HeaderOfPrefix(stream);
    if !Acceptable(h) {
      return Fail(Protocol);
    }
    if !WithinLimits(h) {
      return Fail(LimitExceeded);
    }
    var body :- Exact(sock, h.bodyLength + h.dataLength);
    PartsOfBody(stream, h, body);
    var crc := encoder.CRC32(raw[..20] + PutWord(0) + body);
    if crc != h.checksum {
      return Fail(Protocol);
    }
    if !isObject(body[..h.bodyLength]) {
      return Fail(Invalid);
    }
    r := Ok(Request(body[..h.bodyLength], body[h.bodyLength..], h.requestId));
  }

  lemma PartsOfBody(stream: Bytes, h: Header, body: Bytes)
    requires |stream| >= Needed(h) && body == stream[HEADER_SIZE..][..h.bodyLength + h.dataLength]
    ensures body[..h.bodyLength] == BodyOf(stream, h) && body[h.bodyLength..] == DataOf(stream, h)
    ensures stream[..HEADER_SIZE][..20] + PutWord(0) + body == Cleared(stream[..Needed(h)])
  {
    hide PutWord;
    var b := stream[..Needed(h)];
    assert b[..20] == stream[..HEADER_SIZE][..20] && b[HEADER_SIZE..] == body;
  }

  lemma HeaderOfPrefix(stream: Bytes)
    requires |stream| >= HEADER_SIZE
    ensures DecodeHeader(stream[..HEADER_SIZE]) == DecodeHeader(stream)
  {
    hide Get16, Get32, GetWord;
  }

  /** The message a frame of `send` carries. */
  function Sent(body: Bytes, data: Bytes, requestId: uint32, kind: uint32): Message {
    Message(Header(MAGIC, VERSION, kind, 0, 0, requestId, 0), body, data)
  }

  method Send(sock: Socket, body: Bytes, data: Bytes, requestId: uint32, kind: uint32, encoder: Codec.Encoder)
    returns (r: Result<()>)
    requires encoder.Valid()
    modifies sock`outgoing, encoder`initialized, encoder.table
    ensures encoder.Valid()
    ensures r == if |body| <= MAX_JSON && |data| <= MAX_DATA then Ok(()) else Fail(LimitExceeded)
    ensures sock.outgoing == old(sock.outgoing) + if r.Ok? then Encode(Sent(body, data, requestId, kind)) else []
    ensures r.Ok? <==> |body| <= 0x10_0000 && |data| <= 0x40_0000
    ensures r.Ok? ==>
              FrameOf(sock.outgoing[|old(sock.outgoing)|..],
                      Message(Header(0x4D46, 1, kind, |body|, |data|, requestId, 0), body, data))
  {
    hide Crc, Put16, Put32, PutWord, FrameOf;
    if |body| > MAX_JSON || |data| > MAX_DATA {
      assert sock.outgoing + [] == sock.outgoing;
      return Fail(LimitExceeded);
    }
    var h := Header(MAGIC, VERSION, kind, |body|, |data|, requestId, 0);
    var raw := EncodeHeader(h);
    var crc := encoder.CRC32(raw + body + data);
    SentFrame(body, data, requestId, kind, crc);
    sock.SendAll(raw[..20] + PutWord(crc) + body + data);
    EncodesTheFrame(Encode(Sent(body, data, requestId, kind)), Sent(body, data, requestId, kind));
    SameFrame(Encode(Sent(body, data, requestId, kind)), Sent(body, data, requestId, kind),
              Message(h, body, data));
    assert sock.outgoing[|old(sock.outgoing)|..] == Encode(Sent(body, data, requestId, kind));
    r := Ok(());
  }

  /** The lengths and the checksum of a message are not its own but those of its frame. */
  lemma SameFrame(f: Bytes, m: Message, g: Message)
    requires g.body == m.body && g.data == m.data && g.header.version == m.header.version
    requires g.header.msgType == m.header.msgType && g.header.requestId == m.header.requestId
    ensures FrameOf(f, m) == FrameOf(f, g)
  {
    hide Crc;
  }

  lemma SentFrame(body: Bytes, data: Bytes, requestId: uint32, kind: uint32, crc: bv32)
    requires |body| <= MAX_JSON && |data| <= MAX_DATA
    requires crc == Crc(EncodeHeader(Header(MAGIC, VERSION, kind, |body|, |data|, requestId, 0)) + body + data)
    ensures EncodeHeader(Header(MAGIC, VERSION, kind, |body|, |data|, requestId, 0))[..20] + PutWord(crc) + body + data
            == Encode(Sent(body, data, requestId, kind))
  {
    hide Crc, Put16, Put32, PutWord;
    var h := Header(MAGIC, VERSION, kind, |body|, |data|, requestId, 0);
    var m := Sent(body, data, requestId, kind);
    assert FrameHeader(m) == h.(checksum := crc) by {
      assert h.(checksum := 0) == h;
    }
    assert EncodeHeader(h)[..20] + PutWord(crc) == EncodeHeader(h.(checksum := crc));
  }

  /** What a receiver makes of the bytes on the line: it takes a frame exactly if it starts with 4D 46, has version
      1, is a request or a response of at most 1 MiB of JSON and 4 MiB of data, is complete, has the checksum of its
      bytes with four zeros in its place, and carries a JSON object; and it takes the very bytes of the frame. */
  lemma ReceivedByTheBytes(stream: Bytes, isObject: Bytes -> bool)
    ensures Received(stream, isObject)
            == if |stream| < 24 then Fail(Truncated)
               else if !(stream[0] == 0x4D && stream[1] == 0x46 && HalfAt(stream, 2) == 1
                         && WordAt(stream, 4) in {1, 2})
                   then Fail(Protocol)
               else if 0x10_0000 < WordAt(stream, 8) || 0x40_0000 < WordAt(stream, 12) then Fail(LimitExceeded)
               else
                 var json, end := 24 + WordAt(stream, 8), 24 + WordAt(stream, 8) + WordAt(stream, 12);
                 if |stream| < end then Fail(Truncated)
                 else if Crc(stream[..20] + [0, 0, 0, 0] + stream[24..end]) as int != WordAt(stream, 20)
                     then Fail(Protocol)
                 else if !isObject(stream[24..json]) then Fail(Invalid)
                 else Ok(Request(stream[24..json], stream[json..end], WordAt(stream, 16)))
  {
    hide Crc, DecodeHeader, PutWord, HalfAt, WordAt;
    if |stream| >= 24 {
      DecodedIsLaidOut(stream);
      MagicBytes(stream);
      ZeroChecksum();
      var h := DecodeHeader(stream);
      if |stream| >= Needed(h) {
        assert Cleared(stream[..Needed(h)]) == stream[..20] + [0, 0, 0, 0] + stream[24..Needed(h)];
        SameWordIff(Crc(Cleared(stream[..Needed(h)])), h.checksum);
      }
    }
  }

  lemma SameWordIff(v: bv32, w: bv32)
    ensures v == w <==> v as int == w as int
  {
    if v as int == w as int {
      RawSameWord(v, w);
    }
  }

  // ---------------------------------------------------------------- the two implementations agree

  lemma SameChecksum(stream: Bytes, h: Header)
    requires |stream| >= HEADER_SIZE && h == DecodeHeader(stream) && |stream| >= Needed(h)
    ensures FrameCrc(h, BodyOf(stream, h), DataOf(stream, h)) == Crc(Cleared(stream[..Needed(h)]))
  {
    PartsOfPrefix(stream, h);
    var b, rest := stream[..Needed(h)], stream[Needed(h)..];
    assert stream == b + rest;
    hide *;
    SameHeader(b, rest);
    FrameCrcIsOverCleared(b);
  }

  lemma PartsOfPrefix(stream: Bytes, h: Header)
    requires |stream| >= Needed(h)
    ensures var b := stream[..Needed(h)];
            HEADER_SIZE <= |b| == Needed(h) && BodyOf(b, h) == BodyOf(stream, h) && DataOf(b, h) == DataOf(stream, h)
  {
  }

  /** The checks both decoders make on a complete frame. */
  predicate Sealed(stream: Bytes) {
    |stream| >= HEADER_SIZE
    && var h := DecodeHeader(stream);
       h.magic == MAGIC && |stream| >= Needed(h) && Crc(Cleared(stream[..Needed(h)])) == h.checksum
  }

  lemma HeadIsSealed(stream: Bytes)
    ensures Sealed(stream) <==> Head(stream).Next? && Head(stream).event.Emitted?
    ensures Sealed(stream) ==>
              var h := DecodeHeader(stream);
              Head(stream) == Next(Emitted(Message(h, BodyOf(stream, h), DataOf(stream, h))))
  {
    if |stream| >= HEADER_SIZE && |stream| >= Needed(DecodeHeader(stream)) {
      SameChecksum(stream, DecodeHeader(stream));
    }
    hide Crc, DecodeHeader, EncodeHeader, Cleared, FrameCrc, BodyOf, DataOf, Needed;
  }

  /** What the incremental decoder makes of its buffer, byte by byte: it waits for a header and, behind 4D 46, for the
      lengths the header names; a frame with the right checksum is delivered with the bytes at its offsets, and
      anything else costs one byte. */
  lemma DeliveredByTheBytes(stream: Bytes)
    ensures if |stream| < 24 then Head(stream).Wait?
            else if !(stream[0] == 0x4D && stream[1] == 0x46) then Head(stream) == Next(Dropped(stream[0]))
            else
              var json, end := 24 + WordAt(stream, 8), 24 + WordAt(stream, 8) + WordAt(stream, 12);
              if |stream| < end then Head(stream).Wait?
              else if Crc(stream[..20] + [0, 0, 0, 0] + stream[24..end]) as int != WordAt(stream, 20)
                  then Head(stream) == Next(Dropped(stream[0]))
              else && Head(stream).Next? && Head(stream).event.Emitted?
                   && LaidOut(stream, Head(stream).event.message.header)
                   && Head(stream).event.message.body == stream[24..json]
                   && Head(stream).event.message.data == stream[json..end]
  {
    hide Crc, DecodeHeader, EncodeHeader, PutWord, HalfAt, WordAt;
    if |stream| >= 24 {
      DecodedIsLaidOut(stream);
      MagicBytes(stream);
      ZeroChecksum();
      var h := DecodeHeader(stream);
      if |stream| >= Needed(h) {
        SameChecksum(stream, h);
        assert Cleared(stream[..Needed(h)]) == stream[..20] + [0, 0, 0, 0] + stream[24..Needed(h)];
        SameWordIff(Crc(Cleared(stream[..Needed(h)])), h.checksum);
      }
    }
  }

  lemma ReceivedIsSealed(stream: Bytes, isObject: Bytes -> bool, q: Request)
    ensures Received(stream, isObject) == Ok(q)
            <==> && Sealed(stream)
                 && var h := DecodeHeader(stream);
                    && Acceptable(h) && WithinLimits(h) && isObject(BodyOf(stream, h))
                    && q == Request(BodyOf(stream, h), DataOf(stream, h), h.requestId)
  {
    hide Crc, DecodeHeader, EncodeHeader, Cleared, FrameCrc, BodyOf, DataOf, Needed, WithinLimits;
  }

  /** On any bytes, `receive` accepts a request exactly if the other decoder delivers it as its next message and it
      has version 1, kind 1 or 2, a size within limits and a JSON object for a body. */
  lemma DecodersAgree(stream: Bytes, isObject: Bytes -> bool, q: Request)
    ensures Received(stream, isObject) == Ok(q)
            <==> && Head(stream).Next? && Head(stream).event.Emitted?
                 && var m := Head(stream).event.message;
                    && Acceptable(m.header) && WithinLimits(m.header) && isObject(m.body)
                    && q == Request(m.body, m.data, m.header.requestId)
  {
    hide *;
    HeadIsSealed(stream);
    ReceivedIsSealed(stream, isObject, q);
  }

  /** What one side sends the other receives, with any bytes following. */
  lemma SentIsReceived(body: Bytes, data: Bytes, requestId: uint32, kind: uint32, isObject: Bytes -> bool, more: Bytes)
    requires |body| <= MAX_JSON && |data| <= MAX_DATA && (kind == 1 || kind == 2) && isObject(body)
    ensures Received(Encode(Sent(body, data, requestId, kind)) + more, isObject) == Ok(Request(body, data, requestId))
  {
    var m := Sent(body, data, requestId, kind);
    SentHeader(body, data, requestId, kind);
    hide *;
    EncodedIsHead(m, more);
    DecodersAgree(Encode(m) + more, isObject, Request(body, data, requestId));
  }

  lemma SentHeader(body: Bytes, data: Bytes, requestId: uint32, kind: uint32)
    requires |body| <= MAX_JSON && |data| <= MAX_DATA && (kind == 1 || kind == 2)
    ensures var m := Sent(body, data, requestId, kind);
            && Sendable(m) && Framed(m).body == body && Framed(m).data == data
            && Acceptable(Framed(m).header) && WithinLimits(Framed(m).header) && Framed(m).header.requestId == requestId
  {
    hide FrameCrc;
  }

  /** Frames sent by this implementation reach the incremental decoder intact, however the connection cuts them. */
  lemma SentIsDecoded(bodies: seq<(Bytes, Bytes, uint32, uint32)>, parts: seq<Bytes>)
    requires forall q :: q in bodies ==> |q.0| <= MAX_JSON && |q.1| <= MAX_DATA
    requires Joined(parts) == EncodeBatch(AllSent(bodies))
    ensures MessagesOf(FedLog([], parts)) == AllFramed(AllSent(bodies)) && FedBuffer([], parts) == []
  {
    hide FedLog, FedBuffer, Encode, Framed, EncodeBatch;
    AllSentAreSendable(bodies);
    FragmentsRoundTrip(AllSent(bodies), parts);
  }

  function AllSent(bodies: seq<(Bytes, Bytes, uint32, uint32)>): seq<Message> {
    if bodies == [] then [] else [Sent(bodies[0].0, bodies[0].1, bodies[0].2, bodies[0].3)] + AllSent(bodies[1..])
  }

  lemma {:induction false} AllSentAreSendable(bodies: seq<(Bytes, Bytes, uint32, uint32)>)
    requires forall q :: q in bodies ==> |q.0| <= MAX_JSON && |q.1| <= MAX_DATA
    ensures forall m :: m in AllSent(bodies) ==> Sendable(m)
  {
    if bodies != [] {
      AllSentAreSendable(bodies[1..]);
    }
  }
}
