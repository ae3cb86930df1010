/** What a byte stream means to the decoder: a sequence of events, each a message or one discarded byte.
    The decoder's buffer alone decides its next event. */
module Decoding {
  import opened Octets
  import opened Crc32
  import opened Frames

  datatype Event = Dropped(byte: Byte) | Emitted(message: Message)
  datatype Verdict = Wait | Next(event: Event)

  function Raw(e: Event): Bytes {
    match e
    case Dropped(b) => [b]
    case Emitted(m) => Encode(m)
  }

  function RawAll(log: seq<Event>): Bytes {
    if log == [] then [] else Raw(log[0]) + RawAll(log[1..])
  }

  function Needed(h: Header): nat {
    HEADER_SIZE + h.bodyLength + h.dataLength
  }

  function BodyOf(b: Bytes, h: Header): Bytes
    requires |b| >= Needed(h)
  {
    b[HEADER_SIZE..HEADER_SIZE + h.bodyLength]
  }

  function DataOf(b: Bytes, h: Header): Bytes
    requires |b| >= Needed(h)
  {
    b[HEADER_SIZE + h.bodyLength..Needed(h)]
  }

  /** The first event in a buffer: a bad magic or a bad checksum discards one byte. */
  function Head(b: Bytes): Verdict {
    if |b| < HEADER_SIZE then Wait
    else
      var h := DecodeHeader(b);
      if h.magic != MAGIC then Next(Dropped(b[0]))
      else if |b| < Needed(h) then Wait
      else if FrameCrc(h, BodyOf(b, h), DataOf(b, h)) != h.checksum then Next(Dropped(b[0]))
      else Next(Emitted(Message(h, BodyOf(b, h), DataOf(b, h))))
  }

  // ---------------------------------------------------------------- one event

  lemma EmittedIsFramed(b: Bytes)
    requires Head(b).Next? && Head(b).event.Emitted?
    ensures var m := Head(b).event.message;
            m.header.magic == MAGIC && Framed(m) == m && |Encode(m)| == Needed(m.header) <= |b|
                && Encode(m) == b[..Needed(m.header)]
  {
    hide EncodeHeader, DecodeHeader, Crc;
    var m := Head(b).event.message;
    HeaderBytesRoundTrip(b);
    assert FrameHeader(m) == m.header by {
      var h := m.header.(checksum := 0);
      assert m.header.(bodyLength := Low32(|m.body|), dataLength := Low32(|m.data|), checksum := 0) == h;
      assert m.header.(checksum := 0).(checksum := 0) == h;
    }
    assert b[..Needed(m.header)] == b[..HEADER_SIZE] + m.body + m.data;
  }

  /** An event accounts for exactly the bytes it takes off the buffer. */
  lemma HeadConsumes(b: Bytes)
    requires Head(b).Next?
    ensures var raw := Raw(Head(b).event); 0 < |raw| <= |b| && b[..|raw|] == raw
  {
    hide Encode, EncodeHeader, DecodeHeader, Crc;
    if Head(b).event.Emitted? {
      EmittedIsFramed(b);
    }
  }

  lemma SameHeader(b: Bytes, more: Bytes)
    requires |b| >= HEADER_SIZE
    ensures DecodeHeader(b + more) == DecodeHeader(b)
  {
  }

  /** Bytes that arrive later never change an event. */
  lemma HeadStands(b: Bytes, more: Bytes)
    requires Head(b).Next?
    ensures Head(b + more) == Head(b)
  {
    hide DecodeHeader, FrameCrc;
    SameHeader(b, more);
    var h := DecodeHeader(b);
    if |b| >= Needed(h) {
      assert BodyOf(b + more, h) == BodyOf(b, h) && DataOf(b + more, h) == DataOf(b, h);
    }
  }

  // ---------------------------------------------------------------- all events

  function Rest(b: Bytes): (r: Bytes)
    requires Head(b).Next?
    ensures |r| < |b| && Raw(Head(b).event) + r == b
  {
    HeadConsumes(b);
    b[|Raw(Head(b).event)|..]
  }

  /** The events of a whole stream. */
  function Events(b: Bytes): seq<Event>
    decreases |b|
  {
    if Head(b).Wait? then [] else [Head(b).event] + Events(Rest(b))
  }

  lemma RestStands(b: Bytes, more: Bytes)
    requires Head(b).Next?
    ensures Head(b + more).Next? && Rest(b + more) == Rest(b) + more
  {
    HeadStands(b, more);
    hide Head, Raw;
  }

  // ---------------------------------------------------------------- one feed

  /** One call of `Feed` on its buffer: messages until the bytes run out, or until one byte was discarded. */
  function FeedLog(b: Bytes): seq<Event>
    decreases |b|
  {
    if Head(b).Wait? then []
    else if Head(b).event.Dropped? then [Head(b).event]
    else [Head(b).event] + FeedLog(Rest(b))
  }

  function Kept(b: Bytes): (r: Bytes)
    decreases |b|
  {
    if Head(b).Wait? then b
    else if Head(b).event.Dropped? then Rest(b)
    else Kept(Rest(b))
  }

  function MessagesOf(log: seq<Event>): seq<Message> {
    if log == [] then []
    else if log[0].Emitted? then [log[0].message] + MessagesOf(log[1..]) else MessagesOf(log[1..])
  }

  lemma {:induction false} FeedAccounts(b: Bytes)
    ensures RawAll(FeedLog(b)) + Kept(b) == b
    decreases |b|
  {
    hide Head, Raw;
    if Head(b).Next? {
      if Head(b).event.Dropped? {
        assert RawAll([Head(b).event]) == Raw(Head(b).event) + RawAll([]);
      } else {
        FeedAccounts(Rest(b));
        assert FeedLog(b)[1..] == FeedLog(Rest(b));
        assert RawAll(FeedLog(b)) + Kept(b) == Raw(Head(b).event) + (RawAll(FeedLog(Rest(b))) + Kept(Rest(b)));
      }
    }
  }

  /** A feed that discards nothing comes to rest. */
  lemma {:induction false} CleanFeedRests(b: Bytes)
    requires forall e :: e in FeedLog(b) ==> e.Emitted?
    ensures Head(Kept(b)).Wait?
    decreases |b|
  {
    hide Head, Raw;
    if Head(b).Next? {
      assert Head(b).event in FeedLog(b);
      CleanFeedRests(Rest(b));
    }
  }

  lemma HeadStandsHere(b: Bytes, more: Bytes)
    requires Head(b).Next?
    ensures Head(b + more) == Head(b)
  {
    HeadStands(b, more);
  }

  /** What a feed leaves undone is done as soon as more bytes, or none at all, are fed. */
  lemma {:induction false} LaterEvents(b: Bytes, more: Bytes)
    ensures Events(b + more) == FeedLog(b) + Events(Kept(b) + more)
    decreases |b|
  {
    hide Head, Raw;
    if Head(b).Next? {
      RestStands(b, more);
      HeadStandsHere(b, more);
      if Head(b).event.Emitted? {
        LaterEvents(Rest(b), more);
      }
    }
  }

  // ---------------------------------------------------------------- any number of feeds

  function Joined(parts: seq<Bytes>): Bytes {
    if parts == [] then [] else parts[0] + Joined(parts[1..])
  }

  /** Everything that happens while the parts are fed one after the other. */
  function FedLog(buffer: Bytes, parts: seq<Bytes>): seq<Event>
    decreases |parts|
  {
    if parts == [] then [] else FeedLog(buffer + parts[0]) + FedLog(Kept(buffer + parts[0]), parts[1..])
  }

  function FedBuffer(buffer: Bytes, parts: seq<Bytes>): Bytes
    decreases |parts|
  {
    if parts == [] then buffer else FedBuffer(Kept(buffer + parts[0]), parts[1..])
  }

  lemma {:induction false} RawOfBoth(x: seq<Event>, y: seq<Event>)
    ensures RawAll(x + y) == RawAll(x) + RawAll(y)
  {
    hide Raw;
    if x == [] {
      assert x + y == y;
    } else {
      assert (x + y)[1..] == x[1..] + y;
      RawOfBoth(x[1..], y);
    }
  }

  /** Nothing is lost or invented: over any run of feeds, on any bytes whatever, the bytes fed are the discarded
      bytes and the encodings of the messages delivered, in order, followed by what is still buffered. */
  lemma {:induction false} NothingIsLost(buffer: Bytes, parts: seq<Bytes>)
    ensures RawAll(FedLog(buffer, parts)) + FedBuffer(buffer, parts) == buffer + Joined(parts)
    decreases |parts|
  {
    hide FeedLog, Kept;
    if parts == [] {
      assert RawAll([]) + buffer == buffer + [];
    } else {
      var b := buffer + parts[0];
      FeedAccounts(b);
      NothingIsLost(Kept(b), parts[1..]);
      RawOfBoth(FeedLog(b), FedLog(Kept(b), parts[1..]));
      Regrouped(buffer, parts[0], Joined(parts[1..]), RawAll(FeedLog(b)), Kept(b),
                RawAll(FedLog(Kept(b), parts[1..])), FedBuffer(Kept(b), parts[1..]));
    }
  }

  lemma Regrouped(buffer: Bytes, part: Bytes, later: Bytes, raw: Bytes, kept: Bytes, raws: Bytes, left: Bytes)
    requires raw + kept == buffer + part && raws + left == kept + later
    ensures (raw + raws) + left == buffer + (part + later)
  {
    assert (raw + raws) + left == raw + (raws + left);
    assert raw + (kept + later) == (raw + kept) + later;
    assert (buffer + part) + later == buffer + (part + later);
  }

  /** However a stream is cut up, what has happened so far is a prefix of its events, the rest is in the buffer. */
  lemma {:induction false} LogIsAPrefix(buffer: Bytes, parts: seq<Bytes>)
    ensures Events(buffer + Joined(parts)) == FedLog(buffer, parts) + Events(FedBuffer(buffer, parts))
    decreases |parts|
  {
    hide FeedLog, Kept, Events;
    if parts == [] {
      assert buffer + [] == buffer;
    } else {
      var b := buffer + parts[0];
      LaterEvents(b, Joined(parts[1..]));
      LogIsAPrefix(Kept(b), parts[1..]);
      assert buffer + Joined(parts) == b + Joined(parts[1..]);
    }
  }

  /** Feeding has delivered every event of the stream exactly if the buffer holds none. */
  lemma CompleteExactlyIfQuiet(parts: seq<Bytes>)
    ensures FedLog([], parts) == Events(Joined(parts)) <==> Head(FedBuffer([], parts)).Wait?
  {
    hide Head, FedLog, FedBuffer;
    LogIsAPrefix([], parts);
    assert [] + Joined(parts) == Joined(parts);
    var left := Events(FedBuffer([], parts));
    assert FedLog([], parts) + left == FedLog([], parts) <==> left == [] by {
      assert |FedLog([], parts) + left| == |FedLog([], parts)| + |left|;
    }
  }

  /** So two ways of cutting up one stream deliver the same, provided both come to rest. */
  lemma CutsAgreeAtRest(xs: seq<Bytes>, ys: seq<Bytes>)
    requires Joined(xs) == Joined(ys) && Head(FedBuffer([], xs)).Wait? && Head(FedBuffer([], ys)).Wait?
    ensures FedLog([], xs) == FedLog([], ys) && FedBuffer([], xs) == FedBuffer([], ys)
  {
    hide Head, FedLog, FedBuffer;
    CompleteExactlyIfQuiet(xs);
    CompleteExactlyIfQuiet(ys);
    NothingIsLost([], xs);
    NothingIsLost([], ys);
    assert [] + Joined(xs) == [] + Joined(ys);
    var raw, x, y := RawAll(FedLog([], xs)), FedBuffer([], xs), FedBuffer([], ys);
    assert x == (raw + x)[|raw|..] && y == (raw + y)[|raw|..];
  }

  // ---------------------------------------------------------------- streams of whole messages

  /** The receiver's view of a list of messages. */
  function AllEmitted(ms: seq<Message>): seq<Event> {
    if ms == [] then [] else [Emitted(Framed(ms[0]))] + AllEmitted(ms[1..])
  }

  function AllFramed(ms: seq<Message>): seq<Message> {
    if ms == [] then [] else [Framed(ms[0])] + AllFramed(ms[1..])
  }

  lemma EncodedIsHead(m: Message, more: Bytes)
    requires Sendable(m)
    ensures Head(Encode(m) + more) == Next(Emitted(Framed(m))) && Encode(Framed(m)) == Encode(m)
  {
    hide EncodeHeader, DecodeHeader, Crc;
    var h, b := FrameHeader(m), Encode(m) + more;
    HeaderRoundTrip(h, m.body + m.data + more);
    assert b == EncodeHeader(h) + (m.body + m.data + more);
    assert BodyOf(b, h) == m.body && DataOf(b, h) == m.data;
    var blank := m.header.(bodyLength := Low32(|m.body|), dataLength := Low32(|m.data|), checksum := 0);
    assert h.(checksum := 0) == blank && blank.(checksum := 0) == blank;
    assert FrameHeader(Framed(m)) == h by {
      assert h.(bodyLength := Low32(|m.body|), dataLength := Low32(|m.data|), checksum := 0) == blank;
    }
  }

  lemma {:induction false} BatchEvents(ms: seq<Message>)
    requires forall m :: m in ms ==> Sendable(m)
    ensures Events(EncodeBatch(ms)) == AllEmitted(ms)
    decreases |ms|
  {
    hide Head, Encode, Framed;
    if ms == [] {
      NothingInNothing();
    } else {
      EncodedIsHead(ms[0], EncodeBatch(ms[1..]));
      var b := EncodeBatch(ms);
      assert Rest(b) == EncodeBatch(ms[1..]);
      BatchEvents(ms[1..]);
    }
  }

  lemma NothingInNothing()
    ensures Head([]).Wait?
  {
  }

  lemma {:induction false} AllAreEmitted(ms: seq<Message>)
    ensures forall e :: e in AllEmitted(ms) ==> e.Emitted?
    ensures MessagesOf(AllEmitted(ms)) == AllFramed(ms)
  {
    if ms != [] {
      AllAreEmitted(ms[1..]);
    }
  }

  lemma {:induction false} RestsIfClean(buffer: Bytes, parts: seq<Bytes>)
    requires Head(buffer).Wait? && forall e :: e in FedLog(buffer, parts) ==> e.Emitted?
    ensures Head(FedBuffer(buffer, parts)).Wait?
    decreases |parts|
  {
    hide Head, FeedLog, Kept;
    if parts != [] {
      var b := buffer + parts[0];
      assert forall e :: e in FeedLog(b) ==> e in FedLog(buffer, parts);
      CleanFeedRests(b);
      RestsIfClean(Kept(b), parts[1..]);
    }
  }

  /** However the encoding of a list of messages is cut into feeds, the decoder delivers exactly these messages,
      in order, discards nothing, and ends with an empty buffer. */
  lemma FragmentsRoundTrip(ms: seq<Message>, parts: seq<Bytes>)
    requires (forall m :: m in ms ==> Sendable(m)) && Joined(parts) == EncodeBatch(ms)
    ensures FedLog([], parts) == AllEmitted(ms) && MessagesOf(FedLog([], parts)) == AllFramed(ms)
    ensures FedBuffer([], parts) == []
  {
    hide Head, FedLog, FedBuffer, Encode, Framed, EncodeBatch, AllEmitted, AllFramed, Events;
    BatchEvents(ms);
    AllAreEmitted(ms);
    LogIsAPrefix([], parts);
    assert [] + Joined(parts) == Joined(parts);
    NothingInNothing();
    RestsIfClean([], parts);
    CompleteExactlyIfQuiet(parts);
    NothingIsLost([], parts);
    BatchRaw(ms);
    var buffer := FedBuffer([], parts);
    assert EncodeBatch(ms) + buffer == EncodeBatch(ms);
    assert |buffer| == 0;
  }

  lemma {:induction false} BatchRaw(ms: seq<Message>)
    requires forall m :: m in ms ==> Sendable(m)
    ensures RawAll(AllEmitted(ms)) == EncodeBatch(ms)
    decreases |ms|
  {
    hide Head, Encode, Framed;
    if ms != [] {
      EncodedIsHead(ms[0], []);
      BatchRaw(ms[1..]);
      assert AllEmitted(ms)[1..] == AllEmitted(ms[1..]);
    }
  }

  /** On arbitrary bytes the cutting does matter: after a discarded byte the decoder waits for the next feed,
      even if a whole frame is already in its buffer. */
  lemma CuttingMattersAfterGarbage(m: Message, garbage: Byte)
    requires Sendable(m) && garbage != 0x4D
    ensures var stream := [garbage] + Encode(m);
            && Joined([stream]) == Joined([stream, []]) == stream
            && MessagesOf(FedLog([], [stream])) == [] && MessagesOf(FedLog([], [stream, []])) == [Framed(m)]
  {
    hide Encode, Framed, Head, FeedLog, Kept;
    var stream := [garbage] + Encode(m);
    GarbageIsDropped(m, garbage);
    FeedDrops(stream, garbage, Encode(m));
    EncodedIsHead(m, []);
    FeedDelivers(Encode(m), Framed(m));
    assert Encode(m) + [] == Encode(m) && stream + [] == stream && [] + stream == stream;
    var nothing: Bytes := [];
    assert [stream][1..] == [] && [stream, nothing][1..] == [nothing] && [nothing][1..] == [];
    assert Encode(m) + nothing == Encode(m);
    var delivered := FedLog(Encode(m), [nothing]);
    assert FedLog(Kept(Encode(m)), [nothing][1..]) == [];
    assert delivered == [Emitted(Framed(m))] && delivered[1..] == [];
    var log := FedLog([], [stream, nothing]);
    assert log == [Dropped(garbage)] + delivered && log[1..] == delivered;
  }

  lemma FeedDrops(b: Bytes, garbage: Byte, rest: Bytes)
    requires b == [garbage] + rest && Head(b) == Next(Dropped(garbage))
    ensures FeedLog(b) == [Dropped(garbage)] && Kept(b) == rest
  {
    hide Head;
  }

  lemma FeedDelivers(b: Bytes, m: Message)
    requires Head(b + []) == Next(Emitted(m)) && Encode(m) == b
    ensures FeedLog(b) == [Emitted(m)]
  {
    hide Head, Encode;
    assert b + [] == b;
    assert Rest(b) == [] by {
      assert |Raw(Emitted(m)) + Rest(b)| == |b|;
    }
    NothingInNothing();
  }

  lemma GarbageIsDropped(m: Message, garbage: Byte)
    requires garbage != 0x4D
    ensures Head([garbage] + Encode(m)) == Next(Dropped(garbage))
  {
    hide EncodeHeader, FrameCrc, FrameHeader;
    var b := [garbage] + Encode(m);
    if DecodeHeader(b).magic == MAGIC {
      MagicStarts(b);
    }
  }

  lemma MagicStarts(b: Bytes)
    requires |b| >= HEADER_SIZE && DecodeHeader(b).magic == MAGIC
    ensures b[0] == 0x4D
  {
    HeaderBytesRoundTrip(b);
  }

  // ---------------------------------------------------------------- damaged frames

  /** The frame with its checksum field cleared, which is what the checksum covers. */
  function Cleared(e: Bytes): Bytes
    requires |e| >= HEADER_SIZE
  {
    e[..20] + PutWord(0) + e[HEADER_SIZE..]
  }

  lemma ClearedIsCovered(e: Bytes)
    requires |e| >= HEADER_SIZE
    ensures EncodeHeader(DecodeHeader(e).(checksum := 0)) + e[HEADER_SIZE..] == Cleared(e)
  {
    hide Put16, Put32, PutWord, Get16, Get32, GetWord;
    HeaderBytesRoundTrip(e);
    var h := DecodeHeader(e);
    assert EncodeHeader(h)[..20] == e[..HEADER_SIZE][..20] == e[..20];
    assert EncodeHeader(h.(checksum := 0))[..20] == EncodeHeader(h)[..20];
    assert EncodeHeader(h.(checksum := 0)) == EncodeHeader(h.(checksum := 0))[..20] + PutWord(0);
  }

  lemma ChecksumBytes(e: Bytes, f: Bytes)
    requires |e| >= HEADER_SIZE && |f| >= HEADER_SIZE && DecodeHeader(e).checksum == DecodeHeader(f).checksum
    ensures e[20..24] == f[20..24]
  {
    HeaderBytesRoundTrip(e);
    HeaderBytesRoundTrip(f);
    hide Put16, Put32, PutWord, Get16, Get32, GetWord, DecodeHeader;
    assert EncodeHeader(DecodeHeader(e))[20..] == PutWord(DecodeHeader(e).checksum);
    assert EncodeHeader(DecodeHeader(f))[20..] == PutWord(DecodeHeader(f).checksum);
    assert e[20..24] == e[..HEADER_SIZE][20..] && f[20..24] == f[..HEADER_SIZE][20..];
  }

  lemma FrameCrcIsOverCleared(b: Bytes)
    requires |b| >= HEADER_SIZE && |b| == Needed(DecodeHeader(b))
    ensures FrameCrc(DecodeHeader(b), BodyOf(b, DecodeHeader(b)), DataOf(b, DecodeHeader(b))) == Crc(Cleared(b))
  {
    ClearedIsCovered(b);
    BodyAndData(b, DecodeHeader(b));
    hide EncodeHeader, DecodeHeader, Crc, Cleared, BodyOf, DataOf, Needed;
    var h := DecodeHeader(b);
    ThreeParts(EncodeHeader(h.(checksum := 0)), BodyOf(b, h), DataOf(b, h));
  }

  lemma BodyAndData(b: Bytes, h: Header)
    requires |b| == Needed(h)
    ensures BodyOf(b, h) + DataOf(b, h) == b[HEADER_SIZE..]
  {
  }

  lemma ThreeParts(x: Bytes, y: Bytes, z: Bytes)
    ensures x + y + z == x + (y + z)
  {
  }

  lemma BadChecksumDrops(b: Bytes, h: Header)
    requires |b| >= HEADER_SIZE && h == DecodeHeader(b) && h.magic == MAGIC && |b| >= Needed(h)
    requires FrameCrc(h, BodyOf(b, h), DataOf(b, h)) != h.checksum
    ensures Head(b) == Next(Dropped(b[0]))
  {
    hide DecodeHeader, FrameCrc;
  }

  lemma WholeFrame(m: Message)
    requires Sendable(m)
    ensures DecodeHeader(Encode(m)) == FrameHeader(m) && |Encode(m)| == Needed(FrameHeader(m))
    ensures Crc(Cleared(Encode(m))) == FrameHeader(m).checksum
  {
    FramedLength(m);
    hide *;
    EncodedIsHead(m, []);
    assert Encode(m) + [] == Encode(m);
    HeadTells(Encode(m), Framed(m));
    FrameCrcIsOverCleared(Encode(m));
  }

  lemma HeadTells(b: Bytes, m: Message)
    requires Head(b) == Next(Emitted(m))
    ensures |b| >= HEADER_SIZE && DecodeHeader(b) == m.header && |b| >= Needed(m.header)
    ensures BodyOf(b, m.header) == m.body && DataOf(b, m.header) == m.data
    ensures FrameCrc(m.header, m.body, m.data) == m.header.checksum
  {
    hide DecodeHeader, FrameCrc, BodyOf, DataOf, Needed;
  }

  lemma FramedLength(m: Message)
    requires Sendable(m)
    ensures Framed(m).header == FrameHeader(m) && |Encode(m)| == Needed(FrameHeader(m))
  {
    hide EncodeHeader, FrameCrc;
  }

  /** A frame damaged within any four consecutive bytes, its magic, length and checksum fields apart, is refused:
      the decoder discards its first byte instead of delivering it. */
  lemma DamagedFrameIsRefused(m: Message, damaged: Bytes, first: nat, more: Bytes)
    requires Sendable(m) && |damaged| == |Encode(m)| && damaged != Encode(m)
    requires forall k :: 0 <= k < |damaged| && !(first <= k < first + 4) ==> damaged[k] == Encode(m)[k]
    requires var h, d := FrameHeader(m), DecodeHeader(damaged);
             d.magic == h.magic && d.bodyLength == h.bodyLength && d.dataLength == h.dataLength
                 && d.checksum == h.checksum
    ensures Head(damaged + more) == Next(Dropped(damaged[0]))
  {
    WholeFrame(m);
    SendableMagic(m);
    SameNeeds(FrameHeader(m), DecodeHeader(damaged));
    hide *;
    ChecksumBytes(Encode(m), damaged);
    FrameCrcIsOverCleared(damaged);
    DamageShows(Encode(m), damaged, first);
    BadChecksumDrops(damaged, DecodeHeader(damaged));
    HeadStands(damaged, more);
    assert (damaged + more)[0] == damaged[0];
  }

  lemma SendableMagic(m: Message)
    requires Sendable(m)
    ensures FrameHeader(m).magic == MAGIC && |Encode(m)| >= HEADER_SIZE
  {
    hide FrameCrc, EncodeHeader;
  }

  lemma SameNeeds(h: Header, d: Header)
    requires d.bodyLength == h.bodyLength && d.dataLength == h.dataLength
    ensures Needed(d) == Needed(h)
  {
  }

  lemma DamageShows(e: Bytes, f: Bytes, first: nat)
    requires |e| == |f| >= HEADER_SIZE && e != f && e[20..24] == f[20..24]
    requires forall k :: 0 <= k < |e| && !(first <= k < first + 4) ==> e[k] == f[k]
    ensures Crc(Cleared(e)) != Crc(Cleared(f))
  {
    hide Crc, PutWord;
    var p, q := Cleared(e), Cleared(f);
    assert forall k :: 0 <= k < 20 ==> p[k] == e[k] && q[k] == f[k];
    assert forall k :: 24 <= k < |e| ==> p[k] == e[24..][k - 24] == e[k] && q[k] == f[24..][k - 24] == f[k];
    assert forall k :: 20 <= k < 24 ==> p[k] == q[k];
    assert forall k :: 20 <= k < 24 ==> e[k] == e[20..24][k - 20] == f[20..24][k - 20] == f[k];
    var k :| 0 <= k < |e| && e[k] != f[k];
    assert p[k] != q[k];
    FourByteDamageIsDetected(p, q, first);
  }
}
