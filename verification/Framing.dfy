/** Frames on the gateway byte stream: what `send_gw_packet` writes and `read_gw_packet` reads. */
module Framing {
  import opened Bytes
  import opened Packets
  import opened Compression

  /** One call of `send_gw_packet`: a header and an optional payload. */
  datatype Message = Message(packet: Packet, data: Option<bytes>)

  /** The payload bytes of a message; an absent payload has none. */
  function Payload(data: Option<bytes>): bytes {
    if data.Some? then data.value else []
  }

  /** What every caller passes: no compression flag yet, and a size field equal to the payload length. */
  predicate WellFormed(m: Message) {
    !m.packet.IsCompressed() && m.packet.dataSize == |Payload(m.data)|
  }

  /** The header and payload put on the wire: large payloads are compressed and flagged. */
  function OnWire(z: Zstd, m: Message): (w: Message)
    ensures w.packet.ptype == m.packet.ptype && w.packet.linkId == m.packet.linkId
    ensures w.packet.packetId == m.packet.packetId
  {
    if m.data.Some? && |m.data.value| >= MIN_COMPRESS_SIZE then
      var r := CompressData(z, m.data.value);
      if r.isCompressed then
        Message(m.packet.SetCompressed().(dataSize := |r.data| % U16_SIZE), Some(r.data))
      else m
    else m
  }

  /** The bytes written for one message, under the writer lock. */
  function Frame(z: Zstd, m: Message): (r: bytes)
    ensures |r| == PACKET_HEADER_SIZE + |Payload(OnWire(z, m).data)|
  {
    Header(OnWire(z, m).packet) + Payload(OnWire(z, m).data)
  }

  /** The length of the shortest form of a payload: its own, or that of its encoding, if it has one and is not small. */
  function ShortestForm(z: Zstd, data: bytes): nat {
    if |data| >= 1024 && z.encode(data).Some? && |z.encode(data).value| < |data| then |z.encode(data).value| else |data|
  }

  /** The gateway never sends more than it must: a frame is its header and the shortest form of its payload. */
  lemma FrameIsShortest(z: Zstd, m: Message)
    ensures |Frame(z, m)| == 16 + ShortestForm(z, Payload(m.data))
  {
    hide Header;
    assert |Frame(z, m)| == PACKET_HEADER_SIZE + |Payload(OnWire(z, m).data)|;
  }

  /** Outcome of reading one packet from the bytes at hand: the reader still waits for more bytes
      (and gives up if the stream ends there), fails on undecodable data, or gets a packet. */
  datatype ReadResult = NeedMore | Undecodable | Got(packet: Packet, data: Option<bytes>, rest: bytes)

  function ReadPacket(z: Zstd, b: bytes): (r: ReadResult)
    ensures r.Got? ==> |r.rest| < |b|
  {
    match ParseHeader(b)
    case None => NeedMore
    case Some(p) =>
      var body := b[PACKET_HEADER_SIZE..];
      if p.dataSize == 0 then Got(p, None, body)
      else if |body| < p.dataSize then NeedMore
      else
        match DecompressData(z, body[..p.dataSize], p.IsCompressed())
        case None => Undecodable
        case Some(d) => Got(p, Some(d), body[p.dataSize..])
  }

  /** On arbitrary bytes: the reader waits exactly while the header, or the payload that it announces, is incomplete; it
      fails exactly on a complete payload marked compressed that does not decode; and otherwise it takes exactly the
      packet, and hands over its payload decoded if it is so marked, as it is if not, and none if it is empty. */
  lemma AnyBytesRead(z: Zstd, b: bytes)
    ensures ReadPacket(z, b).NeedMore? <==>
            |b| < 16 || ParseHeader(b).None? || |b| < 16 + ParseHeader(b).value.dataSize as int
    ensures ReadPacket(z, b).Undecodable? <==>
              && |b| >= 16 && ParseHeader(b).Some?
              && var p := ParseHeader(b).value;
                 p.dataSize > 0 && |b| - 16 >= p.dataSize && p.IsCompressed() && z.decode(b[16..16 + p.dataSize as int]).None?
    ensures ReadPacket(z, b).Got? ==>
              && ParseHeader(b).Some?
              && var p, r := ParseHeader(b).value, ReadPacket(z, b);
                 && r.packet == p && |b| - 16 >= p.dataSize && r.rest == b[16 + p.dataSize as int..]
                 && r.data == if p.dataSize == 0 then None
                              else if p.IsCompressed() then z.decode(b[16..16 + p.dataSize as int])
                              else Some(b[16..16 + p.dataSize as int])
  {
    hide ParseHeader;
    if |b| >= 16 && ParseHeader(b).Some? {
      var n: int := ParseHeader(b).value.dataSize;
      var body := b[16..];
      if |body| >= n {
        assert body[..n] == b[16..16 + n] && body[n..] == b[16 + n..];
      }
    }
    HeadersParse(b);
  }

  lemma HeadersParse(b: bytes)
    ensures ParseHeader(b).Some? <==> |b| >= 16
  {
  }

  /** What the reader of a message sees: the wire header, and no payload when it was empty. */
  function Seen(z: Zstd, m: Message): (r: Message)
    ensures r.packet.ptype == m.packet.ptype && r.packet.linkId == m.packet.linkId
    ensures r.packet.packetId == m.packet.packetId && Payload(r.data) == Payload(m.data)
  {
    Message(OnWire(z, m).packet, if Payload(m.data) == [] then None else m.data)
  }

  lemma OnWireSize(z: Zstd, m: Message)
    requires WellFormed(m)
    ensures OnWire(z, m).packet.dataSize == |Payload(OnWire(z, m).data)|
    ensures OnWire(z, m).packet.IsCompressed() ==>
              m.data.Some? && OnWire(z, m).data == Some(CompressData(z, m.data.value).data)
    ensures !OnWire(z, m).packet.IsCompressed() ==> OnWire(z, m) == m
    ensures OnWire(z, m).packet.IsCompressed() ==> CompressData(z, m.data.value).isCompressed
  {
  }

  /** One frame followed by anything reads back as that message, and nothing of what follows is lost. */
  lemma FrameRoundTrip(z: Zstd, m: Message, rest: bytes)
    requires Lossless(z) && WellFormed(m)
    ensures ReadPacket(z, Frame(z, m) + rest) == Got(Seen(z, m).packet, Seen(z, m).data, rest)
  {
    var w := OnWire(z, m);
    var b := Frame(z, m) + rest;
    OnWireSize(z, m);
    assert b == Header(w.packet) + (Payload(w.data) + rest);
    HeaderRoundTrip(w.packet, Payload(w.data) + rest);
    var body := b[PACKET_HEADER_SIZE..];
    assert body == Payload(w.data) + rest;
    if m.data.Some? {
      CompressRoundTrip(z, m.data.value);
    }
    if w.packet.dataSize > 0 {
      assert body[..w.packet.dataSize] == Payload(w.data);
      assert body[w.packet.dataSize..] == rest;
    } else {
      assert body == rest;
    }
  }

  /** A frame cut short is never taken for a packet: the reader waits for the rest of it. */
  lemma CutFrameWaits(z: Zstd, m: Message, cut: nat)
    requires WellFormed(m) && cut < |Frame(z, m)|
    ensures ReadPacket(z, Frame(z, m)[..cut]) == NeedMore
  {
    var w := OnWire(z, m);
    var b := Frame(z, m)[..cut];
    OnWireSize(z, m);
    if cut >= PACKET_HEADER_SIZE {
      assert b == Header(w.packet) + b[PACKET_HEADER_SIZE..];
      HeaderRoundTrip(w.packet, b[PACKET_HEADER_SIZE..]);
    }
  }

  /** The size field decides alignment: with no compression, the reader stops at the end of the frame
      exactly when the size field equals the payload length. */
  lemma AlignedIffSized(z: Zstd, m: Message, rest: bytes)
    requires !m.packet.IsCompressed() && OnWire(z, m) == m && |rest| >= U16_SIZE
    ensures ReadPacket(z, Frame(z, m) + rest).Got?
    ensures ReadPacket(z, Frame(z, m) + rest).rest == rest <==> WellFormed(m)
  {
    var b := Frame(z, m) + rest;
    assert b == Header(m.packet) + (Payload(m.data) + rest);
    HeaderRoundTrip(m.packet, Payload(m.data) + rest);
    var body := b[PACKET_HEADER_SIZE..];
    assert body == Payload(m.data) + rest;
    assert body[m.packet.dataSize..] == (Payload(m.data) + rest)[m.packet.dataSize..];
    if WellFormed(m) {
      assert body[m.packet.dataSize..] == rest;
    } else {
      assert |body[m.packet.dataSize..]| != |rest|;
    }
  }

  // ----- Streams of frames -----

  /** The bytes produced by a sequence of sends. */
  function Frames(z: Zstd, ms: seq<Message>): bytes {
    if ms == [] then [] else Frame(z, ms[0]) + Frames(z, ms[1..])
  }

  /** Repeated reads: the packets obtained, and the bytes left when no further packet is complete. */
  function ReadAll(z: Zstd, b: bytes): (r: (seq<Message>, bytes))
    decreases |b|
  {
    match ReadPacket(z, b)
    case Got(p, d, rest) => var (ms, left) := ReadAll(z, rest); ([Message(p, d)] + ms, left)
    case _ => ([], b)
  }

  function SeenAll(z: Zstd, ms: seq<Message>): (r: seq<Message>)
    ensures |r| == |ms|
    ensures forall i :: 0 <= i < |ms| ==> r[i] == Seen(z, ms[i])
  {
    seq(|ms|, i requires 0 <= i < |ms| => Seen(z, ms[i]))
  }

  ghost predicate AllWellFormed(ms: seq<Message>) {
    forall i :: 0 <= i < |ms| ==> WellFormed(ms[i])
  }

  lemma Regroup(x: bytes, y: bytes, w: bytes)
    ensures x + (y + w) == (x + y) + w
  {
  }

  lemma {:induction false} FramesConcat(z: Zstd, a: seq<Message>, b: seq<Message>)
    ensures Frames(z, a + b) == Frames(z, a) + Frames(z, b)
  {
    hide Frame, OnWire, Payload;
    if a == [] {
      assert a + b == b;
    } else {
      assert (a + b)[1..] == a[1..] + b;
      FramesConcat(z, a[1..], b);
      Regroup(Frame(z, a[0]), Frames(z, a[1..]), Frames(z, b));
    }
  }

  lemma FramesAppend(z: Zstd, a: seq<Message>, m: Message)
    ensures Frames(z, a + [m]) == Frames(z, a) + Frame(z, m)
  {
    FramesConcat(z, a, [m]);
    assert Frames(z, [m]) == Frame(z, m) + Frames(z, []);
  }

  /** `got` are the packets whose frames are complete in `b`, and `left` begins the next frame. */
  ghost predicate CompleteFrames(z: Zstd, ms: seq<Message>, b: bytes, got: seq<Message>, left: bytes) {
    && |got| <= |ms| && got == SeenAll(z, ms)[..|got|]
    && b == Frames(z, ms[..|got|]) + left
    && (left != [] ==> |got| < |ms| && left < Frame(z, ms[|got|]))
  }

  lemma CompleteFramesCons(z: Zstd, ms: seq<Message>, b: bytes, got: seq<Message>, left: bytes)
    requires ms != [] && CompleteFrames(z, ms[1..], b, got, left)
    ensures CompleteFrames(z, ms, Frame(z, ms[0]) + b, [Seen(z, ms[0])] + got, left)
  {
    hide Frame, Seen;
    var n := |got| + 1;
    assert ms[..n][1..] == ms[1..][..|got|];
    assert Frames(z, ms[..n]) == Frame(z, ms[0]) + Frames(z, ms[1..][..|got|]);
    assert SeenAll(z, ms)[..n] == [Seen(z, ms[0])] + SeenAll(z, ms[1..])[..|got|];
    if left != [] {
      assert ms[1..][|got|] == ms[n];
    }
  }

  /** Reading any prefix of a stream of frames gives exactly the packets whose frames are complete in it;
      what is left over is the beginning of the next frame, never a misaligned one. */
  lemma {:induction false} StreamPrefixRoundTrip(z: Zstd, ms: seq<Message>, b: bytes)
    requires Lossless(z) && AllWellFormed(ms) && b <= Frames(z, ms)
    ensures CompleteFrames(z, ms, b, ReadAll(z, b).0, ReadAll(z, b).1)
    decreases |ms|
  {
    if ms == [] {
      assert b == [];
    } else {
      var f := Frame(z, ms[0]);
      if |b| < |f| {
        assert b == f[..|b|];
        CutFrameWaits(z, ms[0], |b|);
        assert ms[..0] == [];
      } else {
        var rest := b[|f|..];
        assert b == f + rest;
        assert rest <= Frames(z, ms[1..]) by {
          assert Frames(z, ms)[|f|..] == Frames(z, ms[1..]);
        }
        FrameRoundTrip(z, ms[0], rest);
        StreamPrefixRoundTrip(z, ms[1..], rest);
        CompleteFramesCons(z, ms, rest, ReadAll(z, rest).0, ReadAll(z, rest).1);
      }
    }
  }

  /** The whole stream reads back as the packets that were sent, with nothing left over. */
  lemma StreamRoundTrip(z: Zstd, ms: seq<Message>)
    requires Lossless(z) && AllWellFormed(ms)
    ensures ReadAll(z, Frames(z, ms)) == (SeenAll(z, ms), [])
  {
    var b := Frames(z, ms);
    StreamPrefixRoundTrip(z, ms, b);
    var n := |ReadAll(z, b).0|;
    if n < |ms| {
      assert ms == ms[..n] + ms[n..];
      FramesConcat(z, ms[..n], ms[n..]);
      assert false;
    }
    assert ms[..n] == ms;
    assert SeenAll(z, ms)[..n] == SeenAll(z, ms);
  }
}
