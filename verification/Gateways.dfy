/** The gateway object: id counters, link registry, traffic statistics, and the two operations every
    program uses, `send_gw_packet` and `read_gw_packet`, on a mutable byte stream. */
module Gateways {
  import opened Bytes
  import opened Packets
  import opened Compression
  import opened Framing
  import opened Links
  import opened BufferPools

  // ----- Statistics -----

  datatype Stats = Stats(packetsIn: u64, packetsOut: u64, bytesIn: u64, bytesOut: u64)

  /** `inc_packets_out` and `add_bytes_out` after a completed send of `n` bytes. */
  function CountSent(s: Stats, n: nat): Stats {
    s.(packetsOut := Add64(s.packetsOut, 1), bytesOut := Add64(s.bytesOut, n))
  }

  /** `inc_packets_in`, with the first `n` bytes of the packet. */
  function CountPacket(s: Stats, n: nat): Stats {
    s.(packetsIn := Add64(s.packetsIn, 1), bytesIn := Add64(s.bytesIn, n))
  }

  /** What one read leaves in the counters when `b` is all that the stream will still deliver: nothing
      without a whole header, the header alone when the payload is cut, and the whole frame otherwise. */
  function CountRead(s: Stats, b: bytes): Stats {
    match ParseHeader(b)
    case None => s
    case Some(p) =>
      if |b| < PACKET_HEADER_SIZE + p.dataSize then CountPacket(s, PACKET_HEADER_SIZE)
      else CountPacket(s, PACKET_HEADER_SIZE + p.dataSize)
  }

  // ----- A byte stream between the two programs -----

  /** Whether `n` more bytes fit into a stream that fails after `room` of them. */
  predicate Fits(room: Option<nat>, n: nat) {
    room.Some? ==> n <= room.value
  }

  /** What a stream has been sent after an attempt to write `b`. */
  function Attempt(sent: bytes, room: Option<nat>, b: bytes): bytes {
    sent + if Fits(room, |b|) then b else b[..room.value]
  }

  /** The room left after an attempt to write `n` bytes: a failed stream stays failed. */
  function RoomAfter(room: Option<nat>, n: nat): Option<nat> {
    if room.None? then None else if n <= room.value then Some(room.value - n) else Some(0)
  }

  /** One direction of a connection.  `room` is set by the environment: after that many more bytes the
      stream fails, and stays failed. */
  class Stream {
    var sent: bytes
    var taken: nat
    var room: Option<nat>

    predicate Valid()
      reads this
    {
      taken <= |sent|
    }

    function InFlight(): bytes
      requires Valid()
      reads this
    {
      sent[taken..]
    }

    constructor (room: Option<nat>)
      ensures Valid() && sent == [] && this.room == room
    {
      sent, taken, this.room := [], 0, room;
    }

    method WriteAll(b: bytes) returns (ok: bool)
      requires Valid()
      modifies this
      ensures Valid() && taken == old(taken) && (ok <==> Fits(old(room), |b|))
      ensures sent == Attempt(old(sent), old(room), b) && room == RoomAfter(old(room), |b|)
    {
      ok := room.None? || |b| <= room.value;
      sent := sent + if ok then b else b[..room.value];
      room := if room.None? then None else if ok then Some(room.value - |b|) else Some(0);
    }

    /** `shutdown` of the write half: nothing more gets through. */
    method Shutdown()
      modifies this`room
      ensures room == Some(0)
    {
      room := Some(0);
    }

    /** `read_exact`: all `n` bytes, or failure at the end of the stream. */
    method ReadExact(n: nat) returns (r: Option<bytes>)
      requires Valid()
      modifies this
      ensures Valid() && sent == old(sent) && room == old(room)
      ensures r.Some? <==> n <= |old(InFlight())|
      ensures r.Some? ==> r.value == old(InFlight())[..n] && InFlight() == old(InFlight())[n..]
      ensures r.None? ==> InFlight() == []
    {
      if n <= |sent| - taken {
        r := Some(sent[taken..taken + n]);
        taken := taken + n;
      } else {
        r := None;
        taken := |sent|;
      }
    }
  }

  /** The payload of a packet, read into a pooled buffer that is given back at once. */
  method ReadPooled(stream: Stream, pool: BufferPool, n: nat, spare: nat) returns (r: Option<bytes>)
    requires stream.Valid() && pool.Valid()
    modifies stream, pool, pool.buffers
    ensures stream.Valid() && stream.sent == old(stream.sent)
    ensures pool.Valid() && pool.leases == old(pool.leases)
    ensures forall b :: b in pool.buffers ==> fresh(b) || b in old(pool.buffers)
    ensures r.Some? <==> n <= |old(stream.InFlight())|
    ensures r.Some? ==> r.value == old(stream.InFlight())[..n] && stream.InFlight() == old(stream.InFlight())[n..]
  {
    hide Bounded, Zeros;
    var lease := pool.Acquire(spare);
    assert old(pool.buffers) != [] ==> lease.buffer == old(pool.buffers[|pool.buffers| - 1]);
    lease.buffer.Blank(n, spare);
    r := stream.ReadExact(n);
    if r.Some? {
      lease.buffer.Overwrite(r.value, lease.buffer.capacity);
      r := Some(lease.buffer.data);
    }
    pool.Release(lease, spare);
  }

  // ----- The gateway -----

  class Gateway {
    var state: GatewayState
    var links: map<u16, Link>
    var stats: Stats
    var packetIdCounter: u64
    var linkIdCounter: u16

    /** Every link is registered under its own id, so no link is registered twice. */
    ghost predicate Valid()
      reads this
    {
      forall id :: id in links ==> links[id].connectionId == id
    }

    constructor ()
      ensures Valid() && links == map[] && stats == Stats(0, 0, 0, 0)
      ensures state == GwWaiting && packetIdCounter == 0 && linkIdCounter == 1
    {
      state, links, stats := GwWaiting, map[], Stats(0, 0, 0, 0);
      packetIdCounter, linkIdCounter := 0, 1;
    }

    method NextPacketId() returns (id: u64)
      modifies this`packetIdCounter
      ensures id == Add64(old(packetIdCounter), 1) && packetIdCounter == id
    {
      packetIdCounter := Add64(packetIdCounter, 1);
      id := packetIdCounter;
    }

    method NextLinkId() returns (id: u16)
      modifies this`linkIdCounter
      ensures id == old(linkIdCounter) && linkIdCounter == (id + 1) % U16_SIZE
    {
      id := linkIdCounter;
      linkIdCounter := (linkIdCounter + 1) % U16_SIZE;
    }

    method AddLink(link: Link)
      requires Valid()
      modifies this`links
      ensures Valid() && links == old(links)[link.connectionId := link]
    {
      links := links[link.connectionId := link];
    }

    method RemoveLink(id: u16) returns (r: Option<Link>)
      requires Valid()
      modifies this`links
      ensures Valid() && links == old(links) - {id}
      ensures r == if id in old(links) then Some(old(links)[id]) else None
    {
      r := if id in links then Some(links[id]) else None;
      links := links - {id};
    }

    /** Every registered link is closed once, and the registry is empty. */
    method CloseAllLinks()
      requires Valid()
      modifies this`links, links.Values
      ensures Valid() && links == map[]
      ensures forall id :: id in old(links) ==> old(links)[id].Val() == CloseConnection(old(links[id].Val()))
    {
      ghost var was := links;
      var drained := links;
      var rest := links.Keys;
      links := map[];
      while rest != {}
        invariant rest <= was.Keys && links == map[] && drained == was
        invariant forall id :: id in rest ==> was[id].Val() == old(was[id].Val())
        invariant forall id :: id in was && id !in rest ==> was[id].Val() == CloseConnection(old(was[id].Val()))
        decreases |rest|
      {
        var id :| id in rest;
        rest := rest - {id};
        drained[id].Shut();
      }
    }

    /** `send_gw_packet`: one frame, written under the writer lock; only a completed frame is counted. */
    method SendGwPacket(z: Zstd, stream: Stream, packet: Packet, data: Option<bytes>) returns (ok: bool)
      requires stream.Valid()
      modifies this`stats, stream
      ensures stream.Valid() && stream.taken == old(stream.taken)
      ensures ok <==> Fits(old(stream.room), |Frame(z, Message(packet, data))|)
      ensures stream.sent == Attempt(old(stream.sent), old(stream.room), Frame(z, Message(packet, data)))
      ensures stream.room == RoomAfter(old(stream.room), |Frame(z, Message(packet, data))|)
      ensures stats == if ok then CountSent(old(stats), |Frame(z, Message(packet, data))|) else old(stats)
    {
      var sendPacket, payload := packet, data;
      if data.Some? && |data.value| >= MIN_COMPRESS_SIZE {
        var result := CompressData(z, data.value);
        if result.isCompressed {
          sendPacket := packet.SetCompressed().(dataSize := |result.data| % U16_SIZE);
          payload := Some(result.data);
        }
      }
      assert Message(sendPacket, payload) == OnWire(z, Message(packet, data));
      var head := ToBytes(sendPacket);
      ok := stream.WriteAll(head[..]);
      if !ok {
        return;
      }
      if payload.Some? {
        ok := stream.WriteAll(payload.value);
        if !ok {
          return;
        }
      }
      stats := CountSent(stats, PACKET_HEADER_SIZE + |Payload(payload)|);
    }

    /** `read_gw_packet`: the packet at the head of the stream, or none when the stream ends within it
        or its payload does not decode.  The payload passes through a pooled buffer. */
    method ReadGwPacket(z: Zstd, stream: Stream, pool: BufferPool, spare: nat) returns (r: Option<Message>)
      requires stream.Valid() && pool.Valid()
      modifies this`stats, stream, pool, pool.buffers
      ensures stream.Valid() && stream.sent == old(stream.sent)
      ensures pool.Valid() && pool.leases == old(pool.leases)
      ensures forall b :: b in pool.buffers ==> fresh(b) || b in old(pool.buffers)
      ensures match ReadPacket(z, old(stream.InFlight()))
              case Got(p, d, rest) => r == Some(Message(p, d)) && stream.InFlight() == rest
              case _ => r == None
      ensures stats == CountRead(old(stats), old(stream.InFlight()))
    {
      ghost var b := stream.InFlight();
      var head := stream.ReadExact(PACKET_HEADER_SIZE);
      if head.None? {
        return None;
      }
      var parsed := ParseHeader(head.value);
      HeadDecides(b);
      hide ParseHeader, Add64;
      var packet := parsed.value;
      stats := CountPacket(stats, PACKET_HEADER_SIZE);
      if packet.dataSize == 0 {
        return Some(Message(packet, None));
      }
      var raw := ReadPooled(stream, pool, packet.dataSize, spare);
      if raw.None? {
        return None;
      }
      stats := stats.(bytesIn := Add64(stats.bytesIn, |raw.value|));
      Add64Twice(old(stats.bytesIn), PACKET_HEADER_SIZE, packet.dataSize);
      var decoded := DecompressData(z, raw.value, packet.IsCompressed());
      r := if decoded.Some? then Some(Message(packet, decoded)) else None;
    }

    /** A ping is answered with a pong under a fresh packet id; a failed write is ignored. */
    method SendPong(z: Zstd, stream: Stream)
      requires stream.Valid()
      modifies this`stats, this`packetIdCounter, stream
      ensures stream.Valid() && stream.taken == old(stream.taken)
      ensures packetIdCounter == Add64(old(packetIdCounter), 1)
      ensures stream.sent == Attempt(old(stream.sent), old(stream.room), Header(NewPacket(Pong, packetIdCounter, 0, 0)))
      ensures stream.room == RoomAfter(old(stream.room), PACKET_HEADER_SIZE)
      ensures stats == if Fits(old(stream.room), PACKET_HEADER_SIZE) then CountSent(old(stats), PACKET_HEADER_SIZE) else old(stats)
    {
      var id := NextPacketId();
      var pong := NewPacket(Pong, id, 0, 0);
      assert Frame(z, Message(pong, None)) == Header(pong);
      var _ := SendGwPacket(z, stream, pong, None);
    }
  }

  /** A header is decided by its 16 bytes, whatever follows. */
  lemma HeadDecides(b: bytes)
    requires |b| >= PACKET_HEADER_SIZE
    ensures ParseHeader(b[..PACKET_HEADER_SIZE]) == ParseHeader(b)
    ensures ParseHeader(b).Some?
  {
    var h := b[..PACKET_HEADER_SIZE];
    assert h[1..9] == b[1..9] && h[9..11] == b[9..11] && h[11..13] == b[11..13];
  }
}
