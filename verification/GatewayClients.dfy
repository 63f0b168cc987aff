/** The client object on the heap: its exchange loop over a mutable stream, as it runs without interference
    from the application tasks.  (`LinkClient` and `Tunnel` are about the interleavings.) */
module GatewayClients {
  import opened Bytes
  import opened Packets
  import opened Compression
  import opened Framing
  import opened Links
  import opened BufferPools
  import opened Gateways

  /** What the application side does while one packet is handled: whether it can be reached, and how a write
      to it ends. */
  datatype Luck = Luck(reached: bool, out: WriteOutcome)

  /** The values the loop works on: the registered links, what was sent to the server, how much more it will
      take, and the packet ids. */
  datatype Ledger = Ledger(links: map<u16, LinkVal>, sent: bytes, room: Option<nat>, pid: u64)

  /** A header-only packet sent under the next packet id; whether it got through makes no difference. */
  function Reply(v: Ledger, ptype: PacketType, id: u16): Ledger {
    var pid := Add64(v.pid, 1);
    v.(sent := Attempt(v.sent, v.room, Header(NewPacket(ptype, pid, id, 0))),
       room := RoomAfter(v.room, PACKET_HEADER_SIZE), pid := pid)
  }

  /** What one packet does. */
  function Handled(v: Ledger, m: Message, luck: Luck): Ledger {
    var id := m.packet.linkId;
    match m.packet.ptype
    case Ping => Reply(v, Pong, 0)
    case Open =>
      if luck.reached then Reply(v.(links := v.links[id := SetState(NEW_LINK, Connected)]), Opened, id)
      else Reply(v, OpenFail, id)
    case Close => v.(links := v.links - {id})
    case Regular =>
      if m.data.Some? && id in v.links then v.(links := v.links[id := SendPacket(v.links[id], m.data.value, luck.out)])
      else v
    case _ => v
  }

  /** What a whole stream does: packet after packet, until it ends, does not decode, or refuses the client. */
  function Exchanged(z: Zstd, v: Ledger, b: bytes, lucks: nat -> Luck, n: nat): Ledger
    decreases |b|
  {
    match ReadPacket(z, b)
    case Got(p, d, rest) =>
      if p.ptype.GwDeny? then v else Exchanged(z, Handled(v, Message(p, d), lucks(n)), rest, lucks, n + 1)
    case _ => v
  }

  class GatewayClient {
    const base: Gateway

    constructor ()
      ensures fresh(base) && base.Valid() && base.links == map[] && base.state.GwWaiting?
    {
      base := new Gateway();
    }

    function LinkVals(): map<u16, LinkVal>
      reads this, base, base.links.Values
    {
      map id | id in base.links :: base.links[id].Val()
    }

    function Account(writer: Stream): Ledger
      reads this, base, base.links.Values, writer
    {
      Ledger(LinkVals(), writer.sent, writer.room, base.packetIdCounter)
    }

    /** A header-only packet is sent, and a failed write ignored. */
    method Answer(z: Zstd, ptype: PacketType, id: u16, writer: Stream)
      requires base.Valid() && writer.Valid()
      modifies base`packetIdCounter, base`stats, writer
      ensures base.Valid() && writer.Valid()
      ensures Account(writer) == Reply(old(Account(writer)), ptype, id)
    {
      var pid := base.NextPacketId();
      var packet := NewPacket(ptype, pid, id, 0);
      assert Frame(z, Message(packet, None)) == Header(packet);
      var _ := base.SendGwPacket(z, writer, packet, None);
    }

    /** `connect_client`: a reached application gets a new link, registered and marked connected before
        `Opened` is sent. */
    method ConnectClient(z: Zstd, id: u16, reached: bool, writer: Stream)
      requires base.Valid() && writer.Valid()
      modifies base`links, base`packetIdCounter, base`stats, writer
      ensures base.Valid() && writer.Valid()
      ensures base.links.Keys == old(base.links.Keys) + if reached then {id} else {}
      ensures forall i :: i in base.links ==>
                if reached && i == id then fresh(base.links[i])
                else i in old(base.links) && base.links[i] == old(base.links)[i]
      ensures Account(writer) == Handled(old(Account(writer)), Message(NewPacket(Open, 0, id, 0), None), Luck(reached, Wrote))
    {
      ghost var before := LinkVals();
      if reached {
        var link := new Link(id);
        base.AddLink(link);
        link.Change(Connected);
        assert LinkVals() == before[id := SetState(NEW_LINK, Connected)];
        Answer(z, Opened, id, writer);
      } else {
        Answer(z, OpenFail, id, writer);
      }
    }

    /** `forward_to_app`: data for a registered link is written to its application, and to no other. */
    method ForwardToApp(id: u16, data: bytes, out: WriteOutcome)
      requires base.Valid()
      modifies if id in base.links then {base.links[id]} else {}
      ensures base.Valid()
      ensures LinkVals() == if id in base.links then old(LinkVals())[id := SendPacket(old(base.links[id].Val()), data, out)]
                            else old(LinkVals())
    {
      if id in base.links {
        base.links[id].Send(Some(data), out);
      }
    }

    /** `Close` from the server: the link is unregistered and closed. */
    method CloseLink(id: u16)
      requires base.Valid()
      modifies base`links, if id in base.links then {base.links[id]} else {}
      ensures base.Valid() && base.links == old(base.links) - {id} && LinkVals() == old(LinkVals()) - {id}
      ensures id in old(base.links) ==> old(base.links)[id].Val() == CloseConnection(old(base.links[id].Val()))
    {
      var link := base.RemoveLink(id);
      if link.Some? {
        link.value.Shut();
      }
    }

    /** One round of the exchange loop. */
    method Handle(z: Zstd, m: Message, luck: Luck, writer: Stream)
      requires base.Valid() && writer.Valid()
      modifies base, base.links.Values, writer
      ensures base.Valid() && writer.Valid()
      ensures forall i :: i in base.links ==> fresh(base.links[i]) || base.links[i] in old(base.links.Values)
      ensures base.state == old(base.state)
      ensures Account(writer) == Handled(old(Account(writer)), m, luck)
      ensures m.packet.ptype.Close? && m.packet.linkId in old(base.links) ==>
                old(base.links)[m.packet.linkId].Val() == CloseConnection(old(base.links[m.packet.linkId].Val()))
    {
      var id := m.packet.linkId;
      match m.packet.ptype
      case Ping => Answer(z, Pong, 0, writer);
      case Open => ConnectClient(z, id, luck.reached, writer);
      case Close => CloseLink(id);
      case Regular =>
        if m.data.Some? {
          ForwardToApp(id, m.data.value, luck.out);
        }
      case _ =>
    }

    /** One round of the exchange loop: read a packet and handle it, or leave the loop. */
    method Round(z: Zstd, reader: Stream, writer: Stream, pool: BufferPool, luck: Luck, spare: nat) returns (more: bool)
      requires base.Valid() && reader.Valid() && writer.Valid() && reader != writer && pool.Valid()
      modifies base, base.links.Values, reader, writer, pool, pool.Pooled()
      ensures base.Valid() && reader.Valid() && writer.Valid() && pool.Valid()
      ensures base.state == old(base.state)
      ensures forall i :: i in base.links ==> fresh(base.links[i]) || base.links[i] in old(base.links.Values)
      ensures forall b :: b in pool.Pooled() ==> fresh(b) || b in old(pool.Pooled())
      ensures match ReadPacket(z, old(reader.InFlight()))
              case Got(p, d, rest) =>
                if p.ptype.GwDeny? then !more && Account(writer) == old(Account(writer))
                else more && reader.InFlight() == rest && Account(writer) == Handled(old(Account(writer)), Message(p, d), luck)
              case _ => !more && Account(writer) == old(Account(writer))
    {
      hide ReadPacket, Handled;
      ghost var before := LinkVals();
      var m := base.ReadGwPacket(z, reader, pool, spare);
      assert LinkVals() == before;
      if m.None? || m.value.packet.ptype.GwDeny? {
        return false;
      }
      Handle(z, m.value, luck, writer);
      more := true;
    }

    /** `gateway_exchange`: whatever becomes of its replies, the loop does what `Exchanged` says of the stream. */
    method GatewayExchange(z: Zstd, reader: Stream, writer: Stream, pool: BufferPool, lucks: nat -> Luck, spare: nat)
      requires base.Valid() && reader.Valid() && writer.Valid() && reader != writer && pool.Valid()
      modifies base, base.links.Values, reader, writer, pool, pool.Pooled()
      ensures base.Valid() && pool.Valid() && writer.Valid() && base.state == old(base.state)
      ensures Account(writer) == Exchanged(z, old(Account(writer)), old(reader.InFlight()), lucks, 0)
    {
      hide ReadPacket, Handled, BufferPool.Valid, Gateway.Valid, GatewayClient.LinkVals;
      var n, more := 0, true;
      while more
        invariant base.Valid() && reader.Valid() && writer.Valid() && pool.Valid()
        invariant base.state == old(base.state)
        invariant forall i :: i in base.links ==> fresh(base.links[i]) || base.links[i] in old(base.links.Values)
        invariant forall b :: b in pool.Pooled() ==> fresh(b) || b in old(pool.Pooled())
        invariant Exchanged(z, old(Account(writer)), old(reader.InFlight()), lucks, 0)
                  == if more then Exchanged(z, Account(writer), reader.InFlight(), lucks, n) else Account(writer)
        decreases more, |reader.InFlight()|
      {
        ghost var v, b := Account(writer), reader.InFlight();
        more := Round(z, reader, writer, pool, lucks(n), spare);
        n := n + 1;
      }
    }

    /** `on_disconnection`: every link is closed and unregistered, and the client waits again. */
    method OnDisconnection()
      requires base.Valid()
      modifies base`links, base`state, base.links.Values
      ensures base.Valid() && base.links == map[] && base.state.GwWaiting?
      ensures forall id :: id in old(base.links) ==>
                old(base.links)[id].Val() == CloseConnection(old(base.links[id].Val()))
    {
      base.CloseAllLinks();
      base.state := GwWaiting;
    }
  }

  // ----- What a link's application gets -----

  /** The payloads for one link, in order. */
  function DataFor(ms: seq<Message>, id: u16): bytes {
    if ms == [] then []
    else (if ms[0].packet.ptype.Regular? && ms[0].packet.linkId == id then Payload(ms[0].data) else []) + DataFor(ms[1..], id)
  }

  predicate LeavesAlone(m: Message, id: u16) {
    !m.packet.ptype.GwDeny? && (m.packet.ptype.Open? || m.packet.ptype.Close? ==> m.packet.linkId != id)
  }

  /** A connected link gets exactly its own payloads from any stream of frames that neither opens nor closes
      it, however they are mixed with those of other links, as long as its own writes succeed. */
  lemma {:induction false} OwnDataOnly(z: Zstd, v: Ledger, ms: seq<Message>, id: u16, lucks: nat -> Luck, n: nat)
    requires Lossless(z) && AllWellFormed(ms) && id in v.links && v.links[id].state.Connected? && v.links[id].open
    requires forall i :: 0 <= i < |ms| ==> LeavesAlone(ms[i], id)
    requires forall i :: n <= i < n + |ms| ==> lucks(i).out.Wrote?
    ensures var v' := Exchanged(z, v, Frames(z, ms), lucks, n);
      && id in v'.links && v'.links[id].state.Connected? && v'.links[id].open
      && v'.links[id].written == v.links[id].written + DataFor(ms, id)
      && v'.links[id].bytesOut == Add64(v.links[id].bytesOut, |DataFor(ms, id)|)
    decreases |ms|
  {
    hide AllWellFormed, Exchanged, Handled, Seen, Frames;
    if ms == [] {
      NothingExchanged(z, v, lucks, n);
      Add64Twice(0, v.links[id].bytesOut, 0);
    } else {
      var v1 := Handled(v, Seen(z, ms[0]), lucks(n));
      ExchangedFirst(z, v, ms, lucks, n);
      OneHandled(z, v, ms[0], id, lucks(n));
      RestWellFormed(ms);
      OwnDataOnly(z, v1, ms[1..], id, lucks, n + 1);
      DataForFirst(ms, id);
      Add64Twice(v.links[id].bytesOut, |DataFor([ms[0]], id)|, |DataFor(ms[1..], id)|);
      hide DataFor, Add64;
    }
  }

  lemma NothingExchanged(z: Zstd, v: Ledger, lucks: nat -> Luck, n: nat)
    ensures Exchanged(z, v, Frames(z, []), lucks, n) == v
  {
    assert ReadPacket(z, []) == NeedMore;
  }

  lemma ExchangedFirst(z: Zstd, v: Ledger, ms: seq<Message>, lucks: nat -> Luck, n: nat)
    requires Lossless(z) && AllWellFormed(ms) && ms != [] && !ms[0].packet.ptype.GwDeny?
    ensures Exchanged(z, v, Frames(z, ms), lucks, n)
            == Exchanged(z, Handled(v, Seen(z, ms[0]), lucks(n)), Frames(z, ms[1..]), lucks, n + 1)
  {
    FrameRoundTrip(z, ms[0], Frames(z, ms[1..]));
    hide Frame, ReadPacket, OnWire, Handled;
  }

  lemma DataForFirst(ms: seq<Message>, id: u16)
    requires ms != []
    ensures DataFor(ms, id) == DataFor([ms[0]], id) + DataFor(ms[1..], id)
  {
    assert DataFor([ms[0]][1..], id) == [];
  }

  lemma RestWellFormed(ms: seq<Message>)
    requires AllWellFormed(ms) && ms != []
    ensures AllWellFormed(ms[1..])
  {
  }

  lemma OneHandled(z: Zstd, v: Ledger, m: Message, id: u16, luck: Luck)
    requires id in v.links && v.links[id].state.Connected? && v.links[id].open && LeavesAlone(m, id) && luck.out.Wrote?
    ensures var v' := Handled(v, Seen(z, m), luck);
      && id in v'.links && v'.links[id].state.Connected? && v'.links[id].open
      && v'.links[id].written == v.links[id].written + DataFor([m], id)
      && v'.links[id].bytesOut == Add64(v.links[id].bytesOut, |DataFor([m], id)|)
  {
    hide OnWire, Header;
    Add64Twice(0, v.links[id].bytesOut, 0);
    assert DataFor([m][1..], id) == [];
    assert Payload(Seen(z, m).data) == Payload(m.data);
  }
}
