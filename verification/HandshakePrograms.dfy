/** The two handshake programs as they run: reading from one stream, writing to the other, each refining its
    part in `Handshake`; and a meeting of the two. */
module HandshakePrograms {
  import opened Bytes
  import opened Packets
  import opened Auth
  import opened Handshake
  import opened Gateways

  /** One header and its payload, written one after the other. */
  method WriteBoth(writer: Stream, head: bytes, body: bytes) returns (ok: bool)
    requires writer.Valid() && head != []
    modifies writer
    ensures writer.Valid() && writer.taken == old(writer.taken)
    ensures ok <==> Fits(old(writer.room), |head + body|)
    ensures writer.sent == Attempt(old(writer.sent), old(writer.room), head + body)
    ensures old(writer.room).None? ==> writer.room.None?
  {
    ok := writer.WriteAll(head);
    if ok {
      ok := writer.WriteAll(body);
    }
    assert (head + body)[..|head|] == head;
  }

  /** Reads a header; None at the end of the stream. */
  method TakeHeader(reader: Stream) returns (r: Option<Packet>)
    requires reader.Valid()
    modifies reader
    ensures reader.Valid() && reader.sent == old(reader.sent) && reader.room == old(reader.room)
    ensures match ReadHeader(old(reader.InFlight()))
            case None => r == None
            case Some((p, rest)) => r == Some(p) && reader.InFlight() == rest
    ensures r.None? ==> reader.InFlight() == []
  {
    var h := reader.ReadExact(PACKET_HEADER_SIZE);
    r := if h.Some? then ParseHeader(h.value) else None;
  }

  // ----- Server -----

  /** First part of `authenticate_client`. */
  method SendChallenge(base: Gateway, writer: Stream, nonce: bytes) returns (ok: bool)
    requires writer.Valid() && |nonce| == NONCE_SIZE
    modifies base`packetIdCounter, writer
    ensures writer.Valid() && writer.taken == old(writer.taken)
    ensures base.packetIdCounter == Add64(old(base.packetIdCounter), 1)
    ensures ok <==> Fits(old(writer.room), PACKET_HEADER_SIZE + NONCE_SIZE)
    ensures writer.sent == Attempt(old(writer.sent), old(writer.room), Challenge(base.packetIdCounter, nonce))
    ensures old(writer.room).None? ==> writer.room.None?
  {
    var pid := base.NextPacketId();
    var head := ToBytes(NewPacket(GwAuthChallenge, pid, 0, |nonce|));
    ok := WriteBoth(writer, head[..], nonce);
  }

  /** Second part: the response is read and verified, and the verdict sent.  The server is content exactly
      when the response verifies and its verdict could be sent. */
  method JudgeResponse(hmac: Hmac, key: bytes, nonce: bytes, reader: Stream, writer: Stream) returns (ok: bool)
    requires IsHmac(hmac) && reader.Valid() && writer.Valid() && reader != writer
    modifies reader, writer
    ensures reader.Valid() && writer.Valid() && writer.taken == old(writer.taken) && reader.sent == old(reader.sent)
    ensures var v := Pronounce(hmac, key, nonce, old(reader.InFlight()));
      && (ok <==> v.ok && Fits(old(writer.room), |v.wrote|))
      && writer.sent == Attempt(old(writer.sent), old(writer.room), v.wrote)
      && reader.InFlight() == v.left
  {
    hide Header, ParseHeader, ReadHeader, VersionBytes;
    var p := TakeHeader(reader);
    if p.None? || p.value.ptype != GwAuthResponse {
      return false;
    }
    var response := reader.ReadExact(p.value.dataSize);
    if response.None? {
      return false;
    }
    var verified := VerifyResponse(hmac, key, nonce, response.value);
    if verified {
      VersionSize();
      var head := ToBytes(NewPacket(GwConnected, p.value.packetId, 0, |VersionBytes()|));
      ok := WriteBoth(writer, head[..], VersionBytes());
    } else {
      var head := ToBytes(NewPacket(GwDeny, p.value.packetId, 0, 1));
      var _ := WriteBoth(writer, head[..], [ReasonCode(AuthFailed)]);
      ok := false;
    }
  }

  // ----- Client -----

  /** First part of `gw_authenticate`: the challenge is read and answered.  A packet id is taken only for an
      answer. */
  method AnswerChallenge(base: Gateway, hmac: Hmac, key: bytes, reader: Stream, writer: Stream) returns (ok: bool)
    requires IsHmac(hmac) && reader.Valid() && writer.Valid() && reader != writer
    modifies base`packetIdCounter, reader, writer
    ensures reader.Valid() && writer.Valid() && writer.taken == old(writer.taken) && reader.sent == old(reader.sent)
    ensures reader.room == old(reader.room)
    ensures var a := Answer(hmac, key, Add64(old(base.packetIdCounter), 1), old(reader.InFlight()));
      && (ok <==> a.ok && Fits(old(writer.room), |a.wrote|))
      && writer.sent == Attempt(old(writer.sent), old(writer.room), a.wrote)
      && reader.InFlight() == a.left
      && base.packetIdCounter == if a.ok then Add64(old(base.packetIdCounter), 1) else old(base.packetIdCounter)
  {
    hide Header, ParseHeader, ReadHeader;
    var p := TakeHeader(reader);
    if p.None? || p.value.ptype != GwAuthChallenge || p.value.dataSize != NONCE_SIZE {
      return false;
    }
    var nonce := reader.ReadExact(p.value.dataSize);
    if nonce.None? {
      return false;
    }
    var response := hmac(key, nonce.value);
    var pid := base.NextPacketId();
    var head := ToBytes(NewPacket(GwAuthResponse, pid, 0, |response|));
    ok := WriteBoth(writer, head[..], response);
  }

  /** Second part: the verdict is read, with the server's version if it is there. */
  method ReadVerdict(reader: Stream) returns (ok: bool)
    requires reader.Valid()
    modifies reader
    ensures reader.Valid() && reader.sent == old(reader.sent)
    ensures ok == Conclude(old(reader.InFlight())).ok
    ensures reader.InFlight() == Conclude(old(reader.InFlight())).left
  {
    hide Header, ParseHeader, ReadHeader;
    var p := TakeHeader(reader);
    if p.None? {
      return false;
    }
    match p.value.ptype
    case GwConnected =>
      if p.value.dataSize >= 12 {
        var version := reader.ReadExact(12);
        if version.None? || FromLE(version.value[..4]) != VERSION_MAJOR {
          return false;
        }
      }
      ok := true;
    case GwDeny =>
      if p.value.dataSize > 0 {
        var _ := reader.ReadExact(p.value.dataSize);
      }
      ok := false;
    case _ => ok := false;
  }

  // ----- The two together -----

  /** The two programs run against each other over two streams that do not fail: they agree, the verdict is
      that of the keys, and both streams are read to their end. */
  method Meet(server: Gateway, client: Gateway, hmac: Hmac, skey: bytes, ckey: bytes, nonce: bytes, down: Stream, up: Stream)
    returns (admitted: bool, accepted: bool)
    requires IsHmac(hmac) && |nonce| == NONCE_SIZE && server != client && down != up
    requires down.Valid() && up.Valid() && down.room.None? && up.room.None?
    requires down.InFlight() == [] && up.InFlight() == []
    modifies server`packetIdCounter, client`packetIdCounter, down, up
    ensures admitted == accepted && (admitted <==> hmac(skey, nonce) == hmac(ckey, nonce))
    ensures down.Valid() && up.Valid() && down.InFlight() == [] && up.InFlight() == []
  {
    hide Challenge, Answer, Pronounce, Conclude;
    var sent := SendChallenge(server, down, nonce);
    assert down.InFlight() == Challenge(server.packetIdCounter, nonce);
    Agreement(hmac, skey, ckey, nonce, server.packetIdCounter, Add64(client.packetIdCounter, 1), [], []);
    var answered := AnswerChallenge(client, hmac, ckey, down, up);
    ghost var response := up.InFlight();
    assert response + [] == response;
    admitted := JudgeResponse(hmac, skey, nonce, up, down);
    ghost var verdict := down.InFlight();
    assert verdict + [] == verdict;
    accepted := ReadVerdict(down);
  }
}
