/** The challenge-response handshake: what each program reads and writes, and how the two fit together. */
module Handshake {
  import opened Bytes
  import opened Packets
  import opened Auth

  const VERSION_MAJOR: u32 := 0
  const VERSION_MINOR: u32 := 2
  const VERSION_PATCH: u32 := 0

  // ----- Reading a stream -----

  /** `read_exact`: `n` bytes and what is left, or failure when the stream is too short. */
  function ReadExact(s: bytes, n: nat): Option<(bytes, bytes)> {
    if |s| < n then None else Some((s[..n], s[n..]))
  }

  function ReadHeader(s: bytes): Option<(Packet, bytes)> {
    match ReadExact(s, PACKET_HEADER_SIZE)
    case None => None
    case Some((h, rest)) =>
      match ParseHeader(h)
      case None => None
      case Some(p) => Some((p, rest))
  }

  lemma ReadBack(a: bytes, rest: bytes)
    ensures ReadExact(a + rest, |a|) == Some((a, rest))
  {
    assert (a + rest)[..|a|] == a && (a + rest)[|a|..] == rest;
  }

  lemma ReadHeaderBack(p: Packet, rest: bytes)
    ensures ReadHeader(Header(p) + rest) == Some((p, rest))
  {
    hide Header, ParseHeader;
    ReadBack(Header(p), rest);
    HeaderRoundTrip(p, []);
    assert Header(p) + [] == Header(p);
  }

  // ----- The two programs, between their waits -----

  /** Whether a program goes on, the bytes it wrote, and the bytes of its input it did not read: none, when a read ran
      into the end of the input. */
  datatype Verdict = Verdict(ok: bool, wrote: bytes, left: bytes)

  /** Server, first part: the challenge. */
  function Challenge(pid: u64, nonce: bytes): bytes {
    Header(NewPacket(GwAuthChallenge, pid, 0, |nonce| % U16_SIZE)) + nonce
  }

  /** Client, first part: read the challenge and answer it, or give up. */
  function Answer(hmac: Hmac, key: bytes, pid: u64, input: bytes): Verdict {
    match ReadHeader(input)
    case None => Verdict(false, [], [])
    case Some((p, rest)) =>
      if p.ptype != GwAuthChallenge || p.dataSize != NONCE_SIZE then Verdict(false, [], rest)
      else
        match ReadExact(rest, p.dataSize)
        case None => Verdict(false, [], [])
        case Some((nonce, left)) =>
          var response := hmac(key, nonce);
          Verdict(true, Header(NewPacket(GwAuthResponse, pid, 0, |response| % U16_SIZE)) + response, left)
  }

  function VersionBytes(): bytes {
    ToLE(VERSION_MAJOR, 4) + ToLE(VERSION_MINOR, 4) + ToLE(VERSION_PATCH, 4)
  }

  /** Server, second part: read the response and pronounce. */
  function Pronounce(hmac: Hmac, key: bytes, nonce: bytes, input: bytes): Verdict {
    match ReadHeader(input)
    case None => Verdict(false, [], [])
    case Some((p, rest)) =>
      if p.ptype != GwAuthResponse then Verdict(false, [], rest)
      else
        match ReadExact(rest, p.dataSize)
        case None => Verdict(false, [], [])
        case Some((response, left)) =>
          if response == hmac(key, nonce) then
            Verdict(true, Header(NewPacket(GwConnected, p.packetId, 0, |VersionBytes()| % U16_SIZE)) + VersionBytes(), left)
          else
            Verdict(false, Header(NewPacket(GwDeny, p.packetId, 0, 1)) + [ReasonCode(AuthFailed)], left)
  }

  /** Client, second part: read the verdict.  Only the 12 version bytes of `GwConnected` are read. */
  function Conclude(input: bytes): Verdict {
    match ReadHeader(input)
    case None => Verdict(false, [], [])
    case Some((p, rest)) =>
      if p.ptype == GwConnected then
        if p.dataSize < 12 then Verdict(true, [], rest)
        else
          match ReadExact(rest, 12)
          case None => Verdict(false, [], [])
          case Some((version, left)) => Verdict(FromLE(version[..4]) == VERSION_MAJOR, [], left)
      else if p.ptype == GwDeny && p.dataSize > 0 then
        match ReadExact(rest, p.dataSize)
        case None => Verdict(false, [], [])
        case Some((_, left)) => Verdict(false, [], left)
      else Verdict(false, [], rest)
  }

  // ----- Run against each other -----

  /** The client reads the whole challenge and nothing after it, and answers with its HMAC of the nonce. */
  lemma AnswerToChallenge(hmac: Hmac, ckey: bytes, nonce: bytes, spid: u64, cpid: u64, more: bytes)
    requires IsHmac(hmac) && |nonce| == NONCE_SIZE
    ensures Answer(hmac, ckey, cpid, Challenge(spid, nonce) + more) ==
            Verdict(true, Header(NewPacket(GwAuthResponse, cpid, 0, RESPONSE_SIZE)) + hmac(ckey, nonce), more)
  {
    hide ReadHeader, ReadExact, Header;
    var p := NewPacket(GwAuthChallenge, spid, 0, NONCE_SIZE);
    assert Challenge(spid, nonce) + more == Header(p) + (nonce + more);
    ReadHeaderBack(p, nonce + more);
    ReadBack(nonce, more);
    assert |hmac(ckey, nonce)| == RESPONSE_SIZE;
  }

  /** The server reads the whole response and nothing after it, and accepts exactly equal HMACs. */
  lemma PronounceOnAnswer(hmac: Hmac, skey: bytes, nonce: bytes, cpid: u64, response: bytes, more: bytes)
    requires |response| == RESPONSE_SIZE
    ensures var v := Pronounce(hmac, skey, nonce, Header(NewPacket(GwAuthResponse, cpid, 0, RESPONSE_SIZE)) + response + more);
      && v.left == more && (v.ok <==> response == hmac(skey, nonce))
      && v.wrote == if v.ok then Header(NewPacket(GwConnected, cpid, 0, 12)) + VersionBytes()
                    else Header(NewPacket(GwDeny, cpid, 0, 1)) + [0]
  {
    hide ReadHeader, ReadExact, Header, VersionBytes;
    var p := NewPacket(GwAuthResponse, cpid, 0, RESPONSE_SIZE);
    assert Header(p) + response + more == Header(p) + (response + more);
    ReadHeaderBack(p, response + more);
    ReadBack(response, more);
    assert |VersionBytes()| == 12 by { VersionSize(); }
  }

  lemma VersionSize()
    ensures |VersionBytes()| == 12 && FromLE(VersionBytes()[..4]) == VERSION_MAJOR
  {
    assert VersionBytes()[..4] == ToLE(VERSION_MAJOR, 4);
    FromToLE(VERSION_MAJOR, 4);
  }

  lemma ConcludeOnVerdict(pid: u64, ok: bool, more: bytes)
    ensures var wrote := if ok then Header(NewPacket(GwConnected, pid, 0, 12)) + VersionBytes()
                         else Header(NewPacket(GwDeny, pid, 0, 1)) + [0];
      Conclude(wrote + more) == Verdict(ok, [], more)
  {
    hide ReadHeader, ReadExact, Header, VersionBytes;
    if ok {
      var p := NewPacket(GwConnected, pid, 0, 12);
      assert Header(p) + VersionBytes() + more == Header(p) + (VersionBytes() + more);
      ReadHeaderBack(p, VersionBytes() + more);
      VersionSize();
      ReadBack(VersionBytes(), more);
    } else {
      var p := NewPacket(GwDeny, pid, 0, 1);
      assert Header(p) + [0] + more == Header(p) + ([0] + more);
      ReadHeaderBack(p, [0] + more);
      ReadBack([0], more);
    }
  }

  /** Run against each other, both sides reach the same verdict: true exactly when the two keys give the same
      HMAC on the nonce sent.  Each side has then read exactly what the other wrote: whatever follows on
      either stream (`toClient`, `toServer`) is left untouched for the exchange loops. */
  lemma Agreement(hmac: Hmac, skey: bytes, ckey: bytes, nonce: bytes, spid: u64, cpid: u64, toClient: bytes, toServer: bytes)
    requires IsHmac(hmac) && |nonce| == NONCE_SIZE
    ensures var challenge := Challenge(spid, nonce);
      var answer := Answer(hmac, ckey, cpid, challenge);
      && answer.ok && answer.left == []
      && var server := Pronounce(hmac, skey, nonce, answer.wrote + toServer);
         var client := Conclude(server.wrote + toClient);
         && server.ok == client.ok && (server.ok <==> hmac(skey, nonce) == hmac(ckey, nonce))
         && server.left == toServer && client.left == toClient
  {
    hide Answer, Pronounce, Conclude, Challenge, Header, VersionBytes;
    AnswerToChallenge(hmac, ckey, nonce, spid, cpid, []);
    assert Challenge(spid, nonce) + [] == Challenge(spid, nonce);
    var response := hmac(ckey, nonce);
    assert |response| == RESPONSE_SIZE;
    PronounceOnAnswer(hmac, skey, nonce, cpid, response, toServer);
    ConcludeOnVerdict(cpid, response == hmac(skey, nonce), toClient);
  }

  /** Against an arbitrary client, the server is convinced only by its own HMAC of its own nonce. */
  lemma OnlyTheHmacConvinces(hmac: Hmac, key: bytes, nonce: bytes, input: bytes)
    ensures Pronounce(hmac, key, nonce, input).ok <==>
      exists pid: u64, link: u16, flags: byte, block: bytes ::
        && |block| == PACKET_HEADER_SIZE && |hmac(key, nonce)| < U16_SIZE
        && ParseHeader(block) == Some(Packet(GwAuthResponse, pid, link, |hmac(key, nonce)|, flags))
        && block + hmac(key, nonce) <= input
  {
    hide ParseHeader;
    var expected := hmac(key, nonce);
    if Pronounce(hmac, key, nonce, input).ok {
      var block := input[..PACKET_HEADER_SIZE];
      var p := ParseHeader(block).value;
      var rest := input[PACKET_HEADER_SIZE..];
      assert rest[..p.dataSize] == expected && |expected| == p.dataSize;
      assert p == Packet(GwAuthResponse, p.packetId, p.linkId, |expected|, p.flags);
      assert block + expected == input[..PACKET_HEADER_SIZE + |expected|];
    }
    if pid: u64, link: u16, flags: byte, block: bytes :|
      && |block| == PACKET_HEADER_SIZE && |expected| < U16_SIZE
      && ParseHeader(block) == Some(Packet(GwAuthResponse, pid, link, |expected|, flags))
      && block + expected <= input
    {
      assert input[..PACKET_HEADER_SIZE] == block;
      assert input[PACKET_HEADER_SIZE..][..|expected|] == expected;
    }
  }

  /** Four bytes read as a number exactly when they are its digits. */
  lemma ReadsAs(digits: bytes, v: u32)
    requires |digits| == 4
    ensures FromLE(digits) == v <==> digits == ToLE(v, 4)
  {
    Widths();
    FromToLE(v, 4);
    ToFromLE(digits);
  }

  /** Against an arbitrary server, the client is admitted exactly by a `GwConnected` of its own major version, or one that
      says too little to name a version; and it has then read the header and the version bytes, if there are any. */
  lemma OnlyOwnVersionAdmits(input: bytes)
    ensures var v := Conclude(input);
      v.ok <==>
        && |input| >= PACKET_HEADER_SIZE && ParseHeader(input[..16]).Some?
        && var p := ParseHeader(input[..16]).value;
           && p.ptype == GwConnected
           && (p.dataSize < 12 || (|input| >= 28 && input[16..20] == ToLE(VERSION_MAJOR, 4)))
    ensures var v := Conclude(input);
      v.ok ==> v.left == input[if ParseHeader(input[..16]).value.dataSize < 12 then 16 else 28..]
  {
    hide ParseHeader;
    if |input| >= 28 {
      var rest := input[16..];
      assert rest[..12][..4] == input[16..20];
      assert rest[12..] == input[28..];
      ReadsAs(input[16..20], VERSION_MAJOR);
    }
  }

  /** Against an arbitrary server, the client answers exactly a challenge with a nonce of 32 bytes, and what it answers is
      its HMAC of that very nonce. */
  lemma OnlyAChallengeIsAnswered(hmac: Hmac, key: bytes, pid: u64, input: bytes)
    requires IsHmac(hmac)
    ensures var a := Answer(hmac, key, pid, input);
      a.ok <==>
        && |input| >= 48 && ParseHeader(input[..16]).Some?
        && ParseHeader(input[..16]).value.ptype == GwAuthChallenge && ParseHeader(input[..16]).value.dataSize == 32
    ensures var a := Answer(hmac, key, pid, input);
      if a.ok then a.wrote == Header(NewPacket(GwAuthResponse, pid, 0, 32)) + hmac(key, input[16..48]) && a.left == input[48..]
      else a.wrote == []
  {
    hide ParseHeader, Header;
    if |input| >= 48 {
      var rest := input[16..];
      assert rest[..32] == input[16..48] && rest[32..] == input[48..];
      assert |hmac(key, input[16..48])| == RESPONSE_SIZE;
    }
  }

  /** Against an arbitrary client, the server pronounces on a complete response and on nothing else, and what it says is
      its version if it accepts, and that authentication failed if it does not. */
  lemma OnlyAResponseIsJudged(hmac: Hmac, key: bytes, nonce: bytes, input: bytes)
    ensures var v := Pronounce(hmac, key, nonce, input);
      v.wrote != [] <==>
        && |input| >= 16 && ParseHeader(input[..16]).Some?
        && var p := ParseHeader(input[..16]).value; p.ptype == GwAuthResponse && |input| >= 16 + p.dataSize
    ensures var v := Pronounce(hmac, key, nonce, input);
      v.wrote != [] ==>
        var p := ParseHeader(input[..16]).value;
        && v.left == input[16 + p.dataSize..]
        && v.wrote == if v.ok then Header(NewPacket(GwConnected, p.packetId, 0, 12)) + VersionBytes()
                      else Header(NewPacket(GwDeny, p.packetId, 0, 1)) + [0]
  {
    hide ParseHeader, Header, VersionBytes;
    VersionSize();
    if |input| >= 16 && ParseHeader(input[..16]).Some? {
      var n: nat := ParseHeader(input[..16]).value.dataSize;
      if |input| >= 16 + n {
        assert input[16..][n..] == input[16 + n..];
      }
    }
  }

  /** The client stays on a frame boundary after an accepting verdict exactly when the `GwConnected` payload
      has the 12 version bytes or is empty: any other length leaves part of it to be read as a frame. */
  lemma AcceptedAligned(p: Packet, payload: bytes, more: bytes)
    requires p.ptype == GwConnected && p.dataSize == |payload|
    ensures var v := Conclude(Header(p) + (payload + more));
      v.ok ==> (v.left == more <==> |payload| == 12 || |payload| == 0)
  {
    hide Header, ReadHeader;
    ReadHeaderBack(p, payload + more);
    var rest := payload + more;
    if |payload| == 0 {
      assert rest == more;
    } else if |payload| < 12 {
      assert |rest| != |more|;
    } else {
      assert |rest[12..]| == |payload| - 12 + |more|;
      if |payload| == 12 {
        assert rest[12..] == more;
      }
    }
  }
}
