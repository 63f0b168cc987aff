/** The 16-byte packet header of the gateway protocol: types, codes, and its byte codec. */
module Packets {
  import opened Bytes

  const PACKET_HEADER_SIZE := 16
  const FLAG_COMPRESSED: byte := 1

  datatype PacketType =
    | Regular | Ping | Pong
    | GwAuth | GwConnected | GwDeny
    | Open | Opened | OpenFail | Close | Closed
    | ProtocolVersion | GwAuthChallenge | GwAuthResponse
    | SessionRestore

  /** The discriminant written to byte 0 of the header. */
  function TypeCode(t: PacketType): byte {
    match t
    case Regular => 0 case Ping => 1 case Pong => 2
    case GwAuth => 3 case GwConnected => 4 case GwDeny => 5
    case Open => 6 case Opened => 7 case OpenFail => 8 case Close => 9 case Closed => 10
    case ProtocolVersion => 11 case GwAuthChallenge => 12 case GwAuthResponse => 13
    case SessionRestore => 30
  }

  /** Reading a discriminant: every unassigned code reads as `Regular`. */
  function TypeOf(code: byte): PacketType {
    match code
    case 0 => Regular case 1 => Ping case 2 => Pong
    case 3 => GwAuth case 4 => GwConnected case 5 => GwDeny
    case 6 => Open case 7 => Opened case 8 => OpenFail case 9 => Close case 10 => Closed
    case 11 => ProtocolVersion case 12 => GwAuthChallenge case 13 => GwAuthResponse
    case 30 => SessionRestore
    case _ => Regular
  }

  predicate AssignedCode(code: byte) {
    code <= 13 || code == 30
  }

  datatype Packet = Packet(ptype: PacketType, packetId: u64, linkId: u16, dataSize: u16, flags: byte) {
    /** `flags & FLAG_COMPRESSED != 0`, the lowest bit. */
    predicate IsCompressed() {
      flags % 2 == FLAG_COMPRESSED
    }

    /** `set_flag(FLAG_COMPRESSED)`: the lowest bit is set and the other flags stay. */
    function SetCompressed(): (r: Packet)
      ensures r.IsCompressed() && r.flags / 2 == flags / 2
      ensures r.(flags := flags) == this
    {
      if IsCompressed() then this else this.(flags := flags + FLAG_COMPRESSED)
    }
  }

  /** `PacketGW::new`: a header without flags. */
  function NewPacket(ptype: PacketType, packetId: u64, linkId: u16, dataSize: u16): Packet {
    Packet(ptype, packetId, linkId, dataSize, 0)
  }

  /** The header layout: type, id, link, size, flags and two reserved zero bytes. */
  function Header(p: Packet): (r: bytes)
    ensures |r| == PACKET_HEADER_SIZE
  {
    [TypeCode(p.ptype)] + ToLE(p.packetId, 8) + ToLE(p.linkId, 2) + ToLE(p.dataSize, 2)
    + [p.flags] + [0, 0]
  }

  /** `PacketGW::from_bytes`: only the first 16 bytes matter, and fewer do not parse. */
  function ParseHeader(b: bytes): (r: Option<Packet>) {
    if |b| < PACKET_HEADER_SIZE then None
    else
      Widths();
      Some(Packet(TypeOf(b[0]), FromLE(b[1..9]), FromLE(b[9..11]), FromLE(b[11..13]), b[13]))
  }

  /** Parsing what `Header` wrote gives the packet back, whatever follows it on the wire. */
  lemma HeaderRoundTrip(p: Packet, rest: bytes)
    ensures ParseHeader(Header(p) + rest) == Some(p)
  {
    var b := Header(p) + rest;
    Widths();
    FromToLE(p.packetId, 8);
    FromToLE(p.linkId, 2);
    FromToLE(p.dataSize, 2);
    assert b[1..9] == ToLE(p.packetId, 8);
    assert b[9..11] == ToLE(p.linkId, 2);
    assert b[11..13] == ToLE(p.dataSize, 2);
    assert b[13] == p.flags;
    assert TypeOf(TypeCode(p.ptype)) == p.ptype;
  }

  /** A 16-byte block is the header of the packet it parses to exactly when its type code is
      assigned and its reserved bytes are zero: everything else in it survives. */
  lemma HeaderCanonical(b: bytes)
    requires |b| == PACKET_HEADER_SIZE
    ensures ParseHeader(b).Some?
    ensures Header(ParseHeader(b).value) == b <==> AssignedCode(b[0]) && b[14] == 0 && b[15] == 0
    ensures forall i :: 1 <= i < 14 ==> Header(ParseHeader(b).value)[i] == b[i]
  {
    var p := ParseHeader(b).value;
    var h := Header(p);
    ToFromLE(b[1..9]);
    ToFromLE(b[9..11]);
    ToFromLE(b[11..13]);
    assert h[1..9] == b[1..9];
    assert h[9..11] == b[9..11];
    assert h[11..13] == b[11..13];
    assert h[13] == b[13];
    forall i | 1 <= i < 14 ensures h[i] == b[i] {
      assert i < 9 ==> h[i] == h[1..9][i - 1] && b[i] == b[1..9][i - 1];
      assert 9 <= i < 11 ==> h[i] == h[9..11][i - 9] && b[i] == b[9..11][i - 9];
      assert 11 <= i < 13 ==> h[i] == h[11..13][i - 11] && b[i] == b[11..13][i - 11];
    }
    assert h[0] == TypeCode(TypeOf(b[0])) && h[14] == 0 && h[15] == 0;
    assert TypeCode(TypeOf(b[0])) == b[0] <==> AssignedCode(b[0]);
  }

  /** `PacketGW::to_bytes`: the header is assembled in place in a zeroed array. */
  method ToBytes(p: Packet) returns (a: array<byte>)
    ensures fresh(a) && a[..] == Header(p)
  {
    a := new byte[PACKET_HEADER_SIZE](_ => 0);
    a[0] := TypeCode(p.ptype);
    assert a[..] == [TypeCode(p.ptype)] + seq(15, _ => 0);
    CopyInto(a, 1, ToLE(p.packetId, 8));
    assert a[..] == [TypeCode(p.ptype)] + ToLE(p.packetId, 8) + seq(7, _ => 0);
    CopyInto(a, 9, ToLE(p.linkId, 2));
    assert a[..] == [TypeCode(p.ptype)] + ToLE(p.packetId, 8) + ToLE(p.linkId, 2) + seq(5, _ => 0);
    CopyInto(a, 11, ToLE(p.dataSize, 2));
    ghost var fields := [TypeCode(p.ptype)] + ToLE(p.packetId, 8) + ToLE(p.linkId, 2) + ToLE(p.dataSize, 2);
    assert a[..] == fields + [0, 0, 0];
    a[13] := p.flags;
    assert a[..] == fields + [p.flags] + [0, 0];
  }

  /** `copy_from_slice` into a range of a fixed-size buffer. */
  method CopyInto(a: array<byte>, at: nat, src: bytes)
    requires at + |src| <= a.Length
    modifies a
    ensures a[..] == old(a[..at]) + src + old(a[at + |src|..])
  {
    for i := 0 to |src|
      invariant a[..] == old(a[..at]) + src[..i] + old(a[at + i..])
    {
      a[at + i] := src[i];
    }
  }

  // ----- Disconnect reasons -----

  datatype DisconnectReason =
    AuthFailed | VersionMismatch | ServerFull | Banned | RateLimited | SessionNotFound

  function ReasonCode(r: DisconnectReason): byte {
    match r
    case AuthFailed => 0 case VersionMismatch => 1 case ServerFull => 2
    case Banned => 3 case RateLimited => 4 case SessionNotFound => 5
  }
}
