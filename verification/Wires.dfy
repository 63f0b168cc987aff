/** One direction of a gateway connection: a FIFO of bytes, with the history of what was written to it. */
module Wires {
  import opened Bytes
  import opened Packets
  import opened Compression
  import opened Framing
  import opened LinkProtocol

  /** A written packet; for the proofs only, the link task on whose behalf it was written. */
  datatype Tagged = Tagged(tag: Option<nat>, m: Message)

  /** `bytes` are in flight.  `sent` is every packet written in full and `got` how many of them were read;
      neither influences what is read.  `broken` is set by a failed write and then stays set. */
  datatype Wire = Wire(bytes: bytes, sent: seq<Tagged>, got: nat, broken: bool)

  const EMPTY := Wire([], [], 0, false)

  /** A write of one frame: all of it, or its first `n` bytes and an error. */
  datatype SendOutcome = Sent | Cut(n: nat)

  predicate MayPut(z: Zstd, w: Wire, m: Message, out: SendOutcome) {
    match out
    case Sent => !w.broken
    case Cut(n) => n < |Frame(z, m)|
  }

  function PutFrame(z: Zstd, w: Wire, tm: Tagged, out: SendOutcome): Wire
    requires MayPut(z, w, tm.m, out)
  {
    match out
    case Sent => w.(bytes := w.bytes + Frame(z, tm.m), sent := w.sent + [tm])
    case Cut(n) => if w.broken then w else w.(bytes := w.bytes + Frame(z, tm.m)[..n], broken := true)
  }

  lemma PutEffect(z: Zstd, w: Wire, tm: Tagged, out: SendOutcome)
    requires MayPut(z, w, tm.m, out)
    ensures var w' := PutFrame(z, w, tm, out);
      w'.got == w.got && w'.broken == (w.broken || out.Cut?) && w'.sent == if out.Sent? then w.sent + [tm] else w.sent
  {
    hide Frame;
  }

  predicate MayTake(z: Zstd, w: Wire) {
    ReadPacket(z, w.bytes).Got?
  }

  /** What the reader gets is decided by the bytes alone. */
  function TakeFrame(z: Zstd, w: Wire): Wire
    requires MayTake(z, w)
  {
    w.(bytes := ReadPacket(z, w.bytes).rest, got := w.got + 1)
  }

  function Received(z: Zstd, w: Wire): Message
    requires MayTake(z, w)
  {
    Message(ReadPacket(z, w.bytes).packet, ReadPacket(z, w.bytes).data)
  }

  function NextTag(w: Wire): Option<nat> {
    if w.got < |w.sent| then w.sent[w.got].tag else None
  }

  function Messages(ts: seq<Tagged>): (r: seq<Message>)
    ensures |r| == |ts|
    ensures forall i :: 0 <= i < |ts| ==> r[i] == ts[i].m
  {
    seq(|ts|, i requires 0 <= i < |ts| => ts[i].m)
  }

  /** The bytes in flight are the frames not read yet, then at most the beginning of one more frame,
      and that only after a failed write. */
  ghost predicate WireOk(z: Zstd, w: Wire) {
    && w.got <= |w.sent|
    && (forall i :: 0 <= i < |w.sent| ==> WellFormed(w.sent[i].m))
    && var f := Frames(z, Messages(w.sent[w.got..]));
       f <= w.bytes && ReadPacket(z, w.bytes[|f|..]) == NeedMore && (!w.broken ==> w.bytes == f)
  }

  lemma PutKeepsWire(z: Zstd, w: Wire, tm: Tagged, out: SendOutcome)
    requires WireOk(z, w) && WellFormed(tm.m) && MayPut(z, w, tm.m, out)
    ensures WireOk(z, PutFrame(z, w, tm, out))
  {
    var w' := PutFrame(z, w, tm, out);
    var ms := Messages(w.sent[w.got..]);
    match out
    case Sent =>
      assert Messages(w'.sent[w.got..]) == ms + [tm.m];
      FramesAppend(z, ms, tm.m);
      assert w'.bytes[|Frames(z, ms + [tm.m])|..] == [];
    case Cut(n) =>
      if !w.broken {
        CutFrameWaits(z, tm.m, n);
        assert w'.bytes[|Frames(z, ms)|..] == Frame(z, tm.m)[..n];
      }
  }

  /** The reader gets the oldest packet written and not read yet, as its reader sees it, and no other. */
  lemma TakeIsNext(z: Zstd, w: Wire)
    requires Lossless(z) && WireOk(z, w) && MayTake(z, w)
    ensures w.got < |w.sent| && Received(z, w) == Seen(z, w.sent[w.got].m)
    ensures WireOk(z, TakeFrame(z, w))
  {
    hide Frame, Seen, ReadPacket;
    var ms := Messages(w.sent[w.got..]);
    if w.got == |w.sent| {
      assert false;
    }
    var m := w.sent[w.got].m;
    var later := Messages(w.sent[w.got + 1..]);
    assert ms[1..] == later && ms[0] == m;
    var f := Frames(z, ms);
    var rest := w.bytes[|Frame(z, m)|..];
    assert f == Frame(z, m) + Frames(z, later);
    assert w.bytes == Frame(z, m) + rest by {
      assert w.bytes == f + w.bytes[|f|..];
    }
    FrameRoundTrip(z, m, rest);
    assert rest == Frames(z, later) + w.bytes[|f|..];
    assert rest[|Frames(z, later)|..] == w.bytes[|f|..];
  }

  // ----- The packets of one link -----

  function Proj(ts: seq<Tagged>, k: nat): seq<Msg> {
    if ts == [] then [] else
      var x := ts[|ts| - 1];
      Proj(ts[..|ts| - 1], k) + (if x.tag == Some(k) then [Abs(x.m)] else [])
  }

  lemma ProjAppend(ts: seq<Tagged>, x: Tagged, k: nat)
    ensures Proj(ts + [x], k) == Proj(ts, k) + (if x.tag == Some(k) then [Abs(x.m)] else [])
  {
    assert (ts + [x])[..|ts|] == ts;
  }

  lemma {:induction false} ProjMonotone(a: seq<Tagged>, b: seq<Tagged>, k: nat)
    requires a <= b
    ensures Proj(a, k) <= Proj(b, k)
    decreases |b|
  {
    if |a| < |b| {
      ProjMonotone(a, b[..|b| - 1], k);
    } else {
      assert a == b;
    }
  }

  /** A link that owns no packet on the wire has an empty projection. */
  lemma {:induction false} ProjEmpty(ts: seq<Tagged>, k: nat)
    requires forall i :: 0 <= i < |ts| ==> ts[i].tag != Some(k)
    ensures Proj(ts, k) == []
  {
    if ts != [] {
      ProjEmpty(ts[..|ts| - 1], k);
    }
  }

  /** Taking a packet of link `k` reveals the next entry of its projection. */
  lemma ProjTake(ts: seq<Tagged>, n: nat, k: nat)
    requires n < |ts|
    ensures Proj(ts[..n], k) <= Proj(ts, k)
    ensures Proj(ts[..n + 1], k) == Proj(ts[..n], k) + (if ts[n].tag == Some(k) then [Abs(ts[n].m)] else [])
    ensures ts[n].tag == Some(k) ==>
              |Proj(ts[..n], k)| < |Proj(ts, k)| && Proj(ts, k)[|Proj(ts[..n], k)|] == Abs(ts[n].m)
  {
    ProjAppend(ts[..n], ts[n], k);
    assert ts[..n + 1] == ts[..n] + [ts[n]];
    ProjMonotone(ts[..n], ts, k);
    ProjMonotone(ts[..n + 1], ts, k);
  }
}
