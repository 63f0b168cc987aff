/** Conservation of traffic: what one side counts as sent, the other as received, and the wire still holds. */
module Traffic {
  import opened Bytes
  import opened Packets
  import opened Compression
  import opened Framing
  import opened Links
  import opened Gateways

  /** One direction of a connection, between whole sends and reads.  `torn` is what a failed send got
      through; after it the stream has ended.  `ended` is set once the reader has run into that end. */
  datatype Transfer = Transfer(
    sent: seq<Message>, torn: Option<bytes>, got: nat, flight: bytes, sender: Stats, reader: Stats, ended: bool)

  datatype TransferEvent = Send(m: Message) | Tear(m: Message, n: nat) | Read | ReadEnd

  predicate CanTransfer(z: Zstd, f: Transfer, e: TransferEvent) {
    match e
    case Send(m) => WellFormed(m) && f.torn.None?
    case Tear(m, n) => WellFormed(m) && f.torn.None? && n < |Frame(z, m)|
    case Read => !f.ended && ReadPacket(z, f.flight).Got?
    case ReadEnd => !f.ended && f.torn.Some? && ReadPacket(z, f.flight).NeedMore?
  }

  function NextTransfer(z: Zstd, f: Transfer, e: TransferEvent): Transfer
    requires CanTransfer(z, f, e)
  {
    match e
    case Send(m) =>
      f.(sent := f.sent + [m], flight := f.flight + Frame(z, m), sender := CountSent(f.sender, |Frame(z, m)|))
    case Tear(m, n) => f.(torn := Some(Frame(z, m)[..n]), flight := f.flight + Frame(z, m)[..n])
    case Read =>
      f.(got := f.got + 1, flight := ReadPacket(z, f.flight).rest, reader := CountRead(f.reader, f.flight))
    case ReadEnd => f.(ended := true, reader := CountRead(f.reader, f.flight))
  }

  /** `s` has counted `packets` and `bytes` more than `from`, in each direction. */
  predicate Counted(s: Stats, from: Stats, packetsIn: nat, bytesIn: nat, packetsOut: nat, bytesOut: nat) {
    && s.packetsIn == Add64(from.packetsIn, packetsIn) && s.bytesIn == Add64(from.bytesIn, bytesIn)
    && s.packetsOut == Add64(from.packetsOut, packetsOut) && s.bytesOut == Add64(from.bytesOut, bytesOut)
  }

  lemma CountedPacket(s: Stats, from: Stats, packets: nat, size: nat, n: nat)
    requires Counted(s, from, packets, size, 0, 0)
    ensures Counted(CountPacket(s, n), from, packets + 1, size + n, 0, 0)
  {
    Add64Twice(from.packetsIn, packets, 1);
    Add64Twice(from.bytesIn, size, n);
  }

  ghost predicate TornFrame(z: Zstd, t: bytes) {
    exists m, n :: WellFormed(m) && 0 <= n < |Frame(z, m)| && t == Frame(z, m)[..n]
  }

  /** The header of the torn frame, once the reader has had to give it up. */
  function Excess(f: Transfer): (n: nat)
    ensures n <= 1
  {
    if f.ended && f.torn.Some? && |f.torn.value| >= PACKET_HEADER_SIZE then 1 else 0
  }

  /** Unread frames are exactly what is in flight, with the torn one behind them. */
  ghost predicate Carries(z: Zstd, f: Transfer) {
    && AllWellFormed(f.sent) && f.got <= |f.sent|
    && f.flight == Frames(z, f.sent[f.got..]) + Payload(f.torn)
    && (f.torn.Some? ==> TornFrame(z, f.torn.value))
    && (f.ended ==> f.got == |f.sent| && f.torn.Some?)
  }

  /** The counters of both sides, against the values they started with. */
  ghost predicate Booked(z: Zstd, f: Transfer, s0: Stats, r0: Stats)
    requires f.got <= |f.sent|
  {
    && Counted(f.sender, s0, 0, 0, |f.sent|, |Frames(z, f.sent)|)
    && Counted(f.reader, r0, f.got + Excess(f), |Frames(z, f.sent[..f.got])| + PACKET_HEADER_SIZE * Excess(f), 0, 0)
  }

  ghost predicate Balanced(z: Zstd, f: Transfer, s0: Stats, r0: Stats) {
    Carries(z, f) && Booked(z, f, s0, r0)
  }

  lemma SendBalances(z: Zstd, f: Transfer, m: Message, s0: Stats, r0: Stats)
    requires Balanced(z, f, s0, r0) && CanTransfer(z, f, Send(m))
    ensures Balanced(z, NextTransfer(z, f, Send(m)), s0, r0)
  {
    hide Add64, Frame, WellFormed;
    var f' := NextTransfer(z, f, Send(m));
    FramesAppend(z, f.sent, m);
    FramesAppend(z, f.sent[f.got..], m);
    assert f'.sent[f.got..] == f.sent[f.got..] + [m] && f'.sent[..f.got] == f.sent[..f.got];
    Add64Twice(s0.packetsOut, |f.sent|, 1);
    Add64Twice(s0.bytesOut, |Frames(z, f.sent)|, |Frame(z, m)|);
  }

  lemma TearBalances(z: Zstd, f: Transfer, m: Message, n: nat, s0: Stats, r0: Stats)
    requires Balanced(z, f, s0, r0) && CanTransfer(z, f, Tear(m, n))
    ensures Balanced(z, NextTransfer(z, f, Tear(m, n)), s0, r0)
  {
    hide Add64, Frame, WellFormed;
    assert TornFrame(z, Frame(z, m)[..n]);
  }

  /** What a whole frame at the head of the stream adds to the counters. */
  lemma CountFrame(z: Zstd, s: Stats, m: Message, rest: bytes)
    requires WellFormed(m)
    ensures CountRead(s, Frame(z, m) + rest) == CountPacket(s, |Frame(z, m)|)
  {
    var w := OnWire(z, m);
    OnWireSize(z, m);
    assert Frame(z, m) + rest == Header(w.packet) + (Payload(w.data) + rest);
    HeaderRoundTrip(w.packet, Payload(w.data) + rest);
  }

  /** What a torn frame adds: its header, if that much of it arrived. */
  lemma CountTorn(z: Zstd, s: Stats, m: Message, n: nat)
    requires WellFormed(m) && n < |Frame(z, m)|
    ensures CountRead(s, Frame(z, m)[..n]) == if n >= PACKET_HEADER_SIZE then CountPacket(s, PACKET_HEADER_SIZE) else s
  {
    var w := OnWire(z, m);
    var b := Frame(z, m)[..n];
    OnWireSize(z, m);
    if n >= PACKET_HEADER_SIZE {
      assert b == Header(w.packet) + b[PACKET_HEADER_SIZE..];
      HeaderRoundTrip(w.packet, b[PACKET_HEADER_SIZE..]);
    }
  }

  /** A reader obtains a packet exactly while whole frames are in flight. */
  lemma GotIffWholeFrames(z: Zstd, f: Transfer)
    requires Lossless(z) && Carries(z, f)
    ensures f.got < |f.sent| ==>
              var m := f.sent[f.got];
              var rest := Frames(z, f.sent[f.got + 1..]) + Payload(f.torn);
              && f.flight == Frame(z, m) + rest
              && ReadPacket(z, f.flight) == Got(Seen(z, m).packet, Seen(z, m).data, rest)
    ensures f.got == |f.sent| ==> f.flight == Payload(f.torn) && ReadPacket(z, f.flight) == NeedMore
  {
    hide Add64, Frame, ReadPacket, Seen, WellFormed;
    if f.got < |f.sent| {
      var m := f.sent[f.got];
      var rest := Frames(z, f.sent[f.got + 1..]) + Payload(f.torn);
      assert f.sent[f.got..][1..] == f.sent[f.got + 1..];
      Regroup(Frame(z, m), Frames(z, f.sent[f.got + 1..]), Payload(f.torn));
      FrameRoundTrip(z, m, rest);
    } else if f.torn.Some? {
      var m, n :| WellFormed(m) && 0 <= n < |Frame(z, m)| && f.torn.value == Frame(z, m)[..n];
      CutFrameWaits(z, m, n);
    } else {
      NothingWaits(z);
    }
  }

  lemma NothingWaits(z: Zstd)
    ensures ReadPacket(z, []) == NeedMore
  {
  }

  /** A read takes the next frame off the wire, and counts it whole. */
  lemma ReadTakesFrame(z: Zstd, f: Transfer)
    requires Lossless(z) && Carries(z, f) && CanTransfer(z, f, Read)
    ensures f.got < |f.sent|
    ensures NextTransfer(z, f, Read) == f.(got := f.got + 1,
      flight := Frames(z, f.sent[f.got + 1..]) + Payload(f.torn),
      reader := CountPacket(f.reader, |Frame(z, f.sent[f.got])|))
  {
    GotIffWholeFrames(z, f);
    hide Frame, Frames, ReadPacket, Seen, WellFormed, CountRead, CountPacket, TornFrame, Lossless;
    CountFrame(z, f.reader, f.sent[f.got], Frames(z, f.sent[f.got + 1..]) + Payload(f.torn));
  }

  /** Reading into the torn end happens only after every whole frame was read. */
  lemma ReadEndTakesHeader(z: Zstd, f: Transfer)
    requires Lossless(z) && Carries(z, f) && CanTransfer(z, f, ReadEnd)
    ensures f.got == |f.sent| && !f.ended
    ensures var f' := NextTransfer(z, f, ReadEnd);
      f' == f.(ended := true, reader := if Excess(f') == 1 then CountPacket(f.reader, PACKET_HEADER_SIZE) else f.reader)
  {
    GotIffWholeFrames(z, f);
    hide Frame, Frames, ReadPacket, Seen, WellFormed, CountRead, CountPacket, Lossless;
    var m, n :| WellFormed(m) && 0 <= n < |Frame(z, m)| && f.torn.value == Frame(z, m)[..n];
    CountTorn(z, f.reader, m, n);
  }

  lemma ReadCarries(z: Zstd, f: Transfer, f': Transfer)
    requires Carries(z, f) && f.got < |f.sent| && !f.ended
    requires f' == f.(got := f.got + 1, flight := Frames(z, f.sent[f.got + 1..]) + Payload(f.torn), reader := f'.reader)
    ensures Carries(z, f')
  {
    hide Frames, WellFormed, TornFrame, Payload;
  }

  lemma ReadBooks(z: Zstd, f: Transfer, f': Transfer, s0: Stats, r0: Stats)
    requires f.got < |f.sent| && !f.ended && Booked(z, f, s0, r0)
    requires f' == f.(got := f.got + 1, flight := f'.flight, reader := CountPacket(f.reader, |Frame(z, f.sent[f.got])|))
    ensures Booked(z, f', s0, r0)
  {
    hide Counted, CountPacket, Frame, Frames;
    var m := f.sent[f.got];
    FramesAppend(z, f.sent[..f.got], m);
    assert f.sent[..f.got + 1] == f.sent[..f.got] + [m];
    CountedPacket(f.reader, r0, f.got, |Frames(z, f.sent[..f.got])|, |Frame(z, m)|);
  }

  lemma ReadBalances(z: Zstd, f: Transfer, s0: Stats, r0: Stats)
    requires Lossless(z) && Balanced(z, f, s0, r0) && CanTransfer(z, f, Read)
    ensures Balanced(z, NextTransfer(z, f, Read), s0, r0)
  {
    hide Lossless, NextTransfer, Carries, Booked, CountPacket, Frame, Frames, ReadPacket, Payload;
    ReadTakesFrame(z, f);
    ReadCarries(z, f, NextTransfer(z, f, Read));
    ReadBooks(z, f, NextTransfer(z, f, Read), s0, r0);
  }

  lemma ReadEndBalances(z: Zstd, f: Transfer, s0: Stats, r0: Stats)
    requires Lossless(z) && Balanced(z, f, s0, r0) && CanTransfer(z, f, ReadEnd)
    ensures Balanced(z, NextTransfer(z, f, ReadEnd), s0, r0)
  {
    ReadEndTakesHeader(z, f);
    hide Lossless, CanTransfer, NextTransfer, Counted, CountPacket, Frame, Frames, WellFormed, TornFrame;
    CountedPacket(f.reader, r0, f.got, |Frames(z, f.sent[..f.got])|, PACKET_HEADER_SIZE);
  }

  ghost predicate IsTransfer(z: Zstd, run: seq<Transfer>, events: seq<TransferEvent>, s0: Stats, r0: Stats) {
    && |run| == |events| + 1 && run[0] == Transfer([], None, 0, [], s0, r0, false)
    && forall i :: 0 <= i < |events| ==> CanTransfer(z, run[i], events[i]) && run[i + 1] == NextTransfer(z, run[i], events[i])
  }

  lemma NextBalances(z: Zstd, f: Transfer, e: TransferEvent, s0: Stats, r0: Stats)
    requires Lossless(z) && Balanced(z, f, s0, r0) && CanTransfer(z, f, e)
    ensures Balanced(z, NextTransfer(z, f, e), s0, r0)
  {
    hide Balanced, CanTransfer, NextTransfer, Lossless;
    match e
    case Send(m) => SendBalances(z, f, m, s0, r0);
    case Tear(m, k) => TearBalances(z, f, m, k, s0, r0);
    case Read => ReadBalances(z, f, s0, r0);
    case ReadEnd => ReadEndBalances(z, f, s0, r0);
  }

  lemma {:induction false} RunBalanced(z: Zstd, run: seq<Transfer>, events: seq<TransferEvent>, s0: Stats, r0: Stats)
    requires Lossless(z) && IsTransfer(z, run, events, s0, r0)
    ensures Balanced(z, run[|run| - 1], s0, r0)
  {
    if |events| > 0 {
      hide Balanced, CanTransfer, NextTransfer, Lossless;
      var n := |events| - 1;
      var before := run[..n + 1];
      RunBalanced(z, before, events[..n], s0, r0);
      assert before[n] == run[n];
      NextBalances(z, run[n], events[n], s0, r0);
    } else {
      StartBalanced(z, s0, r0);
    }
  }

  lemma StartBalanced(z: Zstd, s0: Stats, r0: Stats)
    ensures Balanced(z, Transfer([], None, 0, [], s0, r0, false), s0, r0)
  {
  }

  /** In counters that wrap around: the sender has counted exactly the completed frames and their bytes;
      the reader lags by exactly the frames and bytes in flight; and after a send was torn and the reader
      ran into it, the reader has counted the torn header beyond that, if all of it arrived. */
  ghost predicate Conserved(z: Zstd, f: Transfer, s0: Stats, r0: Stats) {
    && f.got <= |f.sent| && f.flight == Frames(z, f.sent[f.got..]) + Payload(f.torn)
    && f.sender == Stats(s0.packetsIn, Add64(s0.packetsOut, |f.sent|), s0.bytesIn, Add64(s0.bytesOut, |Frames(z, f.sent)|))
    && f.reader.packetsOut == r0.packetsOut && f.reader.bytesOut == r0.bytesOut
    && Add64(f.reader.packetsIn, |f.sent[f.got..]|) == Add64(r0.packetsIn, |f.sent| + Excess(f))
    && Add64(f.reader.bytesIn, |Frames(z, f.sent[f.got..])|)
       == Add64(r0.bytesIn, |Frames(z, f.sent)| + PACKET_HEADER_SIZE * Excess(f))
  }

  lemma BalancedConserves(z: Zstd, f: Transfer, s0: Stats, r0: Stats)
    requires Balanced(z, f, s0, r0)
    ensures Conserved(z, f, s0, r0)
  {
    Add64Zero(s0.packetsIn);
    Add64Zero(s0.bytesIn);
    Add64Zero(r0.packetsOut);
    Add64Zero(r0.bytesOut);
    hide Add64, Frame, Frames, WellFormed, TornFrame, Payload;
    assert f.sent == f.sent[..f.got] + f.sent[f.got..];
    FramesConcat(z, f.sent[..f.got], f.sent[f.got..]);
    Add64Twice(r0.packetsIn, f.got + Excess(f), |f.sent[f.got..]|);
    Add64Twice(r0.bytesIn, |Frames(z, f.sent[..f.got])| + PACKET_HEADER_SIZE * Excess(f), |Frames(z, f.sent[f.got..])|);
  }

  /** Traffic is conserved at every point of every run between whole sends and reads. */
  lemma TrafficConserved(z: Zstd, run: seq<Transfer>, events: seq<TransferEvent>, s0: Stats, r0: Stats)
    requires Lossless(z) && IsTransfer(z, run, events, s0, r0)
    ensures Conserved(z, run[|run| - 1], s0, r0)
  {
    RunBalanced(z, run, events, s0, r0);
    BalancedConserves(z, run[|run| - 1], s0, r0);
  }

  lemma Add64Zero(a: u64)
    ensures Add64(a, 0) == a
  {
  }
}
