/** What the invariant means for the applications at the two ends of every link. */
module TunnelTheorems {
  import opened Bytes
  import opened Packets
  import opened Compression
  import opened Framing
  import opened Links
  import opened LinkServer
  import opened LinkClient
  import opened LinkProtocol
  import opened Wires
  import opened Tunnel
  import opened TunnelInv
  import opened TunnelWires
  import opened TunnelClients
  import opened TunnelReads
  import opened TunnelRuns

  // ----- One link -----

  /** Each application has been sent a prefix of what the other application said. */
  ghost predicate StreamsPrefix(v: View) {
    if v.c.Some? then
      v.c.value.link.written <= v.t.read && v.t.link.written <= v.c.value.read
    else v.t.link.written == []
  }

  lemma FlowBound(v: View)
    requires LinkInv(v)
    ensures Datas(v.slog) <= v.t.read
    ensures v.c.Some? ==> Datas(v.clog) <= v.c.value.read
    ensures v.c.None? ==> Datas(v.clog) == []
  {
    hide ClientDelivery, ServerDelivery, ClientCounters, ServerSide;
    if v.clog == [MOpenFail] {
      SingleDatas(MOpenFail);
    }
    assert Datas([]) == [];
    hide Datas;
  }

  lemma LinkStreams(v: View)
    requires LinkInv(v)
    ensures StreamsPrefix(v)
  {
    FlowBound(v);
    DatasMonotone(ClientHandled(v.ch, v.cp), v.ch);
    DatasMonotone(v.ch, v.slog);
    DatasMonotone(ServerHandled(v.sh, v.sp), v.sh);
    DatasMonotone(v.sh, v.clog);
    hide Datas, ServerFlow, ClientFlow, ClientSide, ServerSide, ClientCounters;
  }

  // ----- Runs -----

  /** The state reached after `i` steps of a run whose live ids stay distinct. */
  ghost predicate Reached(z: Zstd, run: seq<System>, acts: seq<Act>, i: nat, s: System) {
    Lossless(z) && IsRun(z, run, acts) && Disciplined(run, acts) && i < |run| && s == run[i]
  }

  lemma ReachedInv(z: Zstd, run: seq<System>, acts: seq<Act>, i: nat, s: System)
    requires Reached(z, run, acts, i, s)
    ensures Inv(z, s)
  {
    RunInv(z, run, acts);
    hide Inv, IsRun, Disciplined;
  }

  /** Multiplexing preserves every stream: under every interleaving, what the application behind the client has
      been sent over link `o` is a prefix of what was read from the application at the server for that link,
      and the other way round; nothing from another link is mixed in. */
  lemma StreamsPreserved(z: Zstd, run: seq<System>, acts: seq<Act>, i: nat, s: System, p: nat, o: nat)
    requires Reached(z, run, acts, i, s) && p in s.cl && o in s.cl[p].objs
    ensures o < |s.sv.tasks|
    ensures s.cl[p].objs[o].link.written <= s.sv.tasks[o].read
    ensures s.sv.tasks[o].link.written <= s.cl[p].objs[o].read
  {
    hide Reached, Inv, ViewOf, LinkInv;
    ReachedInv(z, run, acts, i, s);
    ObjView(z, s, p, o);
    TaskPart(z, s, o);
    LinkStreams(ViewOf(s, o));
    ViewRecord(s, o);
  }

  lemma ViewRecord(s: System, k: nat)
    requires k < |s.sv.tasks|
    ensures ViewOf(s, k).t == s.sv.tasks[k]
    ensures forall c :: On(s, k, c) ==>
      && ViewOf(s, k).c == CliLink(s, c, k)
      && ViewOf(s, k).slog == Proj(s.pipes[c].s2c.sent, k) && ViewOf(s, k).clog == Proj(s.pipes[c].c2s.sent, k)
      && ViewOf(s, k).ch == Proj(s.pipes[c].s2c.sent[..ReadCount(s.pipes[c].s2c)], k)
      && ViewOf(s, k).sh == Proj(s.pipes[c].c2s.sent[..ReadCount(s.pipes[c].c2s)], k)
      && ViewOf(s, k).sp == SrvPhase(s, c, k) && ViewOf(s, k).cp == CliPhase(s, c, k)
      && ViewOf(s, k).sreg == SrvRegistered(s, k) && ViewOf(s, k).creg == CliRegistered(s, c, s.sv.tasks[k].id, k)
  {
    hide Proj, PhaseOf, ClientPhaseOf;
  }

  /** An application whose link was never opened at the client is sent nothing. */
  lemma UnopenedGetsNothing(z: Zstd, run: seq<System>, acts: seq<Act>, i: nat, s: System, k: nat)
    requires Reached(z, run, acts, i, s) && k < |s.sv.tasks|
    requires forall p :: p in s.cl ==> k !in s.cl[p].objs
    ensures s.sv.tasks[k].link.written == []
  {
    hide Reached, Inv, LinkInv;
    ReachedInv(z, run, acts, i, s);
    TaskPart(z, s, k);
    LinkStreams(ViewOf(s, k));
    hide Proj, PhaseOf, ClientPhaseOf;
  }

  // ----- Per-link trace grammar -----

  predicate IsControl(m: Message) {
    m.packet.ptype.Ping? || m.packet.ptype.Pong?
  }

  /** The packets of one link id on a wire, in order; keep-alive packets belong to no link. */
  function IdTrace(ts: seq<Tagged>, id: u16): seq<Msg> {
    if ts == [] then [] else
      var m := ts[|ts| - 1].m;
      IdTrace(ts[..|ts| - 1], id) + (if !IsControl(m) && m.packet.linkId == id then [Abs(m)] else [])
  }

  /** As long as link `k` is the only one that used its id on a wire, the packets with that id are its packets. */
  lemma {:induction false} TraceIsProj(ts: seq<Tagged>, id: u16, k: nat)
    requires forall i :: 0 <= i < |ts| ==> (ts[i].tag == Some(k) <==> !IsControl(ts[i].m) && ts[i].m.packet.linkId == id)
    ensures IdTrace(ts, id) == Proj(ts, k)
  {
    if ts != [] {
      TraceIsProj(ts[..|ts| - 1], id, k);
    }
  }

  /** In every run, what a wire carries for one link id, until that id is used for another link on the same
      connection, is a prefix of Open, data, Close from the server, and from the client exactly OpenFail
      or a prefix of Opened, data, Close.  The same holds of each link's own packets without any proviso. */
  lemma TraceGrammar(z: Zstd, run: seq<System>, acts: seq<Act>, i: nat, s: System, k: nat, c: nat)
    requires Reached(z, run, acts, i, s) && k < |s.sv.tasks| && On(s, k, c)
    ensures ServerGrammar(Proj(s.pipes[c].s2c.sent, k)) && ClientGrammar(Proj(s.pipes[c].c2s.sent, k))
    ensures (forall j :: 0 <= j < |s.sv.tasks| && j != k && s.sv.tasks[j].conn == Some(c) ==>
               s.sv.tasks[j].id != s.sv.tasks[k].id) ==>
              && ServerGrammar(IdTrace(s.pipes[c].s2c.sent, s.sv.tasks[k].id))
              && ClientGrammar(IdTrace(s.pipes[c].c2s.sent, s.sv.tasks[k].id))
  {
    hide Reached, Inv, ViewOf, LinkInv, WireOk, Proj, IdTrace;
    ReachedInv(z, run, acts, i, s);
    TaskPart(z, s, k);
    Grammar(ViewOf(s, k));
    ViewRecord(s, k);
    if forall j :: 0 <= j < |s.sv.tasks| && j != k && s.sv.tasks[j].conn == Some(c) ==> s.sv.tasks[j].id != s.sv.tasks[k].id {
      PipePart(z, s, c);
      TraceIsProj(s.pipes[c].s2c.sent, s.sv.tasks[k].id, k);
      TraceIsProj(s.pipes[c].c2s.sent, s.sv.tasks[k].id, k);
    }
  }

  // ----- Server to client: nothing dispatched is missing -----

  /** What client `p` has taken off its current connection for link `k`. */
  function TakenBy(s: System, p: nat, k: nat): seq<Msg>
    requires OnPipe(s, p)
  {
    var w := s.pipes[s.cl[p].conn].s2c;
    Proj(w.sent[..ReadCount(w)], k)
  }

  /** Whenever the client's loop is between packets, every link in its registry is connected and its application
      has been sent every payload dispatched for it, unless that application's socket failed. */
  lemma DispatchedIsDelivered(z: Zstd, run: seq<System>, acts: seq<Act>, i: nat, s: System, p: nat, id: u16)
    requires Reached(z, run, acts, i, s) && p in s.cl && s.cl[p].loop.Ready? && id in s.cl[p].reg
    ensures var k := s.cl[p].reg[id];
      && OnPipe(s, p) && k in s.cl[p].objs && s.cl[p].objs[k].link.state.Connected?
      && (s.cl[p].objs[k].link.open ==> s.cl[p].objs[k].link.written == Datas(TakenBy(s, p, k)))
  {
    hide Reached, Inv, ViewOf, Live;
    ReachedInv(z, run, acts, i, s);
    ProcPart(z, s, p);
    var k := s.cl[p].reg[id];
    ObjView(z, s, p, k);
    TaskPart(z, s, k);
    ViewRecord(s, k);
    hide ServerInv, ClientSide, ClientCounters, Proj, Datas;
  }

  /** When the client comes to handle the server's `Close` for a link it still has, the application has been
      sent everything that was ever read at the other end, unless its socket failed. */
  lemma CloseFindsAllDelivered(z: Zstd, run: seq<System>, acts: seq<Act>, i: nat, s: System, p: nat)
    requires Reached(z, run, acts, i, s) && p in s.cl && s.cl[p].loop.Taken?
    requires s.cl[p].loop.packet.ptype.Close? && s.cl[p].loop.packet.linkId in s.cl[p].reg
    ensures var k := s.cl[p].reg[s.cl[p].loop.packet.linkId];
      && k in s.cl[p].objs && k < |s.sv.tasks|
      && (s.cl[p].objs[k].link.open ==> s.cl[p].objs[k].link.written == s.sv.tasks[k].read)
  {
    hide Reached, Inv, ViewOf, Live, LinkInv;
    ReachedInv(z, run, acts, i, s);
    TaggedClient(z, s, p);
    ProcPart(z, s, p);
    var k := s.cl[p].reg[s.cl[p].loop.packet.linkId];
    ObjView(z, s, p, k);
    TaskPart(z, s, k);
    ViewRecord(s, k);
    CloseIsLast(ViewOf(s, k));
  }

  lemma CloseIsLast(v: View)
    requires LinkInv(v) && v.cp == CHeld(MClose) && v.creg
    ensures v.c.Some? && (v.c.value.link.open ==> v.c.value.link.written == v.t.read)
  {
    HeldShapes(v);
    var n := |v.ch|;
    assert v.ch[n - 1] == MClose;
    assert v.slog[n - 1] == MClose;
    ClosedLog(v.t.stage, v.t.read, v.slog, v.sb, n);
    assert v.ch == v.slog;
    assert Datas(v.ch) == Datas(v.ch[..n - 1]);
    hide Datas, ServerFlow, ClientSide, ServerSide, ClientCounters, ServerDelivery;
  }

  lemma ClosedLog(stage: Stage, read: bytes, log: seq<Msg>, broken: bool, n: nat)
    requires ServerFlow(stage, read, log, broken) && 2 <= n <= |log| && log[n - 1] == MClose
    ensures n == |log| && Datas(log) == read
  {
    hide Datas;
  }

  /** Handling `Open` never finds the link already there: the client's answer is never blocked. */
  lemma OpenIsFirst(z: Zstd, run: seq<System>, acts: seq<Act>, i: nat, s: System, p: nat)
    requires Reached(z, run, acts, i, s) && p in s.cl && s.cl[p].loop.Taken? && s.cl[p].loop.packet.ptype.Open?
    ensures CanAct(z, s, CliDial(p))
  {
    hide Reached, Inv, ViewOf, LinkInv;
    ReachedInv(z, run, acts, i, s);
    TaggedClient(z, s, p);
    var c := s.cl[p].conn;
    var k := s.pipes[c].ctag.value;
    TaskPart(z, s, k);
    ViewRecord(s, k);
    OpenHeldFresh(ViewOf(s, k));
  }

  lemma OpenHeldFresh(v: View)
    requires LinkInv(v) && v.cp == CHeld(MOpen)
    ensures v.c.None?
  {
    HeldShapes(v);
    hide ServerInv, Datas;
  }

  // ----- A link ends at both sides -----

  /** What the server has taken off connection `c` for link `k`. */
  function TakenAt(s: System, c: nat, k: nat): seq<Msg>
    requires c in s.pipes
  {
    var w := s.pipes[c].c2s;
    Proj(w.sent[..ReadCount(w)], k)
  }

  /** Once a dispatch loop has dealt with the far side's `Close` or `OpenFail` for a link, the link is out of the
      registry: what is still registered has been sent neither. */
  lemma EndTearsDown(z: Zstd, run: seq<System>, acts: seq<Act>, i: nat, s: System, k: nat, c: nat)
    requires Reached(z, run, acts, i, s) && k < |s.sv.tasks| && On(s, k, c)
    ensures SrvRegistered(s, k) && c in s.sv.conns && !s.sv.conns[c].loop.Held? && !s.sv.conns[c].loop.Unlink? ==>
              MClose !in TakenAt(s, c, k) && MOpenFail !in TakenAt(s, c, k)
    ensures var p := s.pipes[c].proc;
      OnPipe(s, p) && s.cl[p].conn == c && !s.cl[p].loop.Taken? && CliRegistered(s, c, s.sv.tasks[k].id, k) ==>
        MClose !in TakenBy(s, p, k)
  {
    hide Reached, Inv, ViewOf, Live, Proj, LinkInv;
    ReachedInv(z, run, acts, i, s);
    TaskPart(z, s, k);
    ViewRecord(s, k);
    EndIsLast(ViewOf(s, k));
  }

  /** `Close` and `OpenFail` come last, so a part of a log that does not end in one has none. */
  lemma NoneInside(log: seq<Msg>, part: seq<Msg>)
    requires (ServerGrammar(log) || ClientGrammar(log)) && part <= log && !EndsIn(part)
    ensures MClose !in part && MOpenFail !in part
  {
    forall j | 0 <= j < |part| ensures part[j] != MClose && part[j] != MOpenFail {
      assert part[j] == log[j];
    }
  }

  lemma EndIsLast(v: View)
    requires LinkInv(v)
    ensures v.sreg && !v.sp.PHeld? && !v.sp.PUnlink? ==> MClose !in v.sh && MOpenFail !in v.sh
    ensures v.creg && !v.cp.CHeld? ==> MClose !in v.ch
  {
    Grammar(v);
    hide ServerFlow, ClientSide, ServerSide, ClientDelivery, ServerDelivery, ClientCounters, ServerGrammar, ClientGrammar;
    if v.sreg && !v.sp.PHeld? && !v.sp.PUnlink? {
      NoneInside(v.clog, v.sh);
    }
    if v.creg && !v.cp.CHeld? {
      NoneInside(v.slog, v.ch);
    }
  }

  // ----- Client counters -----

  /** Between iterations of a client link's loop its `bytes_in` is the total length of the payloads it has sent,
      modulo 2^64, and at every moment its `bytes_out` is the total delivered to its application, less what
      a torn write let through. */
  lemma CountersExact(z: Zstd, run: seq<System>, acts: seq<Act>, i: nat, s: System, p: nat, o: nat)
    requires Reached(z, run, acts, i, s) && p in s.cl && o in s.cl[p].objs && s.cl[p].objs[o].conn in s.pipes
    ensures var l := s.cl[p].objs[o]; var sent := Proj(s.pipes[l.conn].c2s.sent, o);
      && (!l.stage.Counting? ==> l.link.bytesIn == |Datas(sent)| % U64_SIZE)
      && l.link.torn <= |l.link.written| && l.link.bytesOut == (|l.link.written| - l.link.torn) % U64_SIZE
  {
    hide Reached, Inv, ViewOf, Live, ServerInv, ClientSide, ClientDelivery, Proj, Datas;
    ReachedInv(z, run, acts, i, s);
    ObjView(z, s, p, o);
    TaskPart(z, s, o);
    ViewRecord(s, o);
  }
}
