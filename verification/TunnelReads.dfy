/** Reading a packet at the server, and the steps of the server as a whole, keep the invariant. */
module TunnelReads {
  import opened Bytes
  import opened Packets
  import opened Compression
  import opened Framing
  import opened Links
  import opened LinkServer
  import opened LinkClient
  import opened LinkProtocol
  import opened Wires
  import opened Tunnel
  import opened TunnelInv
  import opened TunnelWires
  import opened TunnelServer
  import opened TunnelLoops

  // ----- The server takes a packet -----

  predicate CanRecv(z: Zstd, s: System, c: nat) {
    c in s.sv.conns && s.sv.conns[c].loop.Idle? && c in s.pipes && MayTake(z, s.pipes[c].c2s)
  }

  function DispatchOf(z: Zstd, s: System, c: nat): Loop
    requires CanRecv(z, s, c)
  {
    var m := Received(z, s.pipes[c].c2s);
    Dispatch(m.packet, m.data)
  }

  function AfterRecv(z: Zstd, s: System, c: nat): System
    requires CanRecv(z, s, c)
  {
    s.(sv := s.sv.(conns := s.sv.conns[c := s.sv.conns[c].(loop := DispatchOf(z, s, c))]),
       pipes := TakeForServer(z, s.pipes, c))
  }

  /** The packet taken is the next one written: its type, link and payload are the writer's. */
  lemma RecvIsNext(z: Zstd, s: System, c: nat)
    requires Lossless(z) && Inv(z, s) && CanRecv(z, s, c)
    ensures var w := s.pipes[c].c2s; var m := Received(z, w);
      && w.got < |w.sent| && NextTag(w) == w.sent[w.got].tag
      && CliTagOk(s.sv.tasks, c, w.sent[w.got])
      && m.packet.ptype == w.sent[w.got].m.packet.ptype && m.packet.linkId == w.sent[w.got].m.packet.linkId
      && Payload(m.data) == Payload(w.sent[w.got].m.data)
      && Abs(m) == Abs(w.sent[w.got].m)
  {
    hide Inv, MayTake, WireOk, CliTagOk, SrvTagOk, ReadPacket, OnWire;
    PipePart(z, s, c);
    TakeIsNext(z, s.pipes[c].c2s);
    hide Received;
  }

  /** Before the take, the link that owns the packet sees it as the next entry of the client's log. */
  lemma RecvView(z: Zstd, s: System, c: nat, k: nat)
    requires Lossless(z) && Inv(z, s) && CanRecv(z, s, c) && k < |s.sv.tasks|
    ensures var w := s.pipes[c].c2s;
      var v, v1 := ViewOf(s, k), ViewOf(s.(pipes := TakeForServer(z, s.pipes, c)), k);
      && w.got < |w.sent| && LinkInv(v)
      && v1 == (if On(s, k, c) && w.sent[w.got].tag == Some(k) then v.(sh := v.sh + [Abs(w.sent[w.got].m)]) else v)
      && (On(s, k, c) ==> v.sup && v.sp.PNone?)
      && (On(s, k, c) && w.sent[w.got].tag == Some(k) ==>
            |v.sh| < |v.clog| && v.clog[|v.sh|] == Abs(w.sent[w.got].m))
  {
    hide Inv, MayTake, WireOk, ViewOf, LinkInv, Proj, ReadPacket, Abs;
    var P := s.pipes[c];
    var w := P.c2s;
    var w' := TakeFrame(z, w);
    TaskPart(z, s, k);
    RecvIsNext(z, s, c);
    ProjTake(w.sent, w.got, k);
    WiresView(s, c, P.s2c, w', k);
    var s1 := s.(pipes := s.pipes[c := P.(s2c := P.s2c, c2s := w')]);
    RetagView(s1, c, NextTag(w), P.ctag, k);
    assert s1.pipes[c := s1.pipes[c].(stag := NextTag(w), ctag := P.ctag)] == TakeForServer(z, s.pipes, c);
    IdleView(s, c, k);
  }

  lemma IdleView(s: System, c: nat, k: nat)
    requires c in s.sv.conns && s.sv.conns[c].loop.Idle? && c in s.pipes && k < |s.sv.tasks|
    ensures On(s, k, c) ==> ViewOf(s, k).sup && ViewOf(s, k).sp.PNone?
  {
    hide Proj, ClientPhaseOf;
  }

  /** How the loop goes on with a packet of a link, and with one of no link. */
  lemma DispatchTagged(m: Message, x: Tagged, tasks: seq<Task>, c: nat)
    requires CliTagOk(tasks, c, x) && m.packet.ptype == x.m.packet.ptype && m.packet.linkId == x.m.packet.linkId
    requires Payload(m.data) == Payload(x.m.data)
    requires x.tag.Some? && Abs(x.m).MData? ==> Data(Abs(x.m))
    ensures var l := Dispatch(m.packet, m.data);
      && LoopReads(l) && !l.CleanClose?
      && (x.tag.None? ==> PhaseOf(l).PNone?)
      && (x.tag.Some? ==> PhaseOf(l) == PHeld(Abs(x.m)) && LoopOk(tasks, c, l, x.tag))
  {
  }

  lemma RecvSetup(z: Zstd, s: System, c: nat)
    requires Lossless(z) && Inv(z, s) && CanRecv(z, s, c)
    ensures var w := s.pipes[c].c2s;
      && w.got < |w.sent| && NextTag(w) == w.sent[w.got].tag
      && var x := w.sent[w.got]; var l := DispatchOf(z, s, c);
         && LoopReads(l) && !l.CleanClose?
         && (x.tag.None? ==> PhaseOf(l).PNone?)
         && (x.tag.Some? ==>
               && x.tag.value < |s.sv.tasks| && On(s, x.tag.value, c)
               && PhaseOf(l) == PHeld(Abs(x.m)) && LoopOk(s.sv.tasks, c, l, x.tag))
  {
    hide Inv, MayTake, LinkInv, ViewOf, ReadPacket, Received, Abs, PhaseOf, LoopOk;
    RecvIsNext(z, s, c);
    var w := s.pipes[c].c2s;
    var x := w.sent[w.got];
    if x.tag.Some? {
      var k := x.tag.value;
      assert On(s, k, c);
      RecvView(z, s, c, k);
      DataNotFirst(ViewOf(s, k));
    }
    DispatchTagged(Received(z, w), x, s.sv.tasks, c);
  }

  lemma DataNotFirst(v: View)
    requires LinkInv(v)
    ensures |v.sh| < |v.clog| && v.clog[|v.sh|].MData? ==> Data(v.clog[|v.sh|])
    ensures |v.ch| < |v.slog| && v.slog[|v.ch|].MData? ==> Data(v.slog[|v.ch|])
  {
    Grammar(v);
    hide LinkInv;
  }

  lemma RecvStructure(z: Zstd, s: System, c: nat)
    requires Lossless(z) && Inv(z, s) && CanRecv(z, s, c)
    ensures Structure(z, AfterRecv(z, s, c))
  {
    var s' := AfterRecv(z, s, c);
    hide DispatchOf, Inv, MayTake, ReadPacket, Received, PhaseOf, LoopOk, TasksOk, LoopsOk, PipesOk, TagsOk, ProcsOk,
      NoLeaks, ViewsOk, LiveDistinct, CleanCloseOk, Lifecycle, ProcOk, ObjsOk;
    Parts(z, s);
    RecvSetup(z, s, c);
    TakeKeepsWires(z, s, c);
    var pipes' := TakeForServer(z, s.pipes, c);
    assert s'.pipes == pipes' && s'.cl == s.cl && s'.sv.tasks == s.sv.tasks;
    TasksPlaced(s.sv.tasks, s.pipes, pipes');
    assert ProcsOk(s.sv.tasks, pipes', s.cl) by {
      ProcsRetagged(s.sv.tasks, s.pipes, c, TakeFrame(z, s.pipes[c].c2s), NextTag(s.pipes[c].c2s), s.cl);
    }
    assert LoopsOk(s'.sv, pipes') by {
      RecvLoops(z, s, c);
    }
  }

  lemma ProcsRetagged(tasks: seq<Task>, pipes: map<nat, Pipe>, c: nat, w: Wire, stag: Option<nat>, cl: map<nat, Client>)
    requires ProcsOk(tasks, pipes, cl) && c in pipes
    ensures ProcsOk(tasks, pipes[c := pipes[c].(c2s := w, stag := stag)], cl)
  {
    hide Lifecycle, ClientPhaseOf, ClientReads;
    var pipes' := pipes[c := pipes[c].(c2s := w, stag := stag)];
    forall p | p in cl
      ensures ProcOk(tasks, pipes', p, cl[p]) && ObjsOk(tasks, pipes', p, cl[p].objs)
    {
      assert ProcOk(tasks, pipes, p, cl[p]) && ObjsOk(tasks, pipes, p, cl[p].objs);
    }
  }

  lemma RecvLoops(z: Zstd, s: System, c: nat)
    requires Lossless(z) && Inv(z, s) && CanRecv(z, s, c)
    ensures LoopsOk(AfterRecv(z, s, c).sv, TakeForServer(z, s.pipes, c))
  {
    hide DispatchOf, Inv, MayTake, ReadPacket, LoopOk, PhaseOf, LoopReads, TakeFrame, LoopsOk, NoLeaks, ViewsOk,
      LiveDistinct, PipesOk, TagsOk, TasksOk, ProcsOk;
    RecvSetup(z, s, c);
    Parts(z, s);
    var l := DispatchOf(z, s, c);
    var stag := NextTag(s.pipes[c].c2s);
    NoPhaseNoTag(s.sv.tasks, c, l, stag);
    LoopsRetagged(s.sv, s.pipes, TakeForServer(z, s.pipes, c), c, l);
  }

  lemma LoopsRetagged(sv: Server, pipes: map<nat, Pipe>, pipes': map<nat, Pipe>, c: nat, l: Loop)
    requires LoopsOk(sv, pipes) && c in sv.conns && pipes'.Keys == pipes.Keys && c in pipes
    requires forall d :: d in pipes && d != c ==> pipes'[d].stag == pipes[d].stag
    requires LoopOk(sv.tasks, c, l, pipes'[c].stag) && !l.CleanClose?
    ensures LoopsOk(sv.(conns := sv.conns[c := sv.conns[c].(loop := l)]), pipes')
  {
    hide LoopOk;
  }

  lemma NoPhaseNoTag(tasks: seq<Task>, c: nat, l: Loop, stag: Option<nat>)
    requires PhaseOf(l).PNone? || LoopOk(tasks, c, l, stag)
    ensures LoopOk(tasks, c, l, stag)
  {
  }

  lemma RecvViewsKept(z: Zstd, s: System, c: nat, k: nat)
    requires Lossless(z) && Inv(z, s) && CanRecv(z, s, c) && k < |s.sv.tasks|
    ensures Keeps(ViewOf(s, k), ViewOf(AfterRecv(z, s, c), k))
  {
    var s' := AfterRecv(z, s, c);
    hide DispatchOf, Inv, MayTake, ReadPacket, ViewOf, LinkInv, Keeps, PhaseOf, LoopOk, LoopReads;
    RecvSetup(z, s, c);
    RecvView(z, s, c, k);
    var s1 := s.(pipes := TakeForServer(z, s.pipes, c));
    SvLoopView(s1, s'.sv, c, s'.sv.conns[c].loop, k);
    assert On(s1, k, c) == On(s, k, c);
    var v := ViewOf(s, k);
    KeepsSelf(v);
    var x := s.pipes[c].c2s.sent[s.pipes[c].c2s.got];
    if On(s, k, c) && x.tag == Some(k) {
      ServerTakeKeeps(v);
    }
  }

  lemma ConnsAside(sv: Server, sv': Server)
    requires NoLeaks(sv) && sv' == sv.(conns := sv'.conns)
    ensures NoLeaks(sv')
  {
  }

  lemma RecvKeeps(z: Zstd, s: System, c: nat)
    requires Lossless(z) && Inv(z, s) && CanRecv(z, s, c)
    ensures Inv(z, AfterRecv(z, s, c))
  {
    var s' := AfterRecv(z, s, c);
    hide Inv, Structure, ViewOf, LinkInv, NoLeaks, ViewsOk, LiveDistinct, Keeps, ReadPacket, MayTake;
    Parts(z, s);
    RecvStructure(z, s, c);
    ConnsAside(s.sv, s'.sv);
    hide AfterRecv;
    forall j | 0 <= j < |s.sv.tasks| ensures Keeps(ViewOf(s, j), ViewOf(s', j)) {
      RecvViewsKept(z, s, c, j);
    }
    ViewsKeptSuffices(s, s');
    InvFromParts(z, s');
  }

  // ----- The other steps of the server -----

  lemma PongKeeps(z: Zstd, s: System, c: nat, pid: u64, out: SendOutcome)
    requires Inv(z, s) && c in s.sv.conns && s.sv.conns[c].loop.PongDue? && c in s.pipes
    requires MayPut(z, s.pipes[c].s2c, Control(PacketType.Pong, pid, 0), out)
    ensures LoopEnabled(s.sv, c, PongSent)
    ensures Inv(z, s.(sv := StepLoop(s.sv, c, PongSent),
                      pipes := ToClient(z, s, c, Tagged(None, Control(PacketType.Pong, pid, 0)), out)))
  {
    hide Inv, MayPut, Control, WellFormed, SrvTagOk;
    var m := Control(PacketType.Pong, pid, 0);
    ControlOk(s, c, PacketType.Pong, pid);
    ControlToClient(z, s, c, m, out);
    var s1 := s.(pipes := ToClient(z, s, c, Tagged(None, m), out));
    LoopStepKeeps(z, s1, c, PongSent);
    hide ToClient, StepLoop;
  }

  /** A new task starts with nothing on any wire. */
  lemma AllocKeeps(z: Zstd, s: System)
    requires Inv(z, s) && FreshId(s)
    ensures Inv(z, s.(sv := Step(s.sv, Alloc)))
  {
    var s' := s.(sv := Step(s.sv, Alloc));
    var n := |s.sv.tasks|;
    hide Inv, TasksOk, LoopsOk, PipesOk, TagsOk, ProcsOk, NoLeaks, ViewsOk, LiveDistinct, ViewOf, LinkInv, Live, Stable;
    Parts(z, s);
    assert Stable(s.sv.tasks, s'.sv.tasks) by { AppendStable(s.sv.tasks, s'.sv.tasks[n]); }
    TagsStable(s.sv.tasks, s'.sv.tasks, s.pipes);
    ProcsStable(s.sv.tasks, s'.sv.tasks, s.pipes, s.cl);
    AllocTasks(s.sv.tasks, s'.sv.tasks[n], s.pipes);
    AllocLoops(s.sv, s.pipes);
    AllocNextFree(s);
    StepKeepsNoLeaks(s.sv, Alloc);
    forall k | 0 <= k < n ensures ViewOf(s', k) == ViewOf(s, k) {
      AllocView(s, k);
      LinksInRange(s.sv);
    }
    LinksInRange(s.sv);
    NewView(s);
    assert ViewsOk(s') by { AllocViews(s, s'); }
    assert LiveDistinct(s') by { AllocDistinct(s, s'); }
    InvFromParts(z, s');
  }

  /** The id about to be issued belongs to no live link. */
  ghost predicate FreshId(s: System) {
    forall k :: 0 <= k < |s.sv.tasks| && Live(ViewOf(s, k)) ==> s.sv.tasks[k].id != s.sv.counter
  }

  lemma AppendStable(tasks: seq<Task>, t: Task)
    ensures Stable(tasks, tasks + [t])
  {
  }

  lemma AllocTasks(tasks: seq<Task>, t: Task, pipes: map<nat, Pipe>)
    requires TasksOk(tasks, pipes) && t.stage.Picking? && t.conn.None?
    ensures TasksOk(tasks + [t], pipes)
  {
    forall k | 0 <= k < |tasks| ensures TaskOk((tasks + [t])[k], k, pipes) {
      assert TaskOk(tasks[k], k, pipes);
    }
  }

  lemma AllocLoops(sv: Server, pipes: map<nat, Pipe>)
    requires LoopsOk(sv, pipes)
    ensures LoopsOk(Step(sv, Alloc), pipes)
  {
    var sv' := Step(sv, Alloc);
    assert sv'.tasks[..|sv.tasks|] == sv.tasks;
    hide PhaseOf;
    forall c | c in sv'.conns
      ensures LoopOk(sv'.tasks, c, sv'.conns[c].loop, pipes[c].stag) && CleanCloseOk(sv', sv'.conns[c].loop)
    {
      assert LoopOk(sv.tasks, c, sv.conns[c].loop, pipes[c].stag) && CleanCloseOk(sv, sv.conns[c].loop);
    }
  }

  lemma AllocNextFree(s: System)
    requires FreshId(s)
    ensures NextIdFree(s.sv)
  {
    hide Live, ViewOf;
    forall k | 0 <= k < |s.sv.tasks| && Unfinished(s.sv.tasks[k])
      ensures s.sv.tasks[k].id != s.sv.counter
    {
      UnfinishedLive(s, k);
    }
  }

  lemma LinksInRange(sv: Server)
    requires NoLeaks(sv)
    ensures forall id :: id in sv.links ==> sv.links[id] < |sv.tasks|
  {
  }

  lemma AllocView(s: System, k: nat)
    requires k < |s.sv.tasks|
    ensures ViewOf(s.(sv := Step(s.sv, Alloc)), k) == ViewOf(s, k)
  {
    var sv' := Step(s.sv, Alloc);
    assert sv'.tasks[k] == s.sv.tasks[k];
    SvView(s, sv', k);
    hide ViewOf;
  }

  lemma NewView(s: System)
    requires forall id :: id in s.sv.links ==> s.sv.links[id] < |s.sv.tasks|
    ensures var s' := s.(sv := Step(s.sv, Alloc));
      LinkInv(ViewOf(s', |s.sv.tasks|)) && s'.sv.tasks[|s.sv.tasks|].id == s.sv.counter
  {
    assert Datas([]) == [];
  }

  lemma AllocViews(s: System, s': System)
    requires ViewsOk(s) && |s'.sv.tasks| == |s.sv.tasks| + 1 && LinkInv(ViewOf(s', |s.sv.tasks|))
    requires forall k :: 0 <= k < |s.sv.tasks| ==> ViewOf(s', k) == ViewOf(s, k)
    ensures ViewsOk(s')
  {
    hide ViewOf, LinkInv;
  }

  lemma AllocDistinct(s: System, s': System)
    requires LiveDistinct(s) && FreshId(s)
    requires |s'.sv.tasks| == |s.sv.tasks| + 1 && s'.sv.tasks[..|s.sv.tasks|] == s.sv.tasks && s'.sv.tasks[|s.sv.tasks|].id == s.sv.counter
    requires forall k :: 0 <= k < |s.sv.tasks| ==> ViewOf(s', k) == ViewOf(s, k)
    ensures LiveDistinct(s')
  {
    hide ViewOf, Live;
    assert forall k :: 0 <= k < |s.sv.tasks| ==> s'.sv.tasks[k] == s.sv.tasks[k];
  }

  lemma RegisterKeeps(z: Zstd, s: System, c: nat, addr: Addr)
    requires Inv(z, s) && c in s.pipes && c !in s.sv.conns
    ensures Inv(z, s.(sv := Step(s.sv, Register(c, addr))))
  {
    var s' := s.(sv := Step(s.sv, Register(c, addr)));
    hide Inv, TasksOk, PipesOk, TagsOk, ProcsOk, LoopsOk, ViewsOk, LiveDistinct, ViewOf, LinkInv, Live, NoLeaks, Keeps;
    Parts(z, s);
    ConnsAside(s.sv, s'.sv);
    RegisterLoops(s.sv, s.pipes, c, addr);
    forall k | 0 <= k < |s.sv.tasks| ensures Keeps(ViewOf(s, k), ViewOf(s', k)) {
      TaskPart(z, s, k);
      RegisterView(s, c, addr, k);
      KeepsSelf(ViewOf(s, k));
    }
    ViewsKeptSuffices(s, s');
    InvFromParts(z, s');
  }

  lemma RegisterLoops(sv: Server, pipes: map<nat, Pipe>, c: nat, addr: Addr)
    requires LoopsOk(sv, pipes) && c in pipes && c !in sv.conns
    ensures LoopsOk(Step(sv, Register(c, addr)), pipes)
  {
    var sv' := Step(sv, Register(c, addr));
    FreshLoopOk(sv', c, pipes[c].stag);
    hide LoopOk, CleanCloseOk;
    forall d | d in sv'.conns && d != c ensures CleanCloseOk(sv', sv'.conns[d].loop) {
      CleanCloseSame(sv, sv', sv.conns[d].loop);
    }
  }

  lemma FreshLoopOk(sv: Server, c: nat, stag: Option<nat>)
    ensures LoopOk(sv.tasks, c, Fresh, stag) && CleanCloseOk(sv, Fresh)
  {
  }

  lemma CleanCloseSame(sv: Server, sv': Server, l: Loop)
    requires CleanCloseOk(sv, l) && sv'.tasks == sv.tasks && sv'.links == sv.links
    ensures CleanCloseOk(sv', l)
  {
  }

  lemma RegisterView(s: System, c: nat, addr: Addr, k: nat)
    requires c !in s.sv.conns && k < |s.sv.tasks|
    ensures ViewOf(s.(sv := Step(s.sv, Register(c, addr))), k) == ViewOf(s, k)
  {
    hide Proj, ClientPhaseOf;
  }

  /** Shutting the server down closes and unregisters every registered link. */
  lemma ShutdownKeeps(z: Zstd, s: System)
    requires Inv(z, s)
    ensures Inv(z, s.(sv := Step(s.sv, Shutdown)))
  {
    var s' := s.(sv := Step(s.sv, Shutdown));
    hide Inv, TasksOk, PipesOk, TagsOk, ProcsOk, ViewsOk, LiveDistinct, ViewOf, LinkInv, Live, LoopOk, CleanCloseOk, NoLeaks,
      Stable, LoopsOk;
    Parts(z, s);
    StepKeepsNoLeaks(s.sv, Shutdown);
    TasksOkLinks(s.sv.tasks, s'.sv.tasks, s.pipes);
    TagsStable(s.sv.tasks, s'.sv.tasks, s.pipes);
    ProcsStable(s.sv.tasks, s'.sv.tasks, s.pipes, s.cl);
    ShutdownLoops(s.sv, s.pipes);
    forall k | 0 <= k < |s.sv.tasks| ensures Keeps(ViewOf(s, k), ViewOf(s', k)) {
      TaskPart(z, s, k);
      SvView(s, s'.sv, k);
      var v := ViewOf(s, k);
      UnregisterKeeps(v);
      if k in s.sv.links.Values {
        CloseKeeps(v.(sreg := false));
        KeepsTrans(v, v.(sreg := false), ViewOf(s', k));
      }
    }
    ViewsKeptSuffices(s, s');
    InvFromParts(z, s');
  }

  lemma ShutdownLoops(sv: Server, pipes: map<nat, Pipe>)
    requires LoopsOk(sv, pipes)
    ensures LoopsOk(Step(sv, Shutdown), pipes)
  {
    var sv' := Step(sv, Shutdown);
    hide PhaseOf;
    forall c | c in sv'.conns
      ensures LoopOk(sv'.tasks, c, sv'.conns[c].loop, pipes[c].stag) && CleanCloseOk(sv', sv'.conns[c].loop)
    {
      assert LoopOk(sv.tasks, c, sv.conns[c].loop, pipes[c].stag) && CleanCloseOk(sv, sv.conns[c].loop);
    }
  }
}
