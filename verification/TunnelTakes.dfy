/** The remaining steps of the clients: answers to `Open`, reading a packet, connecting and quitting. */
module TunnelTakes {
  import opened Bytes
  import opened Packets
  import opened Compression
  import opened Framing
  import opened Links
  import opened LinkServer
  import opened LinkClient
  import opened LinkProtocol
  import opened Wires
  import opened Tunnel
  import opened TunnelInv
  import opened TunnelWires
  import opened TunnelServer
  import opened TunnelLoops
  import opened TunnelReads
  import opened TunnelClients

  // ----- Opened and OpenFail -----

  /** The answer that the loop is about to write, its owner, and the step that writes it. */
  predicate AnswerDue(s: System, p: nat, e: ClientLoopEvent) {
    OnPipe(s, p) && ((e.OpenedSent? && OpenedDue(s, p)) || (e.RefusalSent? && s.cl[p].loop.RefusalDue?))
  }

  function AnswerMsg(s: System, p: nat, pid: u64): Message
    requires OnPipe(s, p) && (OpenedDue(s, p) || s.cl[p].loop.RefusalDue?)
  {
    if s.cl[p].loop.RefusalDue? then Control(PacketType.OpenFail, pid, s.cl[p].loop.id)
    else Control(PacketType.Opened, pid, s.cl[p].objs[s.cl[p].loop.link].id)
  }

  lemma AnswerSetup(z: Zstd, s: System, p: nat, e: ClientLoopEvent, pid: u64)
    requires Inv(z, s) && AnswerDue(s, p, e)
    ensures LoopMay(s.cl[p], e)
    ensures var c := s.cl[p].conn;
      && s.pipes[c].ctag.Some? && On(s, s.pipes[c].ctag.value, c)
      && (e.OpenedSent? ==> s.pipes[c].ctag == Some(s.cl[p].loop.link))
      && var tm := Tagged(s.pipes[c].ctag, AnswerMsg(s, p, pid));
         && WellFormed(tm.m) && CliTagOk(s.sv.tasks, c, tm)
         && Abs(tm.m) == (if e.OpenedSent? then MOpened else MOpenFail)
  {
    hide Inv, ViewOf;
    TaggedClient(z, s, p);
  }

  lemma AnswerView(v: View, k: nat, cl: Client, e: ClientLoopEvent, ok: bool, v': View)
    requires LinkInv(v) && LoopMay(cl, e) && (e.OpenedSent? || e.RefusalSent?) && (ok ==> !v.cb)
    requires v.cp == ClientPhaseOf(cl.loop) && ClientLoopNames(cl.loop, k, v.t.id)
    requires v.c == (if k in cl.objs then Some(cl.objs[k]) else None)
    requires v.creg == (v.t.id in cl.reg && cl.reg[v.t.id] == k)
    requires v.cup
    requires var cl' := LoopMoves(cl, e);
      v' == v.(c := if k in cl'.objs then Some(cl'.objs[k]) else None,
               cp := CNone,
               clog := if ok then v.clog + [if e.OpenedSent? then MOpened else MOpenFail] else v.clog, cb := !ok)
    ensures Keeps(v, v')
  {
    if e.OpenedSent? {
      PhaseHasLink(v);
      OpenedSentKeeps(v, ok);
    } else {
      RefusalKeeps(v, ok);
    }
    hide LinkInv, Keeps;
  }

  lemma AnswerViews(z: Zstd, s: System, p: nat, e: ClientLoopEvent, pid: u64, out: SendOutcome, k: nat, d: nat)
    requires Inv(z, s) && AnswerDue(s, p, e) && MayPut(z, s.pipes[s.cl[p].conn].c2s, AnswerMsg(s, p, pid), out)
    requires k < |s.sv.tasks| && On(s, k, d) && s.pipes[d].proc == p && LoopMay(s.cl[p], e)
    ensures Keeps(ViewOf(s, k),
                  ViewOf(PutMove(z, s, p, LoopMoves(s.cl[p], e), s.cl[p].conn,
                                 Tagged(s.pipes[s.cl[p].conn].ctag, AnswerMsg(s, p, pid)), out), k))
  {
    hide Inv, ViewOf, LinkInv, Keeps, MayPut, AnswerMsg, ClientPhaseOf, ClientReads, ClientLoopNames, ToServer;
    var c := s.cl[p].conn;
    var cl' := LoopMoves(s.cl[p], e);
    AnswerSetup(z, s, p, e, pid);
    var tm := Tagged(s.pipes[c].ctag, AnswerMsg(s, p, pid));
    PutMoveView(z, s, p, cl', c, tm, out, k, d);
    PhaseOfEvent(s.cl[p], e);
    TaggedClient(z, s, p);
    PhaseReads(s.cl[p].loop);
    var v, v' := ViewOf(s, k), ViewOf(PutMove(z, s, p, cl', c, tm, out), k);
    var o := s.pipes[c].ctag.value;
    if k == o {
      AfterAnswer(s.cl[p], e);
      AnswerView(v, k, s.cl[p], e, out.Sent?, v');
    } else {
      OnlyTaggedClient(s.cl[p], e, o, s.sv.tasks[o].id, k, v.t.id);
      hide LoopMoves;
      ForeignPutKeeps(v, v.sb, v'.cb);
    }
  }

  lemma AfterAnswer(cl: Client, e: ClientLoopEvent)
    requires LoopMay(cl, e) && (e.OpenedSent? || e.RefusalSent?)
    ensures ClientPhaseOf(LoopMoves(cl, e).loop).CNone? && LoopMoves(cl, e).reg == cl.reg
    ensures LoopMoves(cl, e).conn == cl.conn
  {
  }

  lemma AnswerStep(z: Zstd, s: System, p: nat, e: ClientLoopEvent, pid: u64, out: SendOutcome)
    requires Inv(z, s) && AnswerDue(s, p, e) && MayPut(z, s.pipes[s.cl[p].conn].c2s, AnswerMsg(s, p, pid), out)
    ensures LoopMay(s.cl[p], e)
    ensures Inv(z, PutMove(z, s, p, LoopMoves(s.cl[p], e), s.cl[p].conn,
                           Tagged(s.pipes[s.cl[p].conn].ctag, AnswerMsg(s, p, pid)), out))
  {
    hide Inv, ViewOf, Keeps, MayPut, AnswerMsg, Lifecycle, ProcOk, ObjsOk, WellFormed, CliTagOk, ToServer, Abs;
    AnswerSetup(z, s, p, e, pid);
    LoopClientOk(z, s, p, e);
    var c := s.cl[p].conn;
    var cl' := LoopMoves(s.cl[p], e);
    var tm := Tagged(s.pipes[c].ctag, AnswerMsg(s, p, pid));
    forall k, d | 0 <= k < |s.sv.tasks| && On(s, k, d) && s.pipes[d].proc == p
      ensures Keeps(ViewOf(s, k), ViewOf(PutMove(z, s, p, cl', c, tm, out), k))
    {
      AnswerViews(z, s, p, e, pid, out, k, d);
    }
    hide LoopMoves, LoopMay;
    PutMoveKeeps(z, s, p, cl', c, tm, out);
  }

  // ----- Quitting -----

  lemma QuitStep(z: Zstd, s: System, p: nat)
    requires Inv(z, s) && p in s.cl
    ensures Inv(z, s.(cl := s.cl[p := Move(s.cl[p], Quit)]))
  {
    hide Inv, ViewOf, Keeps, Lifecycle, LinkInv, ClientReads, ClientPhaseOf;
    var cl' := Move(s.cl[p], Quit);
    ProcPart(z, s, p);
    MoveKeepsLifecycle(s.cl[p], Quit);
    assert ObjsOk(s.sv.tasks, s.pipes, p, cl'.objs) && ProcOk(s.sv.tasks, s.pipes, p, cl');
    hide ObjsOk, ProcOk;
    forall k, c | 0 <= k < |s.sv.tasks| && On(s, k, c) && s.pipes[c].proc == p
      ensures Keeps(ViewOf(s, k), ViewOf(s.(cl := s.cl[p := cl']), k))
    {
      TaskPart(z, s, k);
      ClView(s, p, cl', k, c);
      KeepsSelf(ViewOf(s, k));
      if ViewOf(s, k).creg {
        RegisteredHasLink(ViewOf(s, k));
      }
      if k in s.cl[p].reg.Values {
        ValuesMeanRegistered(z, s, p, k);
      }
      DrainQuiet(ViewOf(s, k), ViewOf(s.(cl := s.cl[p := cl']), k), s.cl[p], k);
    }
    hide Move;
    ClientStepKeeps(z, s, p, cl');
  }

  // ----- Connecting -----

  lemma ConnectStep(z: Zstd, s: System, p: nat, c: nat)
    requires Inv(z, s) && p in s.cl && s.cl[p].loop.Offline? && c != s.cl[p].conn && c !in s.pipes
    ensures Inv(z, s.(cl := s.cl[p := LoopMoves(s.cl[p], Connect(c))],
                      pipes := s.pipes[c := Pipe(p, EMPTY, EMPTY, None, None)]))
  {
    var cl' := LoopMoves(s.cl[p], Connect(c));
    var s' := s.(cl := s.cl[p := cl'], pipes := s.pipes[c := Pipe(p, EMPTY, EMPTY, None, None)]);
    hide Inv, PipesOk, TagsOk, TasksOk, LoopsOk, ProcsOk, NoLeaks, ViewsOk, LiveDistinct, ViewOf, LinkInv, Keeps, Lifecycle;
    assert s'.cl.Keys == s.cl.Keys;
    Parts(z, s);
    ConnectPipes(z, s, p, c);
    TasksPlaced(s.sv.tasks, s.pipes, s'.pipes);
    ConnectLoops(s.sv, s.pipes, s'.pipes, c);
    assert Lifecycle(cl') by { ProcPart(z, s, p); MoveKeepsLifecycle(s.cl[p], ByLoop(Connect(c))); }
    ConnectProcs(z, s, p, c);
    forall k | 0 <= k < |s.sv.tasks| ensures Keeps(ViewOf(s, k), ViewOf(s', k)) {
      TaskPart(z, s, k);
      KeepsSelf(ViewOf(s, k));
      ConnectView(s, p, c, k);
    }
    ViewsKeptSuffices(s, s');
    InvFromParts(z, s');
  }

  lemma ConnectPipes(z: Zstd, s: System, p: nat, c: nat)
    requires PipesOk(z, s.pipes, s.cl.Keys) && TagsOk(s.sv.tasks, s.pipes) && p in s.cl
    ensures var pipes' := s.pipes[c := Pipe(p, EMPTY, EMPTY, None, None)];
      PipesOk(z, pipes', s.cl.Keys) && TagsOk(s.sv.tasks, pipes')
  {
    EmptyWire(z);
    hide WireOk, SrvTagOk, CliTagOk;
  }

  lemma EmptyWire(z: Zstd)
    ensures WireOk(z, EMPTY)
  {
    assert Frames(z, Messages([])) == [];
  }

  lemma ConnectLoops(sv: Server, pipes: map<nat, Pipe>, pipes': map<nat, Pipe>, c: nat)
    requires LoopsOk(sv, pipes) && c !in pipes && c in pipes' && pipes' == pipes[c := pipes'[c]]
    ensures LoopsOk(sv, pipes')
  {
    hide LoopOk, CleanCloseOk;
  }

  lemma ConnectProcs(z: Zstd, s: System, p: nat, c: nat)
    requires Inv(z, s) && p in s.cl && s.cl[p].loop.Offline? && c != s.cl[p].conn && c !in s.pipes
    requires Lifecycle(LoopMoves(s.cl[p], Connect(c)))
    ensures ProcsOk(s.sv.tasks, s.pipes[c := Pipe(p, EMPTY, EMPTY, None, None)],
                    s.cl[p := LoopMoves(s.cl[p], Connect(c))])
  {
    hide Inv, Lifecycle;
    var pipes' := s.pipes[c := Pipe(p, EMPTY, EMPTY, None, None)];
    var cls := s.cl[p := LoopMoves(s.cl[p], Connect(c))];
    forall q | q in cls
      ensures Lifecycle(cls[q]) && ProcOk(s.sv.tasks, pipes', q, cls[q]) && ObjsOk(s.sv.tasks, pipes', q, cls[q].objs)
    {
      ProcPart(z, s, q);
      PhaseReads(s.cl[q].loop);
    }
  }

  lemma ConnectView(s: System, p: nat, c: nat, k: nat)
    requires p in s.cl && s.cl[p].loop.Offline? && c != s.cl[p].conn && c !in s.pipes && k < |s.sv.tasks|
    requires TaskOk(s.sv.tasks[k], k, s.pipes)
    ensures ViewOf(s.(cl := s.cl[p := LoopMoves(s.cl[p], Connect(c))],
                      pipes := s.pipes[c := Pipe(p, EMPTY, EMPTY, None, None)]), k) == ViewOf(s, k)
  {
    hide Proj, PhaseOf;
  }

  // ----- The client takes a packet -----

  predicate CanTake(z: Zstd, s: System, p: nat) {
    OnPipe(s, p) && s.cl[p].loop.Ready? && MayTake(z, s.pipes[s.cl[p].conn].s2c)
  }

  function TakenLoop(z: Zstd, s: System, p: nat): ClientLoop
    requires CanTake(z, s, p)
  {
    var m := Received(z, s.pipes[s.cl[p].conn].s2c);
    TakeNext(m.packet, m.data)
  }

  function AfterTake(z: Zstd, s: System, p: nat): System
    requires CanTake(z, s, p)
  {
    s.(cl := s.cl[p := s.cl[p].(loop := TakenLoop(z, s, p))], pipes := TakeForClient(z, s.pipes, s.cl[p].conn))
  }

  lemma TakenIsNext(z: Zstd, s: System, p: nat)
    requires Lossless(z) && Inv(z, s) && CanTake(z, s, p)
    ensures var w := s.pipes[s.cl[p].conn].s2c; var m := Received(z, w);
      && w.got < |w.sent| && NextTag(w) == w.sent[w.got].tag
      && SrvTagOk(s.sv.tasks, s.cl[p].conn, w.sent[w.got])
      && m.packet.ptype == w.sent[w.got].m.packet.ptype && m.packet.linkId == w.sent[w.got].m.packet.linkId
      && Payload(m.data) == Payload(w.sent[w.got].m.data)
      && Abs(m) == Abs(w.sent[w.got].m)
  {
    hide Inv, MayTake, WireOk, CliTagOk, SrvTagOk, ReadPacket, OnWire;
    var c := s.cl[p].conn;
    PipePart(z, s, c);
    TakeIsNext(z, s.pipes[c].s2c);
    hide Received;
  }

  lemma TakenView(z: Zstd, s: System, p: nat, k: nat)
    requires Lossless(z) && Inv(z, s) && CanTake(z, s, p) && k < |s.sv.tasks|
    ensures var c := s.cl[p].conn; var w := s.pipes[c].s2c;
      var v, v1 := ViewOf(s, k), ViewOf(s.(pipes := TakeForClient(z, s.pipes, c)), k);
      && w.got < |w.sent| && LinkInv(v)
      && v1 == (if On(s, k, c) && w.sent[w.got].tag == Some(k) then v.(ch := v.ch + [Abs(w.sent[w.got].m)]) else v)
      && (On(s, k, c) ==> v.cup && v.cp.CNone?)
      && (On(s, k, c) && w.sent[w.got].tag == Some(k) ==>
            |v.ch| < |v.slog| && v.slog[|v.ch|] == Abs(w.sent[w.got].m))
  {
    hide Inv, MayTake, WireOk, ViewOf, LinkInv, Proj, ReadPacket, Abs;
    var c := s.cl[p].conn;
    var P := s.pipes[c];
    var w := P.s2c;
    var w' := TakeFrame(z, w);
    TaskPart(z, s, k);
    TakenIsNext(z, s, p);
    ProjTake(w.sent, w.got, k);
    WiresView(s, c, w', P.c2s, k);
    var s1 := s.(pipes := s.pipes[c := P.(s2c := w', c2s := P.c2s)]);
    RetagView(s1, c, P.stag, NextTag(w), k);
    assert s1.pipes[c := s1.pipes[c].(stag := P.stag, ctag := NextTag(w))] == TakeForClient(z, s.pipes, c);
    ReadyView(s, p, k);
  }

  lemma ReadyView(s: System, p: nat, k: nat)
    requires OnPipe(s, p) && s.cl[p].loop.Ready? && k < |s.sv.tasks|
    ensures On(s, k, s.cl[p].conn) ==> ViewOf(s, k).cup && ViewOf(s, k).cp.CNone?
  {
    hide Proj, PhaseOf;
  }

  lemma TakeNextTagged(m: Message, x: Tagged, tasks: seq<Task>, c: nat)
    requires SrvTagOk(tasks, c, x) && m.packet.ptype == x.m.packet.ptype && m.packet.linkId == x.m.packet.linkId
    requires Payload(m.data) == Payload(x.m.data)
    requires x.tag.Some? && Abs(x.m).MData? ==> Data(Abs(x.m))
    ensures var l := TakeNext(m.packet, m.data);
      && ClientReads(l) && Exchanging(l)
      && (x.tag.None? ==> ClientPhaseOf(l).CNone?)
      && (x.tag.Some? ==>
            && ClientPhaseOf(l) == CHeld(Abs(x.m)) && x.tag.value < |tasks| && tasks[x.tag.value].conn == Some(c)
            && ClientLoopNames(l, x.tag.value, tasks[x.tag.value].id))
  {
  }

  lemma TakeSetup(z: Zstd, s: System, p: nat)
    requires Lossless(z) && Inv(z, s) && CanTake(z, s, p)
    ensures var c := s.cl[p].conn; var w := s.pipes[c].s2c;
      && w.got < |w.sent| && NextTag(w) == w.sent[w.got].tag
      && var x := w.sent[w.got]; var l := TakenLoop(z, s, p);
         && ClientReads(l) && Exchanging(l)
         && (x.tag.None? ==> ClientPhaseOf(l).CNone?)
         && (x.tag.Some? ==>
               && ClientPhaseOf(l) == CHeld(Abs(x.m))
               && x.tag.value < |s.sv.tasks| && s.sv.tasks[x.tag.value].conn == Some(c)
               && ClientLoopNames(l, x.tag.value, s.sv.tasks[x.tag.value].id))
  {
    hide Inv, MayTake, LinkInv, ViewOf, ReadPacket, Received, Abs, ClientPhaseOf, ClientReads, ClientLoopNames;
    TakenIsNext(z, s, p);
    var c := s.cl[p].conn;
    var w := s.pipes[c].s2c;
    var x := w.sent[w.got];
    if x.tag.Some? {
      var k := x.tag.value;
      assert On(s, k, c);
      TakenView(z, s, p, k);
      DataNotFirst(ViewOf(s, k));
    }
    TakeNextTagged(Received(z, w), x, s.sv.tasks, c);
  }

  lemma TakeStructure(z: Zstd, s: System, p: nat)
    requires Lossless(z) && Inv(z, s) && CanTake(z, s, p)
    ensures Structure(z, AfterTake(z, s, p))
  {
    hide TakenLoop, Inv, MayTake, ReadPacket, TasksOk, LoopsOk, PipesOk, TagsOk, ProcsOk, NoLeaks, ViewsOk,
      LiveDistinct, TakeFrame;
    Parts(z, s);
    var c := s.cl[p].conn;
    var pipes' := TakeForClient(z, s.pipes, c);
    TakeKeepsWires(z, s, c);
    SameProcs(s.cl, p, AfterTake(z, s, p).cl[p]);
    TasksPlaced(s.sv.tasks, s.pipes, pipes');
    LoopsAside(s.sv, s.pipes, pipes');
    TakeProcs(z, s, p);
    hide TakeForClient;
  }

  lemma SameProcs(cl: map<nat, Client>, p: nat, cl': Client)
    requires p in cl
    ensures cl[p := cl'].Keys == cl.Keys
  {
  }

  lemma LoopsAside(sv: Server, pipes: map<nat, Pipe>, pipes': map<nat, Pipe>)
    requires LoopsOk(sv, pipes) && pipes'.Keys == pipes.Keys
    requires forall d :: d in pipes ==> pipes'[d].stag == pipes[d].stag
    ensures LoopsOk(sv, pipes')
  {
    hide LoopOk, CleanCloseOk;
  }

  lemma TakeProcs(z: Zstd, s: System, p: nat)
    requires Lossless(z) && Inv(z, s) && CanTake(z, s, p)
    ensures ProcsOk(s.sv.tasks, TakeForClient(z, s.pipes, s.cl[p].conn), AfterTake(z, s, p).cl)
  {
    hide TakenLoop, Inv, MayTake, ReadPacket, TakeFrame, ClientLoopNames, ClientPhaseOf, ClientReads, Exchanging;
    var c := s.cl[p].conn;
    var pipes' := TakeForClient(z, s.pipes, c);
    var cls := AfterTake(z, s, p).cl;
    TakeSetup(z, s, p);
    forall q | q in cls
      ensures Lifecycle(cls[q]) && ProcOk(s.sv.tasks, pipes', q, cls[q]) && ObjsOk(s.sv.tasks, pipes', q, cls[q].objs)
    {
      ProcPart(z, s, q);
      PhaseReads(s.cl[q].loop);
      ReadyExchanging(s.cl[p].loop);
    }
  }

  lemma ReadyExchanging(l: ClientLoop)
    requires l.Ready?
    ensures Exchanging(l) && ClientReads(l)
  {
  }

  lemma TakeViewsKept(z: Zstd, s: System, p: nat, k: nat)
    requires Lossless(z) && Inv(z, s) && CanTake(z, s, p) && k < |s.sv.tasks|
    ensures Keeps(ViewOf(s, k), ViewOf(AfterTake(z, s, p), k))
  {
    var s' := AfterTake(z, s, p);
    hide TakenLoop, Inv, MayTake, ReadPacket, ViewOf, LinkInv, Keeps, ClientPhaseOf, ClientReads, TakeFrame;
    var c := s.cl[p].conn;
    TakeSetup(z, s, p);
    TakenView(z, s, p, k);
    var s1 := s.(pipes := TakeForClient(z, s.pipes, c));
    var v := ViewOf(s, k);
    KeepsSelf(v);
    if TaskPipe(s, k) {
      var d := s.sv.tasks[k].conn.value;
      assert On(s, k, d) && On(s1, k, d);
      ClView(s1, p, s'.cl[p], k, d);
      ClView(s, p, s.cl[p], k, d);
      ReadyExchanging(s.cl[p].loop);
      var x := s.pipes[c].s2c.sent[s.pipes[c].s2c.got];
      if d == c && x.tag == Some(k) {
        ClientTakeKeeps(v);
      }
    } else {
      ClViewOff(s1, p, s'.cl[p], k);
    }
  }

  lemma TakeStep(z: Zstd, s: System, p: nat)
    requires Lossless(z) && Inv(z, s) && CanTake(z, s, p)
    ensures Inv(z, AfterTake(z, s, p))
  {
    var s' := AfterTake(z, s, p);
    hide Inv, Structure, ViewOf, LinkInv, NoLeaks, ViewsOk, LiveDistinct, Keeps, ReadPacket, MayTake;
    Parts(z, s);
    TakeStructure(z, s, p);
    forall j | 0 <= j < |s.sv.tasks| ensures Keeps(ViewOf(s, j), ViewOf(s', j)) {
      TakeViewsKept(z, s, p, j);
    }
    ViewsKeptSuffices(s, s');
    InvFromParts(z, s');
  }
}
