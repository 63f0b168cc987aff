/** Every step of the gateway clients keeps the invariant of the composed system. */
module TunnelClients {
  import opened Bytes
  import opened Packets
  import opened Compression
  import opened Framing
  import opened Links
  import opened LinkServer
  import opened LinkClient
  import opened LinkProtocol
  import opened Wires
  import opened Tunnel
  import opened TunnelInv
  import opened TunnelWires
  import opened TunnelServer
  import opened TunnelLoops

  // ----- A client and its links -----

  /** A client object is the far end of the task it is named after. */
  lemma ObjView(z: Zstd, s: System, p: nat, o: nat)
    requires Inv(z, s) && p in s.cl && o in s.cl[p].objs
    ensures var c := s.cl[p].objs[o].conn;
      && On(s, o, c) && s.pipes[c].proc == p && ViewOf(s, o).c == Some(s.cl[p].objs[o])
      && s.cl[p].objs[o].id == s.sv.tasks[o].id
      && ViewOf(s, o).creg == (s.sv.tasks[o].id in s.cl[p].reg && s.cl[p].reg[s.sv.tasks[o].id] == o)
      && (!s.cl[p].objs[o].stage.Ended? ==> Live(ViewOf(s, o)))
      && (ViewOf(s, o).creg ==> Live(ViewOf(s, o)))
  {
    hide Inv, LinkInv, ViewOf, Lifecycle, ProcOk, Live;
    ProcPart(z, s, p);
    var c := s.cl[p].objs[o].conn;
    ClView(s, p, s.cl[p], o, c);
    TaskPart(z, s, o);
    ViewLive(ViewOf(s, o));
  }

  lemma ViewLive(v: View)
    requires LinkInv(v) && v.c.Some?
    ensures v.c.value.id == v.t.id && (v.creg || !v.c.value.stage.Ended? ==> Live(v))
  {
    hide ServerInv, ClientSide, ClientDelivery, ClientCounters;
  }

  /** A client's registry finds a live link of that client by its id, or nothing. */
  lemma RegFinds(z: Zstd, s: System, p: nat, k: nat)
    requires Inv(z, s) && p in s.cl && k < |s.sv.tasks| && Live(ViewOf(s, k))
    ensures s.sv.tasks[k].id in s.cl[p].reg ==> s.cl[p].reg[s.sv.tasks[k].id] == k
  {
    hide Inv, ViewOf, Live, ProcOk, ObjsOk, PipesOk, TagsOk, TasksOk, LoopsOk, ProcsOk, NoLeaks, ViewsOk, LiveDistinct;
    var id := s.sv.tasks[k].id;
    if id in s.cl[p].reg {
      var j := s.cl[p].reg[id];
      ProcPart(z, s, p);
      ObjView(z, s, p, j);
      Parts(z, s);
      SameIdSameLink(s, j, k);
    }
  }

  /** The structural part: a client's step leaves the rest of the system alone. */
  lemma ClientStructure(z: Zstd, s: System, p: nat, cl': Client)
    requires Inv(z, s) && p in s.cl
    requires Lifecycle(cl') && ProcOk(s.sv.tasks, s.pipes, p, cl') && ObjsOk(s.sv.tasks, s.pipes, p, cl'.objs)
    ensures Structure(z, s.(cl := s.cl[p := cl']))
  {
    hide Inv, PipesOk, TagsOk, TasksOk, LoopsOk, Lifecycle, ProcOk, ObjsOk, NoLeaks, ViewsOk, LiveDistinct;
    Parts(z, s);
    assert s.cl[p := cl'].Keys == s.cl.Keys;
  }

  /** What is left to show after a client's step: its links' views. */
  lemma ClientStepKeeps(z: Zstd, s: System, p: nat, cl': Client)
    requires Inv(z, s) && p in s.cl
    requires Lifecycle(cl') && ProcOk(s.sv.tasks, s.pipes, p, cl') && ObjsOk(s.sv.tasks, s.pipes, p, cl'.objs)
    requires forall k, c :: 0 <= k < |s.sv.tasks| && On(s, k, c) && s.pipes[c].proc == p ==>
               Keeps(ViewOf(s, k), ViewOf(s.(cl := s.cl[p := cl']), k))
    ensures Inv(z, s.(cl := s.cl[p := cl']))
  {
    var s' := s.(cl := s.cl[p := cl']);
    ClientStructure(z, s, p, cl');
    hide Inv, Structure, ViewOf, LinkInv, NoLeaks, ViewsOk, LiveDistinct, Keeps, Lifecycle, ProcOk, ObjsOk;
    Parts(z, s);
    forall k | 0 <= k < |s.sv.tasks| ensures Keeps(ViewOf(s, k), ViewOf(s', k)) {
      TaskPart(z, s, k);
      KeepsSelf(ViewOf(s, k));
      if TaskPipe(s, k) {
        var c := s.sv.tasks[k].conn.value;
        assert On(s, k, c);
        ClView(s, p, cl', k, c);
      } else {
        ClViewOff(s, p, cl', k);
      }
    }
    ViewsKeptSuffices(s, s');
    InvFromParts(z, s');
  }

  // ----- Tasks -----

  lemma TaskClientOk(s: System, p: nat, o: nat, te: ClientTaskEvent)
    requires p in s.cl && TaskMay(s.cl[p], o, te)
    requires Lifecycle(s.cl[p]) && ProcOk(s.sv.tasks, s.pipes, p, s.cl[p]) && ObjsOk(s.sv.tasks, s.pipes, p, s.cl[p].objs)
    ensures var cl' := TaskMoves(s.cl[p], o, te);
      Lifecycle(cl') && ProcOk(s.sv.tasks, s.pipes, p, cl') && ObjsOk(s.sv.tasks, s.pipes, p, cl'.objs)
  {
    MoveKeepsLifecycle(s.cl[p], ByTask(o, te));
    hide Lifecycle, ClientPhaseOf, ClientReads;
  }

  /** What the task's own link sees. */
  lemma TaskOwnView(v: View, te: ClientTaskEvent, v': View)
    requires LinkInv(v) && v.c.Some? && !te.Put?
    requires te.Forget? ==> v.c.value.stage.EndSent? && v' == v.(c := Some(TaskDoes(v.c.value, te)), creg := false)
    requires !te.Forget? ==> ClientStageAllows(v.c.value, te) && v' == v.(c := Some(TaskDoes(v.c.value, te)))
    ensures Keeps(v, v')
  {
    hide LinkInv, Keeps;
    if te.Forget? {
      ForgetKeeps(v);
    } else {
      ClientTaskKeeps(v, te);
    }
  }

  lemma ClientTaskStep(z: Zstd, s: System, p: nat, o: nat, te: ClientTaskEvent)
    requires Inv(z, s) && p in s.cl && TaskMay(s.cl[p], o, te) && !te.Put?
    ensures Inv(z, s.(cl := s.cl[p := TaskMoves(s.cl[p], o, te)]))
  {
    hide Inv, ViewOf, LinkInv, Keeps, Lifecycle, ProcOk, ObjsOk, Live;
    ProcPart(z, s, p);
    TaskClientOk(s, p, o, te);
    ObjView(z, s, p, o);
    var cl' := TaskMoves(s.cl[p], o, te);
    if te.Forget? {
      RegFinds(z, s, p, o);
    }
    forall k, c | 0 <= k < |s.sv.tasks| && On(s, k, c) && s.pipes[c].proc == p
      ensures Keeps(ViewOf(s, k), ViewOf(s.(cl := s.cl[p := cl']), k))
    {
      TaskPart(z, s, k);
      ClView(s, p, cl', k, c);
      KeepsSelf(ViewOf(s, k));
      if k == o {
        TaskOwnView(ViewOf(s, o), te, ViewOf(s.(cl := s.cl[p := cl']), o));
      }
    }
    ClientStepKeeps(z, s, p, cl');
  }

  // ----- Writes -----

  /** Client `p` writes a packet on its connection `c` and moves to `cl'`. */
  function PutMove(z: Zstd, s: System, p: nat, cl': Client, c: nat, tm: Tagged, out: SendOutcome): System
    requires c in s.pipes && MayPut(z, s.pipes[c].c2s, tm.m, out)
  {
    s.(cl := s.cl[p := cl'], pipes := ToServer(z, s, c, tm, out))
  }

  lemma PutMoveView(z: Zstd, s: System, p: nat, cl': Client, c: nat, tm: Tagged, out: SendOutcome, k: nat, d: nat)
    requires Inv(z, s) && p in s.cl && c in s.pipes && MayPut(z, s.pipes[c].c2s, tm.m, out)
    requires k < |s.sv.tasks| && On(s, k, d) && s.pipes[d].proc == p
    ensures
      var v, v' := ViewOf(s, k), ViewOf(PutMove(z, s, p, cl', c, tm, out), k);
      && v' == v.(c := if k in cl'.objs then Some(cl'.objs[k]) else None,
                  creg := v.t.id in cl'.reg && cl'.reg[v.t.id] == k,
                  cup := cl'.conn == d && ClientReads(cl'.loop),
                  cp := if cl'.conn == d && s.pipes[d].ctag == Some(k) then ClientPhaseOf(cl'.loop) else CNone,
                  clog := if d == c && out.Sent? && tm.tag == Some(k) then v.clog + [Abs(tm.m)] else v.clog,
                  cb := if d == c then v.cb || out.Cut? else v.cb)
      && (d == c ==> v.cb == s.pipes[c].c2s.broken)
      && (d == c && out.Sent? ==> !v.cb)
      && v.c == (if k in s.cl[p].objs then Some(s.cl[p].objs[k]) else None)
      && v.creg == (v.t.id in s.cl[p].reg && s.cl[p].reg[v.t.id] == k)
      && v.cup == (s.cl[p].conn == d && ClientReads(s.cl[p].loop))
      && v.cp == (if s.cl[p].conn == d && s.pipes[d].ctag == Some(k) then ClientPhaseOf(s.cl[p].loop) else CNone)
      && LinkInv(v) && v.t == s.sv.tasks[k]
  {
    hide Inv, MayPut, ViewOf, LinkInv, Frame, WireOk, Abs, ClientReads, ClientPhaseOf;
    PipePart(z, s, c);
    GotBound(z, s.pipes[c].c2s);
    TaskPart(z, s, k);
    PutToServerView(z, s, c, tm, out, k);
    ClView(s, p, s.cl[p], k, d);
    var s1 := s.(pipes := ToServer(z, s, c, tm, out));
    if out.Sent? {
      SentUnbroken(z, s.pipes[c].c2s, tm.m, out);
    }
    ToServerEnds(z, s, c, tm, out);
    hide ToServer;
    ClView(s1, p, cl', k, d);
  }

  lemma ToServerEnds(z: Zstd, s: System, c: nat, tm: Tagged, out: SendOutcome)
    requires c in s.pipes && MayPut(z, s.pipes[c].c2s, tm.m, out)
    ensures SameEnds(s.pipes, ToServer(z, s, c, tm, out))
  {
    hide MayPut, PutFrame;
  }

  lemma PutMoveKeeps(z: Zstd, s: System, p: nat, cl': Client, c: nat, tm: Tagged, out: SendOutcome)
    requires Inv(z, s) && p in s.cl && c in s.pipes && s.pipes[c].proc == p && MayPut(z, s.pipes[c].c2s, tm.m, out)
    requires Lifecycle(cl') && ProcOk(s.sv.tasks, s.pipes, p, cl') && ObjsOk(s.sv.tasks, s.pipes, p, cl'.objs)
    requires WellFormed(tm.m) && CliTagOk(s.sv.tasks, c, tm)
    requires forall k, d :: 0 <= k < |s.sv.tasks| && On(s, k, d) && s.pipes[d].proc == p ==>
               Keeps(ViewOf(s, k), ViewOf(PutMove(z, s, p, cl', c, tm, out), k))
    ensures Inv(z, PutMove(z, s, p, cl', c, tm, out))
  {
    var s' := PutMove(z, s, p, cl', c, tm, out);
    hide Inv, Structure, MayPut, ViewOf, LinkInv, NoLeaks, ViewsOk, LiveDistinct, Keeps, Lifecycle, ProcOk, ObjsOk,
      WellFormed, CliTagOk, WireOk;
    ClientStructure(z, s, p, cl');
    PutStructureToServer(z, s.(cl := s.cl[p := cl']), c, tm, out);
    Parts(z, s);
    PipePart(z, s, c);
    GotBound(z, s.pipes[c].c2s);
    ToServerEnds(z, s, c, tm, out);
    var s1 := s.(pipes := ToServer(z, s, c, tm, out));
    forall k | 0 <= k < |s.sv.tasks| ensures Keeps(ViewOf(s, k), ViewOf(s', k)) {
      TaskPart(z, s, k);
      KeepsSelf(ViewOf(s, k));
      PutToServerView(z, s, c, tm, out, k);
      if TaskPipe(s, k) {
        var d := s.sv.tasks[k].conn.value;
        assert On(s, k, d);
        if s.pipes[d].proc != p {
          ClView(s1, p, cl', k, d);
        }
      } else {
        ClViewOff(s1, p, cl', k);
      }
    }
    ViewsKeptSuffices(s, s');
    InvFromParts(z, s');
  }

  lemma ClientOutgoingOk(s: System, o: nat, c: nat, t: ClientLink, pid: u64)
    requires On(s, o, c) && LinkInv(ViewOf(s, o)) && ViewOf(s, o).c == Some(t) && t.id == s.sv.tasks[o].id
    requires t.stage.Writing? || t.stage.Ending?
    ensures var tm := Tagged(Some(o), ClientOutgoing(t, pid));
      WellFormed(tm.m) && CliTagOk(s.sv.tasks, c, tm) && Abs(tm.m) == ClientTaskMsg(t.stage)
  {
    hide ViewOf, LinkInv;
    SendingSizes(ViewOf(s, o));
  }

  lemma ClientPutStep(z: Zstd, s: System, p: nat, o: nat, pid: u64, out: SendOutcome)
    requires Inv(z, s) && PutDue(s, p, o) && TaskMay(s.cl[p], o, Put(out.Sent?))
    requires MayPut(z, s.pipes[s.cl[p].objs[o].conn].c2s, ClientOutgoing(s.cl[p].objs[o], pid), out)
    ensures Inv(z, PutMove(z, s, p, TaskMoves(s.cl[p], o, Put(out.Sent?)), s.cl[p].objs[o].conn,
                           Tagged(Some(o), ClientOutgoing(s.cl[p].objs[o], pid)), out))
  {
    hide Inv, MayPut, ViewOf, LinkInv, Keeps, Lifecycle, ProcOk, ObjsOk, Live, ClientOutgoing, WellFormed, CliTagOk, ToServer;
    var te := Put(out.Sent?);
    var t := s.cl[p].objs[o];
    var cl' := TaskMoves(s.cl[p], o, te);
    var c := t.conn;
    var tm := Tagged(Some(o), ClientOutgoing(t, pid));
    ProcPart(z, s, p);
    TaskClientOk(s, p, o, te);
    ObjView(z, s, p, o);
    TaskPart(z, s, o);
    ClientOutgoingOk(s, o, c, t, pid);
    forall k, d | 0 <= k < |s.sv.tasks| && On(s, k, d) && s.pipes[d].proc == p
      ensures Keeps(ViewOf(s, k), ViewOf(PutMove(z, s, p, cl', c, tm, out), k))
    {
      PutMoveView(z, s, p, cl', c, tm, out, k, d);
      if k == o {
        PutKeeps(ViewOf(s, o), out.Sent?);
      } else {
        ForeignPutKeeps(ViewOf(s, k), ViewOf(s, k).sb, if d == c then ViewOf(s, k).cb || out.Cut? else ViewOf(s, k).cb);
      }
    }
    PutMoveKeeps(z, s, p, cl', c, tm, out);
  }

  // ----- The dispatch loop -----

  predicate ClientPhaseEvent(e: ClientLoopEvent) {
    e.DialOk? || e.DialFailed? || e.Mark? || e.OpenedSent? || e.RefusalSent? || e.Remove? || e.Shut? || e.Forward?
  }

  /** The link that a client's loop is dealing with. */
  lemma TaggedClient(z: Zstd, s: System, p: nat)
    requires Inv(z, s) && p in s.cl && !ClientPhaseOf(s.cl[p].loop).CNone?
    ensures var c := s.cl[p].conn;
      && c in s.pipes && s.pipes[c].proc == p && s.pipes[c].ctag.Some?
      && var k := s.pipes[c].ctag.value;
         && On(s, k, c) && ClientLoopNames(s.cl[p].loop, k, s.sv.tasks[k].id)
         && ViewOf(s, k).cp == ClientPhaseOf(s.cl[p].loop)
         && (s.sv.tasks[k].id in s.cl[p].reg ==> s.cl[p].reg[s.sv.tasks[k].id] == k)
         && ((ViewOf(s, k).c.Some? ==> k in s.cl[p].objs) && (k in s.cl[p].objs ==> s.cl[p].objs[k].id == s.sv.tasks[k].id))
  {
    hide Inv, ViewOf, LinkInv, Lifecycle, ObjsOk, Live;
    ProcPart(z, s, p);
    PhaseReads(s.cl[p].loop);
    var c := s.cl[p].conn;
    var k := s.pipes[c].ctag.value;
    hide ClientPhaseOf;
    ClView(s, p, s.cl[p], k, c);
    PhaseLive(ViewOf(s, k));
    RegFinds(z, s, p, k);
    if k in s.cl[p].objs {
      ObjView(z, s, p, k);
    }
  }

  lemma PhaseReads(l: ClientLoop)
    ensures !ClientPhaseOf(l).CNone? ==> ClientReads(l) && Exchanging(l)
  {
  }

  lemma PhaseLive(v: View)
    requires !v.cp.CNone?
    ensures Live(v)
  {
  }

  /** Client bookkeeping after a step of the loop. */
  lemma LoopClientOk(z: Zstd, s: System, p: nat, e: ClientLoopEvent)
    requires Inv(z, s) && p in s.cl && LoopMay(s.cl[p], e) && !e.Connect? && !e.Take?
    requires e.DialOk? ==> s.cl[p].conn in s.pipes && s.pipes[s.cl[p].conn].ctag == Some(e.o)
    ensures var cl' := LoopMoves(s.cl[p], e);
      Lifecycle(cl') && ProcOk(s.sv.tasks, s.pipes, p, cl') && ObjsOk(s.sv.tasks, s.pipes, p, cl'.objs)
  {
    hide Inv, ViewOf;
    ProcPart(z, s, p);
    MoveKeepsLifecycle(s.cl[p], ByLoop(e));
    if ClientPhaseEvent(e) {
      PhaseOfEvent(s.cl[p], e);
      TaggedClient(z, s, p);
    }
    hide Lifecycle;
    ProcAfter(s.sv.tasks, s.pipes, p, s.cl[p], e);
    ObjsAfter(s.sv.tasks, s.pipes, p, s.cl[p], e);
  }

  lemma PhaseOfEvent(cl: Client, e: ClientLoopEvent)
    requires LoopMay(cl, e) && !e.Connect? && !e.Take?
    ensures ClientPhaseEvent(e) <==> !ClientPhaseOf(cl.loop).CNone?
    ensures !ClientPhaseEvent(e) ==> ClientPhaseOf(LoopMoves(cl, e).loop).CNone?
    ensures ClientReads(LoopMoves(cl, e).loop) ==> ClientReads(cl.loop)
    ensures ClientPhaseEvent(e) ==> ClientReads(LoopMoves(cl, e).loop)
    ensures LoopMoves(cl, e).conn == cl.conn
  {
    hide Abs;
  }

  lemma ProcAfter(tasks: seq<Task>, pipes: map<nat, Pipe>, p: nat, cl: Client, e: ClientLoopEvent)
    requires LoopMay(cl, e) && !e.Connect? && !e.Take? && ProcOk(tasks, pipes, p, cl)
    requires e.DialOk? ==> pipes[cl.conn].ctag == Some(e.o)
    requires ClientPhaseEvent(e) ==>
               && cl.conn in pipes && pipes[cl.conn].ctag.Some? && pipes[cl.conn].ctag.value < |tasks|
               && var k := pipes[cl.conn].ctag.value; tasks[k].id in cl.reg ==> cl.reg[tasks[k].id] == k
    ensures ProcOk(tasks, pipes, p, LoopMoves(cl, e))
  {
    PhaseOfEvent(cl, e);
    hide Abs;
  }

  lemma ObjsAfter(tasks: seq<Task>, pipes: map<nat, Pipe>, p: nat, cl: Client, e: ClientLoopEvent)
    requires LoopMay(cl, e) && !e.Connect? && !e.Take? && ObjsOk(tasks, pipes, p, cl.objs)
    requires e.DialOk? ==>
               && cl.conn in pipes && pipes[cl.conn].proc == p
               && e.o < |tasks| && tasks[e.o].conn == Some(cl.conn)
    ensures ObjsOk(tasks, pipes, p, LoopMoves(cl, e).objs)
  {
    var objs' := LoopMoves(cl, e).objs;
    assert forall o :: o in objs' ==>
      ((o in cl.objs && objs'[o].conn == cl.objs[o].conn) || (e.DialOk? && o == e.o && objs'[o].conn == cl.conn));
    hide LoopMoves, LoopMay;
  }

  // ----- What the links see of it -----

  /** The views of link `k` before and after a step of its client's loop, which is dealing with it. */
  ghost predicate TaggedMove(cl: Client, e: ClientLoopEvent, k: nat, v: View, v': View) {
    && LoopMay(cl, e) && LinkInv(v) && v.cup
    && ClientLoopNames(cl.loop, k, v.t.id) && v.cp == ClientPhaseOf(cl.loop)
    && (v.t.id in cl.reg ==> cl.reg[v.t.id] == k)
    && v.c == (if k in cl.objs then Some(cl.objs[k]) else None)
    && v.creg == (v.t.id in cl.reg && cl.reg[v.t.id] == k)
    && var cl' := LoopMoves(cl, e);
       v' == v.(c := if k in cl'.objs then Some(cl'.objs[k]) else None,
                creg := v.t.id in cl'.reg && cl'.reg[v.t.id] == k,
                cp := ClientPhaseOf(cl'.loop))
  }

  lemma DialCase(cl: Client, e: ClientLoopEvent, k: nat, v: View, v': View)
    requires TaggedMove(cl, e, k, v, v') && (e == DialOk(k) || e.DialFailed?)
    ensures Keeps(v, v')
  {
    HeldShapes(v);
    DialKeeps(v, cl.conn);
    hide LinkInv, Keeps;
  }

  lemma MarkCase(cl: Client, k: nat, v: View, v': View)
    requires TaggedMove(cl, Mark, k, v, v')
    ensures Keeps(v, v')
  {
    MarkKeeps(v);
    PhaseHasLink(v);
    hide LinkInv, Keeps;
  }

  lemma PhaseHasLink(v: View)
    requires LinkInv(v) && (v.cp.CDialed? || v.cp.CMarked? || v.cp.CShut?)
    ensures v.c.Some?
  {
    hide Answer, ServerInv;
  }

  lemma RegisteredHasLink(v: View)
    requires LinkInv(v) && v.creg
    ensures v.c.Some?
  {
    hide ServerInv, ClientSide;
  }

  lemma RemoveCase(cl: Client, k: nat, v: View, v': View)
    requires TaggedMove(cl, ClientLoopEvent.Remove, k, v, v')
    ensures Keeps(v, v')
  {
    HeldShapes(v);
    RemoveKeeps(v);
    hide LinkInv, Keeps;
  }

  lemma ShutCase(cl: Client, k: nat, v: View, v': View)
    requires TaggedMove(cl, Shut, k, v, v')
    ensures Keeps(v, v')
  {
    ShutKeeps(v);
    PhaseHasLink(v);
    hide LinkInv, Keeps;
  }

  lemma ForwardCase(cl: Client, out: WriteOutcome, k: nat, v: View, v': View)
    requires TaggedMove(cl, Forward(out), k, v, v')
    ensures Keeps(v, v')
  {
    HeldShapes(v);
    ForwardKeeps(v, out);
    if v.creg {
      RegisteredHasLink(v);
    }
    hide LinkInv, Keeps, SendPacket;
  }

  /** A loop dealing with link `k` touches no other object and no other registration. */
  lemma OnlyTaggedClient(cl: Client, e: ClientLoopEvent, k: nat, id: u16, j: nat, jd: u16)
    requires LoopMay(cl, e) && ClientPhaseEvent(e) && j != k && (e.DialOk? ==> e.o == k)
    requires ClientLoopNames(cl.loop, k, id) && (id in cl.reg ==> cl.reg[id] == k)
    ensures var cl' := LoopMoves(cl, e);
      && (j in cl'.objs <==> j in cl.objs) && (j in cl.objs ==> cl'.objs[j] == cl.objs[j])
      && ((jd in cl'.reg && cl'.reg[jd] == j) <==> (jd in cl.reg && cl.reg[jd] == j))
  {
  }

  lemma TaggedMoveKeeps(cl: Client, e: ClientLoopEvent, k: nat, v: View, v': View)
    requires TaggedMove(cl, e, k, v, v') && ClientPhaseEvent(e) && !e.OpenedSent? && !e.RefusalSent?
    requires e.DialOk? ==> e.o == k
    ensures Keeps(v, v')
  {
    hide TaggedMove, Keeps;
    match e
    case DialOk(_) => DialCase(cl, e, k, v, v');
    case DialFailed => DialCase(cl, e, k, v, v');
    case Mark => MarkCase(cl, k, v, v');
    case Remove => RemoveCase(cl, k, v, v');
    case Shut => ShutCase(cl, k, v, v');
    case Forward(out) => ForwardCase(cl, out, k, v, v');
  }

  /** Connecting, authenticating, losing the connection and closing all links, as a link sees them. */
  lemma QuietMove(cl: Client, e: ClientLoopEvent, k: nat, on: bool, v: View, v': View)
    requires LoopMay(cl, e) && !ClientPhaseEvent(e) && !e.Connect? && !e.Take? && LinkInv(v)
    requires v.c == (if k in cl.objs then Some(cl.objs[k]) else None)
    requires v.creg == (v.t.id in cl.reg && cl.reg[v.t.id] == k)
    requires k in cl.reg.Values ==> v.creg
    requires v.cup == (on && ClientReads(cl.loop))
    requires var cl' := LoopMoves(cl, e);
      v' == v.(c := if k in cl'.objs then Some(cl'.objs[k]) else None,
               creg := v.t.id in cl'.reg && cl'.reg[v.t.id] == k, cup := on && ClientReads(cl'.loop))
    ensures Keeps(v, v')
  {
    PhaseOfEvent(cl, e);
    var v1 := v.(cup := v'.cup);
    EnvKeeps(v, v.sb, v.cb, v.sup, v'.cup);
    if v.creg {
      RegisteredHasLink(v);
    }
    hide LinkInv, Keeps;
    assert v1.creg == v.creg && v1.c == v.c;
    if e.Drain? {
      DrainQuiet(v1, v', cl, k);
      KeepsTrans(v, v1, v');
    }
  }

  lemma DrainQuiet(v: View, v': View, cl: Client, k: nat)
    requires Keeps(v, v) && (v.creg ==> v.c.Some?) && (k in cl.reg.Values ==> v.creg)
    requires v.c == (if k in cl.objs then Some(cl.objs[k]) else None)
    requires v.creg == (v.t.id in cl.reg && cl.reg[v.t.id] == k)
    requires v' == v.(c := if k in ShutAll(cl.objs, cl.reg) then Some(ShutAll(cl.objs, cl.reg)[k]) else None, creg := false)
    ensures Keeps(v, v')
  {
    assert LinkInv(v);
    hide LinkInv, Keeps;
    if v.creg {
      DrainKeeps(v);
    }
  }

  /** A registered object is registered under the id of its own link. */
  lemma ValuesMeanRegistered(z: Zstd, s: System, p: nat, k: nat)
    requires Inv(z, s) && p in s.cl && k in s.cl[p].reg.Values
    ensures k < |s.sv.tasks| && s.sv.tasks[k].id in s.cl[p].reg && s.cl[p].reg[s.sv.tasks[k].id] == k
  {
    hide Inv, ViewOf, Live;
    ProcPart(z, s, p);
    var id :| id in s.cl[p].reg && s.cl[p].reg[id] == k;
    ObjView(z, s, p, k);
  }

  lemma LoopMoveView(z: Zstd, s: System, p: nat, e: ClientLoopEvent, k: nat, c: nat)
    requires Inv(z, s) && p in s.cl && LoopMay(s.cl[p], e) && !e.Connect? && !e.Take? && !e.OpenedSent? && !e.RefusalSent?
    requires e.DialOk? ==> s.cl[p].conn in s.pipes && s.pipes[s.cl[p].conn].ctag == Some(e.o)
    requires k < |s.sv.tasks| && On(s, k, c) && s.pipes[c].proc == p
    ensures Keeps(ViewOf(s, k), ViewOf(s.(cl := s.cl[p := LoopMoves(s.cl[p], e)]), k))
  {
    hide Inv, ViewOf, LinkInv, Keeps, ClientLoopNames, ClientPhaseOf, ClientReads, LoopNext, Accepts;
    var cl' := LoopMoves(s.cl[p], e);
    var v, v' := ViewOf(s, k), ViewOf(s.(cl := s.cl[p := cl']), k);
    PhaseOfEvent(s.cl[p], e);
    TaskPart(z, s, k);
    ClView(s, p, cl', k, c);
    KeepsSelf(v);
    if ClientPhaseEvent(e) {
      TaggedClient(z, s, p);
      PhaseReads(s.cl[p].loop);
      var o := s.pipes[s.cl[p].conn].ctag.value;
      if k == o {
        assert TaggedMove(s.cl[p], e, k, v, v') by { hide LoopMoves; }
        TaggedMoveKeeps(s.cl[p], e, k, v, v');
      } else {
        OnlyTaggedClient(s.cl[p], e, o, s.sv.tasks[o].id, k, v.t.id);
        hide LoopMoves;
      }
    } else {
      if k in s.cl[p].reg.Values {
        ValuesMeanRegistered(z, s, p, k);
      }
      QuietMove(s.cl[p], e, k, s.cl[p].conn == c, v, v');
    }
  }

  lemma ClientLoopStep(z: Zstd, s: System, p: nat, e: ClientLoopEvent)
    requires Inv(z, s) && p in s.cl && LoopMay(s.cl[p], e) && !e.Connect? && !e.Take? && !e.OpenedSent? && !e.RefusalSent?
    requires e.DialOk? ==> s.cl[p].conn in s.pipes && s.pipes[s.cl[p].conn].ctag == Some(e.o)
    ensures Inv(z, s.(cl := s.cl[p := LoopMoves(s.cl[p], e)]))
  {
    hide Inv, ViewOf, Keeps, Lifecycle, ProcOk, ObjsOk;
    LoopClientOk(z, s, p, e);
    forall k, c | 0 <= k < |s.sv.tasks| && On(s, k, c) && s.pipes[c].proc == p
      ensures Keeps(ViewOf(s, k), ViewOf(s.(cl := s.cl[p := LoopMoves(s.cl[p], e)]), k))
    {
      LoopMoveView(z, s, p, e, k, c);
    }
    hide LoopMoves, LoopMay;
    ClientStepKeeps(z, s, p, LoopMoves(s.cl[p], e));
  }
}
