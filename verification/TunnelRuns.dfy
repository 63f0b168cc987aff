/** Runs of the composed system: every reachable state satisfies the invariant. */
module TunnelRuns {
  import opened Bytes
  import opened Packets
  import opened Compression
  import opened Framing
  import opened Links
  import opened LinkServer
  import opened LinkClient
  import opened LinkProtocol
  import opened Wires
  import opened Tunnel
  import opened TunnelInv
  import opened TunnelWires
  import opened TunnelServer
  import opened TunnelLoops
  import opened TunnelReads
  import opened TunnelClients
  import opened TunnelTakes

  lemma ServerActKeeps(z: Zstd, s: System, a: Act)
    requires Lossless(z) && Inv(z, s) && CanAct(z, s, a)
    requires a.SrvAlloc? || a.SrvRegister? || a.SrvTask? || a.SrvEmit? || a.SrvLoop? || a.SrvRecv? || a.SrvPong? || a.SrvShutdown?
    requires a.SrvAlloc? ==> FreshId(s)
    ensures Inv(z, Next(z, s, a))
  {
    hide Inv, MayPut, MayTake, ReadPacket, Dispatch, LoopEnabled, TaskEnabled, StepTask, Outgoing;
    match a
    case SrvAlloc => AllocKeeps(z, s);
    case SrvRegister(c, addr) => RegisterKeeps(z, s, c, addr);
    case SrvTask(k, te) => TaskStepKeeps(z, s, k, te);
    case SrvEmit(k, pid, out) => EmitStepKeeps(z, s, k, pid, out);
    case SrvLoop(c, le) => LoopStepKeeps(z, s, c, le);
    case SrvRecv(c) => RecvKeeps(z, s, c);
    case SrvPong(c, pid, out) => PongKeeps(z, s, c, pid, out);
    case SrvShutdown => ShutdownKeeps(z, s);
  }

  lemma ClientActKeeps(z: Zstd, s: System, a: Act)
    requires Lossless(z) && Inv(z, s) && CanAct(z, s, a)
    requires a.CliConnect? || a.CliLoop? || a.CliTake? || a.CliDial? || a.CliTask? || a.CliQuit?
    ensures Inv(z, Next(z, s, a))
  {
    hide Inv, MayPut, MayTake, ReadPacket, LoopEnabled, TaskEnabled;
    match a
    case CliConnect(p, c) => ConnectStep(z, s, p, c);
    case CliLoop(p, cle) => ClientLoopStep(z, s, p, cle);
    case CliTake(p) => TakeStep(z, s, p);
    case CliDial(p) => ClientLoopStep(z, s, p, DialOk(s.pipes[s.cl[p].conn].ctag.value));
    case CliTask(p, o, cte) => ClientTaskStep(z, s, p, o, cte);
    case CliQuit(p) => QuitStep(z, s, p);
  }

  lemma ReplyStep(z: Zstd, s: System, p: nat, pid: u64, out: SendOutcome)
    requires Inv(z, s) && CanAct(z, s, CliReply(p, pid, out))
    ensures Inv(z, Next(z, s, CliReply(p, pid, out)))
  {
    hide Inv, MayPut, Control, WellFormed, CliTagOk;
    var m := Control(PacketType.Pong, pid, 0);
    var c := s.cl[p].conn;
    ControlOk(s, c, PacketType.Pong, pid);
    ControlToServer(z, s, c, m, out);
    var s1 := s.(pipes := ToServer(z, s, c, Tagged(None, m), out));
    ClientLoopStep(z, s1, p, Replied);
    hide ToServer;
  }

  lemma ClientWriteKeeps(z: Zstd, s: System, a: Act)
    requires Lossless(z) && Inv(z, s) && CanAct(z, s, a)
    requires a.CliReply? || a.CliOpened? || a.CliRefuse? || a.CliPut? || a.CliPing? || a.Break?
    ensures Inv(z, Next(z, s, a))
  {
    hide Inv, MayPut, LoopMoves, TaskMoves;
    match a
    case CliReply(p, pid, out) => ReplyStep(z, s, p, pid, out);
    case CliOpened(p, pid, out) =>
      AnswerStep(z, s, p, OpenedSent, pid, out);
      OpenedTag(z, s, p, pid);
    case CliRefuse(p, pid, out) => AnswerStep(z, s, p, RefusalSent, pid, out);
    case CliPut(p, o, pid, out) => ClientPutStep(z, s, p, o, pid, out);
    case CliPing(c, pid, out) =>
      ControlOk(s, c, PacketType.Ping, pid);
      ControlToServer(z, s, c, Control(PacketType.Ping, pid, 0), out);
    case Break(c, toClient) =>
      var P := s.pipes[c];
      BreakKeeps(z, s, c, toClient || P.s2c.broken, !toClient || P.c2s.broken);
  }

  lemma OpenedTag(z: Zstd, s: System, p: nat, pid: u64)
    requires Inv(z, s) && OpenedDue(s, p)
    ensures s.pipes[s.cl[p].conn].ctag == Some(s.cl[p].loop.link)
  {
    hide Inv;
    AnswerSetup(z, s, p, OpenedSent, pid);
  }

  /** Every step keeps the invariant, provided a new link's id is not that of a live link. */
  lemma NextKeepsInv(z: Zstd, s: System, a: Act)
    requires Lossless(z) && Inv(z, s) && CanAct(z, s, a) && (a.SrvAlloc? ==> FreshId(s))
    ensures Inv(z, Next(z, s, a))
  {
    hide Inv, CanAct, Next;
    match a
    case CliReply(_, _, _) => ClientWriteKeeps(z, s, a);
    case CliOpened(_, _, _) => ClientWriteKeeps(z, s, a);
    case CliRefuse(_, _, _) => ClientWriteKeeps(z, s, a);
    case CliPut(_, _, _, _) => ClientWriteKeeps(z, s, a);
    case CliPing(_, _, _) => ClientWriteKeeps(z, s, a);
    case Break(_, _) => ClientWriteKeeps(z, s, a);
    case CliConnect(_, _) => ClientActKeeps(z, s, a);
    case CliLoop(_, _) => ClientActKeeps(z, s, a);
    case CliTake(_) => ClientActKeeps(z, s, a);
    case CliDial(_) => ClientActKeeps(z, s, a);
    case CliTask(_, _, _) => ClientActKeeps(z, s, a);
    case CliQuit(_) => ClientActKeeps(z, s, a);
    case _ => ServerActKeeps(z, s, a);
  }

  lemma InitInv(z: Zstd, s: System)
    requires IsInit(s)
    ensures Inv(z, s)
  {
    forall p | p in s.cl
      ensures Lifecycle(s.cl[p]) && ProcOk(s.sv.tasks, s.pipes, p, s.cl[p]) && ObjsOk(s.sv.tasks, s.pipes, p, s.cl[p].objs)
    {
      assert IsStart(s.cl[p]);
    }
  }

  // ----- Runs -----

  ghost predicate IsRun(z: Zstd, run: seq<System>, acts: seq<Act>) {
    && |run| == |acts| + 1 && IsInit(run[0])
    && forall i :: 0 <= i < |acts| ==> CanAct(z, run[i], acts[i]) && run[i + 1] == Next(z, run[i], acts[i])
  }

  ghost predicate Goes(z: Zstd, s: System, a: Act, s': System) {
    CanAct(z, s, a) && Next(z, s, a) == s'
  }

  lemma GoesMakeRun(z: Zstd, run: seq<System>, acts: seq<Act>)
    requires |run| == |acts| + 1 && IsInit(run[0])
    requires forall i :: 0 <= i < |acts| ==> Goes(z, run[i], acts[i], run[i + 1])
    ensures IsRun(z, run, acts)
  {
    hide CanAct, Next, IsInit;
    forall i | 0 <= i < |acts|
      ensures CanAct(z, run[i], acts[i]) && run[i + 1] == Next(z, run[i], acts[i])
    {
      assert Goes(z, run[i], acts[i], run[i + 1]);
    }
  }

  /** Live ids stay distinct: no id is reissued while anything can still happen to the link that had it. */
  ghost predicate Disciplined(run: seq<System>, acts: seq<Act>) {
    |run| == |acts| + 1 && forall i :: 0 <= i < |acts| && acts[i].SrvAlloc? ==> FreshId(run[i])
  }

  lemma {:induction false} RunInv(z: Zstd, run: seq<System>, acts: seq<Act>)
    requires Lossless(z) && IsRun(z, run, acts) && Disciplined(run, acts)
    ensures forall i :: 0 <= i < |run| ==> Inv(z, run[i])
  {
    hide Inv, CanAct, Next, FreshId, IsInit;
    if |acts| == 0 {
      InitInv(z, run[0]);
    } else {
      var n := |acts|;
      var before, sooner := run[..n], acts[..n - 1];
      RunInv(z, before, sooner);
      assert before[n - 1] == run[n - 1];
      NextKeepsInv(z, run[n - 1], acts[n - 1]);
      assert forall i :: 0 <= i < n ==> before[i] == run[i];
    }
  }
}
