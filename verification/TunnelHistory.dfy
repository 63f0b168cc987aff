/** Runs of the composed system as runs of its server, and what only grows along them. */
module TunnelHistory {
  import opened Bytes
  import opened Packets
  import opened Compression
  import opened Framing
  import opened Links
  import opened LinkServer
  import opened ServerRuns
  import opened LinkClient
  import opened LinkProtocol
  import opened Wires
  import opened Tunnel
  import opened TunnelRuns

  /** The server's part of a step, if it has one. */
  function EventOf(z: Zstd, s: System, a: Act): Option<Event>
    requires CanAct(z, s, a)
  {
    match a
    case SrvAlloc => Some(Alloc)
    case SrvRegister(c, addr) => Some(Register(c, addr))
    case SrvTask(k, te) => Some(OfTask(k, te))
    case SrvEmit(k, _, out) => Some(OfTask(k, Emit(out.Sent?)))
    case SrvLoop(c, le) => Some(OfLoop(c, le))
    case SrvRecv(c) => var m := Received(z, s.pipes[c].c2s); Some(OfLoop(c, Recv(m.packet, m.data)))
    case SrvPong(c, _, _) => Some(OfLoop(c, PongSent))
    case SrvShutdown => Some(LinkServer.Shutdown)
    case _ => None
  }

  lemma ActOnServer(z: Zstd, s: System, a: Act)
    requires CanAct(z, s, a)
    ensures match EventOf(z, s, a)
            case None => Next(z, s, a).sv == s.sv
            case Some(e) => Enabled(s.sv, e) && Next(z, s, a).sv == Step(s.sv, e)
  {
    hide StepTask, StepLoop, MayPut, MayTake, ReadPacket, LoopMoves, TaskMoves;
  }

  lemma LaterSelf(s: Server)
    ensures Later(s, s)
  {
  }

  lemma ActLater(z: Zstd, s: System, a: Act)
    requires CanAct(z, s, a)
    ensures Later(s.sv, Next(z, s, a).sv)
  {
    ActOnServer(z, s, a);
    var e := EventOf(z, s, a);
    hide Later, CanAct, Next, Enabled, Step, EventOf;
    if e.Some? {
      StepLater(s.sv, e.value);
    } else {
      LaterSelf(s.sv);
    }
  }

  lemma {:induction false} ServerLater(z: Zstd, run: seq<System>, acts: seq<Act>, i: nat, j: nat)
    requires IsRun(z, run, acts) && i <= j < |run|
    ensures Later(run[i].sv, run[j].sv)
    decreases j
  {
    hide Later, CanAct, Next, IsInit;
    if i < j {
      ServerLater(z, run, acts, i, j - 1);
      ActLater(z, run[j - 1], acts[j - 1]);
      LaterThanLater(run[i].sv, run[j - 1].sv, run[j].sv);
    } else {
      LaterSelf(run[i].sv);
    }
  }

  // ----- The wires -----

  /** Connections stay, and what was written to them stays written. */
  ghost predicate Grown(s: System, s': System) {
    forall c :: c in s.pipes ==>
      c in s'.pipes && s.pipes[c].s2c.sent <= s'.pipes[c].s2c.sent && s.pipes[c].c2s.sent <= s'.pipes[c].c2s.sent
  }

  lemma PutGrows(z: Zstd, w: Wire, tm: Tagged, out: SendOutcome)
    requires MayPut(z, w, tm.m, out)
    ensures w.sent <= PutFrame(z, w, tm, out).sent
  {
    PutEffect(z, w, tm, out);
    hide PutFrame, MayPut;
  }

  lemma TakeGrows(z: Zstd, w: Wire)
    requires MayTake(z, w)
    ensures TakeFrame(z, w).sent == w.sent
  {
    hide ReadPacket;
  }

  lemma ActGrows(z: Zstd, s: System, a: Act)
    requires CanAct(z, s, a)
    ensures Grown(s, Next(z, s, a))
  {
    hide StepTask, StepLoop, TaskEnabled, LoopEnabled, LoopMoves, TaskMoves, LoopMay, TaskMay, MayPut, MayTake, PutFrame, TakeFrame,
      ClientOutgoing, Outgoing, Control, Step;
    match a
    case SrvEmit(k, pid, out) =>
      PutGrows(z, s.pipes[s.sv.tasks[k].conn.value].s2c, Tagged(Some(k), Outgoing(s.sv.tasks[k], pid)), out);
    case SrvRecv(c) => TakeGrows(z, s.pipes[c].c2s);
    case SrvPong(c, pid, out) => PutGrows(z, s.pipes[c].s2c, Tagged(None, Control(PacketType.Pong, pid, 0)), out);
    case CliTake(p) => TakeGrows(z, s.pipes[s.cl[p].conn].s2c);
    case CliReply(p, pid, out) =>
      PutGrows(z, s.pipes[s.cl[p].conn].c2s, Tagged(None, Control(PacketType.Pong, pid, 0)), out);
    case CliOpened(p, pid, out) =>
      var o := s.cl[p].loop.link;
      PutGrows(z, s.pipes[s.cl[p].conn].c2s, Tagged(Some(o), Control(PacketType.Opened, pid, s.cl[p].objs[o].id)), out);
    case CliRefuse(p, pid, out) =>
      var c := s.cl[p].conn;
      PutGrows(z, s.pipes[c].c2s, Tagged(s.pipes[c].ctag, Control(PacketType.OpenFail, pid, s.cl[p].loop.id)), out);
    case CliPut(p, o, pid, out) =>
      var t := s.cl[p].objs[o];
      PutGrows(z, s.pipes[t.conn].c2s, Tagged(Some(o), ClientOutgoing(t, pid)), out);
    case CliPing(c, pid, out) => PutGrows(z, s.pipes[c].c2s, Tagged(None, Control(PacketType.Ping, pid, 0)), out);
    case _ =>
  }

  lemma {:induction false} RunGrows(z: Zstd, run: seq<System>, acts: seq<Act>, i: nat, j: nat)
    requires IsRun(z, run, acts) && i <= j < |run|
    ensures Grown(run[i], run[j])
    decreases j
  {
    hide CanAct, Next, IsInit, Grown;
    if i < j {
      RunGrows(z, run, acts, i, j - 1);
      ActGrows(z, run[j - 1], acts[j - 1]);
      GrownThenGrown(run[i], run[j - 1], run[j]);
    } else {
      GrownSelf(run[i]);
    }
  }

  lemma GrownSelf(s: System)
    ensures Grown(s, s)
  {
  }

  lemma GrownThenGrown(a: System, b: System, c: System)
    requires Grown(a, b) && Grown(b, c)
    ensures Grown(a, c)
  {
  }
}
