/** Keep-alive on the composed system: the server answers each `Ping` it takes with exactly one `Pong`. */
module KeepAlive {
  import opened Bytes
  import opened Packets
  import opened Compression
  import opened Framing
  import opened Links
  import opened LinkServer
  import opened LinkClient
  import opened LinkProtocol
  import opened Wires
  import opened LoopLives
  import opened Tunnel
  import opened TunnelInv
  import opened TunnelReads
  import opened TunnelRuns
  import opened TunnelHistory
  import opened TunnelTheorems

  /** How many packets of a type these are. */
  function CountOf(ts: seq<Tagged>, ptype: PacketType): nat {
    if ts == [] then 0 else
      var n := |ts| - 1;
      CountOf(ts[..n], ptype) + if ts[n].m.packet.ptype == ptype then 1 else 0
  }

  lemma CountOn(ts: seq<Tagged>, x: Tagged, ptype: PacketType)
    ensures CountOf(ts + [x], ptype) == CountOf(ts, ptype) + if x.m.packet.ptype == ptype then 1 else 0
  {
    assert (ts + [x])[..|ts|] == ts;
  }

  /** A pong that the server owes on connection `c`. */
  function PongsOwed(sv: Server, c: nat): nat {
    if c in sv.conns && sv.conns[c].loop.PongDue? then 1 else 0
  }

  /** The pongs written, and the one owed, are as many as the pings taken. */
  ghost predicate PongsMatch(s: System, c: nat)
    requires c in s.pipes
  {
    var P := s.pipes[c];
    !P.s2c.broken ==>
      CountOf(P.s2c.sent, PacketType.Pong) + PongsOwed(s.sv, c) == CountOf(P.c2s.sent[..ReadCount(P.c2s)], PacketType.Ping)
  }

  /** What writing does to the count: a pong adds one, and everything else nothing. */
  lemma PutCounts(z: Zstd, w: Wire, tm: Tagged, out: SendOutcome, ptype: PacketType)
    requires MayPut(z, w, tm.m, out)
    ensures var w' := PutFrame(z, w, tm, out);
      && w'.got == w.got && w.sent <= w'.sent && (w.broken ==> w'.broken)
      && (!w'.broken ==> CountOf(w'.sent, ptype) == CountOf(w.sent, ptype) + if tm.m.packet.ptype == ptype then 1 else 0)
  {
    PutEffect(z, w, tm, out);
    hide PutFrame, MayPut;
    CountOn(w.sent, tm, ptype);
  }

  /** What a step of the server makes of what it owes. */
  lemma OwedAfter(sv: Server, e: Event, c: nat)
    requires Enabled(sv, e)
    ensures PongsOwed(Step(sv, e), c) ==
      if e.OfLoop? && e.c == c && e.le.PongSent? then 0
      else if e.OfLoop? && e.c == c && e.le.Recv? then (if e.le.packet.ptype.Ping? then 1 else 0)
      else PongsOwed(sv, c)
    ensures e.OfLoop? && e.c == c && e.le.PongSent? ==> PongsOwed(sv, c) == 1
    ensures e.OfLoop? && e.c == c && e.le.Recv? ==> PongsOwed(sv, c) == 0
  {
    LoopAfter(sv, e, c);
    if e.OfLoop? && e.c == c {
      OwedNext(sv, c, e.le);
    }
    hide Step;
  }

  lemma OwedNext(sv: Server, c: nat, le: LoopEvent)
    requires LoopEnabled(sv, c, le)
    ensures var l, l' := sv.conns[c].loop, NextLoop(sv, c, le);
      && (le.PongSent? ==> l.PongDue? && !l'.PongDue?)
      && (le.Recv? ==> l.Idle? && (l'.PongDue? <==> le.packet.ptype.Ping?))
      && (!le.PongSent? && !le.Recv? ==> !l.PongDue? && !l'.PongDue?)
  {
  }

  lemma SameBalance(s: System, s': System, c: nat)
    requires c in s.pipes && c in s'.pipes && PongsMatch(s, c) && PongsOwed(s'.sv, c) == PongsOwed(s.sv, c)
    requires var P, P' := s.pipes[c], s'.pipes[c];
      && P.c2s.sent <= P'.c2s.sent && P'.c2s.got == P.c2s.got && P.c2s.got <= |P.c2s.sent|
      && (P.s2c.broken ==> P'.s2c.broken)
      && (!P'.s2c.broken ==> CountOf(P'.s2c.sent, PacketType.Pong) == CountOf(P.s2c.sent, PacketType.Pong))
    ensures PongsMatch(s', c)
  {
    var P, P' := s.pipes[c], s'.pipes[c];
    assert P'.c2s.sent[..P.c2s.got] == P.c2s.sent[..P.c2s.got];
  }

  lemma ReadBound(z: Zstd, s: System, c: nat)
    requires Inv(z, s) && c in s.pipes
    ensures s.pipes[c].c2s.got <= |s.pipes[c].c2s.sent|
  {
    hide Inv, SrvTagOk, CliTagOk;
    PipePart(z, s, c);
  }

  /** Steps that write to the server, or to no wire at all. */
  lemma QuietBalance(z: Zstd, s: System, a: Act, c: nat)
    requires Inv(z, s) && CanAct(z, s, a) && c in s.pipes && PongsMatch(s, c)
    requires !a.SrvRecv? && !a.SrvPong? && !a.SrvEmit?
    ensures c in Next(z, s, a).pipes && PongsMatch(Next(z, s, a), c)
  {
    hide Inv, StepTask, StepLoop, Step, TaskEnabled, LoopEnabled, LoopMoves, TaskMoves, LoopMay, TaskMay, MayPut, MayTake, PutFrame,
      TakeFrame, ClientOutgoing, Control, CountOf, PongsOwed, ReadPacket, PongsMatch;
    ReadBound(z, s, c);
    ActOnServer(z, s, a);
    OwedKept(z, s, a, c);
    match a {
      case CliReply(p, pid, out) => PutCounts(z, s.pipes[s.cl[p].conn].c2s, Tagged(None, Control(PacketType.Pong, pid, 0)), out, PacketType.Pong);
      case CliOpened(p, pid, out) =>
        var o := s.cl[p].loop.link;
        PutCounts(z, s.pipes[s.cl[p].conn].c2s, Tagged(Some(o), Control(PacketType.Opened, pid, s.cl[p].objs[o].id)), out, PacketType.Pong);
      case CliRefuse(p, pid, out) =>
        var d := s.cl[p].conn;
        PutCounts(z, s.pipes[d].c2s, Tagged(s.pipes[d].ctag, Control(PacketType.OpenFail, pid, s.cl[p].loop.id)), out, PacketType.Pong);
      case CliPut(p, o, pid, out) =>
        var t := s.cl[p].objs[o];
        PutCounts(z, s.pipes[t.conn].c2s, Tagged(Some(o), ClientOutgoing(t, pid)), out, PacketType.Pong);
      case CliPing(d, pid, out) =>
        PutCounts(z, s.pipes[d].c2s, Tagged(None, Control(PacketType.Ping, pid, 0)), out, PacketType.Pong);
      case CliTake(p) => TakeSent(z, s.pipes[s.cl[p].conn].s2c);
      case _ =>
    }
    SameBalance(s, Next(z, s, a), c);
  }

  lemma TakeSent(z: Zstd, w: Wire)
    requires MayTake(z, w)
    ensures TakeFrame(z, w).sent == w.sent && TakeFrame(z, w).broken == w.broken
  {
    hide ReadPacket;
  }

  lemma OwedKept(z: Zstd, s: System, a: Act, c: nat)
    requires CanAct(z, s, a) && !a.SrvRecv? && !a.SrvPong?
    ensures PongsOwed(Next(z, s, a).sv, c) == PongsOwed(s.sv, c)
  {
    ActOnServer(z, s, a);
    var e := EventOf(z, s, a);
    assert e.Some? && e.value.OfLoop? ==> !e.value.le.Recv? && !e.value.le.PongSent?;
    hide CanAct, Next, EventOf, Enabled, Step, PongsOwed;
    if e.Some? {
      OwedAfter(s.sv, e.value, c);
    }
  }

  lemma EmitAfter(z: Zstd, s: System, k: nat, pid: u64, out: SendOutcome)
    requires CanAct(z, s, SrvEmit(k, pid, out))
    ensures TaskPipe(s, k) && MayPut(z, s.pipes[s.sv.tasks[k].conn.value].s2c, Outgoing(s.sv.tasks[k], pid), out)
    ensures var d := s.sv.tasks[k].conn.value;
      Next(z, s, SrvEmit(k, pid, out)).pipes ==
      s.pipes[d := s.pipes[d].(s2c := PutFrame(z, s.pipes[d].s2c, Tagged(Some(k), Outgoing(s.sv.tasks[k], pid)), out))]
  {
    hide StepTask, TaskEnabled, MayPut, PutFrame, Outgoing;
  }

  lemma EmitBalance(z: Zstd, s: System, k: nat, pid: u64, out: SendOutcome, c: nat)
    requires Inv(z, s) && CanAct(z, s, SrvEmit(k, pid, out)) && c in s.pipes && PongsMatch(s, c)
    ensures var s' := Next(z, s, SrvEmit(k, pid, out)); c in s'.pipes && PongsMatch(s', c)
  {
    hide Inv, CanAct, Next, MayPut, PutFrame, CountOf, PongsOwed, PongsMatch;
    ReadBound(z, s, c);
    OwedKept(z, s, SrvEmit(k, pid, out), c);
    EmitAfter(z, s, k, pid, out);
    var m := Outgoing(s.sv.tasks[k], pid);
    assert !m.packet.ptype.Pong?;
    PutCounts(z, s.pipes[s.sv.tasks[k].conn.value].s2c, Tagged(Some(k), m), out, PacketType.Pong);
    hide Outgoing;
    SameBalance(s, Next(z, s, SrvEmit(k, pid, out)), c);
  }

  lemma PongAfter(z: Zstd, s: System, d: nat, pid: u64, out: SendOutcome)
    requires CanAct(z, s, SrvPong(d, pid, out))
    ensures d in s.pipes && MayPut(z, s.pipes[d].s2c, Control(PacketType.Pong, pid, 0), out)
    ensures Next(z, s, SrvPong(d, pid, out)).pipes ==
      s.pipes[d := s.pipes[d].(s2c := PutFrame(z, s.pipes[d].s2c, Tagged(None, Control(PacketType.Pong, pid, 0)), out))]
    ensures Enabled(s.sv, OfLoop(d, PongSent)) && Next(z, s, SrvPong(d, pid, out)).sv == Step(s.sv, OfLoop(d, PongSent))
  {
    ActOnServer(z, s, SrvPong(d, pid, out));
    hide StepLoop, MayPut, PutFrame, Control, Step, Enabled;
  }

  lemma PongBalance(z: Zstd, s: System, d: nat, pid: u64, out: SendOutcome, c: nat)
    requires Inv(z, s) && CanAct(z, s, SrvPong(d, pid, out)) && c in s.pipes && PongsMatch(s, c)
    ensures var s' := Next(z, s, SrvPong(d, pid, out)); c in s'.pipes && PongsMatch(s', c)
  {
    hide Inv, CanAct, Next, MayPut, PutFrame, CountOf, PongsOwed, Step, Enabled;
    ReadBound(z, s, c);
    PongAfter(z, s, d, pid, out);
    OwedAfter(s.sv, OfLoop(d, PongSent), c);
    if c == d {
      PutCounts(z, s.pipes[d].s2c, Tagged(None, Control(PacketType.Pong, pid, 0)), out, PacketType.Pong);
    } else {
      SameBalance(s, Next(z, s, SrvPong(d, pid, out)), c);
    }
  }

  lemma RecvAfter(z: Zstd, s: System, d: nat)
    requires Lossless(z) && Inv(z, s) && CanAct(z, s, SrvRecv(d))
    ensures d in s.pipes && var w := s.pipes[d].c2s;
      && w.got < |w.sent| && MayTake(z, w) && Received(z, w).packet.ptype == w.sent[w.got].m.packet.ptype
      && Next(z, s, SrvRecv(d)).pipes == s.pipes[d := s.pipes[d].(c2s := TakeFrame(z, w), stag := NextTag(w))]
      && TakeFrame(z, w).sent == w.sent && TakeFrame(z, w).got == w.got + 1
      && var e := OfLoop(d, Recv(Received(z, w).packet, Received(z, w).data));
         Enabled(s.sv, e) && Next(z, s, SrvRecv(d)).sv == Step(s.sv, e)
  {
    hide Inv, StepLoop, LoopEnabled, ReadPacket, Step, Enabled;
    RecvIsNext(z, s, d);
    TakeSent(z, s.pipes[d].c2s);
    ActOnServer(z, s, SrvRecv(d));
  }

  lemma RecvBalance(z: Zstd, s: System, d: nat, c: nat)
    requires Lossless(z) && Inv(z, s) && CanAct(z, s, SrvRecv(d)) && c in s.pipes && PongsMatch(s, c)
    ensures var s' := Next(z, s, SrvRecv(d)); c in s'.pipes && PongsMatch(s', c)
  {
    hide Inv, CanAct, Next, MayTake, TakeFrame, CountOf, PongsOwed, Received, Step, Enabled;
    ReadBound(z, s, c);
    RecvAfter(z, s, d);
    var w := s.pipes[d].c2s;
    OwedAfter(s.sv, OfLoop(d, Recv(Received(z, w).packet, Received(z, w).data)), c);
    if c == d {
      CountOn(w.sent[..w.got], w.sent[w.got], PacketType.Ping);
      assert w.sent[..w.got] + [w.sent[w.got]] == w.sent[..w.got + 1];
    } else {
      SameBalance(s, Next(z, s, SrvRecv(d)), c);
    }
  }

  lemma ActBalance(z: Zstd, s: System, a: Act, c: nat)
    requires Lossless(z) && Inv(z, s) && CanAct(z, s, a) && c in s.pipes && PongsMatch(s, c)
    ensures c in Next(z, s, a).pipes && PongsMatch(Next(z, s, a), c)
  {
    hide Inv, CanAct, Next, PongsMatch;
    match a
    case SrvEmit(k, pid, out) => EmitBalance(z, s, k, pid, out, c);
    case SrvPong(d, pid, out) => PongBalance(z, s, d, pid, out, c);
    case SrvRecv(d) => RecvBalance(z, s, d, c);
    case _ => QuietBalance(z, s, a, c);
  }

  lemma NewBalance(z: Zstd, s: System, a: Act, c: nat)
    requires Inv(z, s) && CanAct(z, s, a) && c !in s.pipes && c in Next(z, s, a).pipes
    ensures PongsMatch(Next(z, s, a), c)
  {
    hide Inv;
    NewPipe(z, s, a, c);
    LoopsOnPipes(z, s, c);
    hide CanAct, Next;
  }

  lemma NewPipe(z: Zstd, s: System, a: Act, c: nat)
    requires CanAct(z, s, a) && c !in s.pipes && c in Next(z, s, a).pipes
    ensures Next(z, s, a).pipes[c].s2c == EMPTY && Next(z, s, a).pipes[c].c2s == EMPTY && Next(z, s, a).sv == s.sv
  {
    hide StepTask, StepLoop, TaskEnabled, LoopEnabled, LoopMoves, TaskMoves, LoopMay, TaskMay, MayPut, MayTake, PutFrame, TakeFrame,
      ClientOutgoing, Control, ReadPacket, Step;
    assert a.CliConnect?;
  }

  lemma LoopsOnPipes(z: Zstd, s: System, c: nat)
    requires Inv(z, s) && c !in s.pipes
    ensures PongsOwed(s.sv, c) == 0
  {
    hide Inv, LoopOk, CleanCloseOk;
    if c in s.sv.conns {
      LoopPart(z, s, c);
    }
  }

  /** At every point of every run with live ids distinct, on every connection: the pongs that the server has written are as
      many as the pings that it has taken, but for one that it is about to write, as long as writing to the client has
      not failed. */
  lemma {:induction false} PingsAnswered(z: Zstd, run: seq<System>, acts: seq<Act>, i: nat, c: nat)
    requires Lossless(z) && IsRun(z, run, acts) && Disciplined(run, acts) && i < |run| && c in run[i].pipes
    ensures PongsMatch(run[i], c)
  {
    hide CanAct, Next, Inv, IsInit, PongsMatch, Disciplined;
    if i == 0 {
      NoPipes(run[0]);
    } else {
      RunInv(z, run, acts);
      if c in run[i - 1].pipes {
        PingsAnswered(z, run, acts, i - 1, c);
        ActBalance(z, run[i - 1], acts[i - 1], c);
      } else {
        NewBalance(z, run[i - 1], acts[i - 1], c);
      }
    }
  }

  lemma NoPipes(s: System)
    requires IsInit(s)
    ensures s.pipes == map[]
  {
  }
}
