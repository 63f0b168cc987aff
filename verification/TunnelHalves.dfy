/** A run of the composed system is a run of its server, and of each of its clients: what is proved of those against
    arbitrary peers holds in it. */
module TunnelHalves {
  import opened Bytes
  import opened Packets
  import opened Compression
  import opened Framing
  import opened Links
  import opened LinkServer
  import opened LinkClient
  import opened Wires
  import opened Tunnel
  import opened TunnelRuns
  import opened TunnelHistory

  /** The client whose step it is, and the step. */
  function ClientPart(z: Zstd, s: System, a: Act): Option<(nat, ClientEvent)>
    requires CanAct(z, s, a)
  {
    match a
    case CliConnect(p, c) => Some((p, ByLoop(Connect(c))))
    case CliLoop(p, cle) => Some((p, ByLoop(cle)))
    case CliTake(p) => var m := Received(z, s.pipes[s.cl[p].conn].s2c); Some((p, ByLoop(Take(m.packet, m.data))))
    case CliDial(p) => Some((p, ByLoop(DialOk(s.pipes[s.cl[p].conn].ctag.value))))
    case CliReply(p, _, _) => Some((p, ByLoop(Replied)))
    case CliOpened(p, _, _) => Some((p, ByLoop(OpenedSent)))
    case CliRefuse(p, _, _) => Some((p, ByLoop(RefusalSent)))
    case CliTask(p, o, cte) => Some((p, ByTask(o, cte)))
    case CliPut(p, o, _, out) => Some((p, ByTask(o, Put(out.Sent?))))
    case CliQuit(p) => Some((p, Quit))
    case _ => None
  }

  lemma ActOnClients(z: Zstd, s: System, a: Act)
    requires CanAct(z, s, a)
    ensures match ClientPart(z, s, a)
            case None => Next(z, s, a).cl == s.cl
            case Some((p, e)) => p in s.cl && May(s.cl[p], e) && Next(z, s, a).cl == s.cl[p := Move(s.cl[p], e)]
  {
    hide StepTask, StepLoop, TaskEnabled, LoopEnabled, Step, MayPut, MayTake, PutFrame, TakeFrame, ReadPacket, LoopMoves, TaskMoves,
      Outgoing, ClientOutgoing, ShutAll, Received;
  }

  lemma RunUpTo(z: Zstd, run: seq<System>, acts: seq<Act>)
    requires IsRun(z, run, acts) && |acts| > 0
    ensures var n := |acts| - 1;
      && |run| == n + 2 && IsRun(z, run[..n + 1], acts[..n])
      && CanAct(z, run[n], acts[n]) && run[n + 1] == Next(z, run[n], acts[n])
  {
    hide CanAct, Next, IsInit;
  }

  lemma RunBegins(z: Zstd, run: seq<System>, acts: seq<Act>)
    requires IsRun(z, run, acts)
    ensures |run| == |acts| + 1 && IsInit(run[0])
  {
    hide CanAct, Next, IsInit;
  }

  lemma ServerRunOn(rs: seq<Server>, es: seq<Event>, e: Event)
    requires IsServerRun(rs, es) && Enabled(rs[|es|], e)
    ensures IsServerRun(rs + [Step(rs[|es|], e)], es + [e])
  {
    hide Enabled, Step;
  }

  /** The server's half of a run. */
  lemma {:induction false} RunOfServer(z: Zstd, run: seq<System>, acts: seq<Act>) returns (rs: seq<Server>, es: seq<Event>)
    requires IsRun(z, run, acts)
    ensures IsServerRun(rs, es) && |rs| == |es| + 1 && rs[|es|] == run[|acts|].sv
  {
    RunBegins(z, run, acts);
    if |acts| == 0 {
      rs, es := [INIT], [];
    } else {
      hide IsRun, CanAct, Next, Enabled, Step, EventOf;
      var n := |acts| - 1;
      RunUpTo(z, run, acts);
      rs, es := RunOfServer(z, run[..n + 1], acts[..n]);
      ActOnServer(z, run[n], acts[n]);
      var e := EventOf(z, run[n], acts[n]);
      hide IsServerRun;
      if e.Some? {
        ServerRunOn(rs, es, e.value);
        rs, es := rs + [run[n + 1].sv], es + [e.value];
      }
    }
  }

  lemma ClientRunOn(rs: seq<Client>, es: seq<ClientEvent>, e: ClientEvent)
    requires IsClientRun(rs, es) && |rs| == |es| + 1 && May(rs[|es|], e)
    ensures IsClientRun(rs + [Move(rs[|es|], e)], es + [e])
  {
    hide May, Move;
  }

  /** The half of one client of a run. */
  lemma {:induction false} RunOfClient(z: Zstd, run: seq<System>, acts: seq<Act>, p: nat)
    returns (rs: seq<Client>, es: seq<ClientEvent>)
    requires IsRun(z, run, acts) && p in run[0].cl
    ensures IsClientRun(rs, es) && |rs| == |es| + 1 && p in run[|acts|].cl && rs[|es|] == run[|acts|].cl[p]
  {
    RunBegins(z, run, acts);
    if |acts| == 0 {
      rs, es := [run[0].cl[p]], [];
    } else {
      hide IsRun, CanAct, Next, May, Move, ClientPart, IsInit;
      var n := |acts| - 1;
      RunUpTo(z, run, acts);
      rs, es := RunOfClient(z, run[..n + 1], acts[..n], p);
      ActOnClients(z, run[n], acts[n]);
      var e := ClientPart(z, run[n], acts[n]);
      hide IsClientRun;
      if e.Some? && e.value.0 == p {
        ClientRunOn(rs, es, e.value.1);
        rs, es := rs + [run[n + 1].cl[p]], es + [e.value.1];
      }
    }
  }
}
