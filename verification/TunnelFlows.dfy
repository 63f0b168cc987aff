/** Nothing that an application said is missing from the wire, but for what the side that read it still holds; and every
    `Open` has its answer. */
module TunnelFlows {
  import opened Bytes
  import opened Packets
  import opened Compression
  import opened Framing
  import opened Links
  import opened LinkServer
  import opened LinkClient
  import opened LinkProtocol
  import opened Wires
  import opened Tunnel
  import opened TunnelInv
  import opened TunnelWires
  import opened TunnelClients
  import opened TunnelReads
  import opened TunnelRuns
  import opened TunnelTheorems

  /** What a task has read and not sent yet. */
  function Pending(t: Task): bytes {
    if t.stage.Sending? then t.stage.data else []
  }

  function ClientPending(l: ClientLink): bytes {
    if l.stage.Writing? then l.stage.data else []
  }

  predicate Opens(t: Task) {
    !t.stage.Picking? && !t.stage.Picked? && !t.stage.Added? && !t.stage.Routed? && !t.stage.Done?
  }

  /** What was said and not sent yet follows what was written; and once its turn has come, `Open` is first. */
  lemma ServerSaid(v: View)
    requires LinkInv(v)
    ensures !v.sb && v.t.conn.Some? ==> v.t.read == Datas(v.slog) + Pending(v.t)
    ensures !v.sb && Opens(v.t) ==> v.slog != [] && v.slog[0] == MOpen
  {
    hide ClientInv, ServerSide, ServerDelivery;
    assert Datas([]) == [];
    hide Datas;
  }

  lemma ClientSaid(v: View)
    requires LinkInv(v) && v.c.Some? && !v.cb
    ensures v.c.value.read == Datas(v.clog) + ClientPending(v.c.value)
  {
    hide ServerInv, ClientDelivery, ClientCounters;
    assert Datas([]) == [];
    hide Datas;
  }

  /** Between packets, the answer to a handled `Open` is on the wire: `Opened` if there is a link, `OpenFail` if not. */
  lemma AnswerThere(v: View)
    requires LinkInv(v) && v.cp.CNone? && v.ch != [] && !v.cb
    ensures v.clog != [] && v.clog[0] == if v.c.Some? then MOpened else MOpenFail
  {
    hide ServerInv, ClientDelivery, ClientCounters, Datas;
  }

  /** At every point of every run with live ids distinct: what was ever read at the server for a link is exactly what its
      packets on the wire carry, and what its task still holds, unless writing to the client has failed; and the
      first of these packets is `Open`. */
  lemma SaidIsSent(z: Zstd, run: seq<System>, acts: seq<Act>, i: nat, s: System, k: nat, c: nat)
    requires Reached(z, run, acts, i, s) && k < |s.sv.tasks| && On(s, k, c) && !s.pipes[c].s2c.broken
    ensures var sent := Proj(s.pipes[c].s2c.sent, k);
      && s.sv.tasks[k].read == Datas(sent) + Pending(s.sv.tasks[k])
      && (Opens(s.sv.tasks[k]) ==> sent != [] && sent[0] == MOpen)
  {
    hide Reached, Inv, ViewOf, LinkInv, Proj;
    ReachedInv(z, run, acts, i, s);
    TaskPart(z, s, k);
    ServerSaid(ViewOf(s, k));
    ViewRecord(s, k);
    ViewEnds(s, k, c);
  }

  lemma ViewEnds(s: System, k: nat, c: nat)
    requires k < |s.sv.tasks| && On(s, k, c)
    ensures ViewOf(s, k).sb == s.pipes[c].s2c.broken && ViewOf(s, k).cb == s.pipes[c].c2s.broken
  {
    hide Proj, PhaseOf, ClientPhaseOf;
  }

  /** The same for what was read at the client. */
  lemma ClientSaidIsSent(z: Zstd, run: seq<System>, acts: seq<Act>, i: nat, s: System, p: nat, o: nat)
    requires Reached(z, run, acts, i, s) && p in s.cl && o in s.cl[p].objs
    requires s.cl[p].objs[o].conn in s.pipes && !s.pipes[s.cl[p].objs[o].conn].c2s.broken
    ensures var l := s.cl[p].objs[o]; l.read == Datas(Proj(s.pipes[l.conn].c2s.sent, o)) + ClientPending(l)
  {
    hide Reached, Inv, ViewOf, LinkInv, Proj, Live;
    ReachedInv(z, run, acts, i, s);
    ObjView(z, s, p, o);
    TaskPart(z, s, o);
    ClientSaidAt(s, p, o);
  }

  lemma ClientSaidAt(s: System, p: nat, o: nat)
    requires p in s.cl && o in s.cl[p].objs && On(s, o, s.cl[p].objs[o].conn) && o < |s.sv.tasks|
    requires LinkInv(ViewOf(s, o)) && ViewOf(s, o).c == Some(s.cl[p].objs[o]) && !s.pipes[s.cl[p].objs[o].conn].c2s.broken
    ensures s.cl[p].objs[o].read == Datas(Proj(s.pipes[s.cl[p].objs[o].conn].c2s.sent, o)) + ClientPending(s.cl[p].objs[o])
  {
    hide LinkInv, ViewOf, Proj;
    ViewRecord(s, o);
    ViewEnds(s, o, s.cl[p].objs[o].conn);
    ClientSaid(ViewOf(s, o));
  }

  /** The client leaves no `Open` without an answer: when it is through with the packets it has taken, and writing to the
      server has not failed, the first packet it wrote for the link is `Opened` if it has a link for it, and
      `OpenFail` if it has none. */
  lemma OpenIsAnswered(z: Zstd, run: seq<System>, acts: seq<Act>, i: nat, s: System, p: nat, k: nat)
    requires Reached(z, run, acts, i, s) && OnPipe(s, p) && s.cl[p].loop.Ready? && k < |s.sv.tasks|
    requires On(s, k, s.cl[p].conn) && TakenBy(s, p, k) != [] && !s.pipes[s.cl[p].conn].c2s.broken
    ensures var clog := Proj(s.pipes[s.cl[p].conn].c2s.sent, k);
      clog != [] && clog[0] == if k in s.cl[p].objs then MOpened else MOpenFail
  {
    hide Reached, Inv, ViewOf, LinkInv, Proj;
    ReachedInv(z, run, acts, i, s);
    TaskPart(z, s, k);
    ViewRecord(s, k);
    ViewEnds(s, k, s.cl[p].conn);
    AnswerThere(ViewOf(s, k));
  }
}
