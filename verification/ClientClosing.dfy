/** Nothing is dropped open at the client either: a link object that has left the registry is shut down, is about to
    be, or was given up by its own task. */
module ClientClosing {
  import opened Bytes
  import opened Packets
  import opened Compression
  import opened Framing
  import opened Links
  import opened LinkServer
  import opened LinkClient
  import opened ClientLives
  import opened LinkProtocol
  import opened Wires
  import opened Tunnel
  import opened TunnelInv
  import opened TunnelReads
  import opened TunnelClients
  import opened TunnelRuns
  import opened TunnelTheorems
  import opened TunnelHalves

  // ----- One client -----

  predicate StillRegistered(s: Client, o: nat)
    requires o in s.objs
  {
    s.objs[o].id in s.reg && s.reg[s.objs[o].id] == o
  }

  predicate KeptOrShut(s: Client, o: nat)
    requires o in s.objs
  {
    StillRegistered(s, o) || !s.objs[o].link.open || s.loop == ShutLink(o) || s.objs[o].stage.Ended?
  }

  ghost predicate AllKeptOrShut(s: Client) {
    forall o :: o in s.objs ==> KeptOrShut(s, o)
  }

  /** The step does not put a link in the place of another, nor a task take out the link of another. */
  predicate MindsItsOwn(s: Client, e: ClientEvent) {
    && (e.ByLoop? && e.le.DialOk? && s.loop.Taken? ==> s.loop.packet.linkId !in s.reg)
    && (e.ByTask? && e.te.Forget? && e.o in s.objs && s.objs[e.o].id in s.reg ==> s.reg[s.objs[e.o].id] == e.o)
  }

  lemma TaskKeepsOrShuts(s: Client, o: nat, e: ClientTaskEvent)
    requires AllKeptOrShut(s) && TaskMay(s, o, e) && MindsItsOwn(s, ByTask(o, e))
    ensures AllKeptOrShut(TaskMoves(s, o, e))
  {
    var s' := TaskMoves(s, o, e);
    forall x | x in s'.objs ensures KeptOrShut(s', x) {
      assert KeptOrShut(s, x);
    }
  }

  lemma ShutAllShuts(objs: map<nat, ClientLink>, reg: map<u16, nat>, s: Client)
    requires AllKeptOrShut(s) && objs == s.objs && reg == s.reg
    ensures forall o :: o in objs ==>
              o in ShutAll(objs, reg) && ShutAll(objs, reg)[o].stage == objs[o].stage
              && (ShutAll(objs, reg)[o].link.open ==> objs[o].link.open && !StillRegistered(s, o))
  {
    forall o | o in objs && StillRegistered(s, o) ensures o in reg.Values {
    }
  }

  lemma LoopKeepsOrShuts(s: Client, e: ClientLoopEvent)
    requires AllKeptOrShut(s) && Lifecycle(s) && Unstarted(s) && LoopMay(s, e) && MindsItsOwn(s, ByLoop(e))
    ensures AllKeptOrShut(LoopMoves(s, e))
  {
    var s' := LoopMoves(s, e);
    if e.Drain? {
      ShutAllShuts(s.objs, s.reg, s);
      hide ShutAll;
    }
    forall x | x in s'.objs ensures KeptOrShut(s', x) {
      assert x in s.objs ==> KeptOrShut(s, x);
    }
  }

  lemma QuitKeepsOrShuts(s: Client)
    requires AllKeptOrShut(s)
    ensures AllKeptOrShut(Move(s, Quit))
  {
    ShutAllShuts(s.objs, s.reg, s);
    hide ShutAll;
    var s' := Move(s, Quit);
    forall x | x in s'.objs ensures KeptOrShut(s', x) {
      assert KeptOrShut(s, x);
    }
  }

  lemma MoveKeepsOrShuts(s: Client, e: ClientEvent)
    requires AllKeptOrShut(s) && Lifecycle(s) && Unstarted(s) && May(s, e) && MindsItsOwn(s, e)
    ensures AllKeptOrShut(Move(s, e))
  {
    hide AllKeptOrShut, Lifecycle, Unstarted;
    match e
    case ByTask(o, te) => TaskKeepsOrShuts(s, o, te);
    case ByLoop(le) => LoopKeepsOrShuts(s, le);
    case Quit => QuitKeepsOrShuts(s);
  }

  // ----- The clients of the composed system -----

  /** With live ids distinct, every client minds its own links. */
  lemma ClientsMindTheirOwn(z: Zstd, s: System, a: Act)
    requires Inv(z, s) && CanAct(z, s, a) && ClientPart(z, s, a).Some?
    ensures var (p, e) := ClientPart(z, s, a).value; p in s.cl && MindsItsOwn(s.cl[p], e)
  {
    hide Inv, ViewOf, Live, Lifecycle;
    ActOnClients(z, s, a);
    hide CanAct, Next, Move;
    var (p, e) := ClientPart(z, s, a).value;
    hide ClientPart;
    if e.ByLoop? && e.le.DialOk? && s.cl[p].loop.Taken? {
      DialsNew(z, s, p, e.le.o, a);
    }
    if e.ByTask? && e.te.Forget? {
      ObjView(z, s, p, e.o);
      RegFinds(z, s, p, e.o);
    }
  }

  lemma DialsNew(z: Zstd, s: System, p: nat, o: nat, a: Act)
    requires Inv(z, s) && CanAct(z, s, a) && p in s.cl && LoopMay(s.cl[p], DialOk(o)) && s.cl[p].loop.Taken?
    requires ClientPart(z, s, a) == Some((p, ByLoop(DialOk(o))))
    ensures s.cl[p].loop.packet.linkId !in s.cl[p].reg
  {
    hide Inv, ViewOf, Live;
    assert a == CliDial(p) && s.pipes[s.cl[p].conn].ctag == Some(o);
    TaggedClient(z, s, p);
    ProcPart(z, s, p);
    hide CanAct, ClientPart, ProcOk, ObjsOk;
  }

  ghost predicate ClientsTidy(s: System) {
    forall p :: p in s.cl ==> Unstarted(s.cl[p]) && AllKeptOrShut(s.cl[p])
  }

  lemma ActTidy(z: Zstd, s: System, a: Act)
    requires Inv(z, s) && CanAct(z, s, a) && ClientsTidy(s)
    ensures ClientsTidy(Next(z, s, a))
  {
    hide Inv, Unstarted, AllKeptOrShut, Lifecycle;
    ActOnClients(z, s, a);
    if ClientPart(z, s, a).Some? {
      var (p, e) := ClientPart(z, s, a).value;
      ClientsMindTheirOwn(z, s, a);
      ProcPart(z, s, p);
      hide CanAct, Next, Move, May, MindsItsOwn, ClientPart, ProcOk, ObjsOk;
      StaysUnstarted(s.cl[p], e);
      MoveKeepsOrShuts(s.cl[p], e);
    }
  }

  lemma {:induction false} RunTidy(z: Zstd, run: seq<System>, acts: seq<Act>, i: nat)
    requires Lossless(z) && IsRun(z, run, acts) && Disciplined(run, acts) && i < |run|
    ensures ClientsTidy(run[i])
  {
    hide CanAct, Next, Inv, IsInit, ClientsTidy, Disciplined;
    if i == 0 {
      StartsTidy(run[0]);
    } else {
      RunTidy(z, run, acts, i - 1);
      RunInv(z, run, acts);
      ActTidy(z, run[i - 1], acts[i - 1]);
    }
  }

  lemma StartsTidy(s: System)
    requires IsInit(s)
    ensures ClientsTidy(s)
  {
    forall p | p in s.cl ensures Unstarted(s.cl[p]) && AllKeptOrShut(s.cl[p]) {
      assert IsStart(s.cl[p]);
    }
  }

  /** At every point of every run with live ids distinct: the write half of a client link that has left the registry, by
      the server's `Close`, by the loss of the connection or by a shutdown, has been shut down (or had failed), unless
      the loop that took it out is just about to do that, or the link's own task has ended and given it up. */
  lemma ClientRemovedMeansClosed(z: Zstd, run: seq<System>, acts: seq<Act>, i: nat, s: System, p: nat, o: nat)
    requires Reached(z, run, acts, i, s) && p in s.cl && o in s.cl[p].objs
    requires !(s.cl[p].objs[o].id in s.cl[p].reg && s.cl[p].reg[s.cl[p].objs[o].id] == o)
    ensures !s.cl[p].objs[o].link.open || s.cl[p].loop == ShutLink(o) || s.cl[p].objs[o].stage.Ended?
  {
    RunTidy(z, run, acts, i);
    hide IsRun, Disciplined, Unstarted;
    assert KeptOrShut(s.cl[p], o);
  }
}
