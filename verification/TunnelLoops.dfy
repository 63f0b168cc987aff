/** Every step of the server's dispatch loops keeps the invariant of the composed system. */
module TunnelLoops {
  import opened Bytes
  import opened Packets
  import opened Compression
  import opened Framing
  import opened Links
  import opened LinkServer
  import opened LinkClient
  import opened LinkProtocol
  import opened Wires
  import opened Tunnel
  import opened TunnelInv
  import opened TunnelWires
  import opened TunnelServer

  // ----- What a loop's step changes -----

  lemma TasksOkLinks(tasks: seq<Task>, tasks': seq<Task>, pipes: map<nat, Pipe>)
    requires TasksOk(tasks, pipes) && |tasks'| == |tasks|
    requires forall j :: 0 <= j < |tasks| ==> tasks'[j].(link := tasks[j].link) == tasks[j]
    ensures TasksOk(tasks', pipes) && Stable(tasks, tasks')
  {
    forall j | 0 <= j < |tasks'| ensures TaskOk(tasks'[j], j, pipes) {
      assert TaskOk(tasks[j], j, pipes);
    }
  }

  lemma CleanCloseLoop(sv: Server, c: nat, le: LoopEvent, l: Loop)
    requires LoopEnabled(sv, c, le) && CleanCloseOk(sv, l)
    ensures CleanCloseOk(StepLoop(sv, c, le), l)
  {
    LoopEffect(sv, c, le);
    hide StepLoop, NextLoop;
  }

  /** The loop goes on to deal with the link it was dealing with. */
  lemma NextLoopOk(sv: Server, c: nat, le: LoopEvent, stag: Option<nat>)
    requires LoopEnabled(sv, c, le) && !le.Recv? && LoopOk(sv.tasks, c, sv.conns[c].loop, stag)
    requires LinksOwned(sv)
    requires le.Lookup? || le.UnlinkFor? ==>
               (stag.Some? && stag.value < |sv.tasks|
                && (sv.tasks[stag.value].id in sv.links ==> sv.links[sv.tasks[stag.value].id] == stag.value))
    ensures LoopOk(StepLoop(sv, c, le).tasks, c, NextLoop(sv, c, le), stag)
    ensures CleanCloseOk(StepLoop(sv, c, le), NextLoop(sv, c, le))
  {
    LoopEffect(sv, c, le);
    if le.CleanNext? {
      CleanNextOk(sv, c, le.id);
    } else {
      assert !NextLoop(sv, c, le).CleanClose?;
    }
    hide StepLoop, LinksOwned, CleanCloseOk, Abs;
  }

  lemma CleanNextOk(sv: Server, c: nat, id: u16)
    requires LoopEnabled(sv, c, CleanNext(id)) && LinksOwned(sv)
    ensures CleanCloseOk(StepLoop(sv, c, CleanNext(id)), NextLoop(sv, c, CleanNext(id)))
  {
  }

  /** The link that the loop is dealing with is live, so its id finds it in the registry or nothing. */
  lemma TaggedLookup(z: Zstd, s: System, c: nat)
    requires Inv(z, s) && c in s.sv.conns && !PhaseOf(s.sv.conns[c].loop).PNone?
    ensures c in s.pipes && s.pipes[c].stag.Some?
    ensures var k := s.pipes[c].stag.value;
      && On(s, k, c) && ViewOf(s, k).sp == PhaseOf(s.sv.conns[c].loop)
      && (s.sv.tasks[k].id in s.sv.links ==> s.sv.links[s.sv.tasks[k].id] == k)
  {
    hide Inv, PhaseOf, NoLeaks, LiveDistinct, ViewsOk, PipesOk, TagsOk, TasksOk, LoopsOk, ProcsOk;
    LoopPart(z, s, c);
    Parts(z, s);
    var k := s.pipes[c].stag.value;
    hide Proj, ClientPhaseOf;
    assert ViewOf(s, k).sp == PhaseOf(s.sv.conns[c].loop);
    assert Live(ViewOf(s, k));
    hide ViewOf, Live;
    LookupFindsIt(s, k);
  }

  lemma LoopStructure(z: Zstd, s: System, c: nat, le: LoopEvent)
    requires Inv(z, s) && LoopEnabled(s.sv, c, le) && !le.Recv?
    ensures Structure(z, s.(sv := StepLoop(s.sv, c, le)))
  {
    hide Inv, NoLeaks, LiveDistinct, ViewsOk, TasksOk, LoopsOk, PipesOk, TagsOk, ProcsOk, Stable, CleanCloseOk, LoopOk, ViewOf;
    Parts(z, s);
    var sv' := StepLoop(s.sv, c, le);
    LoopEffect(s.sv, c, le);
    TasksOkLinks(s.sv.tasks, sv'.tasks, s.pipes);
    TagsStable(s.sv.tasks, sv'.tasks, s.pipes);
    ProcsStable(s.sv.tasks, sv'.tasks, s.pipes, s.cl);
    LoopPart(z, s, c);
    if le.Lookup? || le.UnlinkFor? {
      TaggedLookup(z, s, c);
    }
    LinksPart(s.sv);
    NextLoopOk(s.sv, c, le, s.pipes[c].stag);
    LoopsAfterLoop(z, s, c, le);
  }

  lemma LinksPart(sv: Server)
    requires NoLeaks(sv)
    ensures LinksOwned(sv) && RoutesOwned(sv)
  {
  }

  lemma LoopsAfterLoop(z: Zstd, s: System, c: nat, le: LoopEvent)
    requires Inv(z, s) && LoopEnabled(s.sv, c, le) && c in s.pipes
    requires Stable(s.sv.tasks, StepLoop(s.sv, c, le).tasks)
    requires LoopOk(StepLoop(s.sv, c, le).tasks, c, NextLoop(s.sv, c, le), s.pipes[c].stag)
    requires CleanCloseOk(StepLoop(s.sv, c, le), NextLoop(s.sv, c, le))
    ensures LoopsOk(StepLoop(s.sv, c, le), s.pipes)
  {
    hide Inv, LoopOk, CleanCloseOk, Stable;
    var sv' := StepLoop(s.sv, c, le);
    LoopEffect(s.sv, c, le);
    hide StepLoop, NextLoop;
    forall d | d in sv'.conns && d != c
      ensures d in s.pipes && LoopOk(sv'.tasks, d, sv'.conns[d].loop, s.pipes[d].stag)
      ensures CleanCloseOk(sv', sv'.conns[d].loop)
    {
      LoopPart(z, s, d);
      LoopStable(s.sv.tasks, sv'.tasks, d, s.sv.conns[d].loop, s.pipes[d].stag);
      CleanCloseLoop(s.sv, c, le, s.sv.conns[d].loop);
    }
  }

  // ----- What the links see of it -----

  predicate PhaseEvent(le: LoopEvent) {
    le.Lookup? || le.DeliverTo? || le.ConfirmLink? || le.UnrouteFor? || le.UnlinkFor? || le.CloseFor?
  }

  lemma PhaseEventPhase(sv: Server, c: nat, le: LoopEvent)
    requires LoopEnabled(sv, c, le) && !le.Recv?
    ensures PhaseEvent(le) <==> !PhaseOf(sv.conns[c].loop).PNone?
    ensures !PhaseEvent(le) ==> PhaseOf(NextLoop(sv, c, le)).PNone?
    ensures PhaseEvent(le) ==> LoopReads(NextLoop(sv, c, le)) && LoopReads(sv.conns[c].loop)
    ensures LoopReads(NextLoop(sv, c, le)) ==> LoopReads(sv.conns[c].loop)
  {
    hide Abs;
  }

  /** A loop dealing with link `k` touches no other record and no other registration. */
  lemma OnlyTagged(sv: Server, c: nat, le: LoopEvent, k: nat, j: nat)
    requires LoopEnabled(sv, c, le) && PhaseEvent(le) && k < |sv.tasks| && j < |sv.tasks| && j != k
    requires LoopNames(sv.conns[c].loop, k, sv.tasks[k].id)
    requires sv.tasks[k].id in sv.links ==> sv.links[sv.tasks[k].id] == k
    ensures StepLoop(sv, c, le).tasks[j] == sv.tasks[j]
    ensures var id := sv.tasks[j].id;
      (id in StepLoop(sv, c, le).links && StepLoop(sv, c, le).links[id] == j) <==> (id in sv.links && sv.links[id] == j)
  {
    hide NextLoop;
  }

  lemma LoopViewUntagged(z: Zstd, s: System, c: nat, le: LoopEvent, j: nat)
    requires Inv(z, s) && LoopEnabled(s.sv, c, le) && PhaseEvent(le) && !le.Recv? && j < |s.sv.tasks|
    requires c in s.pipes && s.pipes[c].stag != Some(j)
    ensures Keeps(ViewOf(s, j), ViewOf(s.(sv := StepLoop(s.sv, c, le)), j))
  {
    hide Inv, ViewOf, LinkInv, Keeps, LoopNames;
    PhaseEventPhase(s.sv, c, le);
    TaggedLookup(z, s, c);
    LoopPart(z, s, c);
    OnlyTagged(s.sv, c, le, s.pipes[c].stag.value, j);
    LoopEffect(s.sv, c, le);
    SvLoopView(s, StepLoop(s.sv, c, le), c, NextLoop(s.sv, c, le), j);
    TaskPart(z, s, j);
    KeepsSelf(ViewOf(s, j));
    hide StepLoop, NextLoop, PhaseOf, LoopReads;
  }

  lemma LoopViewTagged(z: Zstd, s: System, c: nat, le: LoopEvent, k: nat)
    requires Inv(z, s) && LoopEnabled(s.sv, c, le) && PhaseEvent(le) && !le.Recv? && k < |s.sv.tasks|
    requires c in s.pipes && s.pipes[c].stag == Some(k)
    ensures Keeps(ViewOf(s, k), ViewOf(s.(sv := StepLoop(s.sv, c, le)), k))
  {
    hide Inv, ViewOf, LinkInv, Keeps;
    PhaseEventPhase(s.sv, c, le);
    TaggedLookup(z, s, c);
    LoopPart(z, s, c);
    LoopEffect(s.sv, c, le);
    SvLoopView(s, StepLoop(s.sv, c, le), c, NextLoop(s.sv, c, le), k);
    TaskPart(z, s, k);
    var v, v' := ViewOf(s, k), ViewOf(s.(sv := StepLoop(s.sv, c, le)), k);
    assert TaggedStep(s.sv, c, le, k, v, v');
    hide TaggedStep, StepLoop, LoopEnabled, NextLoop, PhaseOf;
    match le
    case Lookup => LookupCase(s.sv, c, k, v, v');
    case DeliverTo(out) => DeliverCase(s.sv, c, out, k, v, v');
    case ConfirmLink => ConfirmCase(s.sv, c, k, v, v');
    case UnrouteFor => UnrouteCase(s.sv, c, k, v, v');
    case UnlinkFor => UnlinkCase(s.sv, c, k, v, v');
    case CloseFor => CloseCase(s.sv, c, k, v, v');
  }

  /** `v` and `v'` are the link's views before and after the step of the loop that deals with it. */
  ghost predicate TaggedStep(sv: Server, c: nat, le: LoopEvent, k: nat, v: View, v': View) {
    && LoopEnabled(sv, c, le) && !le.Recv? && k < |sv.tasks|
    && v.t == sv.tasks[k] && v.sreg == (v.t.id in sv.links && sv.links[v.t.id] == k)
    && LoopNames(sv.conns[c].loop, k, v.t.id) && (v.t.id in sv.links ==> v.sreg)
    && v.sp == PhaseOf(sv.conns[c].loop) && v.sup
    && var sv' := StepLoop(sv, c, le);
       v' == v.(t := sv'.tasks[k], sreg := v.t.id in sv'.links && sv'.links[v.t.id] == k,
                sp := PhaseOf(NextLoop(sv, c, le)))
  }

  lemma LookupCase(sv: Server, c: nat, k: nat, v: View, v': View)
    requires TaggedStep(sv, c, Lookup, k, v, v') && LinkInv(v)
    ensures Keeps(v, v')
  {
    HeldShapes(v);
    hide LinkInv, Keeps;
    if v.sp.m.MData? {
      LookupDataKeeps(v);
    } else {
      LookupOpenedKeeps(v);
    }
  }

  lemma DeliverCase(sv: Server, c: nat, out: WriteOutcome, k: nat, v: View, v': View)
    requires TaggedStep(sv, c, DeliverTo(out), k, v, v') && LinkInv(v)
    ensures Keeps(v, v')
  {
    hide LinkInv, Keeps, SendPacket;
    DeliverKeeps(v, out);
  }

  lemma ConfirmCase(sv: Server, c: nat, k: nat, v: View, v': View)
    requires TaggedStep(sv, c, ConfirmLink, k, v, v') && LinkInv(v)
    ensures Keeps(v, v')
  {
    hide LinkInv, Keeps;
    ConfirmKeeps(v);
  }

  lemma UnrouteCase(sv: Server, c: nat, k: nat, v: View, v': View)
    requires TaggedStep(sv, c, UnrouteFor, k, v, v') && LinkInv(v)
    ensures Keeps(v, v')
  {
    HeldShapes(v);
    hide LinkInv, Keeps;
    UnrouteForKeeps(v);
  }

  lemma UnlinkCase(sv: Server, c: nat, k: nat, v: View, v': View)
    requires TaggedStep(sv, c, UnlinkFor, k, v, v') && LinkInv(v)
    ensures Keeps(v, v')
  {
    hide LinkInv, Keeps;
    UnlinkForKeeps(v);
  }

  lemma CloseCase(sv: Server, c: nat, k: nat, v: View, v': View)
    requires TaggedStep(sv, c, CloseFor, k, v, v') && LinkInv(v)
    ensures Keeps(v, v')
  {
    hide LinkInv, Keeps;
    CloseForKeeps(v);
  }

  /** Spawning, leaving and cleaning up touch a link only by taking it out of the registry or closing it. */
  lemma LoopViewQuiet(z: Zstd, s: System, c: nat, le: LoopEvent, j: nat)
    requires Inv(z, s) && LoopEnabled(s.sv, c, le) && !PhaseEvent(le) && !le.Recv? && j < |s.sv.tasks|
    ensures Keeps(ViewOf(s, j), ViewOf(s.(sv := StepLoop(s.sv, c, le)), j))
  {
    hide Inv, ViewOf, LinkInv, Keeps, LoopNames;
    PhaseEventPhase(s.sv, c, le);
    LoopPart(z, s, c);
    LoopEffect(s.sv, c, le);
    SvLoopView(s, StepLoop(s.sv, c, le), c, NextLoop(s.sv, c, le), j);
    TaskPart(z, s, j);
    var on := On(s, j, c);
    hide On;
    QuietCases(s.sv, c, le, j, on, ViewOf(s, j), ViewOf(s.(sv := StepLoop(s.sv, c, le)), j));
  }

  lemma QuietCases(sv: Server, c: nat, le: LoopEvent, j: nat, on: bool, v: View, v': View)
    requires LoopEnabled(sv, c, le) && !PhaseEvent(le) && !le.Recv? && j < |sv.tasks| && LinkInv(v)
    requires CleanCloseOk(sv, sv.conns[c].loop)
    requires v.t == sv.tasks[j] && v.sreg == (v.t.id in sv.links && sv.links[v.t.id] == j)
    requires on ==> v.sup == LoopReads(sv.conns[c].loop)
    requires var sv' := StepLoop(sv, c, le);
      v' == v.(t := sv'.tasks[j], sreg := v.t.id in sv'.links && sv'.links[v.t.id] == j,
               sup := if on then LoopReads(NextLoop(sv, c, le)) else v.sup)
    ensures Keeps(v, v')
  {
    PhaseEventPhase(sv, c, le);
    EnvKeeps(v, v.sb, v.cb, v'.sup, v.cup);
    hide LinkInv, Keeps;
    var v1 := v.(sup := v'.sup);
    if le.CleanNext? {
      UnregisterKeeps(v);
      KeepsSelf(v);
    } else if le.CleanShut? {
      if !v.sreg {
        CloseKeeps(v);
      }
      KeepsSelf(v);
    }
  }

  lemma LoopStepKeeps(z: Zstd, s: System, c: nat, le: LoopEvent)
    requires Inv(z, s) && LoopEnabled(s.sv, c, le) && !le.Recv?
    ensures Inv(z, s.(sv := StepLoop(s.sv, c, le)))
  {
    hide Inv, Structure, ViewOf, LinkInv, NoLeaks, ViewsOk, LiveDistinct, Keeps, PhaseOf;
    var s' := s.(sv := StepLoop(s.sv, c, le));
    LoopStructure(z, s, c, le);
    Parts(z, s);
    LoopKeepsNoLeaks(s.sv, c, le);
    LoopEffect(s.sv, c, le);
    LoopPart(z, s, c);
    hide StepLoop;
    forall j | 0 <= j < |s.sv.tasks| ensures Keeps(ViewOf(s, j), ViewOf(s', j)) {
      if !PhaseEvent(le) {
        LoopViewQuiet(z, s, c, le, j);
      } else if s.pipes[c].stag == Some(j) {
        LoopViewTagged(z, s, c, le, j);
      } else {
        LoopViewUntagged(z, s, c, le, j);
      }
    }
    ViewsKeptSuffices(s, s');
    InvFromParts(z, s');
  }

  // ----- Packets of no link, and failing wires -----

  lemma ControlOk(s: System, c: nat, ptype: PacketType, pid: u64)
    requires ptype.Ping? || ptype.Pong?
    ensures var tm := Tagged(None, Control(ptype, pid, 0));
      WellFormed(tm.m) && SrvTagOk(s.sv.tasks, c, tm) && CliTagOk(s.sv.tasks, c, tm)
  {
  }

  lemma ControlToClient(z: Zstd, s: System, c: nat, m: Message, out: SendOutcome)
    requires Inv(z, s) && c in s.pipes && MayPut(z, s.pipes[c].s2c, m, out)
    requires WellFormed(m) && SrvTagOk(s.sv.tasks, c, Tagged(None, m))
    ensures Inv(z, s.(pipes := ToClient(z, s, c, Tagged(None, m), out)))
  {
    hide Inv, PipesOk, TagsOk, TasksOk, LoopsOk, ProcsOk, NoLeaks, ViewsOk, LiveDistinct,
      MayPut, WellFormed, SrvTagOk, ViewOf, LinkInv, Keeps, WireOk, On;
    var tm := Tagged(None, m);
    var s' := s.(pipes := ToClient(z, s, c, tm, out));
    Parts(z, s);
    PutStructure(z, s, c, tm, out);
    PipePart(z, s, c);
    GotBound(z, s.pipes[c].s2c);
    hide Structure;
    forall j | 0 <= j < |s.sv.tasks| ensures Keeps(ViewOf(s, j), ViewOf(s', j)) {
      PutToClientView(z, s, c, tm, out, j);
      TaskPart(z, s, j);
      KeepsSelf(ViewOf(s, j));
      ForeignPutKeeps(ViewOf(s, j), ViewOf(s', j).sb, ViewOf(s, j).cb);
    }
    hide ToClient;
    ViewsKeptSuffices(s, s');
    InvFromParts(z, s');
  }

  lemma PutStructureToServer(z: Zstd, s: System, c: nat, tm: Tagged, out: SendOutcome)
    requires Structure(z, s) && c in s.pipes && MayPut(z, s.pipes[c].c2s, tm.m, out)
    requires WellFormed(tm.m) && CliTagOk(s.sv.tasks, c, tm)
    ensures Structure(z, s.(pipes := ToServer(z, s, c, tm, out)))
  {
    hide MayPut, WellFormed, CliTagOk, PipesOk, TagsOk, TasksOk, LoopsOk, ProcsOk;
    PutToServer(z, s, c, tm, out);
    hide ToServer, SameEnds;
    EndsKeepRest(s.sv, s.pipes, ToServer(z, s, c, tm, out), s.cl);
  }

  lemma ControlToServer(z: Zstd, s: System, c: nat, m: Message, out: SendOutcome)
    requires Inv(z, s) && c in s.pipes && MayPut(z, s.pipes[c].c2s, m, out)
    requires WellFormed(m) && CliTagOk(s.sv.tasks, c, Tagged(None, m))
    ensures Inv(z, s.(pipes := ToServer(z, s, c, Tagged(None, m), out)))
  {
    hide Inv, PipesOk, TagsOk, TasksOk, LoopsOk, ProcsOk, NoLeaks, ViewsOk, LiveDistinct,
      MayPut, WellFormed, CliTagOk, ViewOf, LinkInv, Keeps, WireOk, On;
    var tm := Tagged(None, m);
    var s' := s.(pipes := ToServer(z, s, c, tm, out));
    Parts(z, s);
    PutStructureToServer(z, s, c, tm, out);
    PipePart(z, s, c);
    GotBound(z, s.pipes[c].c2s);
    hide Structure;
    forall j | 0 <= j < |s.sv.tasks| ensures Keeps(ViewOf(s, j), ViewOf(s', j)) {
      PutToServerView(z, s, c, tm, out, j);
      TaskPart(z, s, j);
      KeepsSelf(ViewOf(s, j));
      ForeignPutKeeps(ViewOf(s, j), ViewOf(s, j).sb, ViewOf(s', j).cb);
    }
    hide ToServer;
    ViewsKeptSuffices(s, s');
    InvFromParts(z, s');
  }

  /** The pipe of a connection with its write failures as given. */
  function Broken(s: System, c: nat, b1: bool, b2: bool): map<nat, Pipe>
    requires c in s.pipes
  {
    var P := s.pipes[c];
    s.pipes[c := P.(s2c := P.s2c.(broken := b1), c2s := P.c2s.(broken := b2))]
  }

  lemma BreakStructure(z: Zstd, s: System, c: nat, b1: bool, b2: bool)
    requires Structure(z, s) && c in s.pipes
    requires (s.pipes[c].s2c.broken ==> b1) && (s.pipes[c].c2s.broken ==> b2)
    ensures Structure(z, s.(pipes := Broken(s, c, b1, b2)))
  {
    hide TasksOk, LoopsOk, ProcsOk, SrvTagOk, CliTagOk, WireOk;
    BreakWire(z, s.pipes[c].s2c, b1);
    BreakWire(z, s.pipes[c].c2s, b2);
    EndsKeepRest(s.sv, s.pipes, Broken(s, c, b1, b2), s.cl);
  }

  lemma BreakKeeps(z: Zstd, s: System, c: nat, b1: bool, b2: bool)
    requires Inv(z, s) && c in s.pipes
    requires (s.pipes[c].s2c.broken ==> b1) && (s.pipes[c].c2s.broken ==> b2)
    ensures Inv(z, s.(pipes := Broken(s, c, b1, b2)))
  {
    hide Inv, TasksOk, LoopsOk, ProcsOk, TagsOk, PipesOk, NoLeaks, ViewsOk, LiveDistinct, ViewOf, LinkInv, Keeps, On;
    var s' := s.(pipes := Broken(s, c, b1, b2));
    Parts(z, s);
    BreakStructure(z, s, c, b1, b2);
    hide Structure;
    forall j | 0 <= j < |s.sv.tasks| ensures Keeps(ViewOf(s, j), ViewOf(s', j)) {
      WiresView(s, c, s.pipes[c].s2c.(broken := b1), s.pipes[c].c2s.(broken := b2), j);
      TaskPart(z, s, j);
      KeepsSelf(ViewOf(s, j));
      ForeignPutKeeps(ViewOf(s, j), ViewOf(s', j).sb, ViewOf(s', j).cb);
    }
    ViewsKeptSuffices(s, s');
    InvFromParts(z, s');
  }

  lemma BreakWire(z: Zstd, w: Wire, b: bool)
    requires WireOk(z, w) && (w.broken ==> b)
    ensures WireOk(z, w.(broken := b))
  {
    hide Frames, ReadPacket, WellFormed;
  }
}
