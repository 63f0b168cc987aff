/** What a write on one wire changes in the composed system. */
module TunnelWires {
  import opened Bytes
  import opened Packets
  import opened Compression
  import opened Framing
  import opened LinkServer
  import opened LinkClient
  import opened LinkProtocol
  import opened Wires
  import opened Tunnel
  import opened TunnelInv

  /** Connections, their client processes and their tags stay; only wire contents change. */
  ghost predicate SameEnds(pipes: map<nat, Pipe>, pipes': map<nat, Pipe>) {
    && pipes'.Keys == pipes.Keys
    && forall c :: c in pipes ==>
         pipes'[c].proc == pipes[c].proc && pipes'[c].stag == pipes[c].stag && pipes'[c].ctag == pipes[c].ctag
  }

  lemma EndsKeepRest(sv: Server, pipes: map<nat, Pipe>, pipes': map<nat, Pipe>, cl: map<nat, Client>)
    requires SameEnds(pipes, pipes')
    requires TasksOk(sv.tasks, pipes) && LoopsOk(sv, pipes) && ProcsOk(sv.tasks, pipes, cl)
    ensures TasksOk(sv.tasks, pipes') && LoopsOk(sv, pipes') && ProcsOk(sv.tasks, pipes', cl)
  {
    TasksPlaced(sv.tasks, pipes, pipes');
    hide TasksOk, PhaseOf, ClientPhaseOf, Lifecycle, LoopOk, CleanCloseOk, ClientReads;
    forall p | p in cl
      ensures ProcOk(sv.tasks, pipes', p, cl[p]) && ObjsOk(sv.tasks, pipes', p, cl[p].objs)
    {
      assert ProcOk(sv.tasks, pipes, p, cl[p]) && ObjsOk(sv.tasks, pipes, p, cl[p].objs);
    }
  }

  /** Appending an owned, well-formed packet to the wire towards the client. */
  lemma PutToClient(z: Zstd, s: System, c: nat, tm: Tagged, out: SendOutcome)
    requires PipesOk(z, s.pipes, s.cl.Keys) && TagsOk(s.sv.tasks, s.pipes)
    requires c in s.pipes && MayPut(z, s.pipes[c].s2c, tm.m, out)
    requires WellFormed(tm.m) && SrvTagOk(s.sv.tasks, c, tm)
    ensures PipesOk(z, ToClient(z, s, c, tm, out), s.cl.Keys)
    ensures TagsOk(s.sv.tasks, ToClient(z, s, c, tm, out))
    ensures SameEnds(s.pipes, ToClient(z, s, c, tm, out))
  {
    hide Frame, MayPut, WireOk, SrvTagOk, CliTagOk, WellFormed;
    PutKeepsWire(z, s.pipes[c].s2c, tm, out);
    PutEffect(z, s.pipes[c].s2c, tm, out);
    hide PutFrame;
  }

  lemma PutToServer(z: Zstd, s: System, c: nat, tm: Tagged, out: SendOutcome)
    requires PipesOk(z, s.pipes, s.cl.Keys) && TagsOk(s.sv.tasks, s.pipes)
    requires c in s.pipes && MayPut(z, s.pipes[c].c2s, tm.m, out)
    requires WellFormed(tm.m) && CliTagOk(s.sv.tasks, c, tm)
    ensures PipesOk(z, ToServer(z, s, c, tm, out), s.cl.Keys)
    ensures TagsOk(s.sv.tasks, ToServer(z, s, c, tm, out))
    ensures SameEnds(s.pipes, ToServer(z, s, c, tm, out))
  {
    hide Frame, MayPut, WireOk, SrvTagOk, CliTagOk, WellFormed;
    PutKeepsWire(z, s.pipes[c].c2s, tm, out);
    PutEffect(z, s.pipes[c].c2s, tm, out);
    hide PutFrame;
  }

  /** The link's connection is `c`. */
  predicate On(s: System, k: nat, c: nat) {
    TaskPipe(s, k) && s.sv.tasks[k].conn.value == c
  }

  /** How a link sees its two wires. */
  lemma WiresView(s: System, c: nat, w1: Wire, w2: Wire, k: nat)
    requires k < |s.sv.tasks| && c in s.pipes
    ensures
      var v, v' := ViewOf(s, k), ViewOf(s.(pipes := s.pipes[c := s.pipes[c].(s2c := w1, c2s := w2)]), k);
      && v' == (if !On(s, k, c) then v
                else v.(slog := Proj(w1.sent, k), ch := Proj(w1.sent[..ReadCount(w1)], k), sb := w1.broken,
                        clog := Proj(w2.sent, k), sh := Proj(w2.sent[..ReadCount(w2)], k), cb := w2.broken))
      && (On(s, k, c) ==>
            && v.slog == Proj(s.pipes[c].s2c.sent, k) && v.ch == Proj(s.pipes[c].s2c.sent[..ReadCount(s.pipes[c].s2c)], k)
            && v.clog == Proj(s.pipes[c].c2s.sent, k) && v.sh == Proj(s.pipes[c].c2s.sent[..ReadCount(s.pipes[c].c2s)], k)
            && v.sb == s.pipes[c].s2c.broken && v.cb == s.pipes[c].c2s.broken)
  {
    hide Proj, PhaseOf, ClientPhaseOf;
  }

  lemma PutToClientView(z: Zstd, s: System, c: nat, tm: Tagged, out: SendOutcome, k: nat)
    requires k < |s.sv.tasks| && c in s.pipes && MayPut(z, s.pipes[c].s2c, tm.m, out)
    requires s.pipes[c].s2c.got <= |s.pipes[c].s2c.sent|
    ensures
      var v, v' := ViewOf(s, k), ViewOf(s.(pipes := ToClient(z, s, c, tm, out)), k);
      v' == if !On(s, k, c) then v
            else v.(slog := if out.Sent? && tm.tag == Some(k) then v.slog + [Abs(tm.m)] else v.slog,
                    sb := v.sb || out.Cut?)
    ensures On(s, k, c) ==> ViewOf(s, k).sb == s.pipes[c].s2c.broken
  {
    hide Frame, MayPut, Proj, PutFrame, ViewOf, Abs;
    var w := s.pipes[c].s2c;
    var w' := PutFrame(z, w, tm, out);
    PutEffect(z, w, tm, out);
    ProjAppend(w.sent, tm, k);
    assert w'.sent[..w.got] == w.sent[..w.got];
    WiresView(s, c, w', s.pipes[c].c2s, k);
    assert s.pipes[c].(s2c := w') == s.pipes[c].(s2c := w', c2s := s.pipes[c].c2s);
  }

  lemma PutToServerView(z: Zstd, s: System, c: nat, tm: Tagged, out: SendOutcome, k: nat)
    requires k < |s.sv.tasks| && c in s.pipes && MayPut(z, s.pipes[c].c2s, tm.m, out)
    requires s.pipes[c].c2s.got <= |s.pipes[c].c2s.sent|
    ensures
      var v, v' := ViewOf(s, k), ViewOf(s.(pipes := ToServer(z, s, c, tm, out)), k);
      v' == if !On(s, k, c) then v
            else v.(clog := if out.Sent? && tm.tag == Some(k) then v.clog + [Abs(tm.m)] else v.clog,
                    cb := v.cb || out.Cut?)
    ensures On(s, k, c) ==> ViewOf(s, k).cb == s.pipes[c].c2s.broken
  {
    hide Frame, MayPut, Proj, PutFrame, ViewOf, Abs;
    var w := s.pipes[c].c2s;
    var w' := PutFrame(z, w, tm, out);
    PutEffect(z, w, tm, out);
    ProjAppend(w.sent, tm, k);
    assert w'.sent[..w.got] == w.sent[..w.got];
    WiresView(s, c, s.pipes[c].s2c, w', k);
    assert s.pipes[c].(c2s := w') == s.pipes[c].(s2c := s.pipes[c].s2c, c2s := w');
  }

  /** Tags matter only while a loop is dealing with a packet. */
  lemma RetagView(s: System, c: nat, stag: Option<nat>, ctag: Option<nat>, k: nat)
    requires k < |s.sv.tasks| && c in s.pipes
    requires stag == s.pipes[c].stag || (c in s.sv.conns ==> PhaseOf(s.sv.conns[c].loop).PNone?)
    requires var p := s.pipes[c].proc;
      ctag == s.pipes[c].ctag || (p in s.cl && s.cl[p].conn == c ==> ClientPhaseOf(s.cl[p].loop).CNone?)
    ensures ViewOf(s.(pipes := s.pipes[c := s.pipes[c].(stag := stag, ctag := ctag)]), k) == ViewOf(s, k)
  {
    hide Proj, PhaseOf, ClientPhaseOf;
  }

  /** A write that is not for this link at most breaks the wire under it. */
  lemma ForeignPutKeeps(v: View, sb: bool, cb: bool)
    requires LinkInv(v) && (v.sb ==> sb) && (v.cb ==> cb)
    ensures Keeps(v, v.(sb := sb, cb := cb))
  {
    EnvKeeps(v, sb, cb, v.sup, v.cup);
  }

  /** One side takes the next packet of a wire. */
  function TakeForServer(z: Zstd, pipes: map<nat, Pipe>, c: nat): map<nat, Pipe>
    requires c in pipes && MayTake(z, pipes[c].c2s)
  {
    pipes[c := pipes[c].(c2s := TakeFrame(z, pipes[c].c2s), stag := NextTag(pipes[c].c2s))]
  }

  function TakeForClient(z: Zstd, pipes: map<nat, Pipe>, c: nat): map<nat, Pipe>
    requires c in pipes && MayTake(z, pipes[c].s2c)
  {
    pipes[c := pipes[c].(s2c := TakeFrame(z, pipes[c].s2c), ctag := NextTag(pipes[c].s2c))]
  }

  lemma TakeKeepsWires(z: Zstd, s: System, c: nat)
    requires Lossless(z) && PipesOk(z, s.pipes, s.cl.Keys) && TagsOk(s.sv.tasks, s.pipes) && c in s.pipes
    ensures MayTake(z, s.pipes[c].c2s) ==>
              PipesOk(z, TakeForServer(z, s.pipes, c), s.cl.Keys) && TagsOk(s.sv.tasks, TakeForServer(z, s.pipes, c))
    ensures MayTake(z, s.pipes[c].s2c) ==>
              PipesOk(z, TakeForClient(z, s.pipes, c), s.cl.Keys) && TagsOk(s.sv.tasks, TakeForClient(z, s.pipes, c))
  {
    hide WireOk, MayTake, ReadPacket, SrvTagOk, CliTagOk;
    if MayTake(z, s.pipes[c].c2s) {
      TakeIsNext(z, s.pipes[c].c2s);
    }
    if MayTake(z, s.pipes[c].s2c) {
      TakeIsNext(z, s.pipes[c].s2c);
    }
  }

  /** A step of the server as a link sees it: its record, its registration, and the loop of connection `c`. */
  lemma SvLoopView(s: System, sv': Server, c: nat, l': Loop, k: nat)
    requires k < |s.sv.tasks| && k < |sv'.tasks| && c in s.sv.conns && c in s.pipes
    requires sv'.conns == s.sv.conns[c := s.sv.conns[c].(loop := l')]
    requires sv'.tasks[k].conn == s.sv.tasks[k].conn && sv'.tasks[k].id == s.sv.tasks[k].id
    ensures
      var v, v' := ViewOf(s, k), ViewOf(s.(sv := sv'), k);
      && v' == v.(t := sv'.tasks[k], sreg := SrvRegistered(s.(sv := sv'), k),
                  sup := if On(s, k, c) then LoopReads(l') else v.sup,
                  sp := if On(s, k, c) && s.pipes[c].stag == Some(k) then PhaseOf(l') else v.sp)
      && v.t == s.sv.tasks[k] && v.sreg == SrvRegistered(s, k)
      && (On(s, k, c) ==>
            && v.sup == LoopReads(s.sv.conns[c].loop)
            && v.sp == if s.pipes[c].stag == Some(k) then PhaseOf(s.sv.conns[c].loop) else PNone)
  {
    hide Proj, PhaseOf, ClientPhaseOf, LoopReads;
  }

  /** A step of client process `p` as a link of its connection `c` sees it. */
  lemma ClView(s: System, p: nat, cl': Client, k: nat, c: nat)
    requires k < |s.sv.tasks| && On(s, k, c) && p in s.cl
    ensures
      var v, v' := ViewOf(s, k), ViewOf(s.(cl := s.cl[p := cl']), k);
      && v' == (if s.pipes[c].proc != p then v
                else v.(c := if k in cl'.objs then Some(cl'.objs[k]) else None,
                        creg := v.t.id in cl'.reg && cl'.reg[v.t.id] == k,
                        cup := cl'.conn == c && ClientReads(cl'.loop),
                        cp := if cl'.conn == c && s.pipes[c].ctag == Some(k) then ClientPhaseOf(cl'.loop) else CNone))
      && v.t == s.sv.tasks[k]
      && (s.pipes[c].proc == p ==>
            && v.c == (if k in s.cl[p].objs then Some(s.cl[p].objs[k]) else None)
            && v.creg == (v.t.id in s.cl[p].reg && s.cl[p].reg[v.t.id] == k)
            && v.cup == (s.cl[p].conn == c && ClientReads(s.cl[p].loop))
            && v.cp == if s.cl[p].conn == c && s.pipes[c].ctag == Some(k) then ClientPhaseOf(s.cl[p].loop) else CNone)
  {
    hide Proj, PhaseOf, ClientPhaseOf, ClientReads;
  }

  /** Links without a connection do not see the clients. */
  lemma ClViewOff(s: System, p: nat, cl': Client, k: nat)
    requires k < |s.sv.tasks| && !TaskPipe(s, k)
    ensures ViewOf(s.(cl := s.cl[p := cl']), k) == ViewOf(s, k)
  {
  }
}
