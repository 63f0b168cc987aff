/** The invariant of the composed system: how tasks, loops, registries, wires and tags fit together,
    and the per-link invariant on every link. */
module TunnelInv {
  import opened Bytes
  import opened Packets
  import opened Compression
  import opened Framing
  import opened Links
  import opened LinkServer
  import opened LinkClient
  import opened LinkProtocol
  import opened Wires
  import opened Tunnel

  ghost predicate PipesOk(z: Zstd, pipes: map<nat, Pipe>, procs: set<nat>) {
    forall c :: c in pipes ==>
      WireOk(z, pipes[c].s2c) && WireOk(z, pipes[c].c2s) && pipes[c].proc in procs
  }

  /** Task `k` owns the packet: it runs over this connection, and the packet carries its id. */
  predicate Owns(tasks: seq<Task>, c: nat, k: nat, id: u16) {
    k < |tasks| && tasks[k].conn == Some(c) && tasks[k].id == id
  }

  predicate SrvTagOk(tasks: seq<Task>, c: nat, x: Tagged) {
    var t := x.m.packet.ptype;
    if x.tag.Some? then
      Owns(tasks, c, x.tag.value, x.m.packet.linkId) && (t.Open? || t.Regular? || t.Close?)
    else t.Ping? || t.Pong?
  }

  predicate CliTagOk(tasks: seq<Task>, c: nat, x: Tagged) {
    var t := x.m.packet.ptype;
    if x.tag.Some? then
      Owns(tasks, c, x.tag.value, x.m.packet.linkId) && (t.Opened? || t.OpenFail? || t.Regular? || t.Close?)
    else t.Ping? || t.Pong?
  }

  ghost predicate TagsOk(tasks: seq<Task>, pipes: map<nat, Pipe>) {
    forall c :: c in pipes ==>
      && (forall i :: 0 <= i < |pipes[c].s2c.sent| ==> SrvTagOk(tasks, c, pipes[c].s2c.sent[i]))
      && (forall i :: 0 <= i < |pipes[c].c2s.sent| ==> CliTagOk(tasks, c, pipes[c].c2s.sent[i]))
  }

  predicate TaskOk(t: Task, k: nat, pipes: map<nat, Pipe>) {
    && (t.conn.Some? ==> t.conn.value in pipes)
    && (t.conn.None? ==> t.stage.Picking? || t.stage.Done?)
    && (t.stage.Picking? ==> t.conn.None?)
    && (t.stage.Unlinked? && t.stage.removed.Some? ==> t.stage.removed.value == k)
  }

  ghost predicate TasksOk(tasks: seq<Task>, pipes: map<nat, Pipe>) {
    forall k :: 0 <= k < |tasks| ==> TaskOk(tasks[k], k, pipes)
  }

  /** The loop's packet, link or id is that of the link it is dealing with. */
  predicate LoopNames(l: Loop, k: nat, id: u16) {
    match l
    case Held(p, _) => p.linkId == id
    case Deliver(o, _) => o == k
    case Confirm(o) => o == k
    case Unlink(i) => i == id
    case CloseLink(o) => o == k
    case _ => true
  }

  predicate LoopOk(tasks: seq<Task>, c: nat, l: Loop, stag: Option<nat>) {
    !PhaseOf(l).PNone? ==>
      stag.Some? && stag.value < |tasks| && tasks[stag.value].conn == Some(c) && LoopNames(l, stag.value, tasks[stag.value].id)
  }

  /** A link that a cleanup still has to close is no longer registered, and never will be. */
  predicate CleanCloseOk(sv: Server, l: Loop) {
    l.CleanClose? ==>
      var o := l.link;
      && o < |sv.tasks| && !sv.tasks[o].stage.Picking? && !sv.tasks[o].stage.Picked?
      && (sv.tasks[o].id in sv.links ==> sv.links[sv.tasks[o].id] != o)
  }

  ghost predicate LoopsOk(sv: Server, pipes: map<nat, Pipe>) {
    forall c :: c in sv.conns ==>
      c in pipes && LoopOk(sv.tasks, c, sv.conns[c].loop, pipes[c].stag) && CleanCloseOk(sv, sv.conns[c].loop)
  }

  predicate ClientLoopNames(l: ClientLoop, k: nat, id: u16) {
    match l
    case Taken(p, _) => p.linkId == id
    case Dialed(o) => o == k
    case Marked(o) => o == k
    case RefusalDue(i) => i == id
    case ShutLink(o) => o == k
    case _ => true
  }

  predicate ProcOk(tasks: seq<Task>, pipes: map<nat, Pipe>, p: nat, cl: Client) {
    && (ClientReads(cl.loop) ==> cl.conn in pipes && pipes[cl.conn].proc == p)
    && (!ClientPhaseOf(cl.loop).CNone? ==>
          var ctag := pipes[cl.conn].ctag;
          ctag.Some? && ctag.value < |tasks| && tasks[ctag.value].conn == Some(cl.conn)
          && ClientLoopNames(cl.loop, ctag.value, tasks[ctag.value].id))
  }

  ghost predicate ObjsOk(tasks: seq<Task>, pipes: map<nat, Pipe>, p: nat, objs: map<nat, ClientLink>) {
    forall o :: o in objs ==>
      o < |tasks| && tasks[o].conn == Some(objs[o].conn) && objs[o].conn in pipes && pipes[objs[o].conn].proc == p
  }

  ghost predicate ProcsOk(tasks: seq<Task>, pipes: map<nat, Pipe>, cl: map<nat, Client>) {
    forall p :: p in cl ==>
      Lifecycle(cl[p]) && ProcOk(tasks, pipes, p, cl[p]) && ObjsOk(tasks, pipes, p, cl[p].objs)
  }

  ghost predicate Structure(z: Zstd, s: System) {
    && PipesOk(z, s.pipes, s.cl.Keys)
    && TagsOk(s.sv.tasks, s.pipes)
    && TasksOk(s.sv.tasks, s.pipes)
    && LoopsOk(s.sv, s.pipes)
    && ProcsOk(s.sv.tasks, s.pipes, s.cl)
  }

  ghost predicate ViewsOk(s: System) {
    forall k :: 0 <= k < |s.sv.tasks| ==> LinkInv(ViewOf(s, k))
  }

  /** Live ids are distinct: something can still happen only to the latest link that was given an id. */
  ghost predicate LiveDistinct(s: System) {
    forall j, k :: 0 <= j < k < |s.sv.tasks| && Live(ViewOf(s, j)) ==> s.sv.tasks[j].id != s.sv.tasks[k].id
  }

  ghost predicate Inv(z: Zstd, s: System) {
    Structure(z, s) && NoLeaks(s.sv) && ViewsOk(s) && LiveDistinct(s)
  }

  // ----- Parts of the invariant, one at a time -----

  lemma Parts(z: Zstd, s: System)
    requires Inv(z, s)
    ensures PipesOk(z, s.pipes, s.cl.Keys) && TagsOk(s.sv.tasks, s.pipes) && TasksOk(s.sv.tasks, s.pipes)
    ensures LoopsOk(s.sv, s.pipes) && ProcsOk(s.sv.tasks, s.pipes, s.cl)
    ensures NoLeaks(s.sv) && ViewsOk(s) && LiveDistinct(s)
  {
    hide PipesOk, TagsOk, TasksOk, LoopsOk, ProcsOk, NoLeaks, ViewsOk, LiveDistinct;
  }

  lemma InvFromParts(z: Zstd, s: System)
    requires Structure(z, s) && NoLeaks(s.sv) && ViewsOk(s) && LiveDistinct(s)
    ensures Inv(z, s)
  {
    hide Structure, NoLeaks, ViewsOk, LiveDistinct;
  }

  lemma TaskPart(z: Zstd, s: System, k: nat)
    requires Inv(z, s) && k < |s.sv.tasks|
    ensures TaskOk(s.sv.tasks[k], k, s.pipes) && LinkInv(ViewOf(s, k))
  {
    hide LinkInv, ViewOf, TaskOk;
    Parts(z, s);
    hide PipesOk, TagsOk, LoopsOk, ProcsOk, NoLeaks, LiveDistinct;
  }

  lemma LoopPart(z: Zstd, s: System, c: nat)
    requires Inv(z, s) && c in s.sv.conns
    ensures c in s.pipes && LoopOk(s.sv.tasks, c, s.sv.conns[c].loop, s.pipes[c].stag)
    ensures CleanCloseOk(s.sv, s.sv.conns[c].loop)
  {
    hide LoopOk, CleanCloseOk;
    Parts(z, s);
    hide PipesOk, TagsOk, TasksOk, ProcsOk, NoLeaks, LiveDistinct, ViewsOk;
  }

  lemma ProcPart(z: Zstd, s: System, p: nat)
    requires Inv(z, s) && p in s.cl
    ensures Lifecycle(s.cl[p]) && ProcOk(s.sv.tasks, s.pipes, p, s.cl[p])
    ensures ObjsOk(s.sv.tasks, s.pipes, p, s.cl[p].objs)
  {
    hide Lifecycle, ProcOk, ObjsOk;
    Parts(z, s);
    hide PipesOk, TagsOk, TasksOk, LoopsOk, NoLeaks, LiveDistinct, ViewsOk;
  }

  lemma PipePart(z: Zstd, s: System, c: nat)
    requires Inv(z, s) && c in s.pipes
    ensures WireOk(z, s.pipes[c].s2c) && WireOk(z, s.pipes[c].c2s) && s.pipes[c].proc in s.cl
    ensures forall i :: 0 <= i < |s.pipes[c].s2c.sent| ==> SrvTagOk(s.sv.tasks, c, s.pipes[c].s2c.sent[i])
    ensures forall i :: 0 <= i < |s.pipes[c].c2s.sent| ==> CliTagOk(s.sv.tasks, c, s.pipes[c].c2s.sent[i])
  {
    hide WireOk, SrvTagOk, CliTagOk;
    Parts(z, s);
    hide LoopsOk, TasksOk, ProcsOk, NoLeaks, LiveDistinct, ViewsOk;
  }

  // ----- Proof pieces shared by the steps -----

  ghost predicate ViewsKept(s: System, s': System) {
    && |s'.sv.tasks| == |s.sv.tasks|
    && forall k :: 0 <= k < |s.sv.tasks| ==> Keeps(ViewOf(s, k), ViewOf(s', k))
  }

  lemma ViewsKeptSuffices(s: System, s': System)
    requires ViewsOk(s) && LiveDistinct(s) && ViewsKept(s, s')
    ensures ViewsOk(s') && LiveDistinct(s')
  {
    hide LinkInv, Live;
    forall j, k | 0 <= j < k < |s'.sv.tasks| && Live(ViewOf(s', j))
      ensures s'.sv.tasks[j].id != s'.sv.tasks[k].id
    {
      assert Keeps(ViewOf(s, j), ViewOf(s', j)) && Keeps(ViewOf(s, k), ViewOf(s', k));
    }
  }

  lemma KeepsSelf(v: View)
    requires LinkInv(v)
    ensures Keeps(v, v)
  {
  }

  lemma KeepsTrans(a: View, b: View, c: View)
    requires Keeps(a, b) && Keeps(b, c)
    ensures Keeps(a, c)
  {
  }

  /** Tasks keep their ids, and their connections once they have one. */
  ghost predicate Stable(tasks: seq<Task>, tasks': seq<Task>) {
    && |tasks| <= |tasks'|
    && forall k :: 0 <= k < |tasks| ==>
         tasks'[k].id == tasks[k].id && (tasks[k].conn.Some? ==> tasks'[k].conn == tasks[k].conn)
  }

  lemma TagsStable(tasks: seq<Task>, tasks': seq<Task>, pipes: map<nat, Pipe>)
    requires TagsOk(tasks, pipes) && Stable(tasks, tasks')
    ensures TagsOk(tasks', pipes)
  {
    forall c | c in pipes
      ensures forall i :: 0 <= i < |pipes[c].s2c.sent| ==> SrvTagOk(tasks', c, pipes[c].s2c.sent[i])
      ensures forall i :: 0 <= i < |pipes[c].c2s.sent| ==> CliTagOk(tasks', c, pipes[c].c2s.sent[i])
    {
      forall i | 0 <= i < |pipes[c].s2c.sent| ensures SrvTagOk(tasks', c, pipes[c].s2c.sent[i]) {
        assert SrvTagOk(tasks, c, pipes[c].s2c.sent[i]);
      }
      forall i | 0 <= i < |pipes[c].c2s.sent| ensures CliTagOk(tasks', c, pipes[c].c2s.sent[i]) {
        assert CliTagOk(tasks, c, pipes[c].c2s.sent[i]);
      }
    }
  }

  lemma ProcsStable(tasks: seq<Task>, tasks': seq<Task>, pipes: map<nat, Pipe>, cl: map<nat, Client>)
    requires ProcsOk(tasks, pipes, cl) && Stable(tasks, tasks')
    ensures ProcsOk(tasks', pipes, cl)
  {
    hide Lifecycle;
    forall p | p in cl
      ensures ProcOk(tasks', pipes, p, cl[p]) && ObjsOk(tasks', pipes, p, cl[p].objs)
    {
      assert ProcOk(tasks, pipes, p, cl[p]) && ObjsOk(tasks, pipes, p, cl[p].objs);
    }
  }

  lemma LoopStable(tasks: seq<Task>, tasks': seq<Task>, c: nat, l: Loop, stag: Option<nat>)
    requires LoopOk(tasks, c, l, stag) && Stable(tasks, tasks')
    ensures LoopOk(tasks', c, l, stag)
  {
    hide PhaseOf;
  }

  lemma TasksPlaced(tasks: seq<Task>, pipes: map<nat, Pipe>, pipes': map<nat, Pipe>)
    requires TasksOk(tasks, pipes) && pipes.Keys <= pipes'.Keys
    ensures TasksOk(tasks, pipes')
  {
    forall k | 0 <= k < |tasks| ensures TaskOk(tasks[k], k, pipes') {
      assert TaskOk(tasks[k], k, pipes);
    }
  }

  /** Registered links, and tasks before their final removal, are live. */
  lemma UnfinishedLive(s: System, k: nat)
    requires k < |s.sv.tasks| && Unfinished(s.sv.tasks[k])
    ensures Live(ViewOf(s, k))
  {
    hide Proj;
  }

  lemma SameIdSameLink(s: System, j: nat, k: nat)
    requires LiveDistinct(s) && j < |s.sv.tasks| && k < |s.sv.tasks|
    requires Live(ViewOf(s, j)) && Live(ViewOf(s, k)) && s.sv.tasks[j].id == s.sv.tasks[k].id
    ensures j == k
  {
    hide Live, ViewOf;
  }

  /** The registry finds a live link by its id exactly when that link is registered. */
  lemma LookupFindsIt(s: System, k: nat)
    requires NoLeaks(s.sv) && LiveDistinct(s) && k < |s.sv.tasks| && Live(ViewOf(s, k))
    ensures s.sv.tasks[k].id in s.sv.links ==> s.sv.links[s.sv.tasks[k].id] == k
  {
    var id := s.sv.tasks[k].id;
    if id in s.sv.links {
      var j := s.sv.links[id];
      UnfinishedLive(s, j);
      SameIdSameLink(s, j, k);
    }
  }
}
