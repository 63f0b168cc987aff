/** The whole trace of a link id on a connection, across reuse of the id: the words of the links that had it, one
    after the other, in the order of their allocation. */
module TunnelTraces {
  import opened Bytes
  import opened Packets
  import opened Compression
  import opened Framing
  import opened Links
  import opened LinkServer
  import opened LinkClient
  import opened LinkProtocol
  import opened Wires
  import opened Tunnel
  import opened TunnelInv
  import opened TunnelWires
  import opened TunnelReads
  import opened TunnelClients
  import opened TunnelRuns
  import opened TunnelHistory
  import opened TunnelTheorems

  // ----- Packets with one id never go back to an earlier link -----

  predicate SameId(x: Tagged, y: Tagged) {
    x.tag.Some? && y.tag.Some? && x.m.packet.linkId == y.m.packet.linkId
  }

  ghost predicate Ordered(ts: seq<Tagged>) {
    forall a, b :: 0 <= a < b < |ts| && SameId(ts[a], ts[b]) ==> ts[a].tag.value <= ts[b].tag.value
  }

  ghost predicate AllOrdered(s: System) {
    forall c :: c in s.pipes ==> Ordered(s.pipes[c].s2c.sent) && Ordered(s.pipes[c].c2s.sent)
  }

  /** A live link is the latest with its id. */
  ghost predicate Latest(s: System, k: nat, id: u16) {
    k < |s.sv.tasks| && s.sv.tasks[k].id == id && forall j :: k < j < |s.sv.tasks| ==> s.sv.tasks[j].id != id
  }

  lemma LiveIsLatest(z: Zstd, s: System, k: nat)
    requires Inv(z, s) && k < |s.sv.tasks| && Live(ViewOf(s, k))
    ensures Latest(s, k, s.sv.tasks[k].id)
  {
    hide Inv, Live, ViewOf;
    Parts(z, s);
    hide PipesOk, TagsOk, TasksOk, LoopsOk, ProcsOk, NoLeaks, ViewsOk;
  }

  /** Writing a packet of the latest link, or of none, keeps a wire in order. */
  lemma PutOrdered(z: Zstd, s: System, c: nat, w: Wire, tm: Tagged, out: SendOutcome)
    requires MayPut(z, w, tm.m, out) && Ordered(w.sent)
    requires forall i :: 0 <= i < |w.sent| && w.sent[i].tag.Some? ==> Owns(s.sv.tasks, c, w.sent[i].tag.value, w.sent[i].m.packet.linkId)
    requires tm.tag.Some? ==> Latest(s, tm.tag.value, tm.m.packet.linkId)
    ensures Ordered(PutFrame(z, w, tm, out).sent)
  {
    PutEffect(z, w, tm, out);
    hide PutFrame, MayPut;
    var sent := w.sent + [tm];
    forall a, b | 0 <= a < b < |sent| && SameId(sent[a], sent[b]) ensures sent[a].tag.value <= sent[b].tag.value {
      if b < |w.sent| {
        assert SameId(w.sent[a], w.sent[b]);
      }
    }
  }

  lemma TagsOwned(z: Zstd, s: System, c: nat)
    requires Inv(z, s) && c in s.pipes
    ensures forall i :: 0 <= i < |s.pipes[c].s2c.sent| && s.pipes[c].s2c.sent[i].tag.Some? ==>
              Owns(s.sv.tasks, c, s.pipes[c].s2c.sent[i].tag.value, s.pipes[c].s2c.sent[i].m.packet.linkId)
    ensures forall i :: 0 <= i < |s.pipes[c].c2s.sent| && s.pipes[c].c2s.sent[i].tag.Some? ==>
              Owns(s.sv.tasks, c, s.pipes[c].c2s.sent[i].tag.value, s.pipes[c].c2s.sent[i].m.packet.linkId)
  {
    hide Inv, Owns, WireOk;
    PipePart(z, s, c);
  }

  lemma ToClientOrdered(z: Zstd, s: System, c: nat, tm: Tagged, out: SendOutcome)
    requires Inv(z, s) && AllOrdered(s) && c in s.pipes && MayPut(z, s.pipes[c].s2c, tm.m, out)
    requires tm.tag.Some? ==> Latest(s, tm.tag.value, tm.m.packet.linkId)
    ensures forall d :: d in s.pipes ==>
              Ordered(ToClient(z, s, c, tm, out)[d].s2c.sent) && Ordered(ToClient(z, s, c, tm, out)[d].c2s.sent)
    ensures ToClient(z, s, c, tm, out).Keys == s.pipes.Keys
  {
    hide Inv, MayPut, PutFrame, Latest, Owns, Ordered;
    TagsOwned(z, s, c);
    PutOrdered(z, s, c, s.pipes[c].s2c, tm, out);
  }

  lemma ToServerOrdered(z: Zstd, s: System, c: nat, tm: Tagged, out: SendOutcome)
    requires Inv(z, s) && AllOrdered(s) && c in s.pipes && MayPut(z, s.pipes[c].c2s, tm.m, out)
    requires tm.tag.Some? ==> Latest(s, tm.tag.value, tm.m.packet.linkId)
    ensures forall d :: d in s.pipes ==>
              Ordered(ToServer(z, s, c, tm, out)[d].s2c.sent) && Ordered(ToServer(z, s, c, tm, out)[d].c2s.sent)
    ensures ToServer(z, s, c, tm, out).Keys == s.pipes.Keys
  {
    hide Inv, MayPut, PutFrame, Latest, Owns, Ordered;
    TagsOwned(z, s, c);
    PutOrdered(z, s, c, s.pipes[c].c2s, tm, out);
  }

  // ----- Every step -----

  lemma EmitLatest(z: Zstd, s: System, k: nat, pid: u64, ok: bool)
    requires Inv(z, s) && TaskEnabled(s.sv, k, Emit(ok))
    ensures Latest(s, k, Outgoing(s.sv.tasks[k], pid).packet.linkId)
  {
    hide Inv, ViewOf, Live, Latest;
    assert Unfinished(s.sv.tasks[k]);
    UnfinishedLive(s, k);
    LiveIsLatest(z, s, k);
  }

  lemma OpenedLatest(z: Zstd, s: System, p: nat)
    requires Inv(z, s) && OpenedDue(s, p)
    ensures Latest(s, s.cl[p].loop.link, s.cl[p].objs[s.cl[p].loop.link].id)
  {
    hide Inv, ViewOf, Latest;
    TaggedClient(z, s, p);
    LiveIsLatest(z, s, s.cl[p].loop.link);
  }

  lemma RefusalLatest(z: Zstd, s: System, p: nat)
    requires Inv(z, s) && OnPipe(s, p) && s.cl[p].loop.RefusalDue?
    ensures s.pipes[s.cl[p].conn].ctag.Some? && Latest(s, s.pipes[s.cl[p].conn].ctag.value, s.cl[p].loop.id)
  {
    hide Inv, ViewOf, Latest;
    TaggedClient(z, s, p);
    LiveIsLatest(z, s, s.pipes[s.cl[p].conn].ctag.value);
  }

  lemma PutLatest(z: Zstd, s: System, p: nat, o: nat, pid: u64, ok: bool)
    requires Inv(z, s) && PutDue(s, p, o) && TaskMay(s.cl[p], o, Put(ok))
    ensures Latest(s, o, ClientOutgoing(s.cl[p].objs[o], pid).packet.linkId)
  {
    hide Inv, ViewOf, Latest, Live;
    ObjView(z, s, p, o);
    LiveIsLatest(z, s, o);
  }

  lemma ActOrdered(z: Zstd, s: System, a: Act)
    requires Inv(z, s) && AllOrdered(s) && CanAct(z, s, a)
    ensures AllOrdered(Next(z, s, a))
  {
    hide Inv, Ordered, Latest, MayPut, MayTake, PutFrame, TakeFrame, Outgoing, ClientOutgoing, Control, StepTask, StepLoop, Step,
      TaskEnabled, LoopEnabled, LoopMoves, TaskMoves, LoopMay, TaskMay, Move, ToClient, ToServer;
    match a
    case SrvEmit(k, pid, out) =>
      EmitLatest(z, s, k, pid, out.Sent?);
      ToClientOrdered(z, s, s.sv.tasks[k].conn.value, Tagged(Some(k), Outgoing(s.sv.tasks[k], pid)), out);
    case SrvPong(c, pid, out) => ToClientOrdered(z, s, c, Tagged(None, Control(PacketType.Pong, pid, 0)), out);
    case SrvRecv(c) => TakeGrows(z, s.pipes[c].c2s);
    case CliTake(p) => TakeGrows(z, s.pipes[s.cl[p].conn].s2c);
    case CliReply(p, pid, out) => ToServerOrdered(z, s, s.cl[p].conn, Tagged(None, Control(PacketType.Pong, pid, 0)), out);
    case CliOpened(p, pid, out) =>
      var o := s.cl[p].loop.link;
      OpenedLatest(z, s, p);
      ControlId(PacketType.Opened, pid, s.cl[p].objs[o].id);
      ToServerOrdered(z, s, s.cl[p].conn, Tagged(Some(o), Control(PacketType.Opened, pid, s.cl[p].objs[o].id)), out);
    case CliRefuse(p, pid, out) =>
      var c := s.cl[p].conn;
      RefusalLatest(z, s, p);
      ControlId(PacketType.OpenFail, pid, s.cl[p].loop.id);
      ToServerOrdered(z, s, c, Tagged(s.pipes[c].ctag, Control(PacketType.OpenFail, pid, s.cl[p].loop.id)), out);
    case CliPut(p, o, pid, out) =>
      PutLatest(z, s, p, o, pid, out.Sent?);
      ToServerOrdered(z, s, s.cl[p].objs[o].conn, Tagged(Some(o), ClientOutgoing(s.cl[p].objs[o], pid)), out);
    case CliPing(c, pid, out) => ToServerOrdered(z, s, c, Tagged(None, Control(PacketType.Ping, pid, 0)), out);
    case CliConnect(p, c) => NoneOrdered();
    case _ =>
  }

  lemma ControlId(t: PacketType, pid: u64, id: u16)
    ensures Control(t, pid, id).packet.linkId == id
  {
  }

  lemma NoneOrdered()
    ensures Ordered([])
  {
  }

  lemma {:induction false} RunOrdered(z: Zstd, run: seq<System>, acts: seq<Act>, i: nat)
    requires Lossless(z) && IsRun(z, run, acts) && Disciplined(run, acts) && i < |run|
    ensures AllOrdered(run[i])
  {
    hide AllOrdered, CanAct, Next;
    if i > 0 {
      hide IsInit;
      RunOrdered(z, run, acts, i - 1);
      RunInv(z, run, acts);
      hide Inv, Disciplined;
      ActOrdered(z, run[i - 1], acts[i - 1]);
    } else {
      StartOrdered(run[0]);
    }
  }

  lemma StartOrdered(s: System)
    requires IsInit(s)
    ensures AllOrdered(s)
  {
  }

  // ----- Words -----

  /** The words on a wire of the first `n` links that had this id, in the order of their allocation. */
  function Words(tasks: seq<Task>, ts: seq<Tagged>, id: u16, n: nat): seq<Msg>
    requires n <= |tasks|
  {
    if n == 0 then [] else
      Words(tasks, ts, id, n - 1) + (if tasks[n - 1].id == id then Proj(ts, n - 1) else [])
  }

  lemma {:induction false} WordsOther(tasks: seq<Task>, ts: seq<Tagged>, x: Tagged, id: u16, n: nat)
    requires n <= |tasks|
    requires x.tag.Some? ==> n <= x.tag.value || (x.tag.value < |tasks| && tasks[x.tag.value].id != id)
    ensures Words(tasks, ts + [x], id, n) == Words(tasks, ts, id, n)
  {
    if n > 0 {
      WordsOther(tasks, ts, x, id, n - 1);
      ProjAppend(ts, x, n - 1);
    }
  }

  /** A packet of link `k` goes to the end, as no later link with the id has any. */
  lemma {:induction false} WordsLast(tasks: seq<Task>, ts: seq<Tagged>, x: Tagged, id: u16, n: nat, k: nat)
    requires k < n <= |tasks| && x.tag == Some(k) && tasks[k].id == id
    requires forall j :: k < j < n && tasks[j].id == id ==> Proj(ts, j) == []
    ensures Words(tasks, ts + [x], id, n) == Words(tasks, ts, id, n) + [Abs(x.m)]
  {
    ProjAppend(ts, x, n - 1);
    if n - 1 == k {
      WordsOther(tasks, ts, x, id, n - 1);
    } else {
      WordsLast(tasks, ts, x, id, n - 1, k);
    }
  }

  /** Each packet but keep-alive is tagged with a link that has its id. */
  predicate WellTagged(tasks: seq<Task>, x: Tagged) {
    if x.tag.Some? then !IsControl(x.m) && x.tag.value < |tasks| && tasks[x.tag.value].id == x.m.packet.linkId
    else IsControl(x.m)
  }

  lemma {:induction false} TraceIsWords(tasks: seq<Task>, ts: seq<Tagged>, id: u16)
    requires Ordered(ts) && forall i :: 0 <= i < |ts| ==> WellTagged(tasks, ts[i])
    ensures IdTrace(ts, id) == Words(tasks, ts, id, |tasks|)
  {
    if ts == [] {
      NoWords(tasks, id, |tasks|);
    } else {
      var n := |ts| - 1;
      var before, x := ts[..n], ts[n];
      TraceIsWords(tasks, before, id);
      assert ts == before + [x] && WellTagged(tasks, x);
      if x.tag.Some? && x.m.packet.linkId == id {
        forall j | x.tag.value < j < |tasks| && tasks[j].id == id ensures Proj(before, j) == [] {
          forall i | 0 <= i < |before| ensures before[i].tag != Some(j) {
            assert before[i] == ts[i] && WellTagged(tasks, ts[i]);
            assert before[i].tag == Some(j) ==> SameId(ts[i], ts[n]);
          }
          ProjEmpty(before, j);
        }
        WordsLast(tasks, before, x, id, |tasks|, x.tag.value);
      } else {
        WordsOther(tasks, before, x, id, |tasks|);
      }
    }
  }

  lemma {:induction false} NoWords(tasks: seq<Task>, id: u16, n: nat)
    requires n <= |tasks|
    ensures Words(tasks, [], id, n) == []
  {
    if n > 0 {
      NoWords(tasks, id, n - 1);
    }
  }

  lemma WireTagged(z: Zstd, s: System, c: nat)
    requires Inv(z, s) && c in s.pipes
    ensures forall i :: 0 <= i < |s.pipes[c].s2c.sent| ==> WellTagged(s.sv.tasks, s.pipes[c].s2c.sent[i])
    ensures forall i :: 0 <= i < |s.pipes[c].c2s.sent| ==> WellTagged(s.sv.tasks, s.pipes[c].c2s.sent[i])
  {
    hide Inv, WireOk;
    PipePart(z, s, c);
    forall i | 0 <= i < |s.pipes[c].s2c.sent| ensures WellTagged(s.sv.tasks, s.pipes[c].s2c.sent[i]) {
      assert SrvTagOk(s.sv.tasks, c, s.pipes[c].s2c.sent[i]);
    }
    forall i | 0 <= i < |s.pipes[c].c2s.sent| ensures WellTagged(s.sv.tasks, s.pipes[c].c2s.sent[i]) {
      assert CliTagOk(s.sv.tasks, c, s.pipes[c].c2s.sent[i]);
    }
  }

  /** In every run, what a wire carries for one link id is, also across reuse of the id: the words of the links that
      had the id, one after the other in the order of their allocation.  Each word follows the grammar. */
  lemma TraceAcrossReuse(z: Zstd, run: seq<System>, acts: seq<Act>, i: nat, s: System, c: nat, id: u16)
    requires Reached(z, run, acts, i, s) && c in s.pipes
    ensures IdTrace(s.pipes[c].s2c.sent, id) == Words(s.sv.tasks, s.pipes[c].s2c.sent, id, |s.sv.tasks|)
    ensures IdTrace(s.pipes[c].c2s.sent, id) == Words(s.sv.tasks, s.pipes[c].c2s.sent, id, |s.sv.tasks|)
    ensures forall k :: 0 <= k < |s.sv.tasks| ==>
              ServerGrammar(Proj(s.pipes[c].s2c.sent, k)) && ClientGrammar(Proj(s.pipes[c].c2s.sent, k))
  {
    RunOrdered(z, run, acts, i);
    hide AllOrdered, Inv, IsRun, Disciplined, WellTagged, Proj, IdTrace, Words, On, ServerGrammar, ClientGrammar;
    ReachedInv(z, run, acts, i, s);
    WireTagged(z, s, c);
    OrderedAt(s, c);
    TraceIsWords(s.sv.tasks, s.pipes[c].s2c.sent, id);
    TraceIsWords(s.sv.tasks, s.pipes[c].c2s.sent, id);
    forall k | 0 <= k < |s.sv.tasks|
      ensures ServerGrammar(Proj(s.pipes[c].s2c.sent, k)) && ClientGrammar(Proj(s.pipes[c].c2s.sent, k))
    {
      WordGrammar(z, run, acts, i, s, k, c);
    }
  }

  lemma OrderedAt(s: System, c: nat)
    requires AllOrdered(s) && c in s.pipes
    ensures Ordered(s.pipes[c].s2c.sent) && Ordered(s.pipes[c].c2s.sent)
  {
    hide Ordered;
  }

  lemma WordGrammar(z: Zstd, run: seq<System>, acts: seq<Act>, i: nat, s: System, k: nat, c: nat)
    requires Reached(z, run, acts, i, s) && c in s.pipes && k < |s.sv.tasks|
    ensures ServerGrammar(Proj(s.pipes[c].s2c.sent, k)) && ClientGrammar(Proj(s.pipes[c].c2s.sent, k))
  {
    hide Reached, Inv, Proj;
    if s.sv.tasks[k].conn == Some(c) {
      hide ServerGrammar, ClientGrammar;
      TraceGrammar(z, run, acts, i, s, k, c);
    } else {
      ReachedInv(z, run, acts, i, s);
      TagsOwned(z, s, c);
      ProjEmpty(s.pipes[c].s2c.sent, k);
      ProjEmpty(s.pipes[c].c2s.sent, k);
    }
  }
}
