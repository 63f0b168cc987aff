/** Routes and links agree: outside shutdown, every routed link id is registered. */
module TunnelRoutes {
  import opened Bytes
  import opened Packets
  import opened Compression
  import opened Framing
  import opened Links
  import opened LinkServer
  import opened LinkClient
  import opened LinkProtocol
  import opened Wires
  import opened Tunnel
  import opened TunnelInv
  import opened TunnelWires
  import opened TunnelServer
  import opened TunnelLoops
  import opened TunnelReads
  import opened TunnelRuns

  predicate PastRouting(st: Stage) {
    !st.Picking? && !st.Picked? && !st.Added?
  }

  /** Outside shutdown, every routed id is in the registry. */
  ghost predicate RoutesAgree(sv: Server) {
    !sv.shut ==> forall id :: id in sv.routes ==> id in sv.links
  }

  ghost predicate AddedLinked(sv: Server) {
    !sv.shut ==> forall k :: 0 <= k < |sv.tasks| && sv.tasks[k].stage.Added? ==>
      sv.tasks[k].id in sv.links && sv.links[sv.tasks[k].id] == k
  }

  ghost predicate UnroutedGone(sv: Server) {
    forall k :: 0 <= k < |sv.tasks| && sv.tasks[k].stage.Unrouted? ==> sv.tasks[k].id !in sv.routes
  }

  ghost predicate UnlinkGone(sv: Server) {
    forall c :: c in sv.conns && sv.conns[c].loop.Unlink? ==> sv.conns[c].loop.id !in sv.routes
  }

  ghost predicate PendingGone(sv: Server) {
    forall c, id :: c in sv.conns && id in PendingIds(sv.conns[c].loop) ==>
      && id !in sv.routes
      && forall k :: 0 <= k < |sv.tasks| && sv.tasks[k].id == id ==> PastRouting(sv.tasks[k].stage)
  }

  ghost predicate RouteInv(sv: Server) {
    RoutesAgree(sv) && AddedLinked(sv) && UnroutedGone(sv) && UnlinkGone(sv) && PendingGone(sv)
  }

  // ----- Facts from the invariant of the system -----

  /** A loop that has unrouted a link is not unlinking an id that is being routed. */
  lemma UnlinkPast(z: Zstd, s: System, c: nat, k: nat)
    requires Inv(z, s) && c in s.sv.conns && s.sv.conns[c].loop.Unlink? && k < |s.sv.tasks|
    requires s.sv.tasks[k].id == s.sv.conns[c].loop.id && Unfinished(s.sv.tasks[k])
    ensures PastRouting(s.sv.tasks[k].stage)
  {
    hide Inv, ViewOf, LinkInv, Live, PipesOk, TagsOk, TasksOk, LoopsOk, ProcsOk, NoLeaks, ViewsOk, LiveDistinct;
    LoopPart(z, s, c);
    TaggedLookup(z, s, c);
    var j := s.pipes[c].stag.value;
    Parts(z, s);
    UnfinishedLive(s, k);
    TaskPart(z, s, j);
    SpLive(ViewOf(s, j));
    SameIdSameLink(s, j, k);
    TaskPart(z, s, k);
    SeenMeansOpened(ViewOf(s, k));
    ViewTask(s, k);
  }

  lemma ViewTask(s: System, k: nat)
    requires k < |s.sv.tasks|
    ensures ViewOf(s, k).t == s.sv.tasks[k]
  {
    hide Proj;
  }

  lemma SpLive(v: View)
    requires !v.sp.PNone?
    ensures Live(v)
  {
  }

  lemma SeenMeansOpened(v: View)
    requires LinkInv(v) && v.sp.PUnlink?
    ensures PastRouting(v.t.stage)
  {
    Grammar(v);
    hide ServerFlow, ClientInv, ServerDelivery;
  }

  // ----- Steps -----

  /** Only the record of task `k` changes, and it does not go back before routing. */
  ghost predicate OnlyTask(sv: Server, sv': Server, k: nat) {
    && |sv'.tasks| == |sv.tasks| && k < |sv.tasks| && sv'.conns == sv.conns && sv'.shut == sv.shut
    && (forall j :: 0 <= j < |sv.tasks| ==> sv'.tasks[j].id == sv.tasks[j].id)
    && (forall j :: 0 <= j < |sv.tasks| && j != k ==> sv'.tasks[j].stage == sv.tasks[j].stage)
    && (PastRouting(sv.tasks[k].stage) ==> PastRouting(sv'.tasks[k].stage))
  }

  /** No other unfinished task has the id of task `k`. */
  ghost predicate AloneWithId(sv: Server, k: nat) {
    k < |sv.tasks| &&
    forall j :: 0 <= j < |sv.tasks| && j != k && Unfinished(sv.tasks[j]) ==> sv.tasks[j].id != sv.tasks[k].id
  }

  lemma PlainRoutes(sv: Server, sv': Server, k: nat)
    requires RouteInv(sv) && OnlyTask(sv, sv', k) && sv'.links == sv.links && sv'.routes.Keys == sv.routes.Keys
    requires (sv'.tasks[k].stage.Added? ==> sv.tasks[k].stage.Added?)
    requires (sv'.tasks[k].stage.Unrouted? ==> sv.tasks[k].stage.Unrouted?)
    ensures RouteInv(sv')
  {
    assert forall id :: id in sv'.routes <==> id in sv.routes;
  }

  lemma AddLinkRoutes(sv: Server, sv': Server, k: nat)
    requires RouteInv(sv) && OnlyTask(sv, sv', k) && sv'.routes.Keys == sv.routes.Keys
    requires AloneWithId(sv, k) && sv'.tasks[k].stage.Added? && sv'.links == sv.links[sv.tasks[k].id := k]
    ensures RouteInv(sv')
  {
    assert forall id :: id in sv'.routes <==> id in sv.routes;
  }

  lemma AddRouteRoutes(sv: Server, sv': Server, k: nat)
    requires RouteInv(sv) && OnlyTask(sv, sv', k) && sv'.links == sv.links && AloneWithId(sv, k)
    requires sv'.routes.Keys == sv.routes.Keys + {sv.tasks[k].id}
    requires sv.tasks[k].stage.Added? && sv'.tasks[k].stage.Routed?
    requires forall c :: c in sv.conns && sv.conns[c].loop.Unlink? ==> sv.conns[c].loop.id != sv.tasks[k].id
    ensures RouteInv(sv')
  {
    assert forall id :: id in sv'.routes <==> id in sv.routes || id == sv.tasks[k].id;
    hide LinksOwned, RoutesOwned;
    assert PendingGone(sv') by { hide RoutesAgree, AddedLinked, UnroutedGone, UnlinkGone; }
    assert UnroutedGone(sv') by { hide RoutesAgree, AddedLinked, PendingGone, UnlinkGone; }
    hide PendingGone, UnroutedGone;
  }

  lemma UnrouteRoutes(sv: Server, sv': Server, k: nat)
    requires RouteInv(sv) && OnlyTask(sv, sv', k) && sv'.links == sv.links
    requires sv'.routes.Keys == sv.routes.Keys - {sv.tasks[k].id} && sv'.tasks[k].stage.Unrouted?
    ensures RouteInv(sv')
  {
    assert forall id :: id in sv'.routes <==> id in sv.routes && id != sv.tasks[k].id;
  }

  lemma RemoveRoutes(sv: Server, sv': Server, k: nat)
    requires RouteInv(sv) && OnlyTask(sv, sv', k) && sv'.routes.Keys == sv.routes.Keys && AloneWithId(sv, k)
    requires sv'.links == sv.links - {sv.tasks[k].id} && sv.tasks[k].stage.Unrouted? && sv'.tasks[k].stage.Unlinked?
    ensures RouteInv(sv')
  {
    assert forall id :: id in sv'.routes <==> id in sv.routes;
  }

  lemma Alone(sv: Server, k: nat)
    requires NoLeaks(sv) && k < |sv.tasks| && Unfinished(sv.tasks[k])
    ensures AloneWithId(sv, k)
  {
  }

  lemma TaskEffect2(sv: Server, k: nat, te: TaskEvent)
    requires TaskEnabled(sv, k, te)
    ensures var sv' := StepTask(sv, k, te); var st, st' := sv.tasks[k].stage, sv'.tasks[k].stage;
      && OnlyTask(sv, sv', k)
      && (st'.Added? ==> te.AddLink? || st.Added?) && (st'.Unrouted? ==> te.Unroute? || st.Unrouted?)
      && (te.AddLink? ==> st'.Added?) && (te.AddRoute? ==> st.Added? && st'.Routed?) && (te.Unroute? ==> st'.Unrouted?)
      && (te.RemoveLink? ==> st.Unrouted? && st'.Unlinked?)
      && (te.AddLink? || te.AddRoute? || te.RemoveLink? ==> Unfinished(sv.tasks[k]))
  {
  }

  lemma TaskRoutes(z: Zstd, s: System, k: nat, te: TaskEvent)
    requires Inv(z, s) && RouteInv(s.sv) && TaskEnabled(s.sv, k, te)
    ensures RouteInv(StepTask(s.sv, k, te))
  {
    var sv, sv' := s.sv, StepTask(s.sv, k, te);
    hide Inv, RouteInv, OnlyTask, NoLeaks, AloneWithId, PipesOk, TagsOk, TasksOk, LoopsOk, ProcsOk, ViewsOk, LiveDistinct, PastRouting;
    Parts(z, s);
    TaskEffect(sv, k, te);
    TaskEffect2(sv, k, te);
    hide StepTask, TaskEnabled;
    if Unfinished(sv.tasks[k]) {
      Alone(sv, k);
    }
    match te
    case AddLink => AddLinkRoutes(sv, sv', k);
    case AddRoute =>
      AddedNotPast(sv.tasks[k].stage);
      forall c | c in sv.conns && sv.conns[c].loop.Unlink?
        ensures sv.conns[c].loop.id != sv.tasks[k].id
      {
        if sv.conns[c].loop.id == sv.tasks[k].id {
          UnlinkPast(z, s, c, k);
        }
      }
      AddRouteRoutes(sv, sv', k);
    case Unroute => UnrouteRoutes(sv, sv', k);
    case RemoveLink => RemoveRoutes(sv, sv', k);
    case _ => PlainRoutes(sv, sv', k);
  }

  lemma AddedNotPast(st: Stage)
    ensures st.Added? ==> !PastRouting(st)
  {
  }

  // ----- Dispatch loops -----

  /** Stages and ids stay; the loop of connection `c` moves on to `l'`. */
  ghost predicate OnlyLoop(sv: Server, sv': Server, c: nat, l': Loop) {
    && |sv'.tasks| == |sv.tasks| && sv'.shut == sv.shut && c in sv.conns
    && (forall j :: 0 <= j < |sv.tasks| ==> sv'.tasks[j].id == sv.tasks[j].id && sv'.tasks[j].stage == sv.tasks[j].stage)
    && sv'.conns == sv.conns[c := sv.conns[c].(loop := l')]
    && sv'.routes.Keys <= sv.routes.Keys
  }

  /** The loop takes no link out of the registry, and what it will take out is already unrouted. */
  lemma QuietLoopRoutes(sv: Server, sv': Server, c: nat, l': Loop)
    requires RouteInv(sv) && OnlyLoop(sv, sv', c, l') && sv'.links == sv.links
    requires l'.Unlink? ==> l'.id !in sv'.routes
    requires forall id :: id in PendingIds(l') ==>
               id !in sv'.routes && forall k :: 0 <= k < |sv.tasks| && sv.tasks[k].id == id ==> PastRouting(sv.tasks[k].stage)
    ensures RouteInv(sv')
  {
    assert forall id :: id in sv'.routes ==> id in sv.routes;
  }

  /** The loop takes the link of an unrouted id out of the registry. */
  lemma UnlinkLoopRoutes(sv: Server, sv': Server, c: nat, l': Loop, id: u16)
    requires RouteInv(sv) && OnlyLoop(sv, sv', c, l') && sv'.links == sv.links - {id} && id !in sv.routes
    requires forall k :: 0 <= k < |sv.tasks| && sv.tasks[k].id == id && Unfinished(sv.tasks[k]) ==> PastRouting(sv.tasks[k].stage)
    requires !l'.Unlink? && PendingIds(l') <= PendingIds(sv.conns[c].loop)
    ensures RouteInv(sv')
  {
    assert forall i :: i in sv'.routes ==> i in sv.routes;
  }

  lemma LoopFrame(sv: Server, c: nat, le: LoopEvent)
    requires LoopEnabled(sv, c, le)
    ensures OnlyLoop(sv, StepLoop(sv, c, le), c, NextLoop(sv, c, le))
    ensures var sv' := StepLoop(sv, c, le); var l, l' := sv.conns[c].loop, NextLoop(sv, c, le);
      && sv'.links == (if le.UnlinkFor? then sv.links - {l.id} else if le.CleanNext? then sv.links - {le.id} else sv.links)
      && (l'.Unlink? ==> le.UnrouteFor? && l'.id !in sv'.routes)
      && (le.UnlinkFor? ==> l.Unlink? && PendingIds(l') == {})
      && (le.CleanNext? ==> le.id in PendingIds(l))
      && (!le.Collect? ==> PendingIds(l') <= PendingIds(l))
      && (le.Collect? ==> PendingIds(l') == OwnedIds(sv, sv.conns[c].addr) && sv'.routes == sv.routes - PendingIds(l'))
  {
  }

  /** A route's id belongs to no task that is still to insert its route. */
  lemma RoutedPast(sv: Server, id: u16, k: nat)
    requires NoLeaks(sv) && id in sv.routes && k < |sv.tasks| && sv.tasks[k].id == id
    ensures PastRouting(sv.tasks[k].stage)
  {
    var o := sv.routes[id].owner;
    assert o < |sv.tasks| && sv.tasks[o].id == id && MayBeRouted(sv.tasks[o].stage);
    assert k < o || o < k || k == o;
  }

  lemma LoopRoutes(z: Zstd, s: System, c: nat, le: LoopEvent)
    requires Inv(z, s) && RouteInv(s.sv) && LoopEnabled(s.sv, c, le)
    ensures RouteInv(StepLoop(s.sv, c, le))
  {
    var sv, sv' := s.sv, StepLoop(s.sv, c, le);
    var l' := NextLoop(sv, c, le);
    LoopFrame(sv, c, le);
    PendingFact(sv);
    hide Inv, RouteInv, NoLeaks, PipesOk, TagsOk, TasksOk, LoopsOk, ProcsOk, ViewsOk, LiveDistinct, PastRouting, StepLoop,
      NextLoop, LoopEnabled, PendingIds, OnlyLoop, Unfinished;
    Parts(z, s);
    if le.UnlinkFor? {
      forall k | 0 <= k < |sv.tasks| && sv.tasks[k].id == sv.conns[c].loop.id && Unfinished(sv.tasks[k])
        ensures PastRouting(sv.tasks[k].stage)
      {
        UnlinkPast(z, s, c, k);
      }
      UnlinkLoopRoutes(sv, sv', c, l', sv.conns[c].loop.id);
    } else if le.CleanNext? {
      UnlinkLoopRoutes(sv, sv', c, l', le.id);
    } else {
      if le.Collect? {
        forall id, k | id in PendingIds(l') && 0 <= k < |sv.tasks| && sv.tasks[k].id == id
          ensures PastRouting(sv.tasks[k].stage)
        {
          RoutedPast(sv, id, k);
        }
      }
      SubRoutes(sv, sv', c, l');
      QuietLoopRoutes(sv, sv', c, l');
    }
  }

  lemma SubRoutes(sv: Server, sv': Server, c: nat, l': Loop)
    requires OnlyLoop(sv, sv', c, l')
    ensures forall id :: id in sv'.routes ==> id in sv.routes
  {
  }

  lemma PendingFact(sv: Server)
    requires RouteInv(sv)
    ensures forall c, id :: c in sv.conns && id in PendingIds(sv.conns[c].loop) ==>
      id !in sv.routes && forall k :: 0 <= k < |sv.tasks| && sv.tasks[k].id == id ==> PastRouting(sv.tasks[k].stage)
    ensures forall c :: c in sv.conns && sv.conns[c].loop.Unlink? ==> sv.conns[c].loop.id !in sv.routes
  {
    hide PendingIds, PastRouting;
  }

  // ----- Runs -----

  lemma AllocRoutes(sv: Server)
    requires RouteInv(sv) && NotPending(sv)
    ensures RouteInv(Step(sv, Alloc))
  {
    var sv' := Step(sv, Alloc);
    assert forall k :: 0 <= k < |sv.tasks| ==> sv'.tasks[k] == sv.tasks[k];
    forall c, id | c in sv'.conns && id in PendingIds(sv'.conns[c].loop)
      ensures id !in sv'.routes
      ensures forall k :: 0 <= k < |sv'.tasks| && sv'.tasks[k].id == id ==> PastRouting(sv'.tasks[k].stage)
    {
      assert c in sv.conns && id in PendingIds(sv.conns[c].loop) && id != sv.counter;
      forall k | 0 <= k < |sv'.tasks| && sv'.tasks[k].id == id ensures PastRouting(sv'.tasks[k].stage) {
        assert k < |sv.tasks|;
      }
    }
    hide PendingGone, PendingIds;
  }

  lemma OtherRoutes(sv: Server, e: Event)
    requires RouteInv(sv) && Enabled(sv, e) && (e.Register? || e.Shutdown?)
    ensures RouteInv(Step(sv, e))
  {
  }

  lemma ActRoutes(z: Zstd, s: System, a: Act)
    requires Inv(z, s) && RouteInv(s.sv) && CanAct(z, s, a) && (a.SrvAlloc? ==> NotPending(s.sv))
    ensures RouteInv(Next(z, s, a).sv)
  {
    hide Inv, RouteInv, StepTask, StepLoop, Step, MayPut, MayTake, ReadPacket, LoopMoves, TaskMoves;
    match a
    case SrvAlloc => AllocRoutes(s.sv);
    case SrvRegister(c, addr) => OtherRoutes(s.sv, Register(c, addr));
    case SrvTask(k, te) => TaskRoutes(z, s, k, te);
    case SrvEmit(k, pid, out) => TaskRoutes(z, s, k, Emit(out.Sent?));
    case SrvLoop(c, le) => LoopRoutes(z, s, c, le);
    case SrvRecv(c) =>
      var m := Received(z, s.pipes[c].c2s);
      LoopRoutes(z, s, c, Recv(m.packet, m.data));
    case SrvPong(c, pid, out) => LoopRoutes(z, s, c, PongSent);
    case SrvShutdown => OtherRoutes(s.sv, Shutdown);
    case _ =>
  }

  lemma {:induction false} RunRoutes(z: Zstd, run: seq<System>, acts: seq<Act>)
    requires Lossless(z) && IsRun(z, run, acts) && Disciplined(run, acts)
    requires forall i :: 0 <= i < |acts| && acts[i].SrvAlloc? ==> NotPending(run[i].sv)
    ensures forall i :: 0 <= i < |run| ==> RouteInv(run[i].sv)
  {
    hide Inv, CanAct, Next, FreshId, NotPending;
    if |acts| == 0 {
      hide IsInit;
      StartRoutes(run[0]);
    } else {
      hide IsInit, RouteInv;
      var n := |acts|;
      var before, sooner := run[..n], acts[..n - 1];
      RunRoutes(z, before, sooner);
      RunInv(z, run, acts);
      assert before[n - 1] == run[n - 1];
      ActRoutes(z, run[n - 1], acts[n - 1]);
      assert forall i :: 0 <= i < n ==> before[i] == run[i];
    }
  }

  lemma StartRoutes(s: System)
    requires IsInit(s)
    ensures RouteInv(s.sv)
  {
  }

  /** In every run whose live ids stay distinct, and at every interleaving point before shutdown, each routed
      link id is in the registry, where it names the link whose task inserted the route. */
  lemma RouteLinkAgreement(z: Zstd, run: seq<System>, acts: seq<Act>, i: nat)
    requires Lossless(z) && IsRun(z, run, acts) && Disciplined(run, acts) && i < |run|
    requires forall j :: 0 <= j < |acts| && acts[j].SrvAlloc? ==> NotPending(run[j].sv)
    requires !run[i].sv.shut
    ensures var sv := run[i].sv;
      forall id :: id in sv.routes ==> id in sv.links && sv.links[id] == sv.routes[id].owner
  {
    hide Inv, RouteInv, TunnelRuns.IsRun, Disciplined, NotPending;
    RunRoutes(z, run, acts);
    RunInv(z, run, acts);
    SystemRoutes(z, run[i]);
  }

  lemma SystemRoutes(z: Zstd, s: System)
    requires Inv(z, s) && RouteInv(s.sv) && !s.sv.shut
    ensures forall id :: id in s.sv.routes ==> id in s.sv.links && s.sv.links[id] == s.sv.routes[id].owner
  {
    hide Inv, PipesOk, TagsOk, TasksOk, LoopsOk, ProcsOk, ViewsOk, LiveDistinct;
    Parts(z, s);
    OwnersAgree(s.sv);
  }

  lemma OwnersAgree(sv: Server)
    requires NoLeaks(sv) && RoutesAgree(sv) && !sv.shut
    ensures forall id :: id in sv.routes ==> id in sv.links && sv.links[id] == sv.routes[id].owner
  {
    forall id | id in sv.routes
      ensures id in sv.links && sv.links[id] == sv.routes[id].owner
    {
      var k, o := sv.links[id], sv.routes[id].owner;
      assert k < o || o < k || k == o;
    }
  }
}
