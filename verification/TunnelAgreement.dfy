/** When issuing an id puts the agreement of routes and links at risk: exactly when a cleanup still has to unlink
    that id. */
module TunnelAgreement {
  import opened Bytes
  import opened Packets
  import opened Compression
  import opened Framing
  import opened Links
  import opened LinkServer
  import opened ServerRuns
  import opened LinkClient
  import opened LinkProtocol
  import opened Wires
  import opened Tunnel
  import opened TunnelReads
  import opened TunnelRuns
  import opened TunnelRoutes

  /** Every routed id is in the registry, where it names the link whose task inserted the route. */
  ghost predicate Agrees(sv: Server) {
    forall id :: id in sv.routes ==> id in sv.links && sv.links[id] == sv.routes[id].owner
  }

  /** No id is issued from step `i` on that a cleanup still has to unlink. */
  ghost predicate PendingKeptFrom(run: seq<System>, acts: seq<Act>, i: nat) {
    |run| == |acts| + 1 && forall n :: i <= n < |acts| && acts[n].SrvAlloc? ==> NotPending(run[n].sv)
  }

  /** The run goes on with the next id being issued; live ids stay distinct, and no id issued later is pending. */
  ghost predicate Issues(z: Zstd, run: seq<System>, acts: seq<Act>, run': seq<System>, acts': seq<Act>) {
    && IsRun(z, run', acts') && Disciplined(run', acts') && run <= run' && acts <= acts'
    && |acts| < |acts'| && acts'[|acts|] == SrvAlloc && PendingKeptFrom(run', acts', |acts| + 1)
  }

  ghost predicate AgreesThroughout(run: seq<System>) {
    forall j: nat :: j < |run| && !run[j].sv.shut ==> Agrees(run[j].sv)
  }

  // ----- Server steps that touch no wire -----

  predicate Local(e: Event) {
    match e
    case Alloc => true
    case OfTask(_, te) => !te.Emit?
    case OfLoop(_, le) => !le.Recv? && !le.PongSent?
    case _ => false
  }

  function ActOf(e: Event): Act
    requires Local(e)
  {
    match e
    case Alloc => SrvAlloc
    case OfTask(k, te) => SrvTask(k, te)
    case OfLoop(c, le) => SrvLoop(c, le)
  }

  lemma LocalGoes(z: Zstd, s: System, e: Event, sv': Server)
    requires Local(e) && Leads(s.sv, e, sv')
    ensures Goes(z, s, ActOf(e), s.(sv := sv'))
  {
    hide StepTask, StepLoop, TaskEnabled, LoopEnabled;
  }

  /** A run of the system that goes on with local steps of the server. */
  lemma GoesOnLocally(z: Zstd, run: seq<System>, acts: seq<Act>, path: seq<Server>, events: seq<Event>)
    returns (run': seq<System>, acts': seq<Act>)
    requires IsRun(z, run, acts) && IsPath(path, events) && path[0] == run[|acts|].sv
    requires forall i :: 0 <= i < |events| ==> Local(events[i])
    ensures IsRun(z, run', acts') && run <= run' && acts <= acts' && |acts'| == |acts| + |events|
    ensures forall i :: 0 <= i < |events| ==> acts'[|acts| + i] == ActOf(events[i])
    ensures forall i :: 0 <= i < |path| ==> run'[|acts| + i] == run[|acts|].(sv := path[i])
  {
    var s := run[|acts|];
    var n := |acts|;
    acts' := acts + seq(|events|, i requires 0 <= i < |events| => ActOf(events[i]));
    run' := run + seq(|events|, i requires 0 <= i < |events| => s.(sv := path[i + 1]));
    assert s.(sv := path[0]) == s;
    hide CanAct, Next, Leads, ActOf, IsInit;
    forall i | 0 <= i < |acts'| ensures Goes(z, run'[i], acts'[i], run'[i + 1]) {
      if i < n {
        assert CanAct(z, run[i], acts[i]) && run[i + 1] == Next(z, run[i], acts[i]);
      } else {
        assert Leads(path[i - n], events[i - n], path[i - n + 1]);
        LocalGoes(z, s.(sv := path[i - n]), events[i - n], path[i - n + 1]);
        hide Goes;
      }
    }
    GoesMakeRun(z, run', acts');
  }

  // ----- A pending id -----

  /** A handler registers and routes its link, and a cleanup takes the link. */
  function TakeEvents(c: nat, k: nat, id: u16): seq<Event> {
    [OfTask(k, Pick(c)), OfTask(k, AddLink), OfTask(k, AddRoute), OfLoop(c, CleanNext(id))]
  }

  /** The steps that make a routed link lose its registration, once its id was issued while pending for `c`. */
  lemma PendingTaken(sv: Server, c: nat) returns (path: seq<Server>, events: seq<Event>)
    requires c in sv.conns && sv.counter in PendingIds(sv.conns[c].loop)
    ensures IsPath(path, events) && |path| == |events| + 1 && path[0] == sv && |events| > 0 && events[0] == Alloc
    ensures forall i :: 0 <= i < |events| ==> Local(events[i])
    ensures forall i :: 1 <= i < |events| ==> !events[i].Alloc?
    ensures path[|events|].shut == sv.shut && !Agrees(path[|events|])
  {
    var k, id := |sv.tasks|, sv.counter;
    var s1 := Step(sv, Alloc);
    assert s1.tasks[k] == Task(id, None, Picking, NEW_LINK, [], None);
    assert Leads(sv, Alloc, s1) && s1.conns == sv.conns && s1.shut == sv.shut;
    hide Step, Leads, Agrees, IsPath;
    if s1.conns[c].loop.CleanClose? {
      ShutStep(s1, c, k);
      var s2 := StepLoop(s1, c, CleanShut);
      hide StepLoop;
      path := TakeNew(s2, c, k, id);
      events := TakeEvents(c, k, id);
      Prepended(s1, OfLoop(c, CleanShut), path, events);
      path, events := [s1] + path, [OfLoop(c, CleanShut)] + events;
    } else {
      path := TakeNew(s1, c, k, id);
      events := TakeEvents(c, k, id);
    }
    Prepended(sv, Alloc, path, events);
    path, events := [sv] + path, [Alloc] + events;
  }

  lemma ShutStep(s: Server, c: nat, k: nat)
    requires c in s.conns && s.conns[c].loop.CleanClose? && k == |s.tasks| - 1 && s.tasks[k].stage.Picking?
    ensures var t := StepLoop(s, c, CleanShut);
      && Leads(s, OfLoop(c, CleanShut), t) && c in t.conns && t.conns[c].loop == Cleaning(s.conns[c].loop.ids) && t.shut == s.shut
      && k < |t.tasks| && t.tasks[k].stage.Picking? && t.tasks[k].id == s.tasks[k].id
  {
  }

  lemma TakeNew(s: Server, c: nat, k: nat, id: u16) returns (path: seq<Server>)
    requires c in s.conns && s.conns[c].loop.Cleaning? && id in s.conns[c].loop.ids
    requires k < |s.tasks| && s.tasks[k].stage.Picking? && s.tasks[k].id == id
    ensures |path| == 5 && path[0] == s && path[4].shut == s.shut && !Agrees(path[4])
    ensures IsPath(path, TakeEvents(c, k, id))
  {
    var p := PickAddRoute(s, c, k, id);
    var s4 := StepLoop(p[3], c, CleanNext(id));
    assert Leads(p[3], OfLoop(c, CleanNext(id)), s4) && s4.routes == p[3].routes && s4.links == p[3].links - {id};
    assert s4.shut == s.shut && id in s4.routes && id !in s4.links;
    hide Leads, StepLoop;
    path := p + [s4];
  }

  lemma PickAddRoute(s: Server, c: nat, k: nat, id: u16) returns (p: seq<Server>)
    requires c in s.conns && k < |s.tasks| && s.tasks[k].stage.Picking? && s.tasks[k].id == id
    ensures |p| == 4 && p[0] == s && p[3].shut == s.shut && p[3].conns == s.conns && id in p[3].routes
    ensures Leads(p[0], OfTask(k, Pick(c)), p[1]) && Leads(p[1], OfTask(k, AddLink), p[2])
    ensures Leads(p[2], OfTask(k, AddRoute), p[3])
  {
    var s1 := StepTask(s, k, Pick(c));
    var s2 := StepTask(s1, k, AddLink);
    var s3 := StepTask(s2, k, AddRoute);
    p := [s, s1, s2, s3];
  }

  lemma PendingBreaks(z: Zstd, run: seq<System>, acts: seq<Act>, c: nat) returns (run': seq<System>, acts': seq<Act>)
    requires IsRun(z, run, acts) && Disciplined(run, acts) && FreshId(run[|acts|]) && !run[|acts|].sv.shut
    requires var sv := run[|acts|].sv; c in sv.conns && sv.counter in PendingIds(sv.conns[c].loop)
    ensures Issues(z, run, acts, run', acts') && !AgreesThroughout(run')
  {
    var s := run[|acts|];
    var path, events := PendingTaken(s.sv, c);
    hide CanAct, Next, IsInit, FreshId, Agrees, NotPending, IsPath, PendingIds;
    run', acts' := GoesOnLocally(z, run, acts, path, events);
    hide IsRun;
    forall i | 0 <= i < |acts'| && acts'[i].SrvAlloc? ensures FreshId(run'[i]) && i <= |acts| {
      if i >= |acts| {
        assert acts'[i] == ActOf(events[i - |acts|]);
        assert i == |acts|;
        assert s.(sv := path[0]) == s;
      }
    }
    var last := run'[|acts| + |events|];
    assert last.sv == path[|events|] && !last.sv.shut && !Agrees(last.sv);
  }

  /** For every run up to the point where a fresh id is issued, with no pending id issued so far and no shutdown:
      routes and links agree before any shutdown in whatever happens next, as long as live ids stay distinct and no
      id issued later is pending, if and only if this id is not pending. */
  lemma AgreesIffNotPending(z: Zstd, run: seq<System>, acts: seq<Act>)
    requires Lossless(z) && IsRun(z, run, acts) && Disciplined(run, acts) && PendingKeptFrom(run, acts, 0)
    requires FreshId(run[|acts|]) && !run[|acts|].sv.shut
    ensures (forall run': seq<System>, acts': seq<Act> :: Issues(z, run, acts, run', acts') ==> AgreesThroughout(run')) <==>
            NotPending(run[|acts|].sv)
  {
    var sv := run[|acts|].sv;
    hide IsRun, Disciplined, FreshId;
    if NotPending(sv) {
      forall run': seq<System>, acts': seq<Act> | Issues(z, run, acts, run', acts') ensures AgreesThroughout(run') {
        forall j: nat | j < |run'| && !run'[j].sv.shut ensures Agrees(run'[j].sv) {
          AllKept(run, acts, run', acts');
          hide Issues, NotPending;
          RouteLinkAgreement(z, run', acts', j);
        }
      }
    } else {
      var c :| c in sv.conns && sv.counter in PendingIds(sv.conns[c].loop);
      var run', acts' := PendingBreaks(z, run, acts, c);
    }
  }

  lemma AllKept(run: seq<System>, acts: seq<Act>, run': seq<System>, acts': seq<Act>)
    requires PendingKeptFrom(run, acts, 0) && PendingKeptFrom(run', acts', |acts| + 1) && NotPending(run[|acts|].sv)
    requires run <= run' && acts <= acts' && |acts| < |acts'|
    ensures forall n :: 0 <= n < |acts'| && acts'[n].SrvAlloc? ==> NotPending(run'[n].sv)
  {
    hide NotPending;
    forall n | 0 <= n < |acts'| && acts'[n].SrvAlloc? ensures NotPending(run'[n].sv) {
      if n < |acts| {
        assert acts'[n] == acts[n] && run'[n] == run[n];
      } else if n == |acts| {
        assert run'[n] == run[n];
      }
    }
  }
}
