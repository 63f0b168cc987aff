/** Whose links a connection's cleanup takes.  `cleanup_client` selects routes by address, so it takes its own
    connection's links, and those of any other connection from the same address. */
module LinkCleanup {
  import opened Bytes
  import opened Links
  import opened LinkServer
  import opened ServerRuns

  /** A route carries the address of the connection its link was opened on. */
  ghost predicate RoutesAddressed(s: Server) {
    forall id :: id in s.routes ==>
      var k := s.routes[id].owner;
      && k < |s.tasks| && s.tasks[k].conn.Some? && s.tasks[k].conn.value in s.conns
      && s.conns[s.tasks[k].conn.value].addr == s.routes[id].addr && !s.tasks[k].stage.Picking?
  }

  /** A task's step never touches a chosen connection, and adds a route only under its address. */
  lemma RouteEffect(s: Server, k: nat, e: TaskEvent)
    requires TaskEnabled(s, k, e)
    ensures var s' := StepTask(s, k, e);
      && |s'.tasks| == |s.tasks| && s'.conns == s.conns
      && (forall j :: 0 <= j < |s.tasks| && !s.tasks[j].stage.Picking? ==>
            s'.tasks[j].conn == s.tasks[j].conn && !s'.tasks[j].stage.Picking?)
      && (forall id :: id in s'.routes ==>
            (id in s.routes && s'.routes[id] == s.routes[id])
            || (s'.routes[id].owner == k && s'.tasks[k].conn.Some? && s'.tasks[k].conn.value in s.conns
                && s'.routes[id].addr == s.conns[s'.tasks[k].conn.value].addr && !s'.tasks[k].stage.Picking?))
  {
  }

  lemma TaskKeepsAddressed(s: Server, k: nat, e: TaskEvent)
    requires RoutesAddressed(s) && TaskEnabled(s, k, e)
    ensures RoutesAddressed(StepTask(s, k, e))
  {
    RouteEffect(s, k, e);
    assert k < |s.tasks|;
    hide StepTask, TaskEnabled;
  }

  lemma LoopKeepsAddressed(s: Server, c: nat, e: LoopEvent)
    requires RoutesAddressed(s) && LoopEnabled(s, c, e)
    ensures RoutesAddressed(StepLoop(s, c, e))
  {
    LoopEffect(s, c, e);
    assert c in s.conns;
    hide StepLoop, LoopEnabled, NextLoop;
  }

  lemma StepKeepsAddressed(s: Server, e: Event)
    requires RoutesAddressed(s) && Enabled(s, e)
    ensures RoutesAddressed(Step(s, e))
  {
    hide StepTask, StepLoop, TaskEnabled, LoopEnabled;
    match e
    case OfTask(k, te) => TaskKeepsAddressed(s, k, te);
    case OfLoop(c, le) => LoopKeepsAddressed(s, c, le);
    case Alloc =>
    case Register(_, _) =>
    case Shutdown =>
  }

  lemma {:induction false} RunAddressed(run: seq<Server>, events: seq<Event>)
    requires IsServerRun(run, events)
    ensures RoutesAddressed(run[|run| - 1])
  {
    if |events| > 0 {
      hide RoutesAddressed, Enabled, Step;
      var n := |events| - 1;
      var before := run[..n + 1];
      RunAddressed(before, events[..n]);
      assert before[n] == run[n];
      StepKeepsAddressed(run[n], events[n]);
    } else {
      assert RoutesAddressed(INIT);
    }
  }

  /** The task that inserted a route picked this connection. */
  predicate OnConn(s: Server, id: u16, c: nat)
    requires id in s.routes
  {
    s.routes[id].owner < |s.tasks| && s.tasks[s.routes[id].owner].conn == Some(c)
  }

  /** In every run: the cleanup of a connection removes each route of that connection; and it removes no
      others exactly when no link is routed to another connection from the same address. */
  lemma CleanupIsOwnIffAlone(run: seq<Server>, events: seq<Event>, c: nat)
    requires IsServerRun(run, events) && LoopEnabled(run[|run| - 1], c, Collect)
    ensures var s := run[|run| - 1];
      var s' := StepLoop(s, c, Collect);
      forall id :: id in s'.routes ==> id in s.routes && !OnConn(s, id, c)
    ensures var s := run[|run| - 1];
      var s' := StepLoop(s, c, Collect);
      (forall id :: id in s.routes && id !in s'.routes ==> OnConn(s, id, c)) <==>
      (forall id, d :: id in s.routes && d in s.conns && OnConn(s, id, d) && d != c ==> s.conns[d].addr != s.conns[c].addr)
  {
    RunAddressed(run, events);
    hide IsServerRun;
    var s := run[|run| - 1];
    var s' := StepLoop(s, c, Collect);
    assert forall id :: id in s'.routes <==> id in s.routes && s.routes[id].addr != s.conns[c].addr;
    hide StepLoop;
    if forall id :: id in s.routes && id !in s'.routes ==> OnConn(s, id, c) {
      forall id, d | id in s.routes && d in s.conns && OnConn(s, id, d) && d != c
        ensures s.conns[d].addr != s.conns[c].addr
      {
        assert !OnConn(s, id, c);
      }
    }
    if forall id, d :: id in s.routes && d in s.conns && OnConn(s, id, d) && d != c ==> s.conns[d].addr != s.conns[c].addr {
      forall id | id in s.routes && id !in s'.routes ensures OnConn(s, id, c) {
        assert OnConn(s, id, s.tasks[s.routes[id].owner].conn.value);
      }
    }
  }

  // ----- What a cleanup releases -----

  /** Task `k` has a route for the address. */
  ghost predicate RoutedAt(s: Server, k: nat, addr: Addr) {
    k < |s.tasks| && s.tasks[k].id in s.routes && s.routes[s.tasks[k].id] == LinkServer.Route(addr, k)
  }

  /** The cleanup still has to unlink this id. */
  predicate StillToUnlink(l: Loop, id: u16) {
    (l.Cleaning? || l.CleanClose?) && id in l.ids
  }

  predicate InCleanup(l: Loop) {
    l.Cleaning? || l.CleanClose? || l.Gone?
  }

  /** Task `k` lost its route for good, and its link is gone or on the list of the cleanup of connection `c`. */
  ghost predicate Released(s: Server, c: nat, k: nat) {
    && k < |s.tasks| && c in s.conns && InCleanup(s.conns[c].loop)
    && !s.tasks[k].stage.Picking? && !s.tasks[k].stage.Picked? && !s.tasks[k].stage.Added?
    && (forall id :: id in s.routes ==> s.routes[id].owner != k)
    && (InRegistry(s, k) ==> StillToUnlink(s.conns[c].loop, s.tasks[k].id))
  }

  lemma CollectReleases(s: Server, c: nat, k: nat)
    requires NoLeaks(s) && LoopEnabled(s, c, Collect) && RoutedAt(s, k, s.conns[c].addr)
    ensures Released(StepLoop(s, c, Collect), c, k)
  {
    assert s.tasks[k].id in OwnedIds(s, s.conns[c].addr);
  }

  lemma TaskKeepsReleased(s: Server, j: nat, e: TaskEvent, c: nat, k: nat)
    requires Released(s, c, k) && TaskEnabled(s, j, e)
    ensures Released(StepTask(s, j, e), c, k)
  {
    TaskEffect(s, j, e);
    assert e.AddLink? || e.AddRoute? ==> j != k;
    assert StepTask(s, j, e).conns == s.conns;
    StagesAdvance(s, j, e);
    hide StepTask, TaskEnabled, InCleanup, StillToUnlink;
  }

  lemma StagesAdvance(s: Server, j: nat, e: TaskEvent)
    requires TaskEnabled(s, j, e)
    ensures var t, t' := s.tasks[j], StepTask(s, j, e).tasks[j];
      !t.stage.Picking? && !t.stage.Picked? && !t.stage.Added? ==>
        !t'.stage.Picking? && !t'.stage.Picked? && !t'.stage.Added?
  {
  }

  lemma LoopKeepsReleased(s: Server, d: nat, e: LoopEvent, c: nat, k: nat)
    requires Released(s, c, k) && LoopEnabled(s, d, e)
    ensures Released(StepLoop(s, d, e), c, k)
  {
    LoopEffect(s, d, e);
    if d == c {
      CleanupGoesOn(s, c, e);
    }
    hide StepLoop, LoopEnabled, NextLoop, InCleanup, StillToUnlink;
    var s' := StepLoop(s, d, e);
    assert s'.tasks[k].stage == s.tasks[k].stage && s'.tasks[k].id == s.tasks[k].id;
  }

  lemma CleanupGoesOn(s: Server, c: nat, e: LoopEvent)
    requires LoopEnabled(s, c, e) && InCleanup(s.conns[c].loop)
    ensures var l, s' := s.conns[c].loop, StepLoop(s, c, e);
      && InCleanup(s'.conns[c].loop)
      && forall id :: StillToUnlink(l, id) ==> StillToUnlink(s'.conns[c].loop, id) || id !in s'.links
  {
  }

  lemma StepKeepsReleased(s: Server, e: Event, c: nat, k: nat)
    requires Released(s, c, k) && Enabled(s, e)
    ensures Released(Step(s, e), c, k)
  {
    hide StepTask, StepLoop, TaskEnabled, LoopEnabled;
    match e
    case OfTask(j, te) => TaskKeepsReleased(s, j, te, c, k);
    case OfLoop(d, le) => LoopKeepsReleased(s, d, le, c, k);
    case Alloc => assert Step(s, Alloc).tasks[k] == s.tasks[k];
    case Register(_, _) =>
    case Shutdown =>
  }

  lemma {:induction false} ReleasedStays(run: seq<Server>, events: seq<Event>, c: nat, k: nat, i: nat, j: nat)
    requires IsServerRun(run, events) && i <= j < |run| && Released(run[i], c, k)
    ensures Released(run[j], c, k)
    decreases j
  {
    if i < j {
      ReleasedStays(run, events, c, k, i, j - 1);
      hide Released;
      StepKeepsReleased(run[j - 1], events[j - 1], c, k);
    }
  }

  /** From the moment a cleanup collects its routes, every link that was routed to its address then has no route
      any more, in any map entry, for the rest of the run; and when the cleanup is over, the link is not in
      the registry either. */
  lemma CleanupReleases(run: seq<Server>, events: seq<Event>, i: nat, j: nat, c: nat, k: nat)
    requires IsServerRun(run, events) && i < j < |run| && events[i] == OfLoop(c, Collect)
    requires IdsFresh(run, events)
    requires c in run[i].conns && RoutedAt(run[i], k, run[i].conns[c].addr)
    ensures forall id :: id in run[j].routes ==> run[j].routes[id].owner != k
    ensures k < |run[j].tasks| && c in run[j].conns && (run[j].conns[c].loop.Gone? ==> !InRegistry(run[j], k))
  {
    NoLeakedLinks(run, events);
    assert NoLeaks(run[i]) && Enabled(run[i], events[i]) && run[i + 1] == Step(run[i], events[i]);
    CollectReleases(run[i], c, k);
    ReleasedStays(run, events, c, k, i + 1, j);
    hide IsServerRun, NoLeaks;
  }

  // ----- A cleanup that takes a newer connection's route -----

  const TWO_CONNECTIONS: seq<Event> := [
    Register(0, 7), OfLoop(0, Spawn), Register(1, 7), OfLoop(1, Spawn), Alloc]

  const ROUTE_AND_CLEAN: seq<Event> := [
    OfTask(0, Pick(1)), OfTask(0, AddLink), OfTask(0, AddRoute), OfLoop(0, Eof), OfLoop(0, Collect)]

  /** Two connections from address 7, and at most one link. */
  function TwoConns(l: Loop, tasks: seq<Task>, links: map<u16, nat>, routes: map<u16, Route>): Server {
    Server(if tasks == [] then 1 else 2, tasks, links, routes, map[0 := Conn(7, l), 1 := Conn(7, Idle)], false)
  }

  function NewTask(st: Stage): Task {
    Task(1, Some(1), st, NEW_LINK, [], None)
  }

  const BORN := Task(1, None, Picking, NEW_LINK, [], None)

  lemma ConnectSameAddress() returns (run: seq<Server>)
    ensures |run| == 6 && run[0] == INIT && run[5] == TwoConns(Idle, [BORN], map[], map[])
    ensures forall i :: 0 <= i < 5 ==> Leads(run[i], TWO_CONNECTIONS[i], run[i + 1])
  {
    var s1 := INIT.(conns := map[0 := Conn(7, Fresh)]);
    var s2 := INIT.(conns := map[0 := Conn(7, Idle)]);
    var s3 := INIT.(conns := map[0 := Conn(7, Idle), 1 := Conn(7, Fresh)]);
    var s4 := TwoConns(Idle, [], map[], map[]);
    var s5 := TwoConns(Idle, [BORN], map[], map[]);
    assert Leads(INIT, TWO_CONNECTIONS[0], s1);
    assert Leads(s1, TWO_CONNECTIONS[1], s2);
    assert Leads(s2, TWO_CONNECTIONS[2], s3);
    assert Leads(s3, TWO_CONNECTIONS[3], s4);
    assert Leads(s4, TWO_CONNECTIONS[4], s5);
    hide Leads;
    run := [INIT, s1, s2, s3, s4, s5];
  }

  lemma Routing()
    ensures Leads(TwoConns(Idle, [BORN], map[], map[]), ROUTE_AND_CLEAN[0], TwoConns(Idle, [NewTask(Picked)], map[], map[]))
    ensures Leads(TwoConns(Idle, [NewTask(Picked)], map[], map[]), ROUTE_AND_CLEAN[1],
                  TwoConns(Idle, [NewTask(Added)], map[1 := 0], map[]))
    ensures Leads(TwoConns(Idle, [NewTask(Added)], map[1 := 0], map[]), ROUTE_AND_CLEAN[2],
                  TwoConns(Idle, [NewTask(Routed)], map[1 := 0], map[1 := LinkServer.Route(7, 0)]))
  {
  }

  lemma CleaningUp()
    ensures Leads(TwoConns(Idle, [NewTask(Routed)], map[1 := 0], map[1 := LinkServer.Route(7, 0)]), ROUTE_AND_CLEAN[3],
                  TwoConns(Leaving, [NewTask(Routed)], map[1 := 0], map[1 := LinkServer.Route(7, 0)]))
    ensures Leads(TwoConns(Leaving, [NewTask(Routed)], map[1 := 0], map[1 := LinkServer.Route(7, 0)]), ROUTE_AND_CLEAN[4],
                  TwoConns(Loop.Cleaning({1}), [NewTask(Routed)], map[1 := 0], map[]))
  {
    var s := TwoConns(Leaving, [NewTask(Routed)], map[1 := 0], map[1 := LinkServer.Route(7, 0)]);
    assert OwnedIds(s, 7) == {1};
  }

  /** Two connections from one address: a link opened on the second loses its route when the first is
      cleaned up, and is closed next. */
  lemma OldCleanupTakesNewRoute() returns (run: seq<Server>)
    ensures IsServerRun(run, TWO_CONNECTIONS + ROUTE_AND_CLEAN)
    ensures 1 in run[9].conns && run[9].conns[1].loop.Idle? && 1 in run[9].routes && OnConn(run[9], 1, 1)
    ensures 1 !in run[10].routes && 0 in run[10].conns && run[10].conns[0].loop == Loop.Cleaning({1}) && 1 in run[10].links
  {
    var opening := ConnectSameAddress();
    Routing();
    CleaningUp();
    var routes := map[1 := LinkServer.Route(7, 0)];
    run := opening + [
      TwoConns(Idle, [NewTask(Picked)], map[], map[]), TwoConns(Idle, [NewTask(Added)], map[1 := 0], map[]),
      TwoConns(Idle, [NewTask(Routed)], map[1 := 0], routes), TwoConns(Leaving, [NewTask(Routed)], map[1 := 0], routes),
      TwoConns(Loop.Cleaning({1}), [NewTask(Routed)], map[1 := 0], map[])];
    var events := TWO_CONNECTIONS + ROUTE_AND_CLEAN;
    assert IsServerRun(run, events) by {
      hide TwoConns, NewTask;
      forall i | 0 <= i < 10 ensures Leads(run[i], events[i], run[i + 1]) {
        if i < 5 {
          assert run[i] == opening[i] && run[i + 1] == opening[i + 1] && events[i] == TWO_CONNECTIONS[i];
        } else {
          assert events[i] == ROUTE_AND_CLEAN[i - 5];
        }
      }
      LeadsMakeRun(run, events);
    }
    assert run[9].tasks == [NewTask(Routed)];
  }

  // ----- A link added behind a cleanup's back -----

  const PICK_THEN_CLEAN: seq<Event> := [
    Register(0, 7), OfLoop(0, Spawn), Alloc, OfTask(0, Pick(0)), OfLoop(0, Eof), OfLoop(0, Collect), OfLoop(0, CleanDone),
    OfTask(0, AddLink), OfTask(0, AddRoute)]

  function OneConn(l: Loop, tasks: seq<Task>): Server {
    Server(2, tasks, map[], map[], map[0 := Conn(7, l)], false)
  }

  function ConnTask(st: Stage): Task {
    Task(1, Some(0), st, NEW_LINK, [], None)
  }

  lemma CleanThenAdd()
    ensures Leads(OneConn(Leaving, [ConnTask(Picked)]), PICK_THEN_CLEAN[5], OneConn(Loop.Cleaning({}), [ConnTask(Picked)]))
    ensures Leads(OneConn(Loop.Cleaning({}), [ConnTask(Picked)]), PICK_THEN_CLEAN[6], OneConn(Gone, [ConnTask(Picked)]))
    ensures Leads(OneConn(Gone, [ConnTask(Picked)]), PICK_THEN_CLEAN[7], OneConn(Gone, [ConnTask(Added)]).(links := map[1 := 0]))
    ensures Leads(OneConn(Gone, [ConnTask(Added)]).(links := map[1 := 0]), PICK_THEN_CLEAN[8],
                  OneConn(Gone, [ConnTask(Routed)]).(links := map[1 := 0], routes := map[1 := LinkServer.Route(7, 0)]))
  {
    assert OwnedIds(OneConn(Leaving, [ConnTask(Picked)]), 7) == {};
  }

  lemma RegisterThenPick() returns (run: seq<Server>)
    ensures |run| == 6 && run[0] == INIT && run[5] == OneConn(Leaving, [ConnTask(Picked)])
    ensures forall i :: 0 <= i < 5 ==> Leads(run[i], PICK_THEN_CLEAN[i], run[i + 1])
  {
    var s1 := INIT.(conns := map[0 := Conn(7, Fresh)]);
    var s2 := INIT.(conns := map[0 := Conn(7, Idle)]);
    var s3 := OneConn(Idle, [BORN]);
    var s4 := OneConn(Idle, [ConnTask(Picked)]);
    var s5 := OneConn(Leaving, [ConnTask(Picked)]);
    assert Leads(INIT, PICK_THEN_CLEAN[0], s1);
    assert Leads(s1, PICK_THEN_CLEAN[1], s2);
    assert Leads(s2, PICK_THEN_CLEAN[2], s3);
    assert Leads(s3, PICK_THEN_CLEAN[3], s4);
    assert Leads(s4, PICK_THEN_CLEAN[4], s5);
    hide Leads;
    run := [INIT, s1, s2, s3, s4, s5];
  }

  /** A handler that picked a client before the cleanup and registers its link after it: the client is gone, and
      the link and its route are there. */
  lemma LateLinkOutlivesClient() returns (run: seq<Server>)
    ensures IsServerRun(run, PICK_THEN_CLEAN)
    ensures var s := run[9];
      0 in s.conns && s.conns[0].loop.Gone? && RoutedAt(s, 0, 7) && InRegistry(s, 0) && s.tasks[0].conn == Some(0)
  {
    var opening := RegisterThenPick();
    CleanThenAdd();
    run := opening + [
      OneConn(Loop.Cleaning({}), [ConnTask(Picked)]), OneConn(Gone, [ConnTask(Picked)]),
      OneConn(Gone, [ConnTask(Added)]).(links := map[1 := 0]),
      OneConn(Gone, [ConnTask(Routed)]).(links := map[1 := 0], routes := map[1 := LinkServer.Route(7, 0)])];
    assert IsServerRun(run, PICK_THEN_CLEAN) by {
      hide OneConn, ConnTask;
      forall i | 0 <= i < 9 ensures Leads(run[i], PICK_THEN_CLEAN[i], run[i + 1]) {
        if i < 5 {
          assert run[i] == opening[i] && run[i + 1] == opening[i + 1];
        }
      }
      LeadsMakeRun(run, PICK_THEN_CLEAN);
    }
  }
}
