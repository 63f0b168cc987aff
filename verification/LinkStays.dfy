/** Nothing happens to a server link by itself: how long it stays registered, routed, and open. */
module LinkStays {
  import opened Bytes
  import opened Links
  import opened LinkServer
  import opened ServerRuns

  lemma Happens(run: seq<Server>, events: seq<Event>, i: nat)
    requires IsServerRun(run, events) && i < |events|
    ensures |run| == |events| + 1 && Enabled(run[i], events[i]) && run[i + 1] == Step(run[i], events[i])
  {
    hide Enabled, Step;
  }

  // ----- Registered -----

  /** What can take the link under an id out of the registry: a task with that id, a loop that handles the far side's
      `Close` or `OpenFail` for it, a cleanup that collected it, a link registered in its place, or a shutdown. */
  predicate TakesOut(s: Server, e: Event, id: u16) {
    match e
    case OfTask(k, te) => (te.AddLink? || te.RemoveLink?) && k < |s.tasks| && s.tasks[k].id == id
    case OfLoop(c, UnlinkFor) => c in s.conns && s.conns[c].loop == Unlink(id)
    case OfLoop(_, CleanNext(i)) => i == id
    case Shutdown => true
    case _ => false
  }

  lemma LinkKept(s: Server, e: Event, id: u16)
    requires Enabled(s, e) && id in s.links && !TakesOut(s, e, id)
    ensures id in Step(s, e).links && Step(s, e).links[id] == s.links[id]
  {
    match e
    case OfTask(k, te) => TaskEffect(s, k, te); TaskThere(s, k, te); hide StepTask, TaskEnabled;
    case OfLoop(c, le) => hide NextLoop;
    case _ =>
  }

  lemma TaskThere(s: Server, k: nat, te: TaskEvent)
    requires TaskEnabled(s, k, te)
    ensures k < |s.tasks|
  {
  }

  /** From the step in which a handler adds its link, the registry has the link under its id, whatever else happens, until
      one of the few steps that take it out. */
  lemma {:induction false} RegisteredUntilTaken(run: seq<Server>, events: seq<Event>, i: nat, j: nat, k: nat)
    requires IsServerRun(run, events) && i < j < |run| && |run| == |events| + 1 && events[i] == OfTask(k, AddLink)
    requires k < |run[i].tasks| && forall n :: i < n < j ==> !TakesOut(run[n], events[n], run[i].tasks[k].id)
    ensures var id := run[i].tasks[k].id; id in run[j].links && run[j].links[id] == k
    decreases j
  {
    hide IsServerRun, Enabled, Step, TakesOut;
    Happens(run, events, j - 1);
    if j == i + 1 {
      AddRegisters(run[i], k);
    } else {
      RegisteredUntilTaken(run, events, i, j - 1, k);
      LinkKept(run[j - 1], events[j - 1], run[i].tasks[k].id);
    }
  }

  lemma AddRegisters(s: Server, k: nat)
    requires Enabled(s, OfTask(k, AddLink))
    ensures k < |s.tasks| && var s' := Step(s, OfTask(k, AddLink)); s.tasks[k].id in s'.links && s'.links[s.tasks[k].id] == k
  {
  }

  lemma LinkStaysOut(s: Server, e: Event, id: u16)
    requires Enabled(s, e) && id !in s.links && !(e.OfTask? && e.te.AddLink? && e.k < |s.tasks| && s.tasks[e.k].id == id)
    ensures id !in Step(s, e).links
  {
    match e
    case OfTask(k, te) => TaskEffect(s, k, te); TaskThere(s, k, te); hide StepTask, TaskEnabled;
    case OfLoop(c, le) => LoopEffect(s, c, le); hide StepLoop, LoopEnabled, NextLoop;
    case _ =>
  }

  lemma TakenOut(s: Server, e: Event, id: u16)
    requires Enabled(s, e) && TakesOut(s, e, id) && !(e.OfTask? && e.te.AddLink?)
    ensures id !in Step(s, e).links
  {
    match e
    case OfTask(k, te) => TaskEffect(s, k, te); hide StepTask, TaskEnabled;
    case OfLoop(c, le) => hide NextLoop;
    case _ =>
  }

  /** Once taken out by any of them, the id is not registered until a handler with that id adds a link. */
  lemma {:induction false} TakenUntilAdded(run: seq<Server>, events: seq<Event>, i: nat, j: nat, id: u16)
    requires IsServerRun(run, events) && i < j < |run| && |run| == |events| + 1
    requires TakesOut(run[i], events[i], id) && !(events[i].OfTask? && events[i].te.AddLink?)
    requires forall n :: i < n < j && events[n].OfTask? && events[n].te.AddLink? ==>
               events[n].k < |run[n].tasks| && run[n].tasks[events[n].k].id != id
    ensures id !in run[j].links
    decreases j
  {
    hide IsServerRun, Enabled, Step, TakesOut;
    Happens(run, events, j - 1);
    if j == i + 1 {
      TakenOut(run[i], events[i], id);
    } else {
      TakenUntilAdded(run, events, i, j - 1, id);
      LinkStaysOut(run[j - 1], events[j - 1], id);
    }
  }

  // ----- Routed -----

  /** What can take the route of an id away. */
  predicate TakesRoute(s: Server, e: Event, id: u16, addr: Addr) {
    match e
    case OfTask(k, te) => (te.AddRoute? || te.Unroute?) && k < |s.tasks| && s.tasks[k].id == id
    case OfLoop(c, UnrouteFor) => c in s.conns && s.conns[c].loop.Held? && s.conns[c].loop.packet.linkId == id
    case OfLoop(c, Collect) => c in s.conns && s.conns[c].addr == addr
    case _ => false
  }

  lemma RouteKept(s: Server, e: Event, id: u16)
    requires Enabled(s, e) && id in s.routes && !TakesRoute(s, e, id, s.routes[id].addr)
    ensures id in Step(s, e).routes && Step(s, e).routes[id] == s.routes[id]
  {
    match e
    case OfTask(k, te) => TaskThere(s, k, te); TaskRoutesKept(s, k, te, id); hide StepTask, TaskEnabled;
    case OfLoop(c, le) => hide NextLoop;
    case _ =>
  }

  lemma TaskRoutesKept(s: Server, k: nat, te: TaskEvent, id: u16)
    requires TaskEnabled(s, k, te) && id in s.routes && !((te.AddRoute? || te.Unroute?) && s.tasks[k].id == id)
    ensures id in StepTask(s, k, te).routes && StepTask(s, k, te).routes[id] == s.routes[id]
  {
  }

  /** From the step in which a handler adds its route, its id is routed to the address of the connection it picked, until
      its task or the far side ends the link, a cleanup at that address collects it, or the id is routed anew. */
  lemma {:induction false} RoutedUntilTaken(run: seq<Server>, events: seq<Event>, i: nat, j: nat, k: nat)
    requires IsServerRun(run, events) && i < j < |run| && |run| == |events| + 1 && events[i] == OfTask(k, AddRoute)
    requires k < |run[i].tasks| && run[i].tasks[k].conn.Some? && run[i].tasks[k].conn.value in run[i].conns
    requires var addr := run[i].conns[run[i].tasks[k].conn.value].addr;
      forall n :: i < n < j ==> !TakesRoute(run[n], events[n], run[i].tasks[k].id, addr)
    ensures var id := run[i].tasks[k].id;
      id in run[j].routes && run[j].routes[id] == LinkServer.Route(run[i].conns[run[i].tasks[k].conn.value].addr, k)
    decreases j
  {
    hide IsServerRun, Enabled, Step, TakesRoute;
    Happens(run, events, j - 1);
    if j == i + 1 {
      AddsRoute(run[i], k);
    } else {
      RoutedUntilTaken(run, events, i, j - 1, k);
      RouteKept(run[j - 1], events[j - 1], run[i].tasks[k].id);
    }
  }

  lemma AddsRoute(s: Server, k: nat)
    requires Enabled(s, OfTask(k, AddRoute))
    ensures k < |s.tasks| && s.tasks[k].conn.Some? && s.tasks[k].conn.value in s.conns
    ensures var s' := Step(s, OfTask(k, AddRoute)); var id := s.tasks[k].id;
      id in s'.routes && s'.routes[id] == LinkServer.Route(s.conns[s.tasks[k].conn.value].addr, k)
  {
  }

  /** What takes the route of an id away for good: its task or the far side ends the link, or a cleanup at the address of
      the route collects it. */
  predicate Unroutes(s: Server, e: Event, id: u16) {
    match e
    case OfTask(k, te) => te.Unroute? && k < |s.tasks| && s.tasks[k].id == id
    case OfLoop(c, UnrouteFor) => c in s.conns && s.conns[c].loop.Held? && s.conns[c].loop.packet.linkId == id
    case OfLoop(c, Collect) => c in s.conns && id in s.routes && s.conns[c].addr == s.routes[id].addr
    case _ => false
  }

  lemma RouteTaken(s: Server, e: Event, id: u16)
    requires Enabled(s, e) && Unroutes(s, e, id)
    ensures id !in Step(s, e).routes
  {
    match e
    case OfTask(k, te) => TaskEffect(s, k, te); hide StepTask, TaskEnabled;
    case OfLoop(c, le) => hide NextLoop;
    case _ =>
  }

  lemma RouteStaysOut(s: Server, e: Event, id: u16)
    requires Enabled(s, e) && id !in s.routes && !(e.OfTask? && e.te.AddRoute? && e.k < |s.tasks| && s.tasks[e.k].id == id)
    ensures id !in Step(s, e).routes
  {
    match e
    case OfTask(k, te) => TaskEffect(s, k, te); TaskThere(s, k, te); hide StepTask, TaskEnabled;
    case OfLoop(c, le) => LoopEffect(s, c, le); hide StepLoop, LoopEnabled, NextLoop;
    case _ =>
  }

  /** Then the id is not routed until a handler with that id adds a route. */
  lemma {:induction false} UnroutedUntilAdded(run: seq<Server>, events: seq<Event>, i: nat, j: nat, id: u16)
    requires IsServerRun(run, events) && i < j < |run| && |run| == |events| + 1 && Unroutes(run[i], events[i], id)
    requires forall n :: i < n < j && events[n].OfTask? && events[n].te.AddRoute? ==>
               events[n].k < |run[n].tasks| && run[n].tasks[events[n].k].id != id
    ensures id !in run[j].routes
    decreases j
  {
    hide IsServerRun, Enabled, Step, Unroutes;
    Happens(run, events, j - 1);
    if j == i + 1 {
      RouteTaken(run[i], events[i], id);
    } else {
      UnroutedUntilAdded(run, events, i, j - 1, id);
      RouteStaysOut(run[j - 1], events[j - 1], id);
    }
  }

  // ----- Open -----

  /** What can shut the write half of task `k`'s link: its socket fails, by itself or in a write, or someone closes it. */
  predicate Shuts(s: Server, e: Event, k: nat) {
    match e
    case OfTask(j, AppBreak) => j == k
    case OfTask(j, Finish) => j < |s.tasks| && s.tasks[j].stage == Unlinked(Some(k))
    case OfLoop(c, DeliverTo(out)) => c in s.conns && s.conns[c].loop.Deliver? && s.conns[c].loop.link == k && out.Failed?
    case OfLoop(c, CloseFor) => c in s.conns && s.conns[c].loop == CloseLink(k)
    case OfLoop(c, CleanShut) => c in s.conns && s.conns[c].loop.CleanClose? && s.conns[c].loop.link == k
    case Shutdown => k in s.links.Values
    case _ => false
  }

  lemma TaskOpen(s: Server, j: nat, e: TaskEvent, k: nat)
    requires TaskEnabled(s, j, e) && k < |s.tasks| && s.tasks[k].link.open && !Shuts(s, OfTask(j, e), k)
    ensures StepTask(s, j, e).tasks[k].link.open
  {
  }

  lemma LoopOpen(s: Server, c: nat, e: LoopEvent, k: nat)
    requires LoopEnabled(s, c, e) && k < |s.tasks| && s.tasks[k].link.open && !Shuts(s, OfLoop(c, e), k)
    ensures StepLoop(s, c, e).tasks[k].link.open
  {
    hide NextLoop;
  }

  lemma StepOpen(s: Server, e: Event, k: nat)
    requires Enabled(s, e) && k < |s.tasks| && s.tasks[k].link.open && !Shuts(s, e, k)
    ensures k < |Step(s, e).tasks| && Step(s, e).tasks[k].link.open
  {
    match e
    case OfTask(j, te) => TaskOpen(s, j, te, k); hide StepTask, TaskEnabled;
    case OfLoop(c, le) => LoopOpen(s, c, le, k); hide StepLoop, LoopEnabled;
    case _ =>
  }

  /** A link whose write half is shut was shut for a cause: in some step of the run its socket failed, or somebody
      closed it. */
  lemma {:induction false} ShutForCause(run: seq<Server>, events: seq<Event>, i: nat, k: nat) returns (j: nat)
    requires IsServerRun(run, events) && i < |run| && |run| == |events| + 1 && k < |run[i].tasks| && !run[i].tasks[k].link.open
    ensures j < i && k < |run[j].tasks| && Shuts(run[j], events[j], k)
  {
    assert i > 0;
    hide IsServerRun, Enabled, Step, Shuts;
    Happens(run, events, i - 1);
    var s, e := run[i - 1], events[i - 1];
    j := i - 1;
    if k >= |s.tasks| {
      OnlyAllocAdds(s, e);
      BornOpen(s);
    } else if !s.tasks[k].link.open {
      j := ShutForCause(run, events, i - 1, k);
    } else if !Shuts(s, e, k) {
      StepOpen(s, e, k);
    }
  }

  lemma BornOpen(s: Server)
    ensures Step(s, Alloc).tasks[|s.tasks|].link.open
  {
  }
}
