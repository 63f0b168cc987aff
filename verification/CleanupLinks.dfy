/** Which links a cleanup collects and takes over a whole run.  The ids are collected in one step, and the links
    are taken one by one, by id, in later steps: an id that is issued again in between names another link. */
module CleanupLinks {
  import opened Bytes
  import opened Links
  import opened LinkServer
  import opened ServerRuns
  import opened LinkCleanup

  // ----- What is collected -----

  /** The link of an unfinished task is collected exactly if it has a route for the address. */
  lemma CollectedIffRouted(s: Server, k: nat, addr: Addr)
    requires NoLeaks(s) && k < |s.tasks| && Unfinished(s.tasks[k])
    ensures s.tasks[k].id in OwnedIds(s, addr) <==> RoutedAt(s, k, addr)
  {
    if s.tasks[k].id in OwnedIds(s, addr) {
      var o := s.routes[s.tasks[k].id].owner;
      assert MayBeRouted(s.tasks[o].stage) && Unfinished(s.tasks[o]);
    }
  }

  /** A task of this connection that has not finished. */
  predicate OfConn(s: Server, k: nat, c: nat) {
    k < |s.tasks| && s.tasks[k].conn == Some(c) && Unfinished(s.tasks[k])
  }

  /** In every run: a cleanup collects the link of an unfinished task exactly if that link is routed to its
      address at that moment.  So it collects all links of its connection if and only if all are routed. */
  lemma CollectsAllIffAllRouted(run: seq<Server>, events: seq<Event>, c: nat)
    requires IsServerRun(run, events) && IdsFresh(run, events) && LoopEnabled(run[|run| - 1], c, Collect)
    ensures var s := run[|run| - 1];
      var l := StepLoop(s, c, Collect).conns[c].loop;
      && l.Cleaning?
      && (forall k :: 0 <= k < |s.tasks| && Unfinished(s.tasks[k]) ==>
            (s.tasks[k].id in l.ids <==> RoutedAt(s, k, s.conns[c].addr)))
      && ((forall k: nat :: OfConn(s, k, c) ==> s.tasks[k].id in l.ids) <==>
          (forall k: nat :: OfConn(s, k, c) ==> RoutedAt(s, k, s.conns[c].addr)))
  {
    NoLeakedLinks(run, events);
    var s := run[|run| - 1];
    assert NoLeaks(s);
    hide IsServerRun, IdsFresh, NoLeaks;
    var l := StepLoop(s, c, Collect).conns[c].loop;
    assert l == Cleaning(OwnedIds(s, s.conns[c].addr));
    hide StepLoop, OwnedIds, RoutedAt;
    forall k | 0 <= k < |s.tasks| && Unfinished(s.tasks[k])
      ensures s.tasks[k].id in l.ids <==> RoutedAt(s, k, s.conns[c].addr)
    {
      CollectedIffRouted(s, k, s.conns[c].addr);
    }
  }

  // ----- What is taken -----

  /** The cleanup of connection `c` collects its routes in step `i`. */
  ghost predicate Collects(run: seq<Server>, events: seq<Event>, i: nat, c: nat) {
    |run| == |events| + 1 && i < |events| && events[i] == OfLoop(c, Collect)
  }

  /** In step `j` the cleanup of `c` takes the link registered under `id`. */
  ghost predicate Takes(run: seq<Server>, events: seq<Event>, j: nat, c: nat, id: u16) {
    |run| == |events| + 1 && j < |events| && events[j] == OfLoop(c, CleanNext(id)) && id in run[j].links
  }

  lemma CleanupShrinks(s: Server, e: Event, c: nat)
    requires Enabled(s, e) && c in s.conns && InCleanup(s.conns[c].loop)
    ensures var s' := Step(s, e);
      && c in s'.conns && InCleanup(s'.conns[c].loop)
      && (forall id :: StillToUnlink(s'.conns[c].loop, id) ==> StillToUnlink(s.conns[c].loop, id))
      && (forall id :: StillToUnlink(s.conns[c].loop, id) && e != OfLoop(c, CleanNext(id)) ==>
            StillToUnlink(s'.conns[c].loop, id))
  {
    match e
    case OfTask(k, te) => assert StepTask(s, k, te).conns == s.conns by { TaskRecords(s, k, te); } hide StepTask;
    case OfLoop(d, le) => LoopEffect(s, d, le); hide StepLoop;
    case _ =>
  }

  /** What a cleanup still has to unlink, it had to unlink ever since it collected its routes. */
  lemma {:induction false} PendingSince(run: seq<Server>, events: seq<Event>, i: nat, n: nat, j: nat, c: nat, id: u16)
    requires IsPath(run, events) && Collects(run, events, i, c) && i < n <= j < |run|
    ensures c in run[i].conns && c in run[j].conns && c in run[n].conns && InCleanup(run[j].conns[c].loop)
    ensures StillToUnlink(run[j].conns[c].loop, id) ==>
              StillToUnlink(run[n].conns[c].loop, id) && id in OwnedIds(run[i], run[i].conns[c].addr)
    decreases j
  {
    assert Leads(run[j - 1], events[j - 1], run[j]);
    if j == i + 1 {
      CollectStep(run[i], c);
    } else {
      PendingSince(run, events, i, if n < j then n else j - 1, j - 1, c, id);
      hide IsPath;
      CleanupShrinks(run[j - 1], events[j - 1], c);
    }
  }

  lemma CollectStep(s: Server, c: nat)
    requires LoopEnabled(s, c, Collect)
    ensures c in s.conns && StepLoop(s, c, Collect).conns[c].loop == Cleaning(OwnedIds(s, s.conns[c].addr))
    ensures c in StepLoop(s, c, Collect).conns
  {
  }

  lemma CollectLeads(s: Server, c: nat, s': Server, id: u16)
    requires Leads(s, OfLoop(c, Collect), s') && c in s.conns && id in OwnedIds(s, s.conns[c].addr)
    ensures c in s'.conns && StillToUnlink(s'.conns[c].loop, id)
  {
    CollectStep(s, c);
  }

  /** Every collected id has its turn before the cleanup is over. */
  lemma {:induction false} EachHasItsTurn(run: seq<Server>, events: seq<Event>, i: nat, j: nat, c: nat, id: u16)
    requires IsPath(run, events) && Collects(run, events, i, c) && i < j < |run|
    requires c in run[i].conns && id in OwnedIds(run[i], run[i].conns[c].addr)
    ensures c in run[j].conns
    ensures StillToUnlink(run[j].conns[c].loop, id)
            || exists n :: i < n < j && events[n] == OfLoop(c, CleanNext(id))
    decreases j
  {
    hide Enabled, Step, StepLoop, LoopEnabled, OwnedIds, InCleanup, StillToUnlink;
    PendingSince(run, events, i, j, j, c, id);
    assert Leads(run[j - 1], events[j - 1], run[j]);
    if j == i + 1 {
      CollectLeads(run[i], c, run[j], id);
    } else {
      PendingSince(run, events, i, j - 1, j - 1, c, id);
      EachHasItsTurn(run, events, i, j - 1, c, id);
      hide IsPath;
      if StillToUnlink(run[j - 1].conns[c].loop, id) {
        CleanupShrinks(run[j - 1], events[j - 1], c);
      }
    }
  }

  /** In every run with live ids distinct: a link that a cleanup takes is the one whose route it collected under
      that id, if and only if the id was not issued again in between. */
  lemma TakenIsCollectedIffNotReissued(run: seq<Server>, events: seq<Event>, i: nat, j: nat, c: nat, id: u16)
    requires IsServerRun(run, events) && IdsFresh(run, events)
    requires Collects(run, events, i, c) && i < j && Takes(run, events, j, c, id)
    ensures c in run[i].conns && id in OwnedIds(run[i], run[i].conns[c].addr)
    ensures run[j].links[id] < |run[j].tasks| && run[j].tasks[run[j].links[id]].id == id
    ensures RoutedAt(run[i], run[i].routes[id].owner, run[i].conns[c].addr)
    ensures run[j].links[id] == run[i].routes[id].owner <==> !Issued(run, events, i, j, id)
  {
    RunIsPath(run, events);
    PendingSince(run, events, i, i + 1, j, c, id);
    assert Leads(run[j], events[j], run[j + 1]);
    assert StillToUnlink(run[j].conns[c].loop, id);
    NoLeakedLinks(run, events);
    var o, k := run[j].links[id], run[i].routes[id].owner;
    assert NoLeaks(run[i]) && NoLeaks(run[j]);
    TakenAge(run[i], run[j], id, run[i].conns[c].addr);
    RunLater(run, events, i, j);
    LaterTaken(run[i], run[j], id, o, k);
    if o >= |run[i].tasks| {
      NewTaskIssued(run, events, i, j, o);
    }
    if o == k && Issued(run, events, i, j, id) {
      var n :| i <= n < j && n < |events| && events[n].Alloc? && run[n].counter == id;
      assert NextIdFree(run[n]);
      RunLater(run, events, i, n);
      RunLater(run, events, n, j);
      LaterUnfinished(run[i], run[n], run[j], k);
    }
  }

  lemma TakenAge(s: Server, s': Server, id: u16, addr: Addr)
    requires NoLeaks(s) && NoLeaks(s') && id in OwnedIds(s, addr) && id in s'.links
    ensures var k := s.routes[id].owner;
      k < |s.tasks| && s.tasks[k].id == id && Unfinished(s.tasks[k]) && RoutedAt(s, k, addr)
    ensures var o := s'.links[id]; o < |s'.tasks| && s'.tasks[o].id == id && Unfinished(s'.tasks[o])
  {
    var k, o := s.routes[id].owner, s'.links[id];
    assert MayBeRouted(s.tasks[k].stage) && MayBeLinked(s'.tasks[o].stage);
  }

  lemma LaterTaken(s: Server, s': Server, id: u16, o: nat, k: nat)
    requires Later(s, s') && IdsDistinct(s) && k < |s.tasks| && s.tasks[k].id == id && Unfinished(s.tasks[k])
    requires o < |s'.tasks| && s'.tasks[o].id == id && Unfinished(s'.tasks[o])
    ensures o < |s.tasks| ==> o == k
  {
  }

  lemma LaterUnfinished(s: Server, s1: Server, s2: Server, k: nat)
    requires Later(s, s1) && Later(s1, s2) && k < |s.tasks| && Unfinished(s2.tasks[k])
    ensures k < |s1.tasks| && s1.tasks[k].id == s.tasks[k].id && Unfinished(s1.tasks[k])
  {
  }

  // ----- The links a cleanup takes -----

  /** In step `j` the cleanup of `c` takes the link of task `o`. */
  ghost predicate TakesLink(run: seq<Server>, events: seq<Event>, j: nat, c: nat, o: nat) {
    && |run| == |events| + 1 && j < |events| && o < |run[j].tasks|
    && events[j] == OfLoop(c, CleanNext(run[j].tasks[o].id)) && InRegistry(run[j], o)
  }

  /** The link was routed to the address by a task of connection `c` itself. */
  ghost predicate OwnRoute(s: Server, o: nat, c: nat) {
    c in s.conns && RoutedAt(s, o, s.conns[c].addr) && s.tasks[o].conn == Some(c)
  }

  /** In every run with live ids distinct: all links that a cleanup takes were its own connection's when it
      collected their routes, if and only if each was collected under a route of that connection and its
      id was not issued again before its turn. */
  lemma TakesOwnIffNotReissued(run: seq<Server>, events: seq<Event>, i: nat, c: nat)
    requires IsServerRun(run, events) && IdsFresh(run, events) && Collects(run, events, i, c)
    ensures (forall j: nat, o: nat :: i < j && TakesLink(run, events, j, c, o) ==> OwnRoute(run[i], o, c)) <==>
            (forall j: nat, o: nat :: i < j && TakesLink(run, events, j, c, o) ==>
               var id := run[j].tasks[o].id;
               id in run[i].routes && OnConn(run[i], id, c) && !Issued(run, events, i, j, id))
  {
    RunIsPath(run, events);
    hide IsServerRun, IdsFresh, Issued, IsPath;
    forall j: nat, o: nat | i < j && TakesLink(run, events, j, c, o)
      ensures var id := run[j].tasks[o].id;
        OwnRoute(run[i], o, c) <==> (id in run[i].routes && OnConn(run[i], id, c) && !Issued(run, events, i, j, id))
    {
      TakenIsCollectedIffNotReissued(run, events, i, j, c, run[j].tasks[o].id);
      RunLater(run, events, i, j);
      if o < |run[i].tasks| {
        LaterId(run[i], run[j], o);
      }
      hide Later;
    }
  }

  // ----- As long as no pending id is issued -----

  /** No id is issued that a cleanup still has to unlink. */
  ghost predicate PendingKept(run: seq<Server>, events: seq<Event>) {
    |run| == |events| + 1 && forall n :: 0 <= n < |events| && events[n].Alloc? ==> NotPending(run[n])
  }

  lemma NotIssuedWhilePending(run: seq<Server>, events: seq<Event>, i: nat, j: nat, c: nat, id: u16)
    requires IsPath(run, events) && PendingKept(run, events) && Collects(run, events, i, c) && i < j < |run|
    requires c in run[j].conns && StillToUnlink(run[j].conns[c].loop, id)
    ensures !Issued(run, events, i, j, id)
  {
    if Issued(run, events, i, j, id) {
      var n :| i <= n < j && n < |events| && events[n].Alloc? && run[n].counter == id;
      PendingSince(run, events, i, n, j, c, id);
    }
  }

  /** A link that a cleanup takes had a route to its address when it collected. */
  lemma TakenWasRouted(run: seq<Server>, events: seq<Event>, i: nat, j: nat, c: nat, o: nat)
    requires IsServerRun(run, events) && IdsFresh(run, events) && PendingKept(run, events)
    requires Collects(run, events, i, c) && i < j && TakesLink(run, events, j, c, o)
    ensures c in run[i].conns && RoutedAt(run[i], o, run[i].conns[c].addr)
  {
    RunIsPath(run, events);
    assert Leads(run[j], events[j], run[j + 1]);
    hide IsServerRun, IdsFresh, PendingKept, IsPath, Issued;
    TakenIsCollectedIffNotReissued(run, events, i, j, c, run[j].tasks[o].id);
    NotIssuedWhilePending(run, events, i, j, c, run[j].tasks[o].id);
  }

  /** In every run with live ids distinct and no pending id issued: the links a cleanup takes are exactly those that
      were routed to its address when it collected, and are still registered when their turn comes; and by
      the end of the cleanup every one of them has had its turn. */
  lemma CleanupTakesExactly(run: seq<Server>, events: seq<Event>, i: nat, c: nat, o: nat)
    requires IsServerRun(run, events) && IdsFresh(run, events) && PendingKept(run, events) && Collects(run, events, i, c)
    ensures c in run[i].conns
    ensures (exists j: nat :: i < j && TakesLink(run, events, j, c, o)) <==>
            (RoutedAt(run[i], o, run[i].conns[c].addr)
             && exists j: nat :: i < j < |events| && o < |run[j].tasks| && InRegistry(run[j], o)
                            && events[j] == OfLoop(c, CleanNext(run[i].tasks[o].id)))
    ensures RoutedAt(run[i], o, run[i].conns[c].addr) && c in run[|events|].conns && run[|events|].conns[c].loop.Gone? ==>
              exists n :: i < n < |events| && events[n] == OfLoop(c, CleanNext(run[i].tasks[o].id))
  {
    RunIsPath(run, events);
    assert Leads(run[i], events[i], run[i + 1]);
    hide IsServerRun, IdsFresh, PendingKept, IsPath;
    if j: nat :| i < j && TakesLink(run, events, j, c, o) {
      TakenWasRouted(run, events, i, j, c, o);
      RunLater(run, events, i, j);
      LaterId(run[i], run[j], o);
    }
    if RoutedAt(run[i], o, run[i].conns[c].addr) {
      var id := run[i].tasks[o].id;
      if j: nat :| i < j < |events| && o < |run[j].tasks| && InRegistry(run[j], o) && events[j] == OfLoop(c, CleanNext(id)) {
        RunLater(run, events, i, j);
        LaterId(run[i], run[j], o);
        assert TakesLink(run, events, j, c, o);
      }
      EachHasItsTurn(run, events, i, |events|, c, id);
    }
  }

  // ----- Whatever happens next -----

  /** The run goes on with the cleanup of `c`, and with whatever follows, but issues no live or pending id. */
  ghost predicate GoesOn(run: seq<Server>, events: seq<Event>, c: nat, run': seq<Server>, events': seq<Event>) {
    && IsServerRun(run', events') && IdsFresh(run', events') && PendingKept(run', events')
    && run <= run' && events <= events' && Collects(run', events', |events|, c)
  }

  ghost predicate TakesOnlyItsOwn(run: seq<Server>, events: seq<Event>, i: nat, c: nat) {
    forall j: nat, o: nat :: i < j && TakesLink(run, events, j, c, o) ==> run[j].tasks[o].conn == Some(c)
  }

  lemma OwnWhenAlone(run: seq<Server>, events: seq<Event>, c: nat, run': seq<Server>, events': seq<Event>, j: nat, o: nat)
    requires IsServerRun(run, events) && GoesOn(run, events, c, run', events')
    requires |events| < j && TakesLink(run', events', j, c, o)
    requires c in run[|events|].conns
    requires var s := run[|events|];
      forall k: nat :: RoutedAt(s, k, s.conns[c].addr) && InRegistry(s, k) ==> s.tasks[k].conn == Some(c)
    ensures run'[j].tasks[o].conn == Some(c)
  {
    var s := run[|events|];
    assert run'[|events|] == s;
    TakenWasRouted(run', events', |events|, j, c, o);
    RunIsPath(run', events');
    RunLater(run', events', |events|, j);
    RunAddressed(run, events);
    NoLeakedLinks(run', events');
    assert NoLeaks(s);
    hide IsServerRun, GoesOn;
    assert WasAdded(s.tasks[o]) by { assert MayBeRouted(s.tasks[o].stage); }
  }

  /** The very next step can take a link that is routed to the address and registered. */
  lemma NextTakes(run: seq<Server>, events: seq<Event>, c: nat, k: nat) returns (run': seq<Server>, events': seq<Event>)
    requires IsServerRun(run, events) && IdsFresh(run, events) && PendingKept(run, events)
    requires LoopEnabled(run[|events|], c, Collect)
    requires RoutedAt(run[|events|], k, run[|events|].conns[c].addr) && InRegistry(run[|events|], k)
    ensures GoesOn(run, events, c, run', events') && TakesLink(run', events', |events| + 1, c, k)
    ensures run'[|events| + 1].tasks[k].conn == run[|events|].tasks[k].conn
  {
    var s := run[|events|];
    var id := s.tasks[k].id;
    var s1 := Step(s, OfLoop(c, Collect));
    CollectStep(s, c);
    assert s1.tasks == s.tasks && s1.links == s.links;
    var s2 := Step(s1, OfLoop(c, CleanNext(id)));
    run' := run + [s1, s2];
    events' := events + [OfLoop(c, Collect), OfLoop(c, CleanNext(id))];
    hide StepLoop, NextLoop;
  }

  /** For every run up to the point where connection `c` collects: whatever happens next, its cleanup takes only
      links of its own connection, if and only if at that point no registered link is routed to another
      connection from the same address. */
  lemma AlwaysOwnIffAlone(run: seq<Server>, events: seq<Event>, c: nat)
    requires IsServerRun(run, events) && IdsFresh(run, events) && PendingKept(run, events)
    requires LoopEnabled(run[|events|], c, Collect)
    ensures var s := run[|events|];
      (forall run': seq<Server>, events': seq<Event> :: GoesOn(run, events, c, run', events') ==>
         TakesOnlyItsOwn(run', events', |events|, c)) <==>
      (forall k: nat :: RoutedAt(s, k, s.conns[c].addr) && InRegistry(s, k) ==> s.tasks[k].conn == Some(c))
  {
    var s := run[|events|];
    assert c in s.conns;
    hide IsServerRun, IdsFresh, PendingKept, LoopEnabled, GoesOn;
    if forall k: nat :: RoutedAt(s, k, s.conns[c].addr) && InRegistry(s, k) ==> s.tasks[k].conn == Some(c) {
      forall run': seq<Server>, events': seq<Event> | GoesOn(run, events, c, run', events')
        ensures TakesOnlyItsOwn(run', events', |events|, c)
      {
        forall j: nat, o: nat | |events| < j && TakesLink(run', events', j, c, o)
          ensures run'[j].tasks[o].conn == Some(c)
        {
          OwnWhenAlone(run, events, c, run', events', j, o);
        }
      }
    }
    if k: nat :| RoutedAt(s, k, s.conns[c].addr) && InRegistry(s, k) && s.tasks[k].conn != Some(c) {
      var run', events' := NextTakes(run, events, c, k);
      assert !TakesOnlyItsOwn(run', events', |events|, c);
    }
  }
}
