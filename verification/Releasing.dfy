/** When a cleanup releases all links of its connection: over everything that can happen after it has collected. */
module Releasing {
  import opened Bytes
  import opened Links
  import opened LinkServer
  import opened ServerRuns
  import opened LinkCleanup
  import opened CleanupLinks
  import opened LinkClosing

  // ----- A cleanup that runs to its end -----

  predicate CleanEvent(e: Event, c: nat) {
    e.OfLoop? && e.c == c && (e.le.CleanNext? || e.le.CleanShut? || e.le.CleanDone?)
  }

  /** Nothing but link values differ among the tasks. */
  ghost predicate SameTasks(s: Server, t: Server) {
    |t.tasks| == |s.tasks| && forall k :: 0 <= k < |s.tasks| ==> t.tasks[k].(link := s.tasks[k].link) == s.tasks[k]
  }

  /** `t` is `s` after the cleanup of `c` has run to its end. */
  ghost predicate Cleaned(s: Server, t: Server, c: nat)
    requires c in s.conns
  {
    && SameTasks(s, t) && t.counter == s.counter && t.conns.Keys == s.conns.Keys && c in t.conns && t.conns[c].loop.Gone?
    && t.links.Keys <= s.links.Keys && (forall id :: id in t.links ==> t.links[id] == s.links[id])
    && (forall id :: id in s.links && !StillToUnlink(s.conns[c].loop, id) ==> id in t.links)
  }

  function Remaining(l: Loop): nat {
    if l.Cleaning? || l.CleanClose? then |l.ids| else 0
  }

  lemma CleanStep(s: Server, c: nat) returns (le: LoopEvent)
    requires c in s.conns && InCleanup(s.conns[c].loop) && !s.conns[c].loop.Gone?
    ensures LoopEnabled(s, c, le) && CleanEvent(OfLoop(c, le), c)
  {
    var l := s.conns[c].loop;
    if l.CleanClose? {
      le := CleanShut;
    } else if l.ids == {} {
      le := CleanDone;
    } else {
      var id :| id in l.ids;
      le := CleanNext(id);
    }
  }

  function Measure(s: Server, c: nat): nat {
    if c !in s.conns then 0 else
      var l := s.conns[c].loop;
      if l.Gone? then 0 else 2 * Remaining(l) + if l.CleanClose? then 2 else 1
  }

  /** One step further in the cleanup of `c`. */
  ghost predicate Advances(s: Server, t: Server, c: nat) {
    && c in s.conns && c in t.conns && InCleanup(t.conns[c].loop) && Measure(t, c) < Measure(s, c)
    && SameTasks(s, t) && t.counter == s.counter && t.conns.Keys == s.conns.Keys
    && t.links.Keys <= s.links.Keys && (forall id :: id in t.links ==> t.links[id] == s.links[id])
    && (forall id :: id in s.links && !StillToUnlink(s.conns[c].loop, id) ==>
          id in t.links && !StillToUnlink(t.conns[c].loop, id))
  }

  lemma CleanAdvances(s: Server, c: nat, le: LoopEvent)
    requires LoopEnabled(s, c, le) && CleanEvent(OfLoop(c, le), c)
    ensures Advances(s, StepLoop(s, c, le), c)
  {
    LoopEffect(s, c, le);
    assert StepLoop(s, c, le).counter == s.counter;
    var l := s.conns[c].loop;
    match le
    case CleanNext(id) => assert |l.ids - {id}| == |l.ids| - 1; assert StepLoop(s, c, le).links == s.links - {id};
    case CleanShut => assert StepLoop(s, c, le).links == s.links;
    case CleanDone => assert StepLoop(s, c, le).links == s.links;
    hide StepLoop;
  }

  lemma CleanedSelf(s: Server, c: nat)
    requires c in s.conns && s.conns[c].loop.Gone?
    ensures Cleaned(s, s, c)
  {
  }

  lemma CleanedAfter(s: Server, m: Server, t: Server, c: nat)
    requires Advances(s, m, c) && Cleaned(m, t, c)
    ensures Cleaned(s, t, c)
  {
    hide StillToUnlink, Measure;
  }

  lemma MeasureDown(s: Server, m: Server, c: nat)
    requires Advances(s, m, c)
    ensures c in m.conns && InCleanup(m.conns[c].loop) && Measure(m, c) < Measure(s, c)
  {
  }

  /** A cleanup can always go on, by itself, to its end. */
  lemma {:induction false} RunCleanup(s: Server, c: nat) returns (run: seq<Server>, events: seq<Event>)
    requires c in s.conns && InCleanup(s.conns[c].loop)
    ensures IsPath(run, events) && run[0] == s && Cleaned(s, run[|events|], c)
    ensures forall i :: 0 <= i < |events| ==> CleanEvent(events[i], c)
    decreases Measure(s, c)
  {
    if s.conns[c].loop.Gone? {
      run, events := [s], [];
      CleanedSelf(s, c);
    } else {
      hide StepLoop, LoopEnabled, InCleanup, Cleaned, Measure, Advances, CleanEvent;
      var le := CleanStep(s, c);
      CleanAdvances(s, c, le);
      var m := StepLoop(s, c, le);
      assert Leads(s, OfLoop(c, le), m);
      hide Leads;
      MeasureDown(s, m, c);
      var rest, later := RunCleanup(m, c);
      Prepended(s, OfLoop(c, le), rest, later);
      CleanedAfter(s, m, rest[|later|], c);
      run, events := [s] + rest, [OfLoop(c, le)] + later;
    }
  }

  /** Collecting, and then the whole cleanup: what is left registered is what was not collected. */
  lemma CollectAndClean(s: Server, c: nat) returns (run: seq<Server>, events: seq<Event>)
    requires LoopEnabled(s, c, Collect)
    ensures IsPath(run, events) && run[0] == s && |events| > 0 && events[0] == OfLoop(c, Collect)
    ensures forall i :: 1 <= i < |events| ==> CleanEvent(events[i], c)
    ensures var t := run[|events|];
      && SameTasks(s, t) && c in t.conns && t.conns[c].loop.Gone?
      && forall id :: id in s.links && id !in OwnedIds(s, s.conns[c].addr) ==> id in t.links && t.links[id] == s.links[id]
  {
    var m := StepLoop(s, c, Collect);
    CollectStep(s, c);
    assert m.tasks == s.tasks && m.links == s.links;
    assert Leads(s, OfLoop(c, Collect), m);
    hide StepLoop, LoopEnabled, Leads, CleanEvent;
    var rest, later := RunCleanup(m, c);
    Prepended(s, OfLoop(c, Collect), rest, later);
    run, events := [s] + rest, [OfLoop(c, Collect)] + later;
  }

  // ----- Release -----

  predicate Picks(e: Event, c: nat) {
    e.OfTask? && e.te == Pick(c)
  }

  /** From step `i` on, no handler picks connection `c`. */
  ghost predicate NoPick(events: seq<Event>, i: nat, c: nat) {
    forall n :: i <= n < |events| ==> !Picks(events[n], c)
  }

  /** The cleanup of `c` is over, and the link of task `k`, of that connection, is registered. */
  predicate LeftBehind(s: Server, c: nat, k: nat) {
    && c in s.conns && s.conns[c].loop.Gone?
    && k < |s.tasks| && s.tasks[k].conn == Some(c) && InRegistry(s, k)
  }

  /** Once the cleanup is over, no link of connection `c` is registered. */
  ghost predicate ReleasesAll(run: seq<Server>, i: nat, c: nat) {
    forall j: nat, k: nat :: i < j < |run| ==> !LeftBehind(run[j], c, k)
  }

  /** Every task of the connection has got past its registration, and its link is routed if it is registered. */
  ghost predicate AllRouted(s: Server, c: nat) {
    c in s.conns && forall k: nat :: k < |s.tasks| && s.tasks[k].conn == Some(c) ==>
      !s.tasks[k].stage.Picked? && (InRegistry(s, k) ==> RoutedAt(s, k, s.conns[c].addr))
  }

  lemma ConnByPick(s: Server, e: Event, c: nat, k: nat)
    requires Enabled(s, e) && k < |Step(s, e).tasks| && Step(s, e).tasks[k].conn == Some(c)
    ensures (k < |s.tasks| && s.tasks[k].conn == Some(c)) || Picks(e, c)
  {
    match e
    case OfTask(j, te) => TaskConn(s, j, te, c, k); hide StepTask, TaskEnabled;
    case OfLoop(d, le) => LoopEffect(s, d, le); hide StepLoop, LoopEnabled;
    case _ =>
  }

  lemma TaskConn(s: Server, j: nat, te: TaskEvent, c: nat, k: nat)
    requires TaskEnabled(s, j, te) && k < |s.tasks| && StepTask(s, j, te).tasks[k].conn == Some(c)
    ensures s.tasks[k].conn == Some(c) || te == Pick(c)
  {
  }

  /** Without a pick, the tasks of a connection are those it had. */
  lemma {:induction false} OnlyOldTasks(run: seq<Server>, events: seq<Event>, i: nat, j: nat, c: nat, k: nat)
    requires IsPath(run, events) && i <= j < |run| && NoPick(events, i, c)
    requires k < |run[j].tasks| && run[j].tasks[k].conn == Some(c)
    ensures k < |run[i].tasks| && run[i].tasks[k].conn == Some(c)
    decreases j
  {
    if i < j {
      hide Enabled, Step;
      assert Leads(run[j - 1], events[j - 1], run[j]) && !Picks(events[j - 1], c);
      ConnByPick(run[j - 1], events[j - 1], c, k);
      OnlyOldTasks(run, events, i, j - 1, c, k);
    }
  }

  /** If all are routed when the cleanup collects, and no handler picks the connection later, all are released. */
  lemma RoutedAreReleased(run: seq<Server>, events: seq<Event>, c: nat, run': seq<Server>, events': seq<Event>, j: nat, k: nat)
    requires IsServerRun(run, events) && IdsFresh(run, events) && AllRouted(run[|events|], c)
    requires GoesOn(run, events, c, run', events') && NoPick(events', |events|, c) && |events| < j < |run'|
    ensures !LeftBehind(run'[j], c, k)
  {
    if !LeftBehind(run'[j], c, k) {
      return;
    }
    var i := |events|;
    var s := run[i];
    assert run'[i] == s;
    RunIsPath(run', events');
    OnlyOldTasks(run', events', i, j, c, k);
    RunLater(run', events', i, j);
    RunDropsNothing(run, events);
    assert NoneDropped(s);
    hide IsPath, NoPick;
    assert WasAdded(s.tasks[k]);
    assert InRegistry(s, k) && RoutedAt(s, k, s.conns[c].addr);
    hide Later, NoneDropped, RoutedAt, WasAdded;
    assert Collects(run', events', i, c);
    CleanupReleases(run', events', i, j, c, k);
  }

  /** Steps that issue no id and pick nothing. */
  predicate Plain(e: Event, c: nat) {
    !e.Alloc? && !Picks(e, c)
  }

  lemma PlainGoesOn(run: seq<Server>, events: seq<Event>, b: seq<Server>, y: seq<Event>, c: nat)
    requires IsServerRun(run, events) && IdsFresh(run, events) && PendingKept(run, events)
    requires IsPath(b, y) && b[0] == run[|events|] && forall n :: 0 <= n < |y| ==> Plain(y[n], c)
    ensures var run', events' := run + b[1..], events + y;
      && IsServerRun(run', events') && IdsFresh(run', events') && PendingKept(run', events')
      && run <= run' && events <= events' && |run'| == |events'| + 1
      && (forall n :: 0 <= n < |y| ==> events'[|events| + n] == y[n])
      && (forall n :: 0 <= n < |b| ==> run'[|events| + n] == b[n])
      && NoPick(events', |events|, c)
  {
    hide NextIdFree, NotPending, IsPath;
    assert |b| == |y| + 1 by { PathLength(b, y); }
    Extended(run, events, b, y);
    hide IsServerRun;
    var run', events' := run + b[1..], events + y;
    assert |run| == |events| + 1;
    forall n | 0 <= n < |events'| && events'[n].Alloc? ensures NextIdFree(run'[n]) && NotPending(run'[n]) {
      if n < |events| {
        assert run'[n] == run[n];
      }
    }
  }

  lemma PathLength(b: seq<Server>, y: seq<Event>)
    requires IsPath(b, y)
    ensures |b| == |y| + 1
  {
  }

  /** A handler has picked the connection and not registered its link yet, or the link is registered and not routed. */
  ghost predicate NotRouted(s: Server, c: nat, k: nat) {
    && k < |s.tasks| && s.tasks[k].conn == Some(c) && c in s.conns
    && (s.tasks[k].stage.Picked? || (InRegistry(s, k) && !RoutedAt(s, k, s.conns[c].addr)))
  }

  lemma SomeNotRouted(s: Server, c: nat) returns (k: nat)
    requires c in s.conns && !AllRouted(s, c)
    ensures NotRouted(s, c, k)
  {
    k :| k < |s.tasks| && s.tasks[k].conn == Some(c)
      && (s.tasks[k].stage.Picked? || (InRegistry(s, k) && !RoutedAt(s, k, s.conns[c].addr)));
  }

  /** Such a link can be left behind. */
  lemma LeavesBehind(s: Server, c: nat, k: nat) returns (b: seq<Server>, y: seq<Event>)
    requires NoLeaks(s) && LoopEnabled(s, c, Collect) && NotRouted(s, c, k)
    ensures IsPath(b, y) && |b| == |y| + 1 && b[0] == s && |y| > 0 && y[0] == OfLoop(c, Collect)
    ensures forall n :: 1 <= n < |y| ==> CleanEvent(y[n], c) || y[n] == OfTask(k, AddLink)
    ensures LeftBehind(b[|y|], c, k)
  {
    b, y := CollectAndClean(s, c);
    PathLength(b, y);
    if s.tasks[k].stage.Picked? {
      b, y := AddBehind(b, y, c, k);
    } else {
      RegisteredUnfinished(s, k);
      CollectedIffRouted(s, k, s.conns[c].addr);
      hide IsPath, RoutedAt;
      assert LeftBehind(b[|y|], c, k);
    }
  }

  lemma UnroutedCanStay(run: seq<Server>, events: seq<Event>, c: nat, k: nat) returns (run': seq<Server>, events': seq<Event>)
    requires IsServerRun(run, events) && IdsFresh(run, events) && PendingKept(run, events)
    requires LoopEnabled(run[|events|], c, Collect) && NotRouted(run[|events|], c, k)
    ensures GoesOn(run, events, c, run', events') && NoPick(events', |events|, c)
    ensures !ReleasesAll(run', |events|, c)
  {
    var s := run[|events|];
    NoLeakedLinks(run, events);
    assert NoLeaks(s);
    hide IsPath, LeftBehind, IsServerRun, IdsFresh, PendingKept, LoopEnabled, NotRouted, NoLeaks;
    var b, y := LeavesBehind(s, c, k);
    assert forall n :: 0 <= n < |y| ==> Plain(y[n], c);
    PlainGoesOn(run, events, b, y, c);
    run', events' := run + b[1..], events + y;
    assert run'[|events| + |y|] == b[|y|] && LeftBehind(run'[|events| + |y|], c, k);
  }

  lemma RegisteredUnfinished(s: Server, k: nat)
    requires NoLeaks(s) && k < |s.tasks| && InRegistry(s, k)
    ensures Unfinished(s.tasks[k])
  {
    assert MayBeLinked(s.tasks[k].stage);
  }

  /** The handler that had picked the connection registers its link after the cleanup. */
  lemma AddBehind(b: seq<Server>, y: seq<Event>, c: nat, k: nat) returns (b': seq<Server>, y': seq<Event>)
    requires IsPath(b, y) && |b| == |y| + 1 && k < |b[0].tasks| && SameTasks(b[0], b[|y|])
    requires b[0].tasks[k].stage.Picked? && b[0].tasks[k].conn == Some(c) && c in b[|y|].conns && b[|y|].conns[c].loop.Gone?
    ensures IsPath(b', y') && |b'| == |y'| + 1 && b'[0] == b[0] && y' == y + [OfTask(k, AddLink)]
    ensures LeftBehind(b'[|y'|], c, k)
  {
    var t := b[|y|];
    assert t.tasks[k].stage.Picked? && t.tasks[k].conn == Some(c);
    var t' := StepTask(t, k, AddLink);
    assert Leads(t, OfTask(k, AddLink), t') && LeftBehind(t', c, k);
    hide StepTask, Leads, LeftBehind, SameTasks;
    b', y' := b + [t'], y + [OfTask(k, AddLink)];
    forall i | 0 <= i < |y'| ensures Leads(b'[i], y'[i], b'[i + 1]) {
      if i < |y| {
        assert Leads(b[i], y[i], b[i + 1]);
      }
    }
  }

  /** For every run up to the point where connection `c` collects: in whatever happens next, as long as no live or
      pending id is issued and no handler picks the connection any more, the cleanup releases all links of the
      connection, if and only if at that point no handler that picked it has its link still to register, and
      every link of it that is registered is routed. */
  lemma ReleasesIffAllRouted(run: seq<Server>, events: seq<Event>, c: nat)
    requires IsServerRun(run, events) && IdsFresh(run, events) && PendingKept(run, events)
    requires LoopEnabled(run[|events|], c, Collect)
    ensures (forall run': seq<Server>, events': seq<Event> ::
               GoesOn(run, events, c, run', events') && NoPick(events', |events|, c) ==> ReleasesAll(run', |events|, c)) <==>
            AllRouted(run[|events|], c)
  {
    var s := run[|events|];
    assert c in s.conns;
    hide IsServerRun, IdsFresh, PendingKept, LoopEnabled, GoesOn, NoPick, LeftBehind;
    if AllRouted(s, c) {
      forall run': seq<Server>, events': seq<Event> | GoesOn(run, events, c, run', events') && NoPick(events', |events|, c)
        ensures ReleasesAll(run', |events|, c)
      {
        forall j: nat, k: nat | |events| < j < |run'| ensures !LeftBehind(run'[j], c, k) {
          RoutedAreReleased(run, events, c, run', events', j, k);
        }
      }
    } else {
      var k := SomeNotRouted(s, c);
      var run', events' := UnroutedCanStay(run, events, c, k);
    }
  }

  // ----- A later pick -----

  /** A handler that picks the connection after its cleanup has collected, as it may until the session leaves the
      registry, always can leave its link behind: the cleanup ends, and then the link is registered. */
  lemma LaterPickCanStay(run: seq<Server>, events: seq<Event>, i: nat, c: nat, k: nat) returns (run': seq<Server>, events': seq<Event>)
    requires IsServerRun(run, events) && IdsFresh(run, events) && PendingKept(run, events)
    requires Collects(run, events, i, c) && i < |events| - 1 && events[|events| - 1] == OfTask(k, Pick(c))
    ensures IsServerRun(run', events') && IdsFresh(run', events') && PendingKept(run', events')
    ensures run <= run' && events <= events' && !ReleasesAll(run', i, c)
  {
    RunIsPath(run, events);
    PendingSince(run, events, i, |events|, |events|, c, 0);
    var s := run[|events|];
    assert Leads(run[|events| - 1], events[|events| - 1], s);
    PickedNow(run[|events| - 1], k, c);
    var b, y := RunCleanup(s, c);
    PathLength(b, y);
    hide IsPath, LeftBehind, IsServerRun, IdsFresh, PendingKept, Leads;
    b, y := AddBehind(b, y, c, k);
    assert forall n :: 0 <= n < |y| ==> Plain(y[n], c);
    PlainGoesOn(run, events, b, y, c);
    run', events' := run + b[1..], events + y;
    assert run'[|events| + |y|] == b[|y|] && LeftBehind(run'[|events| + |y|], c, k);
  }

  lemma PickedNow(s: Server, k: nat, c: nat)
    requires TaskEnabled(s, k, Pick(c))
    ensures var t := StepTask(s, k, Pick(c)); k < |t.tasks| && t.tasks[k].stage.Picked? && t.tasks[k].conn == Some(c)
  {
  }

  const PICK_AFTER_COLLECT: seq<Event> := [
    Register(0, 7), OfLoop(0, Spawn), OfLoop(0, Eof), OfLoop(0, Collect), Alloc, OfTask(0, Pick(0)), OfTask(0, AddLink),
    OfTask(0, AddRoute), OfLoop(0, CleanDone)]

  lemma CollectNothing() returns (run: seq<Server>)
    ensures |run| == 7 && run[0] == INIT && run[3] == INIT.(conns := map[0 := Conn(7, Leaving)])
    ensures run[6] == OneConn(Loop.Cleaning({}), [ConnTask(Picked)])
    ensures forall i :: 0 <= i < 6 ==> Leads(run[i], PICK_AFTER_COLLECT[i], run[i + 1])
  {
    var s1 := INIT.(conns := map[0 := Conn(7, Fresh)]);
    var s2 := INIT.(conns := map[0 := Conn(7, Idle)]);
    var s3 := INIT.(conns := map[0 := Conn(7, Leaving)]);
    var s4 := INIT.(conns := map[0 := Conn(7, Loop.Cleaning({}))]);
    var s5 := OneConn(Loop.Cleaning({}), [BORN]);
    var s6 := OneConn(Loop.Cleaning({}), [ConnTask(Picked)]);
    assert OwnedIds(s3, 7) == {};
    assert Leads(INIT, PICK_AFTER_COLLECT[0], s1);
    assert Leads(s1, PICK_AFTER_COLLECT[1], s2);
    assert Leads(s2, PICK_AFTER_COLLECT[2], s3);
    assert Leads(s3, PICK_AFTER_COLLECT[3], s4);
    assert Leads(s4, PICK_AFTER_COLLECT[4], s5);
    assert Leads(s5, PICK_AFTER_COLLECT[5], s6);
    hide Leads;
    run := [INIT, s1, s2, s3, s4, s5, s6];
  }

  lemma AddInBetween()
    ensures Leads(OneConn(Loop.Cleaning({}), [ConnTask(Picked)]), PICK_AFTER_COLLECT[6],
                  OneConn(Loop.Cleaning({}), [ConnTask(Added)]).(links := map[1 := 0]))
    ensures Leads(OneConn(Loop.Cleaning({}), [ConnTask(Added)]).(links := map[1 := 0]), PICK_AFTER_COLLECT[7],
                  OneConn(Loop.Cleaning({}), [ConnTask(Routed)]).(links := map[1 := 0], routes := map[1 := LinkServer.Route(7, 0)]))
    ensures Leads(OneConn(Loop.Cleaning({}), [ConnTask(Routed)]).(links := map[1 := 0], routes := map[1 := LinkServer.Route(7, 0)]),
                  PICK_AFTER_COLLECT[8],
                  OneConn(Gone, [ConnTask(Routed)]).(links := map[1 := 0], routes := map[1 := LinkServer.Route(7, 0)]))
  {
  }

  /** A connection without any link is cleaned up, and a handler picks it after the cleanup has collected: all was
      routed then, as there was nothing, and yet a link of the connection stays, registered and routed. */
  lemma PickAfterCollect() returns (run: seq<Server>)
    ensures IsServerRun(run, PICK_AFTER_COLLECT) && IdsFresh(run, PICK_AFTER_COLLECT) && PendingKept(run, PICK_AFTER_COLLECT)
    ensures Collects(run, PICK_AFTER_COLLECT, 3, 0) && AllRouted(run[3], 0)
    ensures LeftBehind(run[9], 0, 0) && RoutedAt(run[9], 0, 7)
  {
    var opening := CollectNothing();
    AddInBetween();
    run := opening + [
      OneConn(Loop.Cleaning({}), [ConnTask(Added)]).(links := map[1 := 0]),
      OneConn(Loop.Cleaning({}), [ConnTask(Routed)]).(links := map[1 := 0], routes := map[1 := LinkServer.Route(7, 0)]),
      OneConn(Gone, [ConnTask(Routed)]).(links := map[1 := 0], routes := map[1 := LinkServer.Route(7, 0)])];
    assert IsServerRun(run, PICK_AFTER_COLLECT) by {
      hide OneConn, ConnTask;
      forall i | 0 <= i < 9 ensures Leads(run[i], PICK_AFTER_COLLECT[i], run[i + 1]) {
        if i < 6 {
          assert run[i] == opening[i] && run[i + 1] == opening[i + 1];
        }
      }
      LeadsMakeRun(run, PICK_AFTER_COLLECT);
    }
    assert run[4].tasks == [] && run[4].conns == map[0 := Conn(7, Loop.Cleaning({}))] by {
      assert Leads(opening[3], PICK_AFTER_COLLECT[3], opening[4]);
      assert OwnedIds(opening[3], 7) == {};
    }
  }
}
