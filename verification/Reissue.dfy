/** A run in which an id that a cleanup still has to unlink is issued again, after the counter has gone all the way
    round: the cleanup then takes a link of another client. */
module Reissue {
  import opened Bytes
  import opened Links
  import opened LinkServer
  import opened ServerRuns
  import opened LinkCleanup
  import opened CleanupLinks

  const CONNECT: seq<Event> := [
    Register(0, 7), OfLoop(0, Spawn), Register(1, 8), OfLoop(1, Spawn), Alloc, OfTask(0, Pick(0))]

  const OPEN: seq<Event> := [OfTask(0, AddLink), OfTask(0, AddRoute), OfTask(0, Emit(false))]

  const COLLECT: seq<Event> := [OfTask(0, SetWaiting), OfLoop(0, Eof), OfLoop(0, Collect)]

  const FINISH: seq<Event> := [
    OfTask(0, AppEnd), OfTask(0, Emit(false)), OfTask(0, Unroute), OfTask(0, RemoveLink), OfTask(0, Finish)]

  const TAKE: seq<Event> := [
    Alloc, OfTask(65536, Pick(1)), OfTask(65536, AddLink), OfTask(65536, AddRoute), OfLoop(0, CleanNext(1))]

  /** Client 0 at address 7, client 1 at address 8. */
  function Two(l: Loop, counter: u16, tasks: seq<Task>, links: map<u16, nat>, routes: map<u16, Route>): Server {
    Server(counter, tasks, links, routes, map[0 := Conn(7, l), 1 := Conn(8, Idle)], false)
  }

  const WAITING := NEW_LINK.(state := Waiting)

  function First(st: Stage, l: LinkVal): Task {
    Task(1, Some(0), st, l, [], None)
  }

  const FIRST_DONE := First(Done, CloseConnection(WAITING))
  const ROUTED := map[1 := LinkServer.Route(7, 0)]

  lemma ConnectTwo() returns (run: seq<Server>)
    ensures IsPath(run, CONNECT) && IssuedAtRest(run, CONNECT) && run[0] == INIT
    ensures run[6] == Two(Idle, 2, [First(Picked, NEW_LINK)], map[], map[])
  {
    var s1 := INIT.(conns := map[0 := Conn(7, Fresh)]);
    var s2 := INIT.(conns := map[0 := Conn(7, Idle)]);
    var s3 := INIT.(conns := map[0 := Conn(7, Idle), 1 := Conn(8, Fresh)]);
    var s4 := Two(Idle, 1, [], map[], map[]);
    var s5 := Two(Idle, 2, [BORN], map[], map[]);
    var s6 := Two(Idle, 2, [First(Picked, NEW_LINK)], map[], map[]);
    assert Leads(INIT, CONNECT[0], s1);
    assert Leads(s1, CONNECT[1], s2);
    assert Leads(s2, CONNECT[2], s3);
    assert Leads(s3, CONNECT[3], s4);
    assert Leads(s4, CONNECT[4], s5);
    assert Leads(s5, CONNECT[5], s6);
    assert AtRest(s4);
    hide Leads, AtRest;
    run := [INIT, s1, s2, s3, s4, s5, s6];
  }

  lemma Opening() returns (run: seq<Server>)
    ensures IsPath(run, OPEN) && IssuedAtRest(run, OPEN)
    ensures run[0] == Two(Idle, 2, [First(Picked, NEW_LINK)], map[], map[])
    ensures run[3] == Two(Idle, 2, [First(OpenSent, NEW_LINK)], map[1 := 0], ROUTED)
  {
    var s0 := Two(Idle, 2, [First(Picked, NEW_LINK)], map[], map[]);
    var s1 := Two(Idle, 2, [First(Added, NEW_LINK)], map[1 := 0], map[]);
    var s2 := Two(Idle, 2, [First(Routed, NEW_LINK)], map[1 := 0], ROUTED);
    var s3 := Two(Idle, 2, [First(OpenSent, NEW_LINK)], map[1 := 0], ROUTED);
    assert Leads(s0, OPEN[0], s1);
    assert Leads(s1, OPEN[1], s2);
    assert Leads(s2, OPEN[2], s3);
    hide Leads, Two, First;
    run := [s0, s1, s2, s3];
  }

  lemma Collecting() returns (run: seq<Server>)
    ensures IsPath(run, COLLECT) && IssuedAtRest(run, COLLECT)
    ensures run[0] == Two(Idle, 2, [First(OpenSent, NEW_LINK)], map[1 := 0], ROUTED)
    ensures run[2] == Two(Leaving, 2, [First(Running, WAITING)], map[1 := 0], ROUTED)
    ensures run[3] == Two(Loop.Cleaning({1}), 2, [First(Running, WAITING)], map[1 := 0], map[])
  {
    var s0 := Two(Idle, 2, [First(OpenSent, NEW_LINK)], map[1 := 0], ROUTED);
    var s1 := Two(Idle, 2, [First(Running, WAITING)], map[1 := 0], ROUTED);
    var s2 := Two(Leaving, 2, [First(Running, WAITING)], map[1 := 0], ROUTED);
    var s3 := Two(Loop.Cleaning({1}), 2, [First(Running, WAITING)], map[1 := 0], map[]);
    assert Leads(s0, COLLECT[0], s1);
    assert Leads(s1, COLLECT[1], s2);
    CollectsFirst();
    hide Leads, Two, First;
    run := [s0, s1, s2, s3];
  }

  lemma CollectsFirst()
    ensures Leads(Two(Leaving, 2, [First(Running, WAITING)], map[1 := 0], ROUTED), COLLECT[2],
                  Two(Loop.Cleaning({1}), 2, [First(Running, WAITING)], map[1 := 0], map[]))
  {
    var s := Two(Leaving, 2, [First(Running, WAITING)], map[1 := 0], ROUTED);
    assert OwnedIds(s, 7) == {1};
    hide First;
  }

  lemma Finishing() returns (run: seq<Server>)
    ensures IsPath(run, FINISH) && IssuedAtRest(run, FINISH)
    ensures run[0] == Two(Loop.Cleaning({1}), 2, [First(Running, WAITING)], map[1 := 0], map[])
    ensures run[5] == Two(Loop.Cleaning({1}), 2, [FIRST_DONE], map[], map[])
  {
    var l := Loop.Cleaning({1});
    var s0 := Two(l, 2, [First(Running, WAITING)], map[1 := 0], map[]);
    var s1 := Two(l, 2, [First(Closing, WAITING)], map[1 := 0], map[]);
    var s2 := Two(l, 2, [First(CloseSent, WAITING)], map[1 := 0], map[]);
    var s3 := Two(l, 2, [First(Unrouted, WAITING)], map[1 := 0], map[]);
    var s4 := Two(l, 2, [First(Unlinked(Some(0)), WAITING)], map[], map[]);
    var s5 := Two(l, 2, [FIRST_DONE], map[], map[]);
    assert Leads(s0, FINISH[0], s1);
    assert Leads(s1, FINISH[1], s2);
    assert Leads(s2, FINISH[2], s3);
    assert Leads(s3, FINISH[3], s4);
    assert Leads(s4, FINISH[4], s5);
    hide Leads, Two, First;
    run := [s0, s1, s2, s3, s4, s5];
  }

  // ----- All the way round -----

  /** `n` applications that found no client. */
  function Rejected(n: nat): (r: seq<Task>)
    ensures |r| == n
  {
    seq(n, i requires 0 <= i < n => Task((2 + i) % U16_SIZE, None, Done, NEW_LINK, [], None))
  }

  function After(n: nat): Server {
    Two(Loop.Cleaning({1}), (2 + n) % U16_SIZE, [FIRST_DONE] + Rejected(n), map[], map[])
  }

  function Round(n: nat): (r: seq<Event>)
    ensures |r| == 2
  {
    [Alloc, OfTask(n + 1, Reject)]
  }

  lemma OneRejected(n: nat) returns (run: seq<Server>)
    ensures IsPath(run, Round(n)) && IssuedAtRest(run, Round(n)) && run[0] == After(n) && run[2] == After(n + 1)
  {
    var born := Task((2 + n) % U16_SIZE, None, Picking, NEW_LINK, [], None);
    var s1 := Two(Loop.Cleaning({1}), (3 + n) % U16_SIZE, [FIRST_DONE] + Rejected(n) + [born], map[], map[]);
    CounterWraps(2 + n);
    assert Leads(After(n), Alloc, s1);
    assert [FIRST_DONE] + Rejected(n + 1) == ([FIRST_DONE] + Rejected(n) + [born])[n + 1 := born.(stage := Done)];
    assert Leads(s1, OfTask(n + 1, Reject), After(n + 1));
    assert AtRest(After(n));
    hide Leads, After, AtRest;
    run := [After(n), s1, After(n + 1)];
  }

  lemma CounterWraps(n: nat)
    ensures (n % U16_SIZE + 1) % U16_SIZE == (n + 1) % U16_SIZE
  {
  }

  function Rounds(n: nat): seq<Event> {
    if n == 0 then [] else Rounds(n - 1) + Round(n - 1)
  }

  lemma {:induction false} AllRejected(n: nat) returns (run: seq<Server>)
    ensures IsPath(run, Rounds(n)) && IssuedAtRest(run, Rounds(n)) && run[0] == After(0) && run[|run| - 1] == After(n)
  {
    hide After, Round;
    if n == 0 {
      run := [After(0)];
    } else {
      var before := AllRejected(n - 1);
      var last := OneRejected(n - 1);
      Joined(before, Rounds(n - 1), last, Round(n - 1));
      run := before + last[1..];
    }
  }

  // ----- The pending id again -----

  function Second(st: Stage): Task {
    Task(1, Some(1), st, NEW_LINK, [], None)
  }

  lemma Taking() returns (run: seq<Server>)
    ensures IsPath(run, TAKE) && IssuedAtRest(run, TAKE) && run[0] == After(65535)
    ensures run[4] == Two(Loop.Cleaning({1}), 2, [FIRST_DONE] + Rejected(65535) + [Second(Routed)],
                          map[1 := 65536], map[1 := LinkServer.Route(8, 65536)])
    ensures run[5] == Two(Loop.CleanClose(65536, {}), 2, [FIRST_DONE] + Rejected(65535) + [Second(Routed)],
                          map[], map[1 := LinkServer.Route(8, 65536)])
  {
    var l := Loop.Cleaning({1});
    var past := [FIRST_DONE] + Rejected(65535);
    assert |past| == 65536;
    var s1 := Two(l, 2, past + [BORN], map[], map[]);
    var s2 := Two(l, 2, past + [Second(Picked)], map[], map[]);
    var s3 := Two(l, 2, past + [Second(Added)], map[1 := 65536], map[]);
    var s4 := Two(l, 2, past + [Second(Routed)], map[1 := 65536], map[1 := LinkServer.Route(8, 65536)]);
    var s5 := Two(Loop.CleanClose(65536, {}), 2, past + [Second(Routed)], map[], map[1 := LinkServer.Route(8, 65536)]);
    assert AtRest(After(65535));
    assert Leads(After(65535), TAKE[0], s1);
    Appended(past, BORN, Second(Picked));
    Appended(past, Second(Picked), Second(Added));
    Appended(past, Second(Added), Second(Routed));
    hide Rejected;
    assert Leads(s1, TAKE[1], s2);
    assert Leads(s2, TAKE[2], s3);
    assert Leads(s3, TAKE[3], s4);
    LastStep(past + [Second(Routed)]);
    hide Leads, Two, AtRest, After;
    run := [After(65535), s1, s2, s3, s4, s5];
  }

  lemma LastStep(tasks: seq<Task>)
    requires tasks != []
    ensures Leads(Two(Loop.Cleaning({1}), 2, tasks, map[1 := 65536], map[1 := LinkServer.Route(8, 65536)]), TAKE[4],
                  Two(Loop.CleanClose(65536, {}), 2, tasks, map[], map[1 := LinkServer.Route(8, 65536)]))
  {
    var s := Two(Loop.Cleaning({1}), 2, tasks, map[1 := 65536], map[1 := LinkServer.Route(8, 65536)]);
    var s' := Step(s, TAKE[4]);
    assert s'.links == map[] && s.conns[0].loop.ids - {1} == {};
    assert s'.conns == map[0 := Conn(7, Loop.CleanClose(65536, {})), 1 := Conn(8, Idle)];
  }

  lemma Appended(past: seq<Task>, t: Task, t': Task)
    ensures (past + [t])[|past|] == t && (past + [t])[|past| := t'] == past + [t']
  {
  }

  // ----- The run -----

  function ReissueEvents(): seq<Event> {
    CONNECT + OPEN + COLLECT + FINISH + Rounds(65535) + TAKE
  }

  lemma RoundsLength(n: nat)
    ensures |Rounds(n)| == 2 * n
  {
  }

  /** The cleanup of client 0 has collected the link of task 0, its own and the only one.  That link finishes, and
      65535 applications come and go.  The id is issued to task 65536, on client 1 at another address, and the
      cleanup takes that link out of the registry, with its route left behind.  No live id is ever reissued. */
  lemma ReissuedIdIsTaken() returns (run: seq<Server>)
    ensures IsServerRun(run, ReissueEvents()) && IsPath(run, ReissueEvents()) && IssuedAtRest(run, ReissueEvents()) && IdsFresh(run, ReissueEvents())
    ensures var n := |ReissueEvents()|;
      && Collects(run, ReissueEvents(), 11, 0)
      && run[11] == Two(Leaving, 2, [First(Running, WAITING)], map[1 := 0], ROUTED)
      && TakesLink(run, ReissueEvents(), n - 1, 0, 65536) && run[n - 1].tasks[65536].conn == Some(1)
      && run[n].links == map[] && run[n].routes == map[1 := LinkServer.Route(8, 65536)] && !run[n].shut
  {
    run := WholePath();
    LeadsMakeRun(run, ReissueEvents());
    AtRestIsFresh(run, ReissueEvents());
    ReissueMarks();
    var past := [FIRST_DONE] + Rejected(65535);
    assert (past + [Second(Routed)])[65536] == Second(Routed);
    hide IsPath, IssuedAtRest, IsServerRun, IdsFresh, ReissueEvents, Rejected;
  }

  lemma ReissueMarks()
    ensures |ReissueEvents()| == 17 + 131070 + 5 && ReissueEvents()[11] == OfLoop(0, Collect)
    ensures ReissueEvents()[|ReissueEvents()| - 1] == OfLoop(0, CleanNext(1))
  {
    RoundsLength(65535);
    hide Rounds;
  }

  lemma WholePath() returns (run: seq<Server>)
    ensures IsPath(run, ReissueEvents()) && IssuedAtRest(run, ReissueEvents()) && run[0] == INIT && |run| == |ReissueEvents()| + 1 > 20
    ensures run[11] == Two(Leaving, 2, [First(Running, WAITING)], map[1 := 0], ROUTED)
    ensures run[|run| - 2] == Two(Loop.Cleaning({1}), 2, [FIRST_DONE] + Rejected(65535) + [Second(Routed)],
                                  map[1 := 65536], map[1 := LinkServer.Route(8, 65536)])
    ensures run[|run| - 1] == Two(Loop.CleanClose(65536, {}), 2, [FIRST_DONE] + Rejected(65535) + [Second(Routed)],
                                  map[], map[1 := LinkServer.Route(8, 65536)])
  {
    ReissueMarks();
    var r1 := ConnectTwo();
    var r2 := Opening();
    var r3 := Collecting();
    var r4 := Finishing();
    var r5 := AllRejected(65535);
    var r6 := Taking();
    FirstRound();
    hide Rounds, Leads, AtRest, Two, First, After, Second, IsPath, IssuedAtRest, Rejected;
    run := Append(r1, CONNECT, r2, OPEN);
    run := Append(run, CONNECT + OPEN, r3, COLLECT);
    run := Append(run, CONNECT + OPEN + COLLECT, r4, FINISH);
    run := Append(run, CONNECT + OPEN + COLLECT + FINISH, r5, Rounds(65535));
    run := Append(run, CONNECT + OPEN + COLLECT + FINISH + Rounds(65535), r6, TAKE);
  }

  lemma FirstRound()
    ensures After(0) == Two(Loop.Cleaning({1}), 2, [FIRST_DONE], map[], map[])
  {
    assert [FIRST_DONE] + Rejected(0) == [FIRST_DONE];
  }
}
