/** The run of `Reissue` as a run of the composed system: two clients whose connections have broken.  Routes and
    links then disagree, although no live id was reissued. */
module TunnelReissue {
  import opened Bytes
  import opened Packets
  import opened Compression
  import opened Framing
  import opened Links
  import opened LinkServer
  import opened ServerRuns
  import opened LinkClient
  import opened LinkProtocol
  import opened Wires
  import opened Tunnel
  import opened TunnelReads
  import opened TunnelRuns
  import opened CleanupLinks
  import opened Reissue

  const BROKEN := EMPTY.(broken := true)

  function Joining(p: nat): Client {
    Client(map[], map[], Handshaking, GwProcessing, p)
  }

  /** Two clients, each on a connection of its own whose wire to the client is broken. */
  function Lifted(sv: Server): System {
    System(sv, map[0 := Joining(0), 1 := Joining(1)],
           map[0 := Pipe(0, BROKEN, EMPTY, None, None), 1 := Pipe(1, BROKEN, EMPTY, None, None)])
  }

  function LiftedAct(e: Event): Act {
    match e
    case Register(c, addr) => SrvRegister(c, addr)
    case Alloc => SrvAlloc
    case OfTask(k, te) => if te.Emit? then SrvEmit(k, 0, Cut(0)) else SrvTask(k, te)
    case OfLoop(c, le) => SrvLoop(c, le)
    case Shutdown => SrvShutdown
  }

  /** The server does not get anything through, nor read anything. */
  predicate Quiet(e: Event) {
    match e
    case Register(c, _) => c < 2
    case OfTask(_, te) => te.Emit? ==> !te.ok
    case OfLoop(_, le) => !le.Recv? && !le.PongSent?
    case _ => true
  }

  ghost predicate Placed(sv: Server) {
    && (forall c :: c in sv.conns ==> c < 2)
    && (forall k :: 0 <= k < |sv.tasks| && sv.tasks[k].conn.Some? ==> sv.tasks[k].conn.value < 2)
    && (forall k :: 0 <= k < |sv.tasks| && !sv.tasks[k].stage.Picking? && !sv.tasks[k].stage.Done? ==> sv.tasks[k].conn.Some?)
  }

  lemma StepPlaced(sv: Server, e: Event)
    requires Placed(sv) && Enabled(sv, e) && Quiet(e)
    ensures Placed(Step(sv, e))
  {
    match e
    case OfTask(k, te) => TaskPlaced(sv, k, te); hide StepTask;
    case OfLoop(c, le) => LoopPlaced(sv, c, le); hide StepLoop;
    case _ =>
  }

  lemma TaskConns(sv: Server, k: nat, te: TaskEvent)
    requires TaskEnabled(sv, k, te)
    ensures var sv' := StepTask(sv, k, te);
      && sv'.conns == sv.conns && |sv'.tasks| == |sv.tasks|
      && forall j :: 0 <= j < |sv.tasks| ==>
           var t, t' := sv.tasks[j], sv'.tasks[j];
           && (t'.conn == t.conn || (t'.conn.Some? && t'.conn.value in sv.conns))
           && (!t'.stage.Picking? && !t'.stage.Done? ==>
                 t'.conn.Some? || (!t.stage.Picking? && !t.stage.Done? && t'.conn == t.conn))
  {
  }

  lemma TaskPlaced(sv: Server, k: nat, te: TaskEvent)
    requires Placed(sv) && TaskEnabled(sv, k, te)
    ensures Placed(StepTask(sv, k, te))
  {
    TaskConns(sv, k, te);
    hide StepTask, TaskEnabled;
  }

  lemma LoopPlaced(sv: Server, c: nat, le: LoopEvent)
    requires Placed(sv) && LoopEnabled(sv, c, le)
    ensures Placed(StepLoop(sv, c, le))
  {
    LoopEffect(sv, c, le);
    assert c in sv.conns;
    hide StepLoop, LoopEnabled, NextLoop;
    var sv' := StepLoop(sv, c, le);
    assert forall j :: 0 <= j < |sv.tasks| ==> sv'.tasks[j].conn == sv.tasks[j].conn && sv'.tasks[j].stage == sv.tasks[j].stage;
  }

  lemma LiftedStep(z: Zstd, sv: Server, e: Event, sv': Server)
    requires Leads(sv, e, sv') && Placed(sv) && Quiet(e)
    ensures Goes(z, Lifted(sv), LiftedAct(e), Lifted(sv'))
  {
    match e
    case OfTask(k, te) =>
      if te.Emit? {
        LiftedEmit(z, sv, k, sv');
      } else {
        hide StepTask, TaskEnabled;
      }
    case OfLoop(c, le) => hide StepLoop, LoopEnabled;
    case _ =>
  }

  lemma LiftedEmit(z: Zstd, sv: Server, k: nat, sv': Server)
    requires Leads(sv, OfTask(k, Emit(false)), sv') && Placed(sv)
    ensures Goes(z, Lifted(sv), SrvEmit(k, 0, Cut(0)), Lifted(sv'))
  {
    assert TaskEnabled(sv, k, Emit(false)) && sv.tasks[k].conn.Some?;
    hide StepTask, Frame, Outgoing;
    var c := sv.tasks[k].conn.value;
    assert Lifted(sv).pipes[c := Lifted(sv).pipes[c]] == Lifted(sv).pipes;
  }

  /** Nothing more can happen to a link whose task is done: nothing was ever on the wires. */
  lemma RestIsFresh(sv: Server)
    requires AtRest(sv)
    ensures FreshId(Lifted(sv))
  {
    forall k | 0 <= k < |sv.tasks| ensures !Live(ViewOf(Lifted(sv), k)) {
      assert Proj([], k) == [];
    }
    hide ViewOf, Live;
  }

  // ----- The run -----

  const SETUP: seq<Act> := [CliConnect(0, 0), CliConnect(1, 1), Break(0, true), Break(1, true)]

  const START := Client(map[], map[], Offline, GwWaiting, 2)

  function Setting(p0: Client, p1: Client, pipes: map<nat, Pipe>): System {
    System(INIT, map[0 := p0, 1 := p1], pipes)
  }

  lemma BothConnect(z: Zstd)
    ensures IsInit(Setting(START, START, map[]))
    ensures Goes(z, Setting(START, START, map[]), CliConnect(0, 0),
                 Setting(Joining(0), START, map[0 := Pipe(0, EMPTY, EMPTY, None, None)]))
    ensures Goes(z, Setting(Joining(0), START, map[0 := Pipe(0, EMPTY, EMPTY, None, None)]), CliConnect(1, 1),
                 Setting(Joining(0), Joining(1), map[0 := Pipe(0, EMPTY, EMPTY, None, None), 1 := Pipe(1, EMPTY, EMPTY, None, None)]))
  {
    var s := Setting(START, START, map[]);
    assert Client1(s, 0, Joining(0)).cl == map[0 := Joining(0), 1 := START];
    var s' := Setting(Joining(0), START, map[0 := Pipe(0, EMPTY, EMPTY, None, None)]);
    assert Client1(s', 1, Joining(1)).cl == map[0 := Joining(0), 1 := Joining(1)];
  }

  lemma Breaking(z: Zstd)
    ensures Goes(z, Setting(Joining(0), Joining(1), map[0 := Pipe(0, EMPTY, EMPTY, None, None), 1 := Pipe(1, EMPTY, EMPTY, None, None)]),
                 Break(0, true),
                 Setting(Joining(0), Joining(1), map[0 := Pipe(0, BROKEN, EMPTY, None, None), 1 := Pipe(1, EMPTY, EMPTY, None, None)]))
    ensures Goes(z, Setting(Joining(0), Joining(1), map[0 := Pipe(0, BROKEN, EMPTY, None, None), 1 := Pipe(1, EMPTY, EMPTY, None, None)]),
                 Break(1, true), Lifted(INIT))
  {
  }

  lemma SettingUp(z: Zstd) returns (run: seq<System>)
    ensures |run| == 5 && IsInit(run[0]) && run[4] == Lifted(INIT)
    ensures forall i :: 0 <= i < 4 ==> Goes(z, run[i], SETUP[i], run[i + 1])
  {
    BothConnect(z);
    Breaking(z);
    hide Goes, Lifted, IsInit;
    run := [
      Setting(START, START, map[]), Setting(Joining(0), START, map[0 := Pipe(0, EMPTY, EMPTY, None, None)]),
      Setting(Joining(0), Joining(1), map[0 := Pipe(0, EMPTY, EMPTY, None, None), 1 := Pipe(1, EMPTY, EMPTY, None, None)]),
      Setting(Joining(0), Joining(1), map[0 := Pipe(0, BROKEN, EMPTY, None, None), 1 := Pipe(1, EMPTY, EMPTY, None, None)]),
      Lifted(INIT)];
  }

  ghost predicate AllQuiet(events: seq<Event>) {
    forall i :: 0 <= i < |events| ==> Quiet(events[i])
  }

  lemma {:induction false} RoundsQuiet(n: nat)
    ensures AllQuiet(Rounds(n))
  {
    if n > 0 {
      RoundsQuiet(n - 1);
    }
  }

  lemma ReissueQuiet()
    ensures AllQuiet(ReissueEvents())
  {
    RoundsQuiet(65535);
    assert AllQuiet(CONNECT) && AllQuiet(OPEN) && AllQuiet(COLLECT) && AllQuiet(FINISH) && AllQuiet(TAKE);
    hide Rounds, Quiet, AllQuiet;
    QuietBoth(CONNECT, OPEN);
    QuietBoth(CONNECT + OPEN, COLLECT);
    QuietBoth(CONNECT + OPEN + COLLECT, FINISH);
    QuietBoth(CONNECT + OPEN + COLLECT + FINISH, Rounds(65535));
    QuietBoth(CONNECT + OPEN + COLLECT + FINISH + Rounds(65535), TAKE);
  }

  lemma QuietBoth(a: seq<Event>, b: seq<Event>)
    requires AllQuiet(a) && AllQuiet(b)
    ensures AllQuiet(a + b)
  {
    hide Quiet;
  }

  lemma {:induction false} AlwaysPlaced(run: seq<Server>, events: seq<Event>, i: nat)
    requires IsPath(run, events) && AllQuiet(events) && i < |run| && Placed(run[0])
    ensures Placed(run[i])
  {
    if i > 0 {
      AlwaysPlaced(run, events, i - 1);
      assert Leads(run[i - 1], events[i - 1], run[i]) && Quiet(events[i - 1]);
      hide Placed, IsPath, Enabled, Step, Quiet;
      StepPlaced(run[i - 1], events[i - 1]);
    }
  }

  function LiftedRun(run: seq<Server>): (r: seq<System>)
    ensures |r| == |run| && forall i :: 0 <= i < |run| ==> r[i] == Lifted(run[i])
  {
    seq(|run|, i requires 0 <= i < |run| => Lifted(run[i]))
  }

  function LiftedActs(events: seq<Event>): (r: seq<Act>)
    ensures |r| == |events| && forall i :: 0 <= i < |events| ==> r[i] == LiftedAct(events[i])
  {
    seq(|events|, i requires 0 <= i < |events| => LiftedAct(events[i]))
  }

  /** A quiet run of the server, as a run of the system. */
  lemma LiftedIsRun(z: Zstd, path: seq<Server>, events: seq<Event>) returns (run: seq<System>)
    requires IsPath(path, events) && AllQuiet(events) && IssuedAtRest(path, events) && path[0] == INIT
    ensures IsRun(z, run, SETUP + LiftedActs(events)) && Disciplined(run, SETUP + LiftedActs(events))
    ensures |run| == |path| + 4 && run[|run| - 1] == Lifted(path[|path| - 1])
  {
    var setup := SettingUp(z);
    hide Goes, Lifted, FreshId, AtRest, AllQuiet, Leads;
    run := setup + LiftedRun(path)[1..];
    var acts := SETUP + LiftedActs(events);
    forall i | 0 <= i < |acts| ensures Goes(z, run[i], acts[i], run[i + 1]) {
      if i >= 4 {
        LiftedStepOf(z, path, events, i - 4);
        assert run[i] == Lifted(path[i - 4]) && run[i + 1] == Lifted(path[i - 3]) && acts[i] == LiftedAct(events[i - 4]);
      } else {
        assert acts[i] == SETUP[i] && run[i] == setup[i] && run[i + 1] == setup[i + 1];
      }
    }
    GoesMakeRun(z, run, acts);
    forall i | 0 <= i < |acts| && acts[i].SrvAlloc? ensures FreshId(run[i]) {
      assert i >= 4 && acts[i] == LiftedAct(events[i - 4]);
      assert AtRest(path[i - 4]);
      RestIsFresh(path[i - 4]);
      assert run[i] == Lifted(path[i - 4]);
    }
  }

  lemma LiftedStepOf(z: Zstd, path: seq<Server>, events: seq<Event>, i: nat)
    requires IsPath(path, events) && AllQuiet(events) && path[0] == INIT && i < |events|
    ensures Goes(z, Lifted(path[i]), LiftedAct(events[i]), Lifted(path[i + 1]))
  {
    AlwaysPlaced(path, events, i);
    assert Leads(path[i], events[i], path[i + 1]) && Quiet(events[i]);
    hide IsPath, AllQuiet, Leads, Quiet, Placed;
    LiftedStep(z, path[i], events[i], path[i + 1]);
  }

  /** A run of the whole system in which live ids stay distinct, and yet, before any shutdown, a routed id is not in
      the registry: the cleanup of one client took the link of another. */
  lemma RoutesWithoutLinks(z: Zstd) returns (run: seq<System>, acts: seq<Act>)
    ensures IsRun(z, run, acts) && Disciplined(run, acts)
    ensures var sv := run[|run| - 1].sv;
      !sv.shut && 1 in sv.routes && 1 !in sv.links
  {
    hide Enabled, Step, Leads, IssuedAtRest, IdsFresh, ReissueEvents, AllQuiet, IsRun, Disciplined, Collects, TakesLink, Rejected;
    var path := ReissuedIdIsTaken();
    ReissueQuiet();
    run := LiftedIsRun(z, path, ReissueEvents());
    acts := SETUP + LiftedActs(ReissueEvents());
  }
}
