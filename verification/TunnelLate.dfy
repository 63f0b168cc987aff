/** A run of the composed system in which a well-behaved client loses data: `Opened` is handled before
    `set_state(Waiting)`, and what comes after it is dropped. */
module TunnelLate {
  import opened Bytes
  import opened Packets
  import opened Compression
  import opened Framing
  import opened Links
  import opened LinkServer
  import opened LinkClient
  import opened LinkProtocol
  import opened Wires
  import opened Tunnel
  import opened TunnelReads
  import opened TunnelRuns
  import Handshake

  // ----- One frame on a wire -----

  const M_OPEN := Message(NewPacket(PacketType.Open, 0, 1, 0), None)
  const M_OPENED := Control(PacketType.Opened, 0, 1)
  const M_DATA := Message(NewPacket(Regular, 0, 1, 1), Some([5]))

  function Full(z: Zstd, sent: seq<Tagged>, got: nat, m: Message): Wire {
    Wire(Frame(z, m), sent, got, false)
  }

  function Empty(sent: seq<Tagged>): Wire {
    Wire([], sent, |sent|, false)
  }

  lemma PutOne(z: Zstd, sent: seq<Tagged>, tm: Tagged)
    ensures MayPut(z, Empty(sent), tm.m, Sent)
    ensures PutFrame(z, Empty(sent), tm, Sent) == Full(z, sent + [tm], |sent|, tm.m)
  {
    hide Frame;
  }

  lemma TakeOne(z: Zstd, sent: seq<Tagged>, m: Message)
    requires Lossless(z) && sent != [] && (m == M_OPEN || m == M_OPENED || m == M_DATA)
    ensures var w := Full(z, sent, |sent| - 1, m);
      MayTake(z, w) && Received(z, w) == m && TakeFrame(z, w) == Empty(sent)
  {
    assert WellFormed(m) && Seen(z, m) == m;
    FrameRoundTrip(z, m, []);
    hide Frame, ReadPacket;
    assert Frame(z, m) + [] == Frame(z, m);
  }

  // ----- The states -----

  const S2C := [Tagged(Some(0), M_OPEN)]
  const C2S := [Tagged(Some(0), M_OPENED)]
  const C2S_DATA := C2S + [Tagged(Some(0), M_DATA)]

  function OnePipe(s2c: Wire, c2s: Wire, stag: Option<nat>, ctag: Option<nat>): map<nat, Pipe> {
    map[0 := Pipe(0, s2c, c2s, stag, ctag)]
  }

  /** The server with one link, registered and routed to its one client. */
  function OneLink(t: Task, l: Loop): Server {
    Server(2, [t], map[1 := 0], map[1 := LinkServer.Route(7, 0)], map[0 := Conn(7, l)], false)
  }

  function OneTask(st: Stage, l: LinkVal, lost: Option<bytes>): Task {
    Task(1, Some(0), st, l, [], lost)
  }

  /** The client, with its one link registered once it exists. */
  function OneClient(l: ClientLoop, objs: map<nat, ClientLink>): Client {
    Client(if objs == map[] then map[] else map[1 := 0], objs, l, GatewayState.GwConnected, 0)
  }

  function Joined(l: ClientLoop, objs: map<nat, ClientLink>): map<nat, Client> {
    map[0 := OneClient(l, objs)]
  }

  function Obj(st: ClientStage, l: LinkVal, read: bytes): map<nat, ClientLink> {
    map[0 := ClientLink(1, 0, st, l, read)]
  }

  const UP := NEW_LINK.(state := ConnectionState.Connected)
  const DOWN := NEW_LINK.(state := ConnectionState.Waiting)
  const FRESH := OneTask(OpenSent, NEW_LINK, None)
  const CONFIRMED := OneTask(OpenSent, UP, None)
  const LATE := OneTask(Running, DOWN, Some([]))

  function Reply(): bytes {
    Header(NewPacket(PacketType.GwConnected, 0, 0, 12)) + Handshake.VersionBytes()
  }

  lemma ReplyAccepted()
    ensures Accepts(Reply())
  {
    Handshake.ConcludeOnVerdict(0, true, []);
    assert Reply() + [] == Reply();
    hide Reply;
  }

  // ----- Steps of one side -----

  lemma TaskGoes(z: Zstd, sv: Server, te: TaskEvent, sv': Server, cl: map<nat, Client>, pipes: map<nat, Pipe>)
    requires !te.Emit? && TaskEnabled(sv, 0, te) && StepTask(sv, 0, te) == sv'
    ensures Goes(z, System(sv, cl, pipes), SrvTask(0, te), System(sv', cl, pipes))
  {
    hide TaskEnabled, StepTask;
  }

  lemma LoopGoes(z: Zstd, sv: Server, le: LoopEvent, sv': Server, cl: map<nat, Client>, pipes: map<nat, Pipe>)
    requires !le.Recv? && !le.PongSent? && LoopEnabled(sv, 0, le) && StepLoop(sv, 0, le) == sv'
    ensures Goes(z, System(sv, cl, pipes), SrvLoop(0, le), System(sv', cl, pipes))
  {
    hide LoopEnabled, StepLoop;
  }

  lemma ClientTaskGoes(z: Zstd, sv: Server, c: Client, te: ClientTaskEvent, c': Client, pipes: map<nat, Pipe>)
    requires !te.Put? && TaskMay(c, 0, te) && TaskMoves(c, 0, te) == c'
    ensures Goes(z, System(sv, map[0 := c], pipes), CliTask(0, 0, te), System(sv, map[0 := c'], pipes))
  {
    hide TaskMay, TaskMoves;
  }

  lemma PutGoes(z: Zstd, sv: Server, c: Client, c': Client, m: Message, P: Pipe, w': Wire)
    requires 0 in c.objs && c.objs[0].conn == 0 && TaskMay(c, 0, Put(true)) && TaskMoves(c, 0, Put(true)) == c'
    requires ClientOutgoing(c.objs[0], 0) == m && MayPut(z, P.c2s, m, Sent) && PutFrame(z, P.c2s, Tagged(Some(0), m), Sent) == w'
    ensures Goes(z, System(sv, map[0 := c], map[0 := P]), CliPut(0, 0, 0, Sent), System(sv, map[0 := c'], map[0 := P.(c2s := w')]))
  {
    hide TaskMay, TaskMoves, ClientOutgoing, MayPut, PutFrame;
  }

  lemma OpenedGoes(z: Zstd, sv: Server, c: Client, c': Client, P: Pipe, w': Wire)
    requires P.proc == 0 && c.conn == 0 && c.loop == Marked(0) && 0 in c.objs && c.objs[0].id == 1 && LoopMoves(c, OpenedSent) == c'
    requires MayPut(z, P.c2s, M_OPENED, Sent) && PutFrame(z, P.c2s, Tagged(Some(0), M_OPENED), Sent) == w'
    ensures Goes(z, System(sv, map[0 := c], map[0 := P]), CliOpened(0, 0, Sent), System(sv, map[0 := c'], map[0 := P.(c2s := w')]))
  {
    hide LoopMoves, MayPut, PutFrame;
  }

  lemma RecvGoes(z: Zstd, sv: Server, m: Message, sv': Server, cl: map<nat, Client>, P: Pipe, P': Pipe)
    requires MayTake(z, P.c2s) && Received(z, P.c2s) == m && P' == P.(c2s := TakeFrame(z, P.c2s), stag := NextTag(P.c2s))
    requires 0 in sv.conns && sv.conns[0].loop.Idle? && StepLoop(sv, 0, Recv(m.packet, m.data)) == sv'
    ensures Goes(z, System(sv, cl, map[0 := P]), SrvRecv(0), System(sv', cl, map[0 := P']))
  {
    hide MayTake, Received, TakeFrame, NextTag, StepLoop;
  }

  lemma ReceiveGoes(z: Zstd, t: Task, cl: map<nat, Client>, s2c: Wire, sent: seq<Tagged>, m: Message, stag: Option<nat>, ctag: Option<nat>)
    requires Lossless(z) && sent != [] && sent[|sent| - 1].tag == Some(0) && (m == M_OPENED || m == M_DATA)
    ensures Goes(z, System(OneLink(t, Idle), cl, OnePipe(s2c, Full(z, sent, |sent| - 1, m), stag, ctag)), SrvRecv(0),
                 System(OneLink(t, Held(m.packet, m.data)), cl, OnePipe(s2c, Empty(sent), Some(0), ctag)))
  {
    var w := Full(z, sent, |sent| - 1, m);
    TakeOne(z, sent, m);
    assert NextTag(w) == Some(0);
    ServerTakes(t, m);
    hide MayTake, TakeFrame, Received, Full, NextTag, Lossless, StepLoop, Empty, OneLink;
    RecvGoes(z, OneLink(t, Idle), m, OneLink(t, Held(m.packet, m.data)), cl,
             Pipe(0, s2c, w, stag, ctag), Pipe(0, s2c, Empty(sent), Some(0), ctag));
  }

  lemma ServerTakes(t: Task, m: Message)
    requires m == M_OPENED || m == M_DATA
    ensures var s := OneLink(t, Idle);
      0 in s.conns && s.conns[0].loop.Idle? && StepLoop(s, 0, Recv(m.packet, m.data)) == OneLink(t, Held(m.packet, m.data))
  {
  }

  // ----- Connecting -----

  function Up(sv: Server): System {
    System(sv, Joined(Ready, map[]), OnePipe(EMPTY, EMPTY, None, None))
  }

  function ConnectActs(): seq<Act> {
    [CliConnect(0, 0), CliLoop(0, AuthOk(Reply())), SrvRegister(0, 7), SrvLoop(0, Spawn)]
  }

  lemma ClientConnects(z: Zstd) returns (run: seq<System>)
    ensures |run| == 5 && IsInit(run[0]) && run[4] == Up(INIT.(conns := map[0 := Conn(7, Idle)]))
    ensures forall i :: 0 <= i < 4 ==> Goes(z, run[i], ConnectActs()[i], run[i + 1])
  {
    ReplyAccepted();
    hide Reply, Accepts;
    var s0 := System(INIT, map[0 := Client(map[], map[], Offline, GwWaiting, 1)], map[]);
    var s1 := System(INIT, map[0 := Client(map[], map[], Handshaking, GwProcessing, 0)], OnePipe(EMPTY, EMPTY, None, None));
    var s2 := Up(INIT);
    var s3 := Up(INIT.(conns := map[0 := Conn(7, Fresh)]));
    var s4 := Up(INIT.(conns := map[0 := Conn(7, Idle)]));
    assert Goes(z, s0, ConnectActs()[0], s1);
    assert Goes(z, s1, ConnectActs()[1], s2);
    assert Goes(z, s2, ConnectActs()[2], s3);
    assert Goes(z, s3, ConnectActs()[3], s4);
    hide Goes;
    run := [s0, s1, s2, s3, s4];
  }

  // ----- Opening the link -----

  const OPENING: seq<Act> := [
    SrvAlloc, SrvTask(0, Pick(0)), SrvTask(0, TaskEvent.AddLink), SrvTask(0, AddRoute), SrvEmit(0, 0, Sent)]

  const ONE_CLIENT := map[0 := Conn(7, Idle)]

  function Opened1(z: Zstd): System {
    System(OneLink(FRESH, Idle), Joined(Ready, map[]), OnePipe(Full(z, S2C, 0, M_OPEN), EMPTY, None, None))
  }

  lemma Opening(z: Zstd) returns (run: seq<System>)
    ensures |run| == 6 && run[0] == Up(INIT.(conns := ONE_CLIENT)) && run[5] == Opened1(z)
    ensures forall i :: 0 <= i < 5 ==> Goes(z, run[i], OPENING[i], run[i + 1])
  {
    var born := Task(1, None, Picking, NEW_LINK, [], None);
    var s0 := Up(INIT.(conns := ONE_CLIENT));
    var s1 := Up(Server(2, [born], map[], map[], ONE_CLIENT, false));
    var s2 := Up(Server(2, [OneTask(Picked, NEW_LINK, None)], map[], map[], ONE_CLIENT, false));
    var s3 := Up(Server(2, [OneTask(Added, NEW_LINK, None)], map[1 := 0], map[], ONE_CLIENT, false));
    var s4 := Up(OneLink(OneTask(Routed, NEW_LINK, None), Idle));
    assert Goes(z, s0, OPENING[0], s1);
    assert Goes(z, s1, OPENING[1], s2);
    assert Goes(z, s2, OPENING[2], s3);
    assert Goes(z, s3, OPENING[3], s4);
    EmitOpen(z);
    hide Goes;
    run := [s0, s1, s2, s3, s4, Opened1(z)];
  }

  lemma EmitOpen(z: Zstd)
    ensures Goes(z, Up(OneLink(OneTask(Routed, NEW_LINK, None), Idle)), SrvEmit(0, 0, Sent), Opened1(z))
  {
    PutOne(z, [], Tagged(Some(0), M_OPEN));
    assert Empty([]) == EMPTY && [] + [Tagged(Some(0), M_OPEN)] == S2C;
    hide MayPut, PutFrame, Full;
  }

  // ----- The client answers -----

  const ANSWERING: seq<Act> := [CliTake(0), CliDial(0), CliLoop(0, Mark), CliOpened(0, 0, Sent)]

  function Serving(l: ClientLoop, objs: map<nat, ClientLink>): System {
    System(OneLink(FRESH, Idle), Joined(l, objs), OnePipe(Empty(S2C), EMPTY, None, Some(0)))
  }

  function Confirming(z: Zstd, l: Loop, c2s: Wire, stag: Option<nat>): System {
    System(OneLink(FRESH, l), Joined(Ready, Obj(Pumping, UP, [])), OnePipe(Empty(S2C), c2s, stag, Some(0)))
  }

  lemma TakeOpen(z: Zstd)
    requires Lossless(z)
    ensures Goes(z, Opened1(z), CliTake(0), Serving(Taken(M_OPEN.packet, None), map[]))
  {
    TakeOne(z, S2C, M_OPEN);
    assert NextTag(Full(z, S2C, 0, M_OPEN)) == Some(0);
    hide MayTake, TakeFrame, Received, Full, NextTag, Lossless;
  }

  lemma DialAndMark(z: Zstd)
    ensures Goes(z, Serving(Taken(M_OPEN.packet, None), map[]), CliDial(0), Serving(Dialed(0), Obj(Starting, NEW_LINK, [])))
    ensures Goes(z, Serving(Dialed(0), Obj(Starting, NEW_LINK, [])), CliLoop(0, Mark), Serving(Marked(0), Obj(Starting, UP, [])))
  {
    assert LoopMoves(OneClient(Taken(M_OPEN.packet, None), map[]), DialOk(0)) == OneClient(Dialed(0), Obj(Starting, NEW_LINK, []));
    assert LoopMoves(OneClient(Dialed(0), Obj(Starting, NEW_LINK, [])), Mark) == OneClient(Marked(0), Obj(Starting, UP, []));
    hide LoopMoves, OneClient, OneLink, Obj;
  }

  lemma SendOpened(z: Zstd)
    ensures Goes(z, Serving(Marked(0), Obj(Starting, UP, [])), CliOpened(0, 0, Sent), Confirming(z, Idle, Full(z, C2S, 0, M_OPENED), None))
  {
    PutOne(z, [], Tagged(Some(0), M_OPENED));
    assert Empty([]) == EMPTY && [] + [Tagged(Some(0), M_OPENED)] == C2S;
    assert LoopMoves(OneClient(Marked(0), Obj(Starting, UP, [])), OpenedSent) == OneClient(Ready, Obj(Pumping, UP, []));
    hide MayPut, PutFrame, Full, LoopMoves, OneLink;
    OpenedGoes(z, OneLink(FRESH, Idle), OneClient(Marked(0), Obj(Starting, UP, [])), OneClient(Ready, Obj(Pumping, UP, [])),
               Pipe(0, Empty(S2C), EMPTY, None, Some(0)), Full(z, C2S, 0, M_OPENED));
    hide Goes;
  }

  lemma Answering(z: Zstd) returns (run: seq<System>)
    requires Lossless(z)
    ensures |run| == 5 && run[0] == Opened1(z) && run[4] == Confirming(z, Idle, Full(z, C2S, 0, M_OPENED), None)
    ensures forall i :: 0 <= i < 4 ==> Goes(z, run[i], ANSWERING[i], run[i + 1])
  {
    TakeOpen(z);
    DialAndMark(z);
    SendOpened(z);
    hide Goes, Serving, Obj, Opened1, Confirming;
    run := [Opened1(z), Serving(Taken(M_OPEN.packet, None), map[]), Serving(Dialed(0), Obj(Starting, NEW_LINK, [])),
            Serving(Marked(0), Obj(Starting, UP, [])), Confirming(z, Idle, Full(z, C2S, 0, M_OPENED), None)];
  }

  // ----- The server confirms, and then waits -----

  const CONFIRMING: seq<Act> := [SrvRecv(0), SrvLoop(0, Lookup), SrvLoop(0, ConfirmLink), SrvTask(0, SetWaiting)]

  /** After `Opened` was taken. */
  function Late(t: Task, l: Loop, objs: map<nat, ClientLink>, c2s: Wire): System {
    System(OneLink(t, l), Joined(Ready, objs), OnePipe(Empty(S2C), c2s, Some(0), Some(0)))
  }

  lemma Confirm2(z: Zstd) returns (run: seq<System>)
    requires Lossless(z)
    ensures |run| == 5 && run[0] == Confirming(z, Idle, Full(z, C2S, 0, M_OPENED), None)
    ensures run[3] == Late(CONFIRMED, Idle, Obj(Pumping, UP, []), Empty(C2S))
    ensures run[4] == Late(LATE, Idle, Obj(Pumping, UP, []), Empty(C2S))
    ensures forall i :: 0 <= i < 4 ==> Goes(z, run[i], CONFIRMING[i], run[i + 1])
  {
    var objs := Obj(Pumping, UP, []);
    var cl := Joined(Ready, objs);
    var after := OnePipe(Empty(S2C), Empty(C2S), Some(0), Some(0));
    ReceiveGoes(z, FRESH, cl, Empty(S2C), C2S, M_OPENED, None, Some(0));
    ServerConfirms();
    hide StepLoop, LoopEnabled, StepTask, TaskEnabled, Full, Empty, OneLink, OneTask;
    LoopGoes(z, OneLink(FRESH, Held(M_OPENED.packet, None)), Lookup, OneLink(FRESH, Confirm(0)), cl, after);
    LoopGoes(z, OneLink(FRESH, Confirm(0)), ConfirmLink, OneLink(CONFIRMED, Idle), cl, after);
    TaskGoes(z, OneLink(CONFIRMED, Idle), SetWaiting, OneLink(LATE, Idle), cl, after);
    hide Goes;
    run := [Confirming(z, Idle, Full(z, C2S, 0, M_OPENED), None), Late(FRESH, Held(M_OPENED.packet, None), objs, Empty(C2S)),
            Late(FRESH, Confirm(0), objs, Empty(C2S)), Late(CONFIRMED, Idle, objs, Empty(C2S)), Late(LATE, Idle, objs, Empty(C2S))];
  }

  lemma ServerConfirms()
    ensures var s := OneLink(FRESH, Held(M_OPENED.packet, None));
      LoopEnabled(s, 0, Lookup) && StepLoop(s, 0, Lookup) == OneLink(FRESH, Confirm(0))
    ensures var s := OneLink(FRESH, Confirm(0));
      LoopEnabled(s, 0, ConfirmLink) && StepLoop(s, 0, ConfirmLink) == OneLink(CONFIRMED, Idle)
    ensures var s := OneLink(CONFIRMED, Idle);
      TaskEnabled(s, 0, SetWaiting) && StepTask(s, 0, SetWaiting) == OneLink(LATE, Idle)
  {
  }

  // ----- The client's application speaks -----

  const LOSING: seq<Act> := [
    CliTask(0, 0, AppData([5])), CliPut(0, 0, 0, Sent), SrvRecv(0), SrvLoop(0, Lookup), SrvLoop(0, DeliverTo(Wrote))]

  const SAID := Obj(Counting([5]), UP, [5])

  lemma SendData(z: Zstd)
    ensures Goes(z, Late(LATE, Idle, Obj(Writing([5]), UP, [5]), Empty(C2S)), CliPut(0, 0, 0, Sent),
                 Late(LATE, Idle, SAID, Full(z, C2S_DATA, 1, M_DATA)))
  {
    PutOne(z, C2S, Tagged(Some(0), M_DATA));
    var c := OneClient(Ready, Obj(Writing([5]), UP, [5]));
    assert TaskMay(c, 0, Put(true)) && TaskMoves(c, 0, Put(true)) == OneClient(Ready, SAID);
    assert ClientOutgoing(c.objs[0], 0) == M_DATA;
    hide MayPut, PutFrame, Full, TaskMoves, TaskMay, ClientOutgoing, OneLink, Empty;
    PutGoes(z, OneLink(LATE, Idle), c, OneClient(Ready, SAID), M_DATA,
            Pipe(0, Empty(S2C), Empty(C2S), Some(0), Some(0)), Full(z, C2S_DATA, 1, M_DATA));
    hide Goes;
  }

  lemma Losing(z: Zstd) returns (run: seq<System>)
    requires Lossless(z)
    ensures |run| == 6 && run[0] == Late(LATE, Idle, Obj(Pumping, UP, []), Empty(C2S))
    ensures run[5] == Late(LATE, Idle, SAID, Empty(C2S_DATA))
    ensures forall i :: 0 <= i < 5 ==> Goes(z, run[i], LOSING[i], run[i + 1])
  {
    Speaking(z);
    SendData(z);
    ReceiveGoes(z, LATE, Joined(Ready, SAID), Empty(S2C), C2S_DATA, M_DATA, Some(0), Some(0));
    Dropping(z);
    assert |C2S_DATA| == 2;
    hide Goes, Full, Empty, OneLink, OneTask, Joined, Obj, OnePipe;
    run := [Late(LATE, Idle, Obj(Pumping, UP, []), Empty(C2S)), Late(LATE, Idle, Obj(Writing([5]), UP, [5]), Empty(C2S)),
            Late(LATE, Idle, SAID, Full(z, C2S_DATA, 1, M_DATA)), Late(LATE, Held(M_DATA.packet, Some([5])), SAID, Empty(C2S_DATA)),
            Late(LATE, Deliver(0, [5]), SAID, Empty(C2S_DATA)), Late(LATE, Idle, SAID, Empty(C2S_DATA))];
  }

  lemma Speaking(z: Zstd)
    ensures Goes(z, Late(LATE, Idle, Obj(Pumping, UP, []), Empty(C2S)), CliTask(0, 0, AppData([5])),
                 Late(LATE, Idle, Obj(Writing([5]), UP, [5]), Empty(C2S)))
  {
    ClientSpeaks();
    hide TaskMay, TaskMoves, OneLink, OneTask, OneClient, Obj, Empty, OnePipe, Goes;
    ClientTaskGoes(z, OneLink(LATE, Idle), OneClient(Ready, Obj(Pumping, UP, [])), AppData([5]),
                   OneClient(Ready, Obj(Writing([5]), UP, [5])), OnePipe(Empty(S2C), Empty(C2S), Some(0), Some(0)));
  }

  lemma Dropping(z: Zstd)
    ensures Goes(z, Late(LATE, Held(M_DATA.packet, Some([5])), SAID, Empty(C2S_DATA)), SrvLoop(0, Lookup),
                 Late(LATE, Deliver(0, [5]), SAID, Empty(C2S_DATA)))
    ensures Goes(z, Late(LATE, Deliver(0, [5]), SAID, Empty(C2S_DATA)), SrvLoop(0, DeliverTo(Wrote)),
                 Late(LATE, Idle, SAID, Empty(C2S_DATA)))
  {
    var cl := Joined(Ready, SAID);
    var after := OnePipe(Empty(S2C), Empty(C2S_DATA), Some(0), Some(0));
    ServerDrops();
    hide StepLoop, LoopEnabled, OneLink, OneTask, OneClient, Obj, Empty, OnePipe, Joined, Goes;
    LoopGoes(z, OneLink(LATE, Held(M_DATA.packet, Some([5]))), Lookup, OneLink(LATE, Deliver(0, [5])), cl, after);
    LoopGoes(z, OneLink(LATE, Deliver(0, [5])), DeliverTo(Wrote), OneLink(LATE, Idle), cl, after);
  }

  lemma ClientSpeaks()
    ensures var c := OneClient(Ready, Obj(Pumping, UP, []));
      TaskMay(c, 0, AppData([5])) && TaskMoves(c, 0, AppData([5])) == OneClient(Ready, Obj(Writing([5]), UP, [5]))
  {
    var c := OneClient(Ready, Obj(Pumping, UP, []));
    assert [] + [5] == [5];
    assert TaskMoves(c, 0, AppData([5])).objs == Obj(Writing([5]), UP, [5]);
  }

  lemma ServerDrops()
    ensures var s := OneLink(LATE, Held(M_DATA.packet, Some([5])));
      LoopEnabled(s, 0, Lookup) && StepLoop(s, 0, Lookup) == OneLink(LATE, Deliver(0, [5]))
    ensures var s := OneLink(LATE, Deliver(0, [5]));
      LoopEnabled(s, 0, DeliverTo(Wrote)) && StepLoop(s, 0, DeliverTo(Wrote)) == OneLink(LATE, Idle)
  {
  }

  // ----- The run -----

  function LateActs(): seq<Act> {
    ConnectActs() + OPENING + ANSWERING + CONFIRMING + LOSING
  }

  /** A run in which live ids stay distinct and no socket fails.  The client's application says 5, and its dispatch
      at the server is over; the server's link is registered, its application's socket works, and it has
      been sent nothing. */
  lemma LateWaitingLosesData(z: Zstd) returns (run: seq<System>)
    requires Lossless(z)
    ensures IsRun(z, run, LateActs()) && Disciplined(run, LateActs()) && |run| == 23
    ensures LateActs()[16] == SrvTask(0, SetWaiting) && |run[16].sv.tasks| == 1 && run[16].sv.tasks[0].link.state.Connected?
    ensures var s := run[22];
      && s == Late(LATE, Idle, SAID, Empty(C2S_DATA))
      && SrvRegistered(s, 0) && s.sv.tasks[0].link.open && s.sv.tasks[0].link.written == []
      && 0 in s.cl && 0 in s.cl[0].objs && s.cl[0].objs[0].read == [5] && 0 in s.pipes && s.pipes[0].c2s.bytes == []
  {
    hide FreshId, Goes, Up, Opened1, Confirming, Late, IsInit, Reply, Empty, Obj;
    var r1 := ClientConnects(z);
    var r2 := Opening(z);
    var r3 := Answering(z);
    var r4 := Confirm2(z);
    var r5 := Losing(z);
    run := r1 + r2[1..] + r3[1..] + r4[1..] + r5[1..];
    var acts := LateActs();
    forall i | 0 <= i < |acts| ensures Goes(z, run[i], acts[i], run[i + 1]) {
      if i < 4 {
        assert acts[i] == ConnectActs()[i] && run[i] == r1[i] && run[i + 1] == r1[i + 1];
      } else if i < 9 {
        assert acts[i] == OPENING[i - 4] && run[i] == r2[i - 4] && run[i + 1] == r2[i - 3];
      } else if i < 13 {
        assert acts[i] == ANSWERING[i - 9] && run[i] == r3[i - 9] && run[i + 1] == r3[i - 8];
      } else if i < 17 {
        assert acts[i] == CONFIRMING[i - 13] && run[i] == r4[i - 13] && run[i + 1] == r4[i - 12];
      } else {
        assert acts[i] == LOSING[i - 17] && run[i] == r5[i - 17] && run[i + 1] == r5[i - 16];
      }
    }
    GoesMakeRun(z, run, acts);
    assert run[4] == r2[0] && run[16] == r4[3];
    NothingYet();
    Marks(z);
    LateMarks();
    forall i | 0 <= i < |acts| && acts[i].SrvAlloc? ensures FreshId(run[i]) {
      assert i == 4;
    }
  }

  lemma NothingYet()
    ensures FreshId(Up(INIT.(conns := ONE_CLIENT)))
  {
  }

  lemma Marks(z: Zstd)
    ensures var s := Late(CONFIRMED, Idle, Obj(Pumping, UP, []), Empty(C2S));
      |s.sv.tasks| == 1 && s.sv.tasks[0].link.state.Connected?
    ensures var s := Late(LATE, Idle, SAID, Empty(C2S_DATA));
      && |s.sv.tasks| == 1 && SrvRegistered(s, 0) && s.sv.tasks[0].link.open && s.sv.tasks[0].link.written == []
      && 0 in s.cl && 0 in s.cl[0].objs && s.cl[0].objs[0].read == [5] && 0 in s.pipes && s.pipes[0].c2s.bytes == []
  {
  }

  lemma LateMarks()
    ensures |LateActs()| == 22 && LateActs()[16] == SrvTask(0, SetWaiting)
    ensures forall i :: 0 <= i < 22 && LateActs()[i].SrvAlloc? ==> i == 4
  {
    hide Reply;
  }
}
