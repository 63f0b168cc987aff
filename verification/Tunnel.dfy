/** The composed system: one server, any number of gateway clients that connect and reconnect, and two byte
    wires per connection.  Every interleaving of the tasks, dispatch loops, pings and failures is a run. */
module Tunnel {
  import opened Bytes
  import opened Packets
  import opened Compression
  import opened Framing
  import opened Links
  import opened LinkServer
  import opened LinkClient
  import opened LinkProtocol
  import opened Wires

  /** A connection: the client process at its far end and its two wires.  For the proofs only, `stag` and
      `ctag` name the link of the packet each side took last. */
  datatype Pipe = Pipe(proc: nat, s2c: Wire, c2s: Wire, stag: Option<nat>, ctag: Option<nat>)

  datatype System = System(sv: Server, cl: map<nat, Client>, pipes: map<nat, Pipe>)

  /** The steps of the server, of client process `p`, and of the network. */
  datatype Act =
    | SrvAlloc
    | SrvRegister(c: nat, addr: Addr)
    | SrvTask(k: nat, te: TaskEvent)
    | SrvEmit(k: nat, pid: u64, out: SendOutcome)
    | SrvLoop(c: nat, le: LoopEvent)
    | SrvRecv(c: nat)
    | SrvPong(c: nat, pid: u64, out: SendOutcome)
    | SrvShutdown
    | CliConnect(p: nat, c: nat)
    | CliLoop(p: nat, cle: ClientLoopEvent)
    | CliTake(p: nat)
    | CliDial(p: nat)
    | CliReply(p: nat, pid: u64, out: SendOutcome)
    | CliOpened(p: nat, pid: u64, out: SendOutcome)
    | CliRefuse(p: nat, pid: u64, out: SendOutcome)
    | CliTask(p: nat, o: nat, cte: ClientTaskEvent)
    | CliPut(p: nat, o: nat, pid: u64, out: SendOutcome)
    | CliQuit(p: nat)
    | CliPing(c: nat, pid: u64, out: SendOutcome)
    | Break(c: nat, toClient: bool)

  ghost predicate IsInit(s: System) {
    s.sv == INIT && s.pipes == map[] && forall p :: p in s.cl ==> IsStart(s.cl[p])
  }

  function Control(ptype: PacketType, pid: u64, id: u16): Message {
    Message(NewPacket(ptype, pid, id, 0), None)
  }

  predicate TaskPipe(s: System, k: nat) {
    k < |s.sv.tasks| && s.sv.tasks[k].conn.Some? && s.sv.tasks[k].conn.value in s.pipes
  }

  function ToClient(z: Zstd, s: System, c: nat, tm: Tagged, out: SendOutcome): map<nat, Pipe>
    requires c in s.pipes && MayPut(z, s.pipes[c].s2c, tm.m, out)
  {
    s.pipes[c := s.pipes[c].(s2c := PutFrame(z, s.pipes[c].s2c, tm, out))]
  }

  function ToServer(z: Zstd, s: System, c: nat, tm: Tagged, out: SendOutcome): map<nat, Pipe>
    requires c in s.pipes && MayPut(z, s.pipes[c].c2s, tm.m, out)
  {
    s.pipes[c := s.pipes[c].(c2s := PutFrame(z, s.pipes[c].c2s, tm, out))]
  }

  /** The client's current connection, when it has one. */
  predicate OnPipe(s: System, p: nat) {
    p in s.cl && s.cl[p].conn in s.pipes && s.pipes[s.cl[p].conn].proc == p
  }

  predicate OpenedDue(s: System, p: nat) {
    OnPipe(s, p) && s.cl[p].loop.Marked? && s.cl[p].loop.link in s.cl[p].objs
  }

  predicate PutDue(s: System, p: nat, o: nat) {
    p in s.cl && o in s.cl[p].objs && s.cl[p].objs[o].conn in s.pipes
  }

  predicate CanAct(z: Zstd, s: System, a: Act) {
    match a
    case SrvAlloc => true
    case SrvRegister(c, addr) => c in s.pipes && c !in s.sv.conns
    case SrvTask(k, te) => !te.Emit? && TaskEnabled(s.sv, k, te)
    case SrvEmit(k, pid, out) =>
      && TaskPipe(s, k) && TaskEnabled(s.sv, k, Emit(out.Sent?))
      && MayPut(z, s.pipes[s.sv.tasks[k].conn.value].s2c, Outgoing(s.sv.tasks[k], pid), out)
    case SrvLoop(c, le) => !le.Recv? && !le.PongSent? && LoopEnabled(s.sv, c, le)
    case SrvRecv(c) => c in s.sv.conns && s.sv.conns[c].loop.Idle? && c in s.pipes && MayTake(z, s.pipes[c].c2s)
    case SrvPong(c, pid, out) =>
      && c in s.sv.conns && s.sv.conns[c].loop.PongDue? && c in s.pipes
      && MayPut(z, s.pipes[c].s2c, Control(PacketType.Pong, pid, 0), out)
    case SrvShutdown => true
    case CliConnect(p, c) => p in s.cl && s.cl[p].loop.Offline? && c != s.cl[p].conn && c !in s.pipes
    case CliLoop(p, cle) =>
      && p in s.cl && LoopMay(s.cl[p], cle)
      && !cle.Connect? && !cle.Take? && !cle.Replied? && !cle.DialOk? && !cle.OpenedSent? && !cle.RefusalSent?
    case CliTake(p) => OnPipe(s, p) && s.cl[p].loop.Ready? && MayTake(z, s.pipes[s.cl[p].conn].s2c)
    case CliDial(p) =>
      && OnPipe(s, p) && s.pipes[s.cl[p].conn].ctag.Some?
      && LoopMay(s.cl[p], DialOk(s.pipes[s.cl[p].conn].ctag.value))
    case CliReply(p, pid, out) =>
      && OnPipe(s, p) && s.cl[p].loop.ReplyDue?
      && MayPut(z, s.pipes[s.cl[p].conn].c2s, Control(PacketType.Pong, pid, 0), out)
    case CliOpened(p, pid, out) =>
      && OpenedDue(s, p)
      && MayPut(z, s.pipes[s.cl[p].conn].c2s,
                Control(PacketType.Opened, pid, s.cl[p].objs[s.cl[p].loop.link].id), out)
    case CliRefuse(p, pid, out) =>
      && OnPipe(s, p) && s.cl[p].loop.RefusalDue?
      && MayPut(z, s.pipes[s.cl[p].conn].c2s, Control(PacketType.OpenFail, pid, s.cl[p].loop.id), out)
    case CliTask(p, o, cte) => p in s.cl && !cte.Put? && TaskMay(s.cl[p], o, cte)
    case CliPut(p, o, pid, out) =>
      && PutDue(s, p, o) && TaskMay(s.cl[p], o, Put(out.Sent?))
      && MayPut(z, s.pipes[s.cl[p].objs[o].conn].c2s, ClientOutgoing(s.cl[p].objs[o], pid), out)
    case CliQuit(p) => p in s.cl
    case CliPing(c, pid, out) => c in s.pipes && MayPut(z, s.pipes[c].c2s, Control(PacketType.Ping, pid, 0), out)
    case Break(c, _) => c in s.pipes
  }

  function Client1(s: System, p: nat, c': Client): System {
    s.(cl := s.cl[p := c'])
  }

  function Next(z: Zstd, s: System, a: Act): System
    requires CanAct(z, s, a)
  {
    match a
    case SrvAlloc => s.(sv := Step(s.sv, Alloc))
    case SrvRegister(c, addr) => s.(sv := Step(s.sv, Register(c, addr)))
    case SrvTask(k, te) => s.(sv := StepTask(s.sv, k, te))
    case SrvEmit(k, pid, out) =>
      var t := s.sv.tasks[k];
      s.(sv := StepTask(s.sv, k, Emit(out.Sent?)),
         pipes := ToClient(z, s, t.conn.value, Tagged(Some(k), Outgoing(t, pid)), out))
    case SrvLoop(c, le) => s.(sv := StepLoop(s.sv, c, le))
    case SrvRecv(c) =>
      var w := s.pipes[c].c2s;
      var m := Received(z, w);
      s.(sv := StepLoop(s.sv, c, Recv(m.packet, m.data)),
         pipes := s.pipes[c := s.pipes[c].(c2s := TakeFrame(z, w), stag := NextTag(w))])
    case SrvPong(c, pid, out) =>
      s.(sv := StepLoop(s.sv, c, PongSent),
         pipes := ToClient(z, s, c, Tagged(None, Control(PacketType.Pong, pid, 0)), out))
    case SrvShutdown => s.(sv := Step(s.sv, Shutdown))
    case CliConnect(p, c) =>
      Client1(s, p, LoopMoves(s.cl[p], Connect(c))).(pipes := s.pipes[c := Pipe(p, EMPTY, EMPTY, None, None)])
    case CliLoop(p, cle) => Client1(s, p, LoopMoves(s.cl[p], cle))
    case CliTake(p) =>
      var c := s.cl[p].conn;
      var w := s.pipes[c].s2c;
      var m := Received(z, w);
      Client1(s, p, LoopMoves(s.cl[p], Take(m.packet, m.data))).(
        pipes := s.pipes[c := s.pipes[c].(s2c := TakeFrame(z, w), ctag := NextTag(w))])
    case CliDial(p) => Client1(s, p, LoopMoves(s.cl[p], DialOk(s.pipes[s.cl[p].conn].ctag.value)))
    case CliReply(p, pid, out) =>
      Client1(s, p, LoopMoves(s.cl[p], Replied)).(
        pipes := ToServer(z, s, s.cl[p].conn, Tagged(None, Control(PacketType.Pong, pid, 0)), out))
    case CliOpened(p, pid, out) =>
      var o := s.cl[p].loop.link;
      Client1(s, p, LoopMoves(s.cl[p], OpenedSent)).(
        pipes := ToServer(z, s, s.cl[p].conn,
                          Tagged(Some(o), Control(PacketType.Opened, pid, s.cl[p].objs[o].id)), out))
    case CliRefuse(p, pid, out) =>
      var c := s.cl[p].conn;
      Client1(s, p, LoopMoves(s.cl[p], RefusalSent)).(
        pipes := ToServer(z, s, c, Tagged(s.pipes[c].ctag, Control(PacketType.OpenFail, pid, s.cl[p].loop.id)), out))
    case CliTask(p, o, cte) => Client1(s, p, TaskMoves(s.cl[p], o, cte))
    case CliPut(p, o, pid, out) =>
      var t := s.cl[p].objs[o];
      Client1(s, p, TaskMoves(s.cl[p], o, Put(out.Sent?))).(
        pipes := ToServer(z, s, t.conn, Tagged(Some(o), ClientOutgoing(t, pid)), out))
    case CliQuit(p) => Client1(s, p, Move(s.cl[p], Quit))
    case CliPing(c, pid, out) =>
      s.(pipes := ToServer(z, s, c, Tagged(None, Control(PacketType.Ping, pid, 0)), out))
    case Break(c, toClient) =>
      var P := s.pipes[c];
      s.(pipes := s.pipes[c := if toClient then P.(s2c := P.s2c.(broken := true)) else P.(c2s := P.c2s.(broken := true))])
  }

  // ----- One link of the system -----

  function PhaseOf(l: Loop): ServerPhase {
    match l
    case Held(p, d) => PHeld(Abs(Message(p, d)))
    case Deliver(_, d) => PDeliver(d)
    case Confirm(_) => PConfirm
    case Unlink(_) => PUnlink
    case CloseLink(_) => PClose
    case _ => PNone
  }

  function ClientPhaseOf(l: ClientLoop): ClientPhase {
    match l
    case Taken(p, d) => CHeld(Abs(Message(p, d)))
    case Dialed(_) => CDialed
    case Marked(_) => CMarked
    case RefusalDue(_) => CRefusal
    case ShutLink(_) => CShut
    case _ => CNone
  }

  predicate LoopReads(l: Loop) {
    !l.Leaving? && !l.Cleaning? && !l.CleanClose? && !l.Gone?
  }

  predicate ClientReads(l: ClientLoop) {
    !l.Offline? && !l.Lost? && !l.Drained?
  }

  predicate ServerReads(s: System, c: nat) {
    c in s.sv.conns ==> LoopReads(s.sv.conns[c].loop)
  }

  predicate ProcReads(s: System, c: nat)
    requires c in s.pipes
  {
    var p := s.pipes[c].proc;
    p in s.cl && s.cl[p].conn == c && ClientReads(s.cl[p].loop)
  }

  function SrvPhase(s: System, c: nat, k: nat): ServerPhase
    requires c in s.pipes
  {
    if c in s.sv.conns && s.pipes[c].stag == Some(k) then PhaseOf(s.sv.conns[c].loop) else PNone
  }

  function CliPhase(s: System, c: nat, k: nat): ClientPhase
    requires c in s.pipes
  {
    var p := s.pipes[c].proc;
    if p in s.cl && s.cl[p].conn == c && s.pipes[c].ctag == Some(k) then ClientPhaseOf(s.cl[p].loop) else CNone
  }

  function CliLink(s: System, c: nat, k: nat): Option<ClientLink>
    requires c in s.pipes
  {
    var p := s.pipes[c].proc;
    if p in s.cl && k in s.cl[p].objs then Some(s.cl[p].objs[k]) else None
  }

  predicate CliRegistered(s: System, c: nat, id: u16, k: nat)
    requires c in s.pipes
  {
    var p := s.pipes[c].proc;
    p in s.cl && id in s.cl[p].reg && s.cl[p].reg[id] == k
  }

  predicate SrvRegistered(s: System, k: nat)
    requires k < |s.sv.tasks|
  {
    InRegistry(s.sv, k)
  }

  function PipeView(s: System, k: nat, c: nat): View
    requires k < |s.sv.tasks| && c in s.pipes
  {
    var t := s.sv.tasks[k];
    var P := s.pipes[c];
    View(t, CliLink(s, c, k), SrvRegistered(s, k), CliRegistered(s, c, t.id, k),
         Proj(P.s2c.sent, k), Proj(P.s2c.sent[..ReadCount(P.s2c)], k),
         Proj(P.c2s.sent, k), Proj(P.c2s.sent[..ReadCount(P.c2s)], k),
         P.s2c.broken, P.c2s.broken, ServerReads(s, c), ProcReads(s, c), SrvPhase(s, c, k), CliPhase(s, c, k))
  }

  function ReadCount(w: Wire): nat {
    if w.got <= |w.sent| then w.got else |w.sent|
  }

  /** The link of task `k`: before it has a connection, nothing was sent for it. */
  function ViewOf(s: System, k: nat): View
    requires k < |s.sv.tasks|
  {
    if TaskPipe(s, k) then PipeView(s, k, s.sv.tasks[k].conn.value)
    else View(s.sv.tasks[k], None, SrvRegistered(s, k), false, [], [], [], [], false, false, true, true, PNone, CNone)
  }
}
