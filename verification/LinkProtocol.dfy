/** What one link's two ends and the packets between them look like, and the invariant that every
    step of either end keeps. */
module LinkProtocol {
  import opened Bytes
  import opened Packets
  import opened Framing
  import opened Links
  import opened LinkServer
  import opened LinkClient

  /** A packet as the link it belongs to sees it. */
  datatype Msg = MOpen | MOpened | MOpenFail | MData(d: bytes) | MClose | MOther

  function Abs(m: Message): Msg {
    match m.packet.ptype
    case Open => MOpen
    case Opened => MOpened
    case OpenFail => MOpenFail
    case Close => MClose
    case Regular => MData(Payload(m.data))
    case _ => MOther
  }

  /** The application bytes carried by a log. */
  function Datas(log: seq<Msg>): bytes {
    if log == [] then [] else
      var m := log[|log| - 1];
      Datas(log[..|log| - 1]) + (if m.MData? then m.d else [])
  }

  lemma DatasAppend(log: seq<Msg>, m: Msg)
    ensures Datas(log + [m]) == Datas(log) + (if m.MData? then m.d else [])
  {
    assert (log + [m])[..|log|] == log;
  }

  lemma {:induction false} DatasMonotone(a: seq<Msg>, b: seq<Msg>)
    requires a <= b
    ensures Datas(a) <= Datas(b)
    decreases |b|
  {
    if |a| < |b| {
      DatasMonotone(a, b[..|b| - 1]);
    } else {
      assert a == b;
    }
  }

  lemma SingleDatas(m: Msg)
    ensures Datas([m]) == if m.MData? then m.d else []
  {
    DatasAppend([], m);
    assert [] + [m] == [m];
  }

  // ----- One link, seen from outside -----

  /** What the server's dispatch loop is doing for this link. */
  datatype ServerPhase = PNone | PHeld(m: Msg) | PDeliver(d: bytes) | PConfirm | PUnlink | PClose

  /** What the client's dispatch loop is doing for this link. */
  datatype ClientPhase = CNone | CHeld(m: Msg) | CDialed | CMarked | CRefusal | CShut

  /** One link: its server task and client object; whether each registry holds it; everything each side has
      put on the wire for it (`slog`, `clog`) and the part of that the other side has taken (`ch`, `sh`);
      whether writing (`sb`, `cb`) has failed and whether the other side still reads (`cup`, `sup`). */
  datatype View = View(
    t: Task, c: Option<ClientLink>, sreg: bool, creg: bool,
    slog: seq<Msg>, ch: seq<Msg>, clog: seq<Msg>, sh: seq<Msg>,
    sb: bool, cb: bool, sup: bool, cup: bool,
    sp: ServerPhase, cp: ClientPhase)

  /** Something can still happen to this link. */
  predicate Live(v: View) {
    || !v.t.stage.Done?
    || (v.c.Some? && !v.c.value.stage.Ended?)
    || (v.cup && |v.ch| < |v.slog|)
    || (v.sup && |v.sh| < |v.clog|)
    || !v.sp.PNone?
    || !v.cp.CNone?
  }

  predicate Data(m: Msg) {
    m.MData? && m.d != []
  }

  /** A sender before its `Close`: `first`, then data packets that carry what was read from the application,
      except for `pending`, unless writing has failed. */
  ghost predicate Flow(first: Msg, log: seq<Msg>, read: bytes, pending: bytes, broken: bool) {
    && (log != [] ==> log[0] == first)
    && (forall i :: 1 <= i < |log| ==> Data(log[i]))
    && Datas(log) <= read
    && (broken || (log != [] && read == Datas(log) + pending))
  }

  /** A sender after its `Close`: everything read from the application is in the log. */
  ghost predicate Closed(first: Msg, log: seq<Msg>, read: bytes) {
    && |log| >= 2 && log[0] == first && log[|log| - 1] == MClose
    && (forall i :: 1 <= i < |log| - 1 ==> Data(log[i]))
    && read == Datas(log)
  }

  ghost predicate Ended(first: Msg, log: seq<Msg>, read: bytes, broken: bool) {
    Closed(first, log, read) || (broken && Flow(first, log, read, [], broken))
  }

  ghost predicate ServerFlow(stage: Stage, read: bytes, log: seq<Msg>, broken: bool) {
    match stage
    case Picking => log == [] && read == []
    case Picked => log == [] && read == []
    case Added => log == [] && read == []
    case Routed => log == [] && read == []
    case OpenSent => Flow(MOpen, log, read, [], broken) && read == []
    case Running => Flow(MOpen, log, read, [], broken)
    case Sending(d) => Flow(MOpen, log, read, d, broken) && 0 < |d| <= BUFFER_SIZE
    case Closing => Flow(MOpen, log, read, [], broken)
    case Done => (log == [] && read == []) || Ended(MOpen, log, read, broken)
    case _ => Ended(MOpen, log, read, broken)
  }

  ghost predicate ClientFlow(stage: ClientStage, read: bytes, log: seq<Msg>, broken: bool) {
    match stage
    case Starting => log == [] && read == []
    case Writing(d) => Flow(MOpened, log, read, d, broken) && 0 < |d| <= BUFFER_SIZE
    case EndSent => Ended(MOpened, log, read, broken)
    case Ended => Ended(MOpened, log, read, broken)
    case _ => Flow(MOpened, log, read, [], broken)
  }

  /** The packets for this link that a side has finished handling. */
  function ClientHandled(ch: seq<Msg>, cp: ClientPhase): seq<Msg> {
    if cp.CHeld? && ch != [] then ch[..|ch| - 1] else ch
  }

  function ServerHandled(sh: seq<Msg>, sp: ServerPhase): seq<Msg> {
    if (sp.PHeld? || sp.PDeliver? || sp.PConfirm?) && sh != [] then sh[..|sh| - 1] else sh
  }

  /** The client's answer to `Open`: the link's task runs, or there is no link and the refusal was sent. */
  ghost predicate Answer(c: Option<ClientLink>, clog: seq<Msg>, cb: bool) {
    if c.Some? then !c.value.stage.Starting? && ClientFlow(c.value.stage, c.value.read, clog, cb)
    else clog == [MOpenFail] || (clog == [] && cb)
  }

  predicate Unspawned(c: Option<ClientLink>) {
    c.Some? && c.value.stage.Starting? && c.value.read == []
  }

  /** The client link follows from the packets taken so far. */
  ghost predicate ClientSide(c: Option<ClientLink>, ch: seq<Msg>, clog: seq<Msg>, cb: bool, cp: ClientPhase) {
    match cp
    case CNone => if ch == [] then c.None? && clog == [] else Answer(c, clog, cb)
    case CHeld(m) =>
      && ch != [] && ch[|ch| - 1] == m
      && (if |ch| == 1 then c.None? && clog == [] else Answer(c, clog, cb))
    case CDialed => |ch| == 1 && Unspawned(c) && clog == []
    case CMarked => |ch| == 1 && Unspawned(c) && clog == []
    case CRefusal => |ch| == 1 && c.None? && clog == []
    case CShut => ch != [] && c.Some? && Answer(c, clog, cb)
  }

  /** A registered client link has been sent exactly what the handled packets carry, as long as its
      application accepts data; an unregistered one, a prefix of that. */
  ghost predicate ClientDelivery(l: LinkVal, creg: bool, ch: seq<Msg>, cp: ClientPhase) {
    && l.written <= Datas(ClientHandled(ch, cp))
    && (creg && !cp.CDialed? ==>
          l.state.Connected? && (l.open ==> l.written == Datas(ClientHandled(ch, cp))))
  }

  /** The client link's counters are exact at every step. */
  ghost predicate ClientCounters(l: LinkVal, stage: ClientStage, clog: seq<Msg>) {
    && CountsOut(l)
    && (if stage.Counting? then |stage.data| <= |Datas(clog)|
          && l.bytesIn == (|Datas(clog)| - |stage.data|) % U64_SIZE
        else l.bytesIn == |Datas(clog)| % U64_SIZE)
  }

  ghost predicate ServerSide(sreg: bool, sh: seq<Msg>, sp: ServerPhase) {
    match sp
    case PNone => true
    case PHeld(m) => sh != [] && sh[|sh| - 1] == m
    case PDeliver(d) => sh != [] && sh[|sh| - 1] == MData(d)
    case PConfirm => sh == [MOpened]
    case PUnlink => sh != []
    case PClose => sh != [] && !sreg
  }

  predicate OpenedHandled(sh: seq<Msg>, sp: ServerPhase) {
    ServerHandled(sh, sp) != [] && ServerHandled(sh, sp)[0] == MOpened
  }

  /** A registered, connected server link has been sent exactly what the handled packets carry.  It is
      connected from the moment `Opened` is handled, unless `Waiting` overwrote that. */
  ghost predicate ServerDelivery(l: LinkVal, lost: Option<bytes>, sreg: bool, sh: seq<Msg>, sp: ServerPhase) {
    && l.written <= Datas(ServerHandled(sh, sp))
    && ((sreg || sp.PDeliver?) && l.state.Connected? && l.open ==> l.written == Datas(ServerHandled(sh, sp)))
    && (l.state.Connected? ==> OpenedHandled(sh, sp))
    && (lost.Some? ==> OpenedHandled(sh, sp) && !l.state.Connected? && l.written == lost.value)
    && (sreg && OpenedHandled(sh, sp) && lost.None? ==> l.state.Connected?)
  }

  /** The other side is through with this link. */
  predicate EndsIn(log: seq<Msg>) {
    log != [] && (log[|log| - 1] == MClose || log[|log| - 1] == MOpenFail)
  }

  ghost predicate ServerInv(v: View) {
    && ServerFlow(v.t.stage, v.t.read, v.slog, v.sb)
    && v.ch <= v.slog && v.sh <= v.clog
    && (v.sreg ==> MayBeLinked(v.t.stage))
    && (v.sreg && EndsIn(v.sh) ==> v.sp.PHeld? || v.sp.PUnlink?)
    && ServerSide(v.sreg, v.sh, v.sp)
    && ServerDelivery(v.t.link, v.t.lost, v.sreg, v.sh, v.sp)
  }

  ghost predicate ClientInv(v: View) {
    && (v.creg ==> v.c.Some? && !v.c.value.stage.Ended?)
    && (v.cp.CShut? ==> !v.creg)
    && (v.creg && EndsIn(v.ch) ==> v.cp.CHeld?)
    && ClientSide(v.c, v.ch, v.clog, v.cb, v.cp)
    && (v.c.Some? ==>
          && v.c.value.id == v.t.id
          && ClientDelivery(v.c.value.link, v.creg, v.ch, v.cp)
          && ClientCounters(v.c.value.link, v.c.value.stage, v.clog))
  }

  ghost predicate LinkInv(v: View) {
    ServerInv(v) && ClientInv(v)
  }

  /** A prefix of Open, data packets, Close. */
  ghost predicate ServerGrammar(log: seq<Msg>) {
    && (log != [] ==> log[0] == MOpen)
    && (forall i :: 1 <= i < |log| ==> Data(log[i]) || (log[i] == MClose && i == |log| - 1))
  }

  /** Exactly OpenFail, or a prefix of Opened, data packets, Close. */
  ghost predicate ClientGrammar(log: seq<Msg>) {
    || log == [MOpenFail]
    || (&& (log != [] ==> log[0] == MOpened)
        && (forall i :: 1 <= i < |log| ==> Data(log[i]) || (log[i] == MClose && i == |log| - 1)))
  }

  lemma Grammar(v: View)
    requires LinkInv(v)
    ensures ServerGrammar(v.slog) && ClientGrammar(v.clog)
    ensures v.clog != [] ==> v.ch != []
    ensures v.slog != [] ==> !v.t.stage.Picking? && !v.t.stage.Picked? && !v.t.stage.Added? && !v.t.stage.Routed?
  {
    hide Datas, ClientCounters, ClientDelivery, ServerSide, ServerDelivery;
  }

  /** Where in its log a packet that a side is holding can be. */
  lemma HeldShapes(v: View)
    requires LinkInv(v)
    ensures v.sp.PHeld? && v.sp.m == MOpened ==> v.sh == [MOpened]
    ensures v.sp.PHeld? && v.sp.m == MOpenFail ==> v.sh == [MOpenFail]
    ensures v.sp.PHeld? && v.sp.m == MClose ==> |v.sh| >= 2
    ensures v.cp.CHeld? && v.cp.m == MOpen ==> |v.ch| == 1
    ensures v.cp.CHeld? && (v.cp.m == MClose || v.cp.m.MData?) ==> |v.ch| >= 2
  {
    Grammar(v);
    hide Datas, ServerFlow, ClientFlow, ClientDelivery, ServerDelivery, ClientCounters, Answer;
  }

  lemma SendingSizes(v: View)
    requires LinkInv(v)
    ensures v.t.stage.Sending? ==> 0 < |v.t.stage.data| <= BUFFER_SIZE
    ensures v.c.Some? && v.c.value.stage.Writing? ==> 0 < |v.c.value.stage.data| <= BUFFER_SIZE
  {
    hide Datas, Flow, ClientDelivery, ServerDelivery, ServerSide, ClientCounters;
  }

  /** What a local step owes: the invariant, and that it does not bring a finished link back. */
  ghost predicate Keeps(v: View, v': View) {
    LinkInv(v') && (Live(v') ==> Live(v)) && v'.t.id == v.t.id
  }

  lemma ServerFlowWeakens(stage: Stage, read: bytes, log: seq<Msg>, broken: bool, broken': bool)
    requires ServerFlow(stage, read, log, broken) && (broken ==> broken')
    ensures ServerFlow(stage, read, log, broken')
  {
  }

  lemma AnswerWeakens(c: Option<ClientLink>, clog: seq<Msg>, cb: bool, cb': bool)
    requires Answer(c, clog, cb) && (cb ==> cb')
    ensures Answer(c, clog, cb')
  {
  }

  // ----- The network around the link -----

  lemma EnvKeeps(v: View, sb: bool, cb: bool, sup: bool, cup: bool)
    requires LinkInv(v)
    requires (v.sb ==> sb) && (v.cb ==> cb) && (sup ==> v.sup) && (cup ==> v.cup)
    ensures Keeps(v, v.(sb := sb, cb := cb, sup := sup, cup := cup))
  {
    hide ServerSide, ServerDelivery, ClientDelivery, ClientCounters, ServerFlow, Answer;
    ServerFlowWeakens(v.t.stage, v.t.read, v.slog, v.sb, sb);
    if Answer(v.c, v.clog, v.cb) {
      AnswerWeakens(v.c, v.clog, v.cb, cb);
    }
  }

  // ----- The server task -----

  predicate StageAllows(t: Task, e: TaskEvent) {
    match e
    case Reject => t.stage.Picking?
    case AddRoute => t.stage.Added?
    case SetWaiting => t.stage.OpenSent?
    case AppRead(data) => t.stage.Running? && 0 < |data| <= BUFFER_SIZE
    case AppEnd => t.stage.Running?
    case Unroute => t.stage.CloseSent?
    case AppBreak => true
    case _ => false
  }

  lemma TaskFlow(t: Task, e: TaskEvent, log: seq<Msg>, broken: bool)
    requires StageAllows(t, e) && ServerFlow(t.stage, t.read, log, broken)
    ensures ServerFlow(TaskStep(t, e, None).stage, TaskStep(t, e, None).read, log, broken)
  {
    hide Datas;
  }

  lemma TaskDelivery(t: Task, e: TaskEvent, sreg: bool, sh: seq<Msg>, sp: ServerPhase)
    requires StageAllows(t, e) && ServerDelivery(t.link, t.lost, sreg, sh, sp)
    ensures ServerDelivery(TaskStep(t, e, None).link, TaskStep(t, e, None).lost, sreg, sh, sp)
  {
    hide Datas;
  }

  lemma TaskKeeps(v: View, e: TaskEvent)
    requires LinkInv(v) && StageAllows(v.t, e)
    ensures Keeps(v, v.(t := TaskStep(v.t, e, None)))
  {
    hide ClientSide, ClientDelivery, ClientCounters, ServerSide, ServerFlow, ServerDelivery;
    TaskFlow(v.t, e, v.slog, v.sb);
    TaskDelivery(v.t, e, v.sreg, v.sh, v.sp);
  }

  lemma AddLinkKeeps(v: View)
    requires LinkInv(v) && v.t.stage.Picked?
    ensures Keeps(v, v.(t := v.t.(stage := Added), sreg := true))
  {
    hide ClientDelivery, ClientCounters;
  }

  lemma RemoveLinkKeeps(v: View, removed: Option<nat>)
    requires LinkInv(v) && v.t.stage.Unrouted?
    ensures Keeps(v, v.(t := v.t.(stage := Unlinked(removed)), sreg := false))
  {
    hide ClientSide, ClientDelivery, ClientCounters;
  }

  lemma FinishKeeps(v: View, link: LinkVal)
    requires LinkInv(v) && v.t.stage.Unlinked? && (link == v.t.link || link == CloseConnection(v.t.link))
    ensures Keeps(v, v.(t := v.t.(stage := Stage.Done, link := link)))
  {
    hide ClientSide, ClientDelivery, ClientCounters, ServerSide;
  }

  lemma UnregisterKeeps(v: View)
    requires LinkInv(v)
    ensures Keeps(v, v.(sreg := false))
  {
    hide ClientSide, ClientDelivery, ClientCounters, ServerFlow;
  }

  lemma CloseKeeps(v: View)
    requires LinkInv(v) && !v.sreg
    ensures Keeps(v, v.(t := v.t.(link := CloseConnection(v.t.link))))
  {
    hide ClientSide, ClientDelivery, ClientCounters, ServerFlow, ServerSide;
  }

  /** The packet a task in this stage writes. */
  function TaskMsg(stage: Stage): Msg {
    if stage.Closing? then MClose else if stage.Sending? then MData(stage.data) else MOpen
  }

  /** A sender that writes its pending data, or its `Close`, or fails to. */
  lemma FlowSend(first: Msg, log: seq<Msg>, read: bytes, d: bytes, broken: bool, ok: bool)
    requires Flow(first, log, read, d, broken) && d != [] && (ok ==> !broken)
    ensures Flow(first, if ok then log + [MData(d)] else log, read, [], !ok)
    ensures ok ==> |d| <= |Datas(log + [MData(d)])| && Datas(log + [MData(d)]) == Datas(log) + d
  {
    DatasAppend(log, MData(d));
    hide Datas;
  }

  lemma FlowClose(first: Msg, log: seq<Msg>, read: bytes, broken: bool, ok: bool)
    requires Flow(first, log, read, [], broken) && (ok ==> !broken)
    ensures Ended(first, if ok then log + [MClose] else log, read, !ok)
    ensures Datas(log + [MClose]) == Datas(log)
  {
    DatasAppend(log, MClose);
    hide Datas;
  }

  lemma FlowOpen(first: Msg, ok: bool)
    requires !first.MData?
    ensures Flow(first, if ok then [first] else [], [], [], !ok)
    ensures Datas([first]) == [] && Datas([]) == []
  {
    SingleDatas(first);
    assert Datas([]) == [];
    hide Datas;
  }

  lemma EmitFlow(stage: Stage, read: bytes, log: seq<Msg>, broken: bool, ok: bool)
    requires ServerFlow(stage, read, log, broken) && (stage.Routed? || stage.Sending? || stage.Closing?)
    requires ok ==> !broken
    ensures ServerFlow(AfterEmit(stage, ok), read, if ok then log + [TaskMsg(stage)] else log, !ok)
  {
    hide Flow, Ended, Datas;
    match stage
    case Routed => FlowOpen(MOpen, ok); assert [] + [MOpen] == [MOpen];
    case Sending(d) => FlowSend(MOpen, log, read, d, broken, ok);
    case Closing => FlowClose(MOpen, log, read, broken, ok);
  }

  /** Writing a packet: it joins the log, or writing has failed for good. */
  lemma EmitKeeps(v: View, ok: bool)
    requires LinkInv(v) && (v.t.stage.Routed? || v.t.stage.Sending? || v.t.stage.Closing?)
    requires ok ==> !v.sb
    ensures Keeps(v, v.(t := v.t.(stage := AfterEmit(v.t.stage, ok)),
                        slog := if ok then v.slog + [TaskMsg(v.t.stage)] else v.slog, sb := !ok))
  {
    hide ClientSide, ClientDelivery, ClientCounters, ServerSide, ServerDelivery, ServerFlow;
    EmitFlow(v.t.stage, v.t.read, v.slog, v.sb, ok);
    hide TaskMsg;
  }

  // ----- The server's dispatch loop -----

  /** Taking the next packet of this link leaves the handled ones as they were. */
  lemma ServerTakeKeeps(v: View)
    requires LinkInv(v) && v.sp.PNone? && |v.sh| < |v.clog| && v.sup
    ensures Keeps(v, v.(sh := v.sh + [v.clog[|v.sh|]], sp := PHeld(v.clog[|v.sh|])))
  {
    hide ClientSide, ClientDelivery, ClientCounters, ServerFlow, Datas;
    var m := v.clog[|v.sh|];
    assert (v.sh + [m])[..|v.sh|] == v.sh;
    assert v.sh + [m] == v.clog[..|v.sh| + 1];
  }

  /** The link of a data packet is looked up: found, it will be written; else it is dropped. */
  lemma LookupDataKeeps(v: View)
    requires LinkInv(v) && v.sp.PHeld? && v.sp.m.MData?
    ensures v.sreg ==> Keeps(v, v.(sp := PDeliver(v.sp.m.d)))
    ensures !v.sreg ==> Keeps(v, v.(sp := PNone))
  {
    hide ClientSide, ClientDelivery, ClientCounters, ServerFlow, Datas;
    DatasMonotone(v.sh[..|v.sh| - 1], v.sh);
  }

  lemma LookupOpenedKeeps(v: View)
    requires LinkInv(v) && v.sp.PHeld? && v.sp.m.MOpened?
    requires v.sh == [MOpened]
    ensures v.sreg ==> Keeps(v, v.(sp := PConfirm))
    ensures !v.sreg ==> Keeps(v, v.(sp := PNone))
  {
    hide ClientSide, ClientDelivery, ClientCounters, ServerFlow;
    DatasMonotone(v.sh[..|v.sh| - 1], v.sh);
  }

  lemma DeliverKeeps(v: View, out: WriteOutcome)
    requires LinkInv(v) && v.sp.PDeliver?
    ensures Keeps(v, v.(t := v.t.(link := SendPacket(v.t.link, v.sp.d, out)), sp := PNone))
  {
    hide ClientSide, ClientDelivery, ClientCounters, ServerFlow;
    var h := v.sh[..|v.sh| - 1];
    DatasMonotone(h, v.sh);
    assert Datas(v.sh) == Datas(h) + v.sp.d;
  }

  lemma ConfirmKeeps(v: View)
    requires LinkInv(v) && v.sp.PConfirm?
    ensures Keeps(v, v.(t := v.t.(link := SetState(v.t.link, Connected)), sp := PNone))
  {
    hide ClientSide, ClientDelivery, ClientCounters, ServerFlow;
    SingleDatas(MOpened);
    assert ServerHandled(v.sh, v.sp) == [] && Datas([]) == [];
    hide Datas;
  }

  lemma UnrouteForKeeps(v: View)
    requires LinkInv(v) && v.sp.PHeld? && (v.sp.m.MClose? || v.sp.m.MOpenFail?)
    requires v.sp.m.MOpenFail? ==> v.sh == [MOpenFail]
    requires v.sp.m.MClose? ==> |v.sh| >= 2
    ensures Keeps(v, v.(sp := PUnlink))
  {
    hide ClientSide, ClientDelivery, ClientCounters, ServerFlow;
    var h := v.sh[..|v.sh| - 1];
    DatasMonotone(h, v.sh);
    assert Datas(v.sh) == Datas(h);
  }

  lemma UnlinkForKeeps(v: View)
    requires LinkInv(v) && v.sp.PUnlink?
    ensures Keeps(v, v.(sreg := false, sp := if v.sreg then PClose else PNone))
  {
    hide ClientSide, ClientDelivery, ClientCounters, ServerFlow;
  }

  lemma CloseForKeeps(v: View)
    requires LinkInv(v) && v.sp.PClose?
    ensures Keeps(v, v.(t := v.t.(link := CloseConnection(v.t.link)), sp := PNone))
  {
    hide ClientSide, ClientDelivery, ClientCounters, ServerFlow;
  }

  // ----- The client's dispatch loop -----

  lemma ClientTakeKeeps(v: View)
    requires LinkInv(v) && v.cp.CNone? && |v.ch| < |v.slog| && v.cup
    ensures Keeps(v, v.(ch := v.ch + [v.slog[|v.ch|]], cp := CHeld(v.slog[|v.ch|])))
  {
    hide ClientCounters, ServerFlow, ServerSide, ServerDelivery, Datas, Answer;
    var m := v.slog[|v.ch|];
    assert (v.ch + [m])[..|v.ch|] == v.ch;
    assert v.ch + [m] == v.slog[..|v.ch| + 1];
  }

  lemma DialKeeps(v: View, conn: nat)
    requires LinkInv(v) && v.cp.CHeld? && |v.ch| == 1
    ensures v.c.None?
    ensures Keeps(v, v.(c := Some(ClientLink(v.t.id, conn, Starting, NEW_LINK, [])), creg := true, cp := CDialed))
    ensures Keeps(v, v.(cp := CRefusal))
  {
    Grammar(v);
    hide ServerFlow, ServerSide, ServerDelivery;
  }

  lemma RefusalKeeps(v: View, ok: bool)
    requires LinkInv(v) && v.cp.CRefusal? && (ok ==> !v.cb)
    ensures Keeps(v, v.(clog := if ok then v.clog + [MOpenFail] else v.clog, cb := !ok, cp := CNone))
  {
    hide ServerFlow, ServerSide, ServerDelivery;
  }

  lemma MarkKeeps(v: View)
    requires LinkInv(v) && v.cp.CDialed?
    ensures Keeps(v, v.(c := Some(v.c.value.(link := SetState(v.c.value.link, Connected))), cp := CMarked))
  {
    Grammar(v);
    hide ServerFlow, ServerSide, ServerDelivery;
    SingleDatas(v.ch[0]);
    assert v.ch == [v.ch[0]];
  }

  lemma OpenedSentKeeps(v: View, ok: bool)
    requires LinkInv(v) && v.cp.CMarked? && (ok ==> !v.cb)
    ensures Keeps(v, v.(c := Some(v.c.value.(stage := Pumping)), clog := if ok then v.clog + [MOpened] else v.clog,
                        cb := !ok, cp := CNone))
  {
    hide ServerFlow, ServerSide, ServerDelivery;
    SingleDatas(MOpened);
    assert v.clog + [MOpened] == [MOpened];
  }

  lemma RemoveKeeps(v: View)
    requires LinkInv(v) && v.cp.CHeld? && v.cp.m.MClose? && |v.ch| > 1
    ensures Keeps(v, v.(creg := false, cp := if v.creg then CShut else CNone))
  {
    hide ServerFlow, ServerSide, ServerDelivery, ClientCounters, Answer;
    DatasMonotone(v.ch[..|v.ch| - 1], v.ch);
  }

  lemma ShutKeeps(v: View)
    requires LinkInv(v) && v.cp.CShut?
    ensures Keeps(v, v.(c := Some(v.c.value.(link := CloseConnection(v.c.value.link))), cp := CNone))
  {
    hide ServerFlow, ServerSide, ServerDelivery;
  }

  lemma ForwardKeeps(v: View, out: WriteOutcome)
    requires LinkInv(v) && v.cp.CHeld? && v.cp.m.MData? && |v.ch| > 1
    ensures v.creg ==> Keeps(v, v.(c := Some(v.c.value.(link := SendPacket(v.c.value.link, v.cp.m.d, out))), cp := CNone))
    ensures !v.creg ==> Keeps(v, v.(cp := CNone))
  {
    hide ServerFlow, ServerSide, ServerDelivery, ClientFlow;
    var h := v.ch[..|v.ch| - 1];
    DatasMonotone(h, v.ch);
    assert Datas(v.ch) == Datas(h) + v.cp.m.d;
    if v.c.Some? {
      SendCountsOut(v.c.value.link, v.cp.m.d, out);
    }
    hide CountsOut;
  }

  /** Losing the connection, or quitting: the link leaves the registry and is closed. */
  lemma DrainKeeps(v: View)
    requires LinkInv(v) && v.c.Some?
    ensures Keeps(v, v.(c := Some(v.c.value.(link := CloseConnection(v.c.value.link))), creg := false))
  {
    hide ServerFlow, ServerSide, ServerDelivery, ClientFlow;
  }

  // ----- The client task -----

  predicate ClientStageAllows(t: ClientLink, e: ClientTaskEvent) {
    match e
    case AppData(data) => t.stage.Pumping? && 0 < |data| <= BUFFER_SIZE
    case AppOver => t.stage.Pumping?
    case Count => t.stage.Counting?
    case AppFail => true
    case _ => false
  }

  lemma ClientTaskFlow(t: ClientLink, e: ClientTaskEvent, log: seq<Msg>, broken: bool)
    requires ClientStageAllows(t, e) && ClientFlow(t.stage, t.read, log, broken) && !t.stage.Starting?
    ensures ClientFlow(TaskDoes(t, e).stage, TaskDoes(t, e).read, log, broken) && !TaskDoes(t, e).stage.Starting?
  {
    hide Datas;
  }

  lemma ClientTaskCounters(t: ClientLink, e: ClientTaskEvent, log: seq<Msg>)
    requires ClientStageAllows(t, e) && ClientCounters(t.link, t.stage, log)
    ensures ClientCounters(TaskDoes(t, e).link, TaskDoes(t, e).stage, log)
  {
    hide Datas;
    if e.Count? {
      ModStep(|Datas(log)| - |t.stage.data|, |t.stage.data|);
    }
  }

  lemma ClientTaskDelivery(t: ClientLink, e: ClientTaskEvent, creg: bool, ch: seq<Msg>, cp: ClientPhase)
    requires ClientStageAllows(t, e)
    ensures ClientDelivery(t.link, creg, ch, cp) ==> ClientDelivery(TaskDoes(t, e).link, creg, ch, cp)
  {
    hide Datas, ClientHandled;
  }

  lemma ClientTaskKeeps(v: View, e: ClientTaskEvent)
    requires LinkInv(v) && v.c.Some? && ClientStageAllows(v.c.value, e)
    ensures Keeps(v, v.(c := Some(TaskDoes(v.c.value, e))))
  {
    var c := v.c.value;
    hide ServerFlow, ServerSide, ServerDelivery, ClientFlow, ClientCounters, ClientDelivery, Datas;
    ClientTaskCounters(c, e, v.clog);
    assert ClientDelivery(c.link, v.creg, v.ch, v.cp) ==> ClientDelivery(TaskDoes(c, e).link, v.creg, v.ch, v.cp) by {
      ClientTaskDelivery(c, e, v.creg, v.ch, v.cp);
    }
    if !c.stage.Starting? {
      ClientSideFlow(c, v.ch, v.clog, v.cb, v.cp);
      ClientTaskFlow(c, e, v.clog, v.cb);
      ClientSideTask(c, TaskDoes(c, e), v.ch, v.clog, v.clog, v.cb, v.cb, v.cp);
      hide ClientSide;
    }
  }

  function ClientTaskMsg(stage: ClientStage): Msg {
    if stage.Writing? then MData(stage.data) else MClose
  }

  lemma PutFlow(t: ClientLink, log: seq<Msg>, broken: bool, ok: bool)
    requires ClientFlow(t.stage, t.read, log, broken) && (t.stage.Writing? || t.stage.Ending?) && (ok ==> !broken)
    requires ClientCounters(t.link, t.stage, log)
    ensures var t' := TaskDoes(t, Put(ok)); var log' := if ok then log + [ClientTaskMsg(t.stage)] else log;
      ClientFlow(t'.stage, t'.read, log', !ok) && ClientCounters(t'.link, t'.stage, log')
  {
    hide Flow, Ended, Datas, CountsOut;
    match t.stage
    case Writing(d) => FlowSend(MOpened, log, t.read, d, broken, ok);
    case Ending => FlowClose(MOpened, log, t.read, broken, ok);
  }

  lemma ClientSideFlow(c: ClientLink, ch: seq<Msg>, clog: seq<Msg>, cb: bool, cp: ClientPhase)
    requires ClientSide(Some(c), ch, clog, cb, cp) && !c.stage.Starting?
    ensures ClientFlow(c.stage, c.read, clog, cb)
  {
    hide ClientFlow;
  }

  lemma ClientSideTask(c: ClientLink, c': ClientLink, ch: seq<Msg>, clog: seq<Msg>, clog': seq<Msg>, cb: bool, cb': bool,
                       cp: ClientPhase)
    requires ClientSide(Some(c), ch, clog, cb, cp) && !c.stage.Starting?
    requires ClientFlow(c'.stage, c'.read, clog', cb') && !c'.stage.Starting?
    ensures ClientSide(Some(c'), ch, clog', cb', cp)
  {
    hide ClientFlow;
  }

  lemma PutKeeps(v: View, ok: bool)
    requires LinkInv(v) && v.c.Some? && (v.c.value.stage.Writing? || v.c.value.stage.Ending?) && (ok ==> !v.cb)
    ensures Keeps(v, v.(c := Some(TaskDoes(v.c.value, Put(ok))),
                        clog := if ok then v.clog + [ClientTaskMsg(v.c.value.stage)] else v.clog, cb := !ok))
  {
    var c := v.c.value;
    hide ServerFlow, ServerSide, ServerDelivery, ClientDelivery, ClientCounters, ClientFlow, ClientSide;
    ClientSideFlow(c, v.ch, v.clog, v.cb, v.cp);
    PutFlow(c, v.clog, v.cb, ok);
    ClientSideTask(c, TaskDoes(c, Put(ok)), v.ch, v.clog, if ok then v.clog + [ClientTaskMsg(c.stage)] else v.clog,
                   v.cb, !ok, v.cp);
    hide ClientTaskMsg;
  }

  lemma ForgetKeeps(v: View)
    requires LinkInv(v) && v.c.Some? && v.c.value.stage.EndSent?
    ensures Keeps(v, v.(c := Some(v.c.value.(stage := ClientStage.Ended)), creg := false))
  {
    hide ServerFlow, ServerSide, ServerDelivery;
  }
}
