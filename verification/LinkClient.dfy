/** The gateway client as a step system: the connect/authenticate/exchange/disconnect cycle, the dispatch
    loop, and one `app_exchange` task per link.  What the server sends is arbitrary. */
module LinkClient {
  import opened Bytes
  import opened Packets
  import opened Framing
  import opened Links
  import opened LinkServer
  import Handshake

  /** Where the `app_exchange` task of a link has got to. */
  datatype ClientStage =
    | Starting                  // link registered, task not spawned yet
    | Pumping                   // at the top of the forwarding loop
    | Writing(data: bytes)      // read from the application, not written yet
    | Counting(data: bytes)     // written, not counted yet
    | Ending                    // left the loop
    | EndSent                   // `Close` written (or its write failed)
    | Ended

  datatype ClientLink = ClientLink(id: u16, conn: nat, stage: ClientStage, link: LinkVal, read: bytes)

  /** Where `run`, `on_connection`, `gateway_exchange` and `on_disconnection` have got to. */
  datatype ClientLoop =
    | Offline                                        // about to connect
    | Handshaking                                    // connected, not authenticated
    | Ready                                          // at the top of the exchange loop
    | Taken(packet: Packet, data: Option<bytes>)     // dispatching a packet
    | ReplyDue                                       // `Pong` to be written
    | Dialed(link: nat)                              // application reached, link registered
    | Marked(link: nat)                              // link marked connected, `Opened` not written yet
    | RefusalDue(id: u16)                            // `OpenFail` not written yet
    | ShutLink(link: nat)
    | Lost                                           // connection over, links not closed yet
    | Drained                                        // links closed, state not reset yet

  /** `conn` names the current connection; link objects are named by whoever creates them. */
  datatype Client = Client(
    reg: map<u16, nat>, objs: map<nat, ClientLink>, loop: ClientLoop, gw: GatewayState, conn: nat)

  datatype ClientTaskEvent = AppData(data: bytes) | AppOver | Put(ok: bool) | Count | Forget | AppFail

  datatype ClientLoopEvent =
    | Connect(c: nat) | AuthFailed | AuthOk(reply: bytes)
    | Take(packet: Packet, data: Option<bytes>) | Replied
    | DialOk(o: nat) | DialFailed | Mark | OpenedSent | RefusalSent
    | Remove | Shut | Forward(out: WriteOutcome) | Lose | Drain | Reset

  datatype ClientEvent =
    | ByTask(o: nat, te: ClientTaskEvent)
    | ByLoop(le: ClientLoopEvent)
    | Quit

  predicate Exchanging(l: ClientLoop) {
    !l.Offline? && !l.Handshaking? && !l.Lost? && !l.Drained?
  }

  // ----- Tasks -----

  function ClientOutgoing(t: ClientLink, pid: u64): Message {
    match t.stage
    case Writing(data) => Message(NewPacket(Regular, pid, t.id, |data| % U16_SIZE), Some(data))
    case _ => Message(NewPacket(PacketType.Close, pid, t.id, 0), None)
  }

  predicate TaskMay(s: Client, o: nat, e: ClientTaskEvent) {
    o in s.objs &&
    var st := s.objs[o].stage;
    match e
    case AppData(data) => st.Pumping? && 0 < |data| <= BUFFER_SIZE
    case AppOver => st.Pumping?
    case Put(_) => st.Writing? || st.Ending?
    case Count => st.Counting?
    case Forget => st.EndSent?
    case AppFail => true
  }

  function TaskDoes(t: ClientLink, e: ClientTaskEvent): ClientLink {
    match e
    case AppData(data) => t.(stage := Writing(data), read := t.read + data)
    case AppOver => t.(stage := Ending)
    case Put(ok) =>
      if t.stage.Writing? then t.(stage := if ok then Counting(t.stage.data) else Ending)
      else t.(stage := EndSent)
    case Count =>
      if t.stage.Counting? then t.(stage := Pumping, link := AddIncoming(t.link, |t.stage.data|)) else t
    case Forget => t.(stage := Ended)
    case AppFail => t.(link := t.link.(open := false))
  }

  function TaskMoves(s: Client, o: nat, e: ClientTaskEvent): Client
    requires TaskMay(s, o, e)
  {
    var s1 := s.(objs := s.objs[o := TaskDoes(s.objs[o], e)]);
    if e.Forget? then s1.(reg := s.reg - {s.objs[o].id}) else s1
  }

  // ----- The main loop -----

  /** `gw_authenticate` returns true on what the server sent after the response. */
  predicate Accepts(reply: bytes) {
    Handshake.Conclude(reply).ok
  }

  predicate LoopMay(s: Client, e: ClientLoopEvent) {
    var l := s.loop;
    match e
    case Connect(c) => l.Offline? && c != s.conn
    case AuthFailed => l.Handshaking?
    case AuthOk(reply) => l.Handshaking? && Accepts(reply)
    case Take(_, _) => l.Ready?
    case Replied => l.ReplyDue?
    case DialOk(o) => l.Taken? && l.packet.ptype.Open? && o !in s.objs
    case DialFailed => l.Taken? && l.packet.ptype.Open?
    case Mark => l.Dialed?
    case OpenedSent => l.Marked?
    case RefusalSent => l.RefusalDue?
    case Remove => l.Taken? && l.packet.ptype.Close?
    case Shut => l.ShutLink?
    case Forward(_) => l.Taken? && l.packet.ptype.Regular?
    case Lose => l.Ready?
    case Drain => l.Lost?
    case Reset => l.Drained?
  }

  function TakeNext(p: Packet, d: Option<bytes>): ClientLoop {
    match p.ptype
    case Ping => ReplyDue
    case Open => Taken(p, d)
    case Close => Taken(p, d)
    case Regular => if d.Some? then Taken(p, d) else Ready
    case GwDeny => Lost
    case _ => Ready
  }

  function LoopNext(s: Client, e: ClientLoopEvent): ClientLoop
    requires LoopMay(s, e)
  {
    var l := s.loop;
    match e
    case Connect(_) => Handshaking
    case AuthFailed => Lost
    case AuthOk(_) => Ready
    case Take(p, d) => TakeNext(p, d)
    case Replied => Ready
    case DialOk(o) => Dialed(o)
    case DialFailed => RefusalDue(l.packet.linkId)
    case Mark => Marked(l.link)
    case OpenedSent => Ready
    case RefusalSent => Ready
    case Remove => if l.packet.linkId in s.reg then ShutLink(s.reg[l.packet.linkId]) else Ready
    case Shut => Ready
    case Forward(_) => Ready
    case Lose => Lost
    case Drain => Drained
    case Reset => Offline
  }

  function WithObj(objs: map<nat, ClientLink>, o: nat, l: LinkVal): (r: map<nat, ClientLink>)
    ensures r.Keys == objs.Keys
  {
    if o in objs then objs[o := objs[o].(link := l)] else objs
  }

  function ObjLink(objs: map<nat, ClientLink>, o: nat): LinkVal {
    if o in objs then objs[o].link else NEW_LINK
  }

  /** `close_all_links` on the client's registry. */
  function ShutAll(objs: map<nat, ClientLink>, reg: map<u16, nat>): map<nat, ClientLink> {
    map o | o in objs ::
      if o in reg.Values then objs[o].(link := CloseConnection(objs[o].link)) else objs[o]
  }

  function LoopMoves(s: Client, e: ClientLoopEvent): Client
    requires LoopMay(s, e)
  {
    var l := s.loop;
    var s1 := s.(loop := LoopNext(s, e));
    match e
    case Connect(c) => s1.(conn := c, gw := GwProcessing)
    case AuthOk(_) => s1.(gw := GatewayState.GwConnected)
    case DialOk(o) =>
      s1.(objs := s.objs[o := ClientLink(l.packet.linkId, s.conn, Starting, NEW_LINK, [])],
          reg := s.reg[l.packet.linkId := o])
    case Mark => s1.(objs := WithObj(s.objs, l.link, SetState(ObjLink(s.objs, l.link), Connected)))
    case OpenedSent =>
      if l.link in s.objs then s1.(objs := s.objs[l.link := s.objs[l.link].(stage := Pumping)]) else s1
    case Remove => s1.(reg := s.reg - {l.packet.linkId})
    case Shut => s1.(objs := WithObj(s.objs, l.link, CloseConnection(ObjLink(s.objs, l.link))))
    case Forward(out) =>
      if l.packet.linkId in s.reg then
        var o := s.reg[l.packet.linkId];
        s1.(objs := WithObj(s.objs, o, SendPacket(ObjLink(s.objs, o), Payload(l.data), out)))
      else s1
    case Drain => s1.(objs := ShutAll(s.objs, s.reg), reg := map[])
    case Reset => s1.(gw := GwWaiting)
    case _ => s1
  }

  // ----- The whole client -----

  predicate May(s: Client, e: ClientEvent) {
    match e
    case ByTask(o, te) => TaskMay(s, o, te)
    case ByLoop(le) => LoopMay(s, le)
    case Quit => true
  }

  /** `Quit` is the shutdown path: it empties the registry whatever the loop is doing. */
  function Move(s: Client, e: ClientEvent): Client
    requires May(s, e)
  {
    match e
    case ByTask(o, te) => TaskMoves(s, o, te)
    case ByLoop(le) => LoopMoves(s, le)
    case Quit => s.(objs := ShutAll(s.objs, s.reg), reg := map[])
  }

  ghost predicate IsStart(s: Client) {
    s.reg == map[] && s.objs == map[] && s.loop.Offline? && s.gw.GwWaiting?
  }

  // ----- Lifecycle -----

  /** A registered link exists, carries its own id, belongs to the current connection, and the
      client is then in state Connected and has not gone past the loss of that connection. */
  ghost predicate Lifecycle(s: Client) {
    && (forall id :: id in s.reg ==>
          s.reg[id] in s.objs && s.objs[s.reg[id]].id == id && s.objs[s.reg[id]].conn == s.conn)
    && (s.reg != map[] ==> s.gw.GwConnected? && (Exchanging(s.loop) || s.loop.Lost?))
    && (Exchanging(s.loop) ==> s.gw.GwConnected?)
  }

  lemma MoveKeepsLifecycle(s: Client, e: ClientEvent)
    requires Lifecycle(s) && May(s, e)
    ensures Lifecycle(Move(s, e))
  {
    var s' := Move(s, e);
    forall id | id in s'.reg
      ensures s'.reg[id] in s'.objs && s'.objs[s'.reg[id]].id == id && s'.objs[s'.reg[id]].conn == s'.conn
    {
      if id in s.reg {
        assert s.reg != map[];
      }
    }
    if s'.reg != map[] {
      var id :| id in s'.reg;
      assert s'.gw.GwConnected? && (Exchanging(s'.loop) || s'.loop.Lost?) by {
        assert id in s.reg || s.loop.Taken?;
        if id in s.reg {
          assert s.reg != map[];
        }
      }
    }
  }

  ghost predicate IsClientRun(run: seq<Client>, events: seq<ClientEvent>) {
    && |run| == |events| + 1 && IsStart(run[0])
    && forall i :: 0 <= i < |events| ==> May(run[i], events[i]) && run[i + 1] == Move(run[i], events[i])
  }

  /** Over every cycle of connecting and disconnecting, against any server: links are registered only while
      connected, they were all opened on the current connection, and a new handshake starts with none. */
  lemma {:induction false} ClientLifecycle(run: seq<Client>, events: seq<ClientEvent>)
    requires IsClientRun(run, events)
    ensures forall i :: 0 <= i < |run| ==> Lifecycle(run[i])
    ensures forall i :: 0 <= i < |run| && run[i].loop.Handshaking? ==> run[i].reg == map[]
  {
    if |events| > 0 {
      var n := |events|;
      var before, sooner := run[..n], events[..n - 1];
      ClientLifecycle(before, sooner);
      assert before[n - 1] == run[n - 1];
      MoveKeepsLifecycle(run[n - 1], events[n - 1]);
      assert forall i :: 0 <= i < n ==> before[i] == run[i];
    }
  }

  // ----- Nothing is opened before the verdict -----

  /** Before point `i`, on the connection current there, the server's verdict was read, it was `GwConnected`,
      and the client has not reconnected since. */
  ghost predicate Admitted(run: seq<Client>, events: seq<ClientEvent>, i: nat)
    requires i < |run| == |events| + 1
  {
    exists j :: 0 <= j < i && AdmittedAt(events[j]) && forall k :: j <= k <= i ==> run[k].conn == run[i].conn
  }

  /** The event reads an accepting verdict, whose header says `GwConnected`. */
  predicate AdmittedAt(e: ClientEvent) {
    e.ByLoop? && e.le.AuthOk? && Accepts(e.le.reply)
    && ParseHeader(e.le.reply).Some? && ParseHeader(e.le.reply).value.ptype.GwConnected?
  }

  lemma AcceptsMeansConnected(reply: bytes)
    requires Accepts(reply)
    ensures ParseHeader(reply).Some? && ParseHeader(reply).value.ptype.GwConnected?
  {
    var h := reply[..PACKET_HEADER_SIZE];
    assert h[1..9] == reply[1..9] && h[9..11] == reply[9..11] && h[11..13] == reply[11..13];
    assert ParseHeader(h) == ParseHeader(reply);
  }

  lemma MoveAdmits(run: seq<Client>, events: seq<ClientEvent>, i: nat)
    requires IsClientRun(run, events) && i < |events|
    requires Exchanging(run[i].loop) ==> Admitted(run, events, i)
    ensures Exchanging(run[i + 1].loop) ==> Admitted(run, events, i + 1)
  {
    hide Accepts;
    var s, s', e := run[i], run[i + 1], events[i];
    assert May(s, e) && s' == Move(s, e);
    if Exchanging(s'.loop) {
      assert s'.conn == s.conn;
      if Exchanging(s.loop) {
        var j :| 0 <= j < i && AdmittedAt(events[j]) && forall k :: j <= k <= i ==> run[k].conn == s.conn;
        assert forall k :: j <= k <= i + 1 ==> run[k].conn == s'.conn;
      } else {
        AcceptsMeansConnected(e.le.reply);
        assert AdmittedAt(events[i]);
      }
    }
  }

  /** Against any server: whenever the client registers a link, or takes a packet, it has read `GwConnected` on
      the current connection. */
  lemma {:induction false} OpensOnlyWhenAdmitted(run: seq<Client>, events: seq<ClientEvent>, i: nat)
    requires IsClientRun(run, events) && i < |run|
    ensures Exchanging(run[i].loop) ==> Admitted(run, events, i)
    ensures i < |events| && events[i].ByLoop? && (events[i].le.Take? || events[i].le.DialOk?) ==>
              Admitted(run, events, i)
  {
    if i > 0 {
      OpensOnlyWhenAdmitted(run, events, i - 1);
      MoveAdmits(run, events, i - 1);
    }
    assert i < |events| ==> May(run[i], events[i]);
    hide Admitted, IsClientRun;
  }
}
