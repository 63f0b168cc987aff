/** The server's link traffic as a step system: application handlers and forwarding loops, one dispatch
    loop per gateway connection, and the shared maps `links` and `link_clients`.  A critical section
    under one lock is one step.  What the peers send is arbitrary.

    A link object and the task that owns it are named by the ordinal of their `next_link_id` call; the
    registry maps the 16-bit id to that object, so two tasks with one id are told apart. */
module LinkServer {
  import opened Bytes
  import opened Packets
  import opened Framing
  import opened Links

  const BUFFER_SIZE := 16384

  type Addr = nat

  /** Where `handle_app_connection`, and then the `app_exchange` it spawns, has got to. */
  datatype Stage =
    | Picking                          // id taken, no client chosen yet
    | Picked                           // client chosen
    | Added                            // in `links`
    | Routed                           // in `link_clients`
    | OpenSent                         // `Open` written (or its write failed)
    | Running                          // at the top of the forwarding loop
    | Sending(data: bytes)             // read from the application, not written yet
    | Closing                          // left the loop
    | CloseSent                        // `Close` written (or its write failed)
    | Unrouted                         // route removed
    | Unlinked(removed: Option<nat>)   // link removed, not closed yet
    | Done

  /** `read` is what was read from the application; `lost`, if set, is what had been delivered to it
      when `Waiting` overwrote `Connected`. */
  datatype Task = Task(
    id: u16, conn: Option<nat>, stage: Stage, link: LinkVal, read: bytes, lost: Option<bytes>)

  /** Where `client_exchange`, and then `cleanup_client`, has got to for one connection. */
  datatype Loop =
    | Fresh                                          // session registered, loop not spawned yet
    | Idle                                           // reading the next packet
    | Held(packet: Packet, data: Option<bytes>)      // dispatching a packet
    | PongDue
    | Deliver(link: nat, payload: bytes)             // link found, data not written yet
    | Confirm(link: nat)                             // link found, not marked connected yet
    | Unlink(id: u16)                                // route removed, link not removed yet
    | CloseLink(link: nat)
    | Leaving                                        // loop left, cleanup not started
    | Cleaning(ids: set<u16>)                        // routes removed, links still to be removed
    | CleanClose(link: nat, ids: set<u16>)
    | Gone

  datatype Conn = Conn(addr: Addr, loop: Loop)

  /** A route: the client address, and (for the proofs only) the task that inserted it. */
  datatype Route = Route(addr: Addr, owner: nat)

  datatype Server = Server(
    counter: u16, tasks: seq<Task>, links: map<u16, nat>, routes: map<u16, Route>,
    conns: map<nat, Conn>, shut: bool)

  const INIT := Server(1, [], map[], map[], map[], false)

  datatype TaskEvent =
    | Reject | Pick(c: nat) | AddLink | AddRoute | Emit(ok: bool) | SetWaiting
    | AppRead(data: bytes) | AppEnd | Unroute | RemoveLink | Finish | AppBreak

  datatype LoopEvent =
    | Spawn | Recv(packet: Packet, data: Option<bytes>) | PongSent | Lookup | DeliverTo(out: WriteOutcome)
    | ConfirmLink | UnrouteFor | UnlinkFor | CloseFor | Eof | Collect | CleanNext(id: u16) | CleanShut | CleanDone

  datatype Event =
    | Register(c: nat, addr: Addr)
    | Alloc
    | OfTask(k: nat, te: TaskEvent)
    | OfLoop(c: nat, le: LoopEvent)
    | Shutdown

  // ----- Tasks -----

  /** The packet a task writes next. */
  function Outgoing(t: Task, pid: u64): Message {
    match t.stage
    case Sending(data) => Message(NewPacket(Regular, pid, t.id, |data| % U16_SIZE), Some(data))
    case Closing => Message(NewPacket(PacketType.Close, pid, t.id, 0), None)
    case _ => Message(NewPacket(PacketType.Open, pid, t.id, 0), None)
  }

  predicate TaskEnabled(s: Server, k: nat, e: TaskEvent) {
    k < |s.tasks| &&
    var st := s.tasks[k].stage;
    match e
    case Reject => st.Picking?
    case Pick(c) => st.Picking? && c in s.conns
    case AddLink => st.Picked?
    case AddRoute => st.Added? && s.tasks[k].conn.Some? && s.tasks[k].conn.value in s.conns
    case Emit(_) => st.Routed? || st.Sending? || st.Closing?
    case SetWaiting => st.OpenSent?
    case AppRead(data) => st.Running? && 0 < |data| <= BUFFER_SIZE
    case AppEnd => st.Running?
    case Unroute => st.CloseSent?
    case RemoveLink => st.Unrouted?
    case Finish => st.Unlinked?
    case AppBreak => true
  }

  function AfterEmit(st: Stage, ok: bool): Stage {
    match st
    case Sending(_) => if ok then Running else Closing
    case Closing => CloseSent
    case _ => OpenSent
  }

  /** The task's own record after a step of its own. */
  function TaskStep(t: Task, e: TaskEvent, removed: Option<nat>): Task {
    match e
    case Reject => t.(stage := Done)
    case Pick(c) => t.(stage := Picked, conn := Some(c))
    case AddLink => t.(stage := Added)
    case AddRoute => t.(stage := Routed)
    case Emit(ok) => t.(stage := AfterEmit(t.stage, ok))
    case SetWaiting =>
      t.(stage := Running, link := SetState(t.link, Waiting),
         lost := if t.link.state.Connected? then Some(t.link.written) else t.lost)
    case AppRead(data) => t.(stage := Sending(data), read := t.read + data, link := AddIncoming(t.link, |data|))
    case AppEnd => t.(stage := Closing)
    case Unroute => t.(stage := Unrouted)
    case RemoveLink => t.(stage := Unlinked(removed))
    case Finish => t.(stage := Done)
    case AppBreak => t.(link := t.link.(open := false))
  }

  function Registered(s: Server, id: u16): Option<nat> {
    if id in s.links then Some(s.links[id]) else None
  }

  /** Closing a link object that was taken out of the registry. */
  function CloseTask(tasks: seq<Task>, o: nat): (r: seq<Task>)
    ensures |r| == |tasks|
  {
    if o < |tasks| then tasks[o := tasks[o].(link := CloseConnection(tasks[o].link))] else tasks
  }

  function StepTask(s: Server, k: nat, e: TaskEvent): (r: Server)
    requires TaskEnabled(s, k, e)
    ensures |r.tasks| == |s.tasks|
  {
    var t := s.tasks[k];
    var s1 := s.(tasks := s.tasks[k := TaskStep(t, e, Registered(s, t.id))]);
    match e
    case AddLink => s1.(links := s.links[t.id := k])
    case AddRoute => s1.(routes := s.routes[t.id := Route(s.conns[t.conn.value].addr, k)])
    case Unroute => s1.(routes := s.routes - {t.id})
    case RemoveLink => s1.(links := s.links - {t.id})
    case Finish => if t.stage.removed.Some? then s1.(tasks := CloseTask(s1.tasks, t.stage.removed.value)) else s1
    case _ => s1
  }

  // ----- Dispatch loops -----

  predicate LoopEnabled(s: Server, c: nat, e: LoopEvent) {
    c in s.conns &&
    var l := s.conns[c].loop;
    match e
    case Spawn => l.Fresh?
    case Recv(_, _) => l.Idle?
    case PongSent => l.PongDue?
    case Lookup => l.Held? && (l.packet.ptype.Regular? || l.packet.ptype.Opened?)
    case DeliverTo(_) => l.Deliver?
    case ConfirmLink => l.Confirm?
    case UnrouteFor => l.Held? && (l.packet.ptype.OpenFail? || l.packet.ptype.Close?)
    case UnlinkFor => l.Unlink?
    case CloseFor => l.CloseLink?
    case Eof => l.Idle?
    case Collect => l.Leaving?
    case CleanNext(id) => l.Cleaning? && id in l.ids
    case CleanShut => l.CleanClose?
    case CleanDone => l.Cleaning? && l.ids == {}
  }

  /** What a received packet makes the loop do next. */
  function Dispatch(p: Packet, d: Option<bytes>): Loop {
    match p.ptype
    case Ping => PongDue
    case Regular => if d.Some? then Held(p, d) else Idle
    case Opened => Held(p, d)
    case OpenFail => Held(p, d)
    case Close => Held(p, d)
    case GwDeny => Leaving
    case _ => Idle
  }

  function AfterLookup(s: Server, p: Packet, d: Option<bytes>): Loop {
    if p.linkId !in s.links then Idle
    else if p.ptype.Opened? then Confirm(s.links[p.linkId])
    else Deliver(s.links[p.linkId], Payload(d))
  }

  function OwnedIds(s: Server, addr: Addr): set<u16> {
    set id | id in s.routes && s.routes[id].addr == addr
  }

  function NextLoop(s: Server, c: nat, e: LoopEvent): Loop
    requires LoopEnabled(s, c, e)
  {
    var l := s.conns[c].loop;
    match e
    case Spawn => Idle
    case Recv(p, d) => Dispatch(p, d)
    case PongSent => Idle
    case Lookup => AfterLookup(s, l.packet, l.data)
    case DeliverTo(_) => Idle
    case ConfirmLink => Idle
    case UnrouteFor => Unlink(l.packet.linkId)
    case UnlinkFor => if l.id in s.links then CloseLink(s.links[l.id]) else Idle
    case CloseFor => Idle
    case Eof => Leaving
    case Collect => Cleaning(OwnedIds(s, s.conns[c].addr))
    case CleanNext(id) => if id in s.links then CleanClose(s.links[id], l.ids - {id}) else Cleaning(l.ids - {id})
    case CleanShut => Cleaning(l.ids)
    case CleanDone => Gone
  }

  /** A link object seen by a dispatch loop after its step. */
  function WithLink(tasks: seq<Task>, o: nat, l: LinkVal): (r: seq<Task>)
    ensures |r| == |tasks|
  {
    if o < |tasks| then tasks[o := tasks[o].(link := l)] else tasks
  }

  function LinkOf(tasks: seq<Task>, o: nat): LinkVal {
    if o < |tasks| then tasks[o].link else NEW_LINK
  }

  function StepLoop(s: Server, c: nat, e: LoopEvent): (r: Server)
    requires LoopEnabled(s, c, e)
    ensures |r.tasks| == |s.tasks|
  {
    var l := s.conns[c].loop;
    var s1 := s.(conns := s.conns[c := s.conns[c].(loop := NextLoop(s, c, e))]);
    match e
    case DeliverTo(out) => s1.(tasks := WithLink(s.tasks, l.link, SendPacket(LinkOf(s.tasks, l.link), l.payload, out)))
    case ConfirmLink => s1.(tasks := WithLink(s.tasks, l.link, SetState(LinkOf(s.tasks, l.link), Connected)))
    case UnrouteFor => s1.(routes := s.routes - {l.packet.linkId})
    case UnlinkFor => s1.(links := s.links - {l.id})
    case CloseFor => s1.(tasks := CloseTask(s.tasks, l.link))
    case Collect => s1.(routes := s.routes - OwnedIds(s, s.conns[c].addr))
    case CleanNext(id) => s1.(links := s.links - {id})
    case CleanShut => s1.(tasks := CloseTask(s.tasks, l.link))
    case _ => s1
  }

  // ----- The whole server -----

  predicate Enabled(s: Server, e: Event) {
    match e
    case Register(c, _) => c !in s.conns
    case Alloc => true
    case OfTask(k, te) => TaskEnabled(s, k, te)
    case OfLoop(c, le) => LoopEnabled(s, c, le)
    case Shutdown => true
  }

  /** `close_all_links`: every registered link is closed and the registry emptied. */
  function CloseRegistered(tasks: seq<Task>, links: map<u16, nat>): (r: seq<Task>)
    ensures |r| == |tasks|
    ensures forall k :: 0 <= k < |tasks| ==>
              r[k] == if k in links.Values then tasks[k].(link := CloseConnection(tasks[k].link)) else tasks[k]
  {
    seq(|tasks|, k requires 0 <= k < |tasks| =>
      if k in links.Values then tasks[k].(link := CloseConnection(tasks[k].link)) else tasks[k])
  }

  function Step(s: Server, e: Event): Server
    requires Enabled(s, e)
  {
    match e
    case Register(c, addr) => s.(conns := s.conns[c := Conn(addr, Fresh)])
    case Alloc =>
      s.(counter := (s.counter + 1) % U16_SIZE,
         tasks := s.tasks + [Task(s.counter, None, Picking, NEW_LINK, [], None)])
    case OfTask(k, te) => StepTask(s, k, te)
    case OfLoop(c, le) => StepLoop(s, c, le)
    case Shutdown => s.(tasks := CloseRegistered(s.tasks, s.links), links := map[], shut := true)
  }

  // ----- No leaked links, whatever the peers send -----

  /** The task has not yet executed its final `remove_link` from the registry. */
  predicate Unfinished(t: Task) {
    !t.stage.Unlinked? && !t.stage.Done?
  }

  predicate MayBeLinked(st: Stage) {
    st.Added? || st.Routed? || st.OpenSent? || st.Running? || st.Sending? || st.Closing? || st.CloseSent? || st.Unrouted?
  }

  predicate MayBeRouted(st: Stage) {
    MayBeLinked(st) && !st.Added? && !st.Unrouted?
  }

  /** Live ids are distinct: no two unfinished tasks share an id. */
  ghost predicate IdsDistinct(s: Server) {
    forall j, k :: 0 <= j < k < |s.tasks| && Unfinished(s.tasks[j]) && Unfinished(s.tasks[k]) ==>
      s.tasks[j].id != s.tasks[k].id
  }

  ghost predicate LinksOwned(s: Server) {
    forall id :: id in s.links ==>
      var k := s.links[id];
      k < |s.tasks| && s.tasks[k].id == id && MayBeLinked(s.tasks[k].stage)
  }

  ghost predicate RoutesOwned(s: Server) {
    forall id :: id in s.routes ==>
      var k := s.routes[id].owner;
      k < |s.tasks| && s.tasks[k].id == id && MayBeRouted(s.tasks[k].stage)
  }

  /** The registry names this task's link. */
  predicate InRegistry(s: Server, k: nat)
    requires k < |s.tasks|
  {
    s.tasks[k].id in s.links && s.links[s.tasks[k].id] == k
  }

  /** The id about to be issued belongs to no unfinished task. */
  ghost predicate NextIdFree(s: Server) {
    forall k :: 0 <= k < |s.tasks| && Unfinished(s.tasks[k]) ==> s.tasks[k].id != s.counter
  }

  /** The ids whose links a cleanup has still to remove. */
  function PendingIds(l: Loop): set<u16> {
    if l.Cleaning? || l.CleanClose? then l.ids else {}
  }

  /** The id about to be issued is not one that a cleanup has still to remove. */
  ghost predicate NotPending(s: Server) {
    forall c :: c in s.conns ==> s.counter !in PendingIds(s.conns[c].loop)
  }

  ghost predicate NoLeaks(s: Server) {
    IdsDistinct(s) && LinksOwned(s) && RoutesOwned(s)
  }

  /** What a task's step does to stages and to the two maps. */
  lemma TaskEffect(s: Server, k: nat, e: TaskEvent)
    requires TaskEnabled(s, k, e)
    ensures var s' := StepTask(s, k, e);
      && |s'.tasks| == |s.tasks|
      && (forall j :: 0 <= j < |s.tasks| ==> s'.tasks[j].id == s.tasks[j].id)
      && (forall j :: 0 <= j < |s.tasks| && j != k ==> s'.tasks[j].stage == s.tasks[j].stage)
      && (Unfinished(s'.tasks[k]) ==> Unfinished(s.tasks[k]))
      && (MayBeLinked(s.tasks[k].stage) ==> MayBeLinked(s'.tasks[k].stage) || e.RemoveLink?)
      && (MayBeRouted(s.tasks[k].stage) ==> MayBeRouted(s'.tasks[k].stage) || e.Unroute?)
      && (e.AddLink? ==> MayBeLinked(s'.tasks[k].stage)) && (e.AddRoute? ==> MayBeRouted(s'.tasks[k].stage))
      && s'.links == (if e.AddLink? then s.links[s.tasks[k].id := k]
                      else if e.RemoveLink? then s.links - {s.tasks[k].id} else s.links)
      && s'.routes.Keys == (if e.AddRoute? then s.routes.Keys + {s.tasks[k].id}
                            else if e.Unroute? then s.routes.Keys - {s.tasks[k].id} else s.routes.Keys)
      && (forall id :: id in s'.routes ==>
            s'.routes[id].owner == if e.AddRoute? && id == s.tasks[k].id then k else s.routes[id].owner)
  {
  }

  lemma TaskKeepsNoLeaks(s: Server, k: nat, e: TaskEvent)
    requires NoLeaks(s) && TaskEnabled(s, k, e)
    ensures NoLeaks(StepTask(s, k, e))
  {
    TaskEffect(s, k, e);
    hide StepTask, TaskEnabled;
    var s' := StepTask(s, k, e);
    assert LinksOwned(s') by {
      forall id | id in s'.links
        ensures var o := s'.links[id]; o < |s'.tasks| && s'.tasks[o].id == id && MayBeLinked(s'.tasks[o].stage)
      {
        var o := s'.links[id];
      }
    }
    assert RoutesOwned(s') by {
      forall id | id in s'.routes
        ensures var o := s'.routes[id].owner; o < |s'.tasks| && s'.tasks[o].id == id && MayBeRouted(s'.tasks[o].stage)
      {
        var o := s'.routes[id].owner;
      }
    }
  }

  /** What a loop's step changes: links and its own place, and the maps only by removal. */
  lemma LoopEffect(sv: Server, c: nat, le: LoopEvent)
    requires LoopEnabled(sv, c, le)
    ensures var sv' := StepLoop(sv, c, le);
      && |sv'.tasks| == |sv.tasks|
      && (forall j :: 0 <= j < |sv.tasks| ==> sv'.tasks[j].(link := sv.tasks[j].link) == sv.tasks[j])
      && sv'.conns == sv.conns[c := sv.conns[c].(loop := NextLoop(sv, c, le))]
      && (forall id :: id in sv'.links ==> id in sv.links && sv'.links[id] == sv.links[id])
      && (forall id :: id in sv'.routes ==> id in sv.routes && sv'.routes[id] == sv.routes[id])
  {
    hide NextLoop;
  }

  lemma LoopKeepsNoLeaks(s: Server, c: nat, e: LoopEvent)
    requires NoLeaks(s) && LoopEnabled(s, c, e)
    ensures NoLeaks(StepLoop(s, c, e))
  {
    LoopEffect(s, c, e);
    hide StepLoop, LoopEnabled, NextLoop;
    SubsetKeepsNoLeaks(s, StepLoop(s, c, e));
  }

  lemma SubsetKeepsNoLeaks(s: Server, s': Server)
    requires NoLeaks(s) && |s'.tasks| == |s.tasks|
    requires forall j :: 0 <= j < |s.tasks| ==> s'.tasks[j].(link := s.tasks[j].link) == s.tasks[j]
    requires forall id :: id in s'.links ==> id in s.links && s'.links[id] == s.links[id]
    requires forall id :: id in s'.routes ==> id in s.routes && s'.routes[id] == s.routes[id]
    ensures NoLeaks(s')
  {
    assert forall j :: 0 <= j < |s.tasks| ==> s'.tasks[j].id == s.tasks[j].id && s'.tasks[j].stage == s.tasks[j].stage;
  }

  lemma StepKeepsNoLeaks(s: Server, e: Event)
    requires NoLeaks(s) && Enabled(s, e) && (e.Alloc? ==> NextIdFree(s))
    ensures NoLeaks(Step(s, e))
  {
    hide StepTask, StepLoop, TaskEnabled, LoopEnabled, NoLeaks, NextIdFree;
    match e
    case OfTask(k, te) => TaskKeepsNoLeaks(s, k, te);
    case OfLoop(c, le) => LoopKeepsNoLeaks(s, c, le);
    case Alloc => AllocKeepsNoLeaks(s);
    case Register(c, addr) => RegisterKeepsNoLeaks(s, c, addr);
    case Shutdown => ShutdownKeepsNoLeaks(s);
  }

  lemma RegisterKeepsNoLeaks(s: Server, c: nat, addr: Addr)
    requires NoLeaks(s) && c !in s.conns
    ensures NoLeaks(Step(s, Register(c, addr)))
  {
  }

  lemma ShutdownKeepsNoLeaks(s: Server)
    requires NoLeaks(s)
    ensures NoLeaks(Step(s, Shutdown))
  {
    var s' := Step(s, Shutdown);
    SubsetKeepsNoLeaks(s, s');
  }

  lemma AllocKeepsNoLeaks(s: Server)
    requires NoLeaks(s) && NextIdFree(s)
    ensures NoLeaks(Step(s, Alloc))
  {
    var s' := Step(s, Alloc);
    assert forall k :: 0 <= k < |s.tasks| ==> s'.tasks[k] == s.tasks[k];
  }

  /** A run: each state follows from the one before by an enabled step. */
  ghost predicate IsServerRun(run: seq<Server>, events: seq<Event>) {
    && |run| == |events| + 1 && run[0] == INIT
    && forall i :: 0 <= i < |events| ==> Enabled(run[i], events[i]) && run[i + 1] == Step(run[i], events[i])
  }

  ghost predicate Leads(s: Server, e: Event, s': Server) {
    Enabled(s, e) && Step(s, e) == s'
  }

  /** No id is issued while an unfinished task has it. */
  ghost predicate IdsFresh(run: seq<Server>, events: seq<Event>) {
    |run| == |events| + 1 && forall i :: 0 <= i < |events| && events[i].Alloc? ==> NextIdFree(run[i])
  }

  /** In every run that never reissues the id of an unfinished task, at every point, every key of `links`
      and `link_clients` belongs to a task that has not finished its final removal. */
  lemma {:induction false} NoLeakedLinks(run: seq<Server>, events: seq<Event>)
    requires IsServerRun(run, events) && IdsFresh(run, events)
    ensures forall i :: 0 <= i < |run| ==> NoLeaks(run[i])
  {
    if |events| > 0 {
      var n := |events|;
      var before, sooner := run[..n], events[..n - 1];
      NoLeakedLinks(before, sooner);
      assert before[n - 1] == run[n - 1];
      StepKeepsNoLeaks(run[n - 1], events[n - 1]);
    }
  }

  /** So once a task is done, its id is in neither map until it is issued again. */
  lemma DoneMeansGone(run: seq<Server>, events: seq<Event>, k: nat)
    requires IsServerRun(run, events) && IdsFresh(run, events)
    requires k < |run[|run| - 1].tasks| && run[|run| - 1].tasks[k].stage.Done?
    ensures var s := run[|run| - 1]; var id := s.tasks[k].id;
      && (id in s.links ==> s.links[id] != k) && (id in s.routes ==> s.routes[id].owner != k)
      && ((forall j :: 0 <= j < |s.tasks| && Unfinished(s.tasks[j]) ==> s.tasks[j].id != id) ==>
            id !in s.links && id !in s.routes)
  {
    NoLeakedLinks(run, events);
    assert NoLeaks(run[|run| - 1]);
    hide IsServerRun;
  }
}
