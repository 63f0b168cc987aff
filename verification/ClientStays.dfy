/** Nothing happens to a client link by itself: how long it stays registered and open, and what state it reports. */
module ClientStays {
  import opened Bytes
  import opened Links
  import opened LinkServer
  import opened LinkClient
  import opened ClientLives

  // ----- Registered -----

  /** What can take the link under an id out of the client's registry: a task with that id that ends, the server's `Close`
      for it, a link opened in its place, or the closing of all links. */
  predicate Unregisters(s: Client, e: ClientEvent, id: u16) {
    match e
    case ByTask(o, Forget) => o in s.objs && s.objs[o].id == id
    case ByTask(_, _) => false
    case Quit => true
    case ByLoop(le) =>
      || le.Drain?
      || ((le.Remove? || le.DialOk?) && s.loop.Taken? && s.loop.packet.linkId == id)
  }

  lemma StaysRegistered(s: Client, e: ClientEvent, id: u16)
    requires May(s, e) && id in s.reg && !Unregisters(s, e, id)
    ensures id in Move(s, e).reg && Move(s, e).reg[id] == s.reg[id]
  {
  }

  lemma DialRegisters(s: Client, o: nat)
    requires May(s, ByLoop(DialOk(o)))
    ensures s.loop.Taken? && var s' := Move(s, ByLoop(DialOk(o))); var id := s.loop.packet.linkId;
      id in s'.reg && s'.reg[id] == o && o in s'.objs && s'.objs[o].id == id
  {
  }

  /** From the step in which the application is reached, the registry has the link under the id it was opened with,
      whatever else happens, until one of the few steps that take it out. */
  lemma {:induction false} RegisteredUntilRemoved(run: seq<Client>, events: seq<ClientEvent>, i: nat, j: nat, o: nat)
    requires IsClientRun(run, events) && |run| == |events| + 1 && i < j < |run|
    requires events[i] == ByLoop(DialOk(o)) && run[i].loop.Taken?
    requires forall n :: i < n < j ==> !Unregisters(run[n], events[n], run[i].loop.packet.linkId)
    ensures var id := run[i].loop.packet.linkId; id in run[j].reg && run[j].reg[id] == o
    decreases j
  {
    hide IsClientRun, May, Move, Unregisters;
    MoveAt(run, events, j - 1);
    if j == i + 1 {
      DialRegisters(run[i], o);
    } else {
      RegisteredUntilRemoved(run, events, i, j - 1, o);
      StaysRegistered(run[j - 1], events[j - 1], run[i].loop.packet.linkId);
    }
  }

  predicate Dials(e: ClientEvent) {
    e.ByLoop? && e.le.DialOk?
  }

  lemma Removes(s: Client, e: ClientEvent, id: u16)
    requires May(s, e) && Unregisters(s, e, id) && !Dials(e)
    ensures id !in Move(s, e).reg
  {
  }

  lemma StaysOut(s: Client, e: ClientEvent, id: u16)
    requires May(s, e) && id !in s.reg && !(Dials(e) && s.loop.Taken? && s.loop.packet.linkId == id)
    ensures id !in Move(s, e).reg
  {
  }

  /** Once taken out by any of them, the id is not registered until the server opens a link under it. */
  lemma {:induction false} RemovedUntilOpened(run: seq<Client>, events: seq<ClientEvent>, i: nat, j: nat, id: u16)
    requires IsClientRun(run, events) && |run| == |events| + 1 && i < j < |run|
    requires Unregisters(run[i], events[i], id) && !Dials(events[i])
    requires forall n :: i < n < j && Dials(events[n]) && run[n].loop.Taken? ==> run[n].loop.packet.linkId != id
    ensures id !in run[j].reg
    decreases j
  {
    hide IsClientRun, May, Move, Unregisters, Dials;
    MoveAt(run, events, j - 1);
    if j == i + 1 {
      Removes(run[i], events[i], id);
    } else {
      RemovedUntilOpened(run, events, i, j - 1, id);
      StaysOut(run[j - 1], events[j - 1], id);
    }
  }

  // ----- The state -----

  /** What a step makes of the state of a link, if it sets it: the loop marks it as connected, and whoever closes it as
      disconnected. */
  function StateMade(s: Client, e: ClientEvent, o: nat): Option<ConnectionState> {
    match e
    case ByLoop(Mark) => if s.loop == Dialed(o) then Some(Connected) else None
    case ByLoop(Shut) => if s.loop == ShutLink(o) then Some(Disconnected) else None
    case ByLoop(Drain) => if o in s.reg.Values then Some(Disconnected) else None
    case Quit => if o in s.reg.Values then Some(Disconnected) else None
    case _ => None
  }

  lemma MoveMakes(s: Client, e: ClientEvent, o: nat)
    requires May(s, e) && o in s.objs
    ensures o in Move(s, e).objs
    ensures Move(s, e).objs[o].link.state ==
      if StateMade(s, e, o).Some? then StateMade(s, e, o).value else s.objs[o].link.state
  {
  }

  /** No step sets the state of the link from point `j` to point `i`. */
  ghost predicate NoneMakes(run: seq<Client>, events: seq<ClientEvent>, j: nat, i: nat, o: nat) {
    j <= i < |run| && |run| == |events| + 1 && forall n :: j <= n < i ==> StateMade(run[n], events[n], o).None?
  }

  /** At every point of every run of the client: the state that a link reports is the one that was last set, and a link
      whose state nobody has set yet is disconnected. */
  lemma {:induction false} ClientStateIsLastSet(run: seq<Client>, events: seq<ClientEvent>, i: nat, o: nat) returns (j: nat)
    requires IsClientRun(run, events) && |run| == |events| + 1 && i < |run| && o in run[i].objs
    ensures 0 < j && NoneMakes(run, events, j, i, o)
    ensures var state := run[i].objs[o].link.state;
      if o in run[j - 1].objs then StateMade(run[j - 1], events[j - 1], o) == Some(state) else state == Disconnected
  {
    hide IsClientRun, May, Move, StateMade;
    StartsBare(run, events);
    assert i > 0;
    MoveAt(run, events, i - 1);
    var s, e := run[i - 1], events[i - 1];
    if o in s.objs {
      var m := ClientStateIsLastSet(run, events, i - 1, o);
      MoveMakes(s, e, o);
      j := if StateMade(s, e, o).Some? then i else m;
    } else {
      BornDisconnected(s, e, o);
      j := i;
    }
  }

  lemma BornDisconnected(s: Client, e: ClientEvent, o: nat)
    requires May(s, e) && o !in s.objs && o in Move(s, e).objs
    ensures Move(s, e).objs[o].link == NEW_LINK && NEW_LINK.state == Disconnected && NEW_LINK.open
  {
  }

  // ----- Open -----

  /** What can shut the write half of a link: its socket fails, by itself or in a write, or someone closes it. */
  predicate ShutsObject(s: Client, e: ClientEvent, o: nat) {
    match e
    case ByTask(x, AppFail) => x == o
    case ByTask(_, _) => false
    case Quit => o in s.reg.Values
    case ByLoop(Drain) => o in s.reg.Values
    case ByLoop(Shut) => s.loop == ShutLink(o)
    case ByLoop(Forward(out)) => s.loop.Taken? && out.Failed? && s.loop.packet.linkId in s.reg && s.reg[s.loop.packet.linkId] == o
    case ByLoop(_) => false
  }

  lemma MoveOpen(s: Client, e: ClientEvent, o: nat)
    requires May(s, e) && o in s.objs && s.objs[o].link.open && !ShutsObject(s, e, o)
    ensures o in Move(s, e).objs && Move(s, e).objs[o].link.open
  {
  }

  /** A link whose write half is shut was shut for a cause: in some step of the run its socket failed, or somebody
      closed it. */
  lemma {:induction false} ClientShutForCause(run: seq<Client>, events: seq<ClientEvent>, i: nat, o: nat) returns (j: nat)
    requires IsClientRun(run, events) && |run| == |events| + 1 && i < |run| && o in run[i].objs && !run[i].objs[o].link.open
    ensures j < i && o in run[j].objs && ShutsObject(run[j], events[j], o)
  {
    hide IsClientRun, May, Move, ShutsObject;
    StartsBare(run, events);
    assert i > 0;
    MoveAt(run, events, i - 1);
    var s, e := run[i - 1], events[i - 1];
    j := i - 1;
    if o !in s.objs {
      BornDisconnected(s, e, o);
    } else if !s.objs[o].link.open {
      j := ClientShutForCause(run, events, i - 1, o);
    } else if !ShutsObject(s, e, o) {
      MoveOpen(s, e, o);
    }
  }
}
