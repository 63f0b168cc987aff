/** The life of the client's main loop: connection after connection, the words that its steps spell, whatever the server
    sends; and what it reports about itself meanwhile. */
module ClientCycles {
  import opened Bytes
  import opened Packets
  import opened Links
  import opened LinkServer
  import opened LinkClient
  import opened ClientLives

  /** The steps of the main loop in a run. */
  function MainSteps(events: seq<ClientEvent>): seq<ClientLoopEvent> {
    if events == [] then [] else
      var n := |events| - 1;
      MainSteps(events[..n]) + if events[n].ByLoop? then [events[n].le] else []
  }

  // ----- Words -----

  /** What a packet calls for: `Ping` a reply; `Open` either a link, marked connected, and `Opened`, or a refusal; `Close`
      the removal of the link, and its closing if there is one; data its forwarding; and all others nothing. */
  predicate IsReaction(p: Packet, d: Option<bytes>, r: seq<ClientLoopEvent>) {
    match p.ptype
    case Ping => r == [Replied]
    case Open => (|r| == 3 && r[0].DialOk? && r[1] == Mark && r[2] == OpenedSent) || r == [DialFailed, RefusalSent]
    case Close => r == [Remove] || r == [Remove, Shut]
    case Regular => if d.None? then r == [] else |r| == 1 && r[0].Forward?
    case GwDeny => false
    case _ => r == []
  }

  /** One packet is read and dealt with. */
  predicate IsClientTurn(w: seq<ClientLoopEvent>) {
    |w| >= 1 && w[0].Take? && IsReaction(w[0].packet, w[0].data, w[1..])
  }

  ghost predicate AreClientTurns(w: seq<ClientLoopEvent>)
    decreases |w|
  {
    w == [] || exists m :: 0 <= m < |w| && AreClientTurns(w[..m]) && IsClientTurn(w[m..])
  }

  /** The exchange is over when the stream ends, and on a `GwDeny`. */
  predicate IsLoss(e: ClientLoopEvent) {
    e == Lose || (e.Take? && e.packet.ptype.GwDeny?)
  }

  /** Connected, admitted, and through with every packet read. */
  ghost predicate IsExchange(u: seq<ClientLoopEvent>) {
    |u| >= 2 && u[0].Connect? && u[1].AuthOk? && AreClientTurns(u[2..])
  }

  /** The connection was not admitted, or its exchange is over. */
  ghost predicate IsLost(u: seq<ClientLoopEvent>) {
    (|u| == 2 && u[0].Connect? && u[1] == ClientLoopEvent.AuthFailed) || (|u| >= 3 && IsExchange(u[..|u| - 1]) && IsLoss(u[|u| - 1]))
  }

  /** A connection from its beginning to its end; then all links are closed, and the state is reset. */
  ghost predicate IsCycle(u: seq<ClientLoopEvent>) {
    |u| >= 4 && IsLost(u[..|u| - 2]) && u[|u| - 2] == Drain && u[|u| - 1] == Reset
  }

  ghost predicate AreCycles(w: seq<ClientLoopEvent>)
    decreases |w|
  {
    w == [] || exists m :: 0 <= m < |w| && AreCycles(w[..m]) && IsCycle(w[m..])
  }

  // ----- Words and stages -----

  /** The last steps deal with a packet, and more are to come. */
  ghost predicate InClientTurn(u: seq<ClientLoopEvent>, done: seq<ClientLoopEvent>) {
    |u| > |done| && IsExchange(u[..|u| - |done|]) && u[|u| - |done|..] == done
  }

  /** What the steps since the connection was made have spelled, when the loop is at this stage. */
  ghost predicate Current(l: ClientLoop, u: seq<ClientLoopEvent>) {
    match l
    case Offline => u == []
    case Handshaking => |u| == 1 && u[0].Connect?
    case Ready => IsExchange(u)
    case Taken(p, d) => (p.ptype.Open? || p.ptype.Close? || (p.ptype.Regular? && d.Some?)) && InClientTurn(u, [Take(p, d)])
    case ReplyDue => exists p: Packet, d: Option<bytes> {:trigger Take(p, d)} :: p.ptype.Ping? && InClientTurn(u, [Take(p, d)])
    case Dialed(_) =>
      exists p: Packet, d: Option<bytes>, o: nat {:trigger Take(p, d), DialOk(o)} ::
        p.ptype.Open? && InClientTurn(u, [Take(p, d), DialOk(o)])
    case Marked(_) =>
      exists p: Packet, d: Option<bytes>, o: nat {:trigger Take(p, d), DialOk(o)} ::
        p.ptype.Open? && InClientTurn(u, [Take(p, d), DialOk(o), Mark])
    case RefusalDue(_) =>
      exists p: Packet, d: Option<bytes> {:trigger Take(p, d)} :: p.ptype.Open? && InClientTurn(u, [Take(p, d), DialFailed])
    case ShutLink(_) =>
      exists p: Packet, d: Option<bytes> {:trigger Take(p, d)} :: p.ptype.Close? && InClientTurn(u, [Take(p, d), Remove])
    case Lost => IsLost(u)
    case Drained => |u| >= 3 && IsLost(u[..|u| - 1]) && u[|u| - 1] == Drain
  }

  ghost predicate MainSpelled(l: ClientLoop, w: seq<ClientLoopEvent>) {
    exists m :: 0 <= m <= |w| && AreCycles(w[..m]) && Current(l, w[m..])
  }

  lemma ClientTurnsOn(u: seq<ClientLoopEvent>, turn: seq<ClientLoopEvent>)
    requires IsExchange(u) && IsClientTurn(turn)
    ensures IsExchange(u + turn)
  {
    var t := (u + turn)[2..];
    var m := |u| - 2;
    assert t[..m] == u[2..] && t[m..] == turn;
  }

  lemma ClientTurnEnds(u: seq<ClientLoopEvent>, done: seq<ClientLoopEvent>, e: ClientLoopEvent, p: Packet, d: Option<bytes>)
    requires InClientTurn(u, done) && |done| >= 1 && done[0] == Take(p, d) && IsReaction(p, d, done[1..] + [e])
    ensures IsExchange(u + [e])
  {
    assert (done + [e])[1..] == done[1..] + [e];
    assert IsClientTurn(done + [e]);
    hide IsExchange, IsClientTurn;
    var v := u[..|u| - |done|];
    ClientTurnsOn(v, done + [e]);
    assert u + [e] == v + (done + [e]);
  }

  lemma ClientTurnGoesOn(u: seq<ClientLoopEvent>, done: seq<ClientLoopEvent>, e: ClientLoopEvent)
    requires InClientTurn(u, done)
    ensures InClientTurn(u + [e], done + [e])
  {
    hide IsExchange;
    var n := |u| - |done|;
    assert (u + [e])[..n] == u[..n] && (u + [e])[n..] == u[n..] + [e];
  }

  lemma TakeCurrent(u: seq<ClientLoopEvent>, p: Packet, d: Option<bytes>)
    requires IsExchange(u)
    ensures Current(TakeNext(p, d), u + [Take(p, d)])
  {
    var e := Take(p, d);
    var u' := u + [e];
    assert u'[..|u|] == u && u'[|u|..] == [e];
    assert InClientTurn(u', [e]);
    if IsReaction(p, d, []) {
      assert [e][1..] == [];
      ClientTurnsOn(u, [e]);
    }
    hide IsExchange, InClientTurn;
  }

  lemma OpenCurrent(l: ClientLoop, u: seq<ClientLoopEvent>, e: ClientLoopEvent)
    requires Current(l, u)
    requires (l.Taken? && l.packet.ptype.Open? && (e.DialOk? || e.DialFailed?)) || (l.Dialed? && e.Mark?)
    ensures e.DialOk? ==> Current(Dialed(e.o), u + [e])
    ensures e.DialFailed? ==> Current(RefusalDue(l.packet.linkId), u + [e])
    ensures e.Mark? ==> Current(Marked(l.link), u + [e])
  {
    hide InClientTurn;
    if l.Taken? {
      ClientTurnGoesOn(u, [Take(l.packet, l.data)], e);
      assert [Take(l.packet, l.data)] + [e] == [Take(l.packet, l.data), e];
    } else {
      var p: Packet, d: Option<bytes>, o: nat :| p.ptype.Open? && InClientTurn(u, [Take(p, d), DialOk(o)]);
      ClientTurnGoesOn(u, [Take(p, d), DialOk(o)], Mark);
      assert [Take(p, d), DialOk(o)] + [Mark] == [Take(p, d), DialOk(o), Mark];
    }
  }

  lemma RemoveCurrent(s: Client, u: seq<ClientLoopEvent>, p: Packet, d: Option<bytes>)
    requires p.ptype.Close? && InClientTurn(u, [Take(p, d)])
    ensures IsExchange(u + [Remove]) && forall o :: Current(ShutLink(o), u + [Remove])
  {
    hide InClientTurn, IsExchange;
    ClientTurnEnds(u, [Take(p, d)], Remove, p, d);
    ClientTurnGoesOn(u, [Take(p, d)], Remove);
    assert [Take(p, d)] + [Remove] == [Take(p, d), Remove];
  }

  lemma EndCurrent(l: ClientLoop, u: seq<ClientLoopEvent>, e: ClientLoopEvent)
    requires Current(l, u)
    requires (l.ReplyDue? && e.Replied?) || (l.Marked? && e.OpenedSent?) || (l.RefusalDue? && e.RefusalSent?)
             || (l.ShutLink? && e.Shut?) || (l.Taken? && l.packet.ptype.Regular? && e.Forward?)
    ensures IsExchange(u + [e])
  {
    hide InClientTurn, IsExchange;
    match l
    case Taken(p, d) => ClientTurnEnds(u, [Take(p, d)], e, p, d);
    case ReplyDue =>
      var p: Packet, d: Option<bytes> :| p.ptype.Ping? && InClientTurn(u, [Take(p, d)]);
      ClientTurnEnds(u, [Take(p, d)], e, p, d);
    case Marked(_) =>
      var p: Packet, d: Option<bytes>, o: nat :| p.ptype.Open? && InClientTurn(u, [Take(p, d), DialOk(o), Mark]);
      assert [Take(p, d), DialOk(o), Mark][1..] + [e] == [DialOk(o), Mark, OpenedSent];
      ClientTurnEnds(u, [Take(p, d), DialOk(o), Mark], e, p, d);
    case RefusalDue(_) =>
      var p: Packet, d: Option<bytes> :| p.ptype.Open? && InClientTurn(u, [Take(p, d), DialFailed]);
      ClientTurnEnds(u, [Take(p, d), DialFailed], e, p, d);
    case ShutLink(_) =>
      var p: Packet, d: Option<bytes> :| p.ptype.Close? && InClientTurn(u, [Take(p, d), Remove]);
      ClientTurnEnds(u, [Take(p, d), Remove], e, p, d);
  }

  lemma LossCurrent(u: seq<ClientLoopEvent>, e: ClientLoopEvent)
    requires IsExchange(u) && IsLoss(e)
    ensures IsLost(u + [e])
  {
    assert (u + [e])[..|u|] == u;
    hide IsExchange;
  }

  /** Within a connection, one step after another. */
  lemma StepCurrent(s: Client, e: ClientLoopEvent, u: seq<ClientLoopEvent>)
    requires LoopMay(s, e) && Current(s.loop, u) && !e.Reset?
    ensures Current(LoopNext(s, e), u + [e])
  {
    hide IsExchange, InClientTurn, IsLost, TakeNext;
    var l := s.loop;
    match e
    case Connect(_) =>
    case AuthFailed => assert IsLost(u + [e]) by { FailedCurrent(u); }
    case AuthOk(r) => AdmittedCurrent(u, r);
    case Take(p, d) => TakeCurrent(u, p, d);
    case DialOk(_) => OpenCurrent(l, u, e);
    case DialFailed => OpenCurrent(l, u, e);
    case Mark => OpenCurrent(l, u, e);
    case Remove => RemoveCurrent(s, u, l.packet, l.data);
    case Lose => LossCurrent(u, e);
    case Drain => assert (u + [e])[..|u|] == u; LostLength(u);
    case Replied => EndCurrent(l, u, e);
    case OpenedSent => EndCurrent(l, u, e);
    case RefusalSent => EndCurrent(l, u, e);
    case Shut => EndCurrent(l, u, e);
    case Forward(_) => EndCurrent(l, u, e);
  }

  lemma LostLength(u: seq<ClientLoopEvent>)
    requires IsLost(u)
    ensures |u| >= 2
  {
  }

  lemma FailedCurrent(u: seq<ClientLoopEvent>)
    requires |u| == 1 && u[0].Connect?
    ensures IsLost(u + [ClientLoopEvent.AuthFailed])
  {
  }

  lemma AdmittedCurrent(u: seq<ClientLoopEvent>, reply: bytes)
    requires |u| == 1 && u[0].Connect?
    ensures IsExchange(u + [AuthOk(reply)])
  {
    assert (u + [AuthOk(reply)])[2..] == [];
  }

  lemma CycleEnds(w: seq<ClientLoopEvent>)
    requires MainSpelled(Drained, w)
    ensures AreCycles(w + [Reset])
  {
    hide Current, AreCycles;
    var m :| 0 <= m <= |w| && AreCycles(w[..m]) && Current(Drained, w[m..]);
    DrainedCycle(w[m..]);
    OneMoreCycle(w[..m], w[m..] + [Reset]);
    assert w + [Reset] == w[..m] + (w[m..] + [Reset]);
  }

  lemma DrainedCycle(u: seq<ClientLoopEvent>)
    requires Current(Drained, u)
    ensures IsCycle(u + [Reset])
  {
    hide IsLost;
    assert (u + [Reset])[..|u| - 1] == u[..|u| - 1];
  }

  lemma CyclesSpell(w: seq<ClientLoopEvent>)
    requires AreCycles(w)
    ensures MainSpelled(Offline, w)
  {
    hide AreCycles;
    assert w[..|w|] == w && w[|w|..] == [];
  }

  lemma MainStepSpells(s: Client, e: ClientLoopEvent, w: seq<ClientLoopEvent>)
    requires LoopMay(s, e) && MainSpelled(s.loop, w)
    ensures MainSpelled(LoopNext(s, e), w + [e])
  {
    if e.Reset? {
      hide MainSpelled, AreCycles;
      CycleEnds(w);
      CyclesSpell(w + [e]);
    } else {
      hide AreCycles, Current, LoopMay, LoopNext;
      var m :| 0 <= m <= |w| && AreCycles(w[..m]) && Current(s.loop, w[m..]);
      StepCurrent(s, e, w[m..]);
      assert (w + [e])[..m] == w[..m] && (w + [e])[m..] == w[m..] + [e];
    }
  }

  // ----- Runs -----

  /** What the client reports about itself follows from where its loop is. */
  ghost predicate StateTells(s: Client) {
    && (s.loop.Offline? ==> s.gw.GwWaiting?)
    && (s.loop.Handshaking? ==> s.gw.GwProcessing?)
    && (Exchanging(s.loop) ==> s.gw.GwConnected?)
    && (s.loop.Lost? || s.loop.Drained? ==> !s.gw.GwWaiting?)
  }

  lemma MoveTells(s: Client, e: ClientEvent)
    requires May(s, e) && StateTells(s)
    ensures StateTells(Move(s, e))
  {
  }

  lemma LoopAfterMove(s: Client, e: ClientEvent)
    requires May(s, e)
    ensures Move(s, e).loop == if e.ByLoop? then LoopNext(s, e.le) else s.loop
    ensures e.ByLoop? ==> LoopMay(s, e.le)
  {
  }

  lemma StartsOffline(run: seq<Client>, events: seq<ClientEvent>)
    requires IsClientRun(run, events)
    ensures run[0].loop.Offline? && StateTells(run[0])
  {
    hide May, Move;
  }

  lemma {:induction false} LoopSpells(run: seq<Client>, events: seq<ClientEvent>)
    requires IsClientRun(run, events) && |run| == |events| + 1
    ensures MainSpelled(run[|events|].loop, MainSteps(events)) && StateTells(run[|events|])
  {
    hide IsClientRun, May, Move, MainSpelled, LoopNext, LoopMay, StateTells;
    StartsOffline(run, events);
    if |events| == 0 {
      CyclesSpell([]);
    } else {
      var n := |events| - 1;
      LastMove(run, events);
      LoopSpells(run[..n + 1], events[..n]);
      MoveTells(run[n], events[n]);
      LoopAfterMove(run[n], events[n]);
      if events[n].ByLoop? {
        MainStepSpells(run[n], events[n].le, MainSteps(events[..n]));
      } else {
        assert MainSteps(events) == MainSteps(events[..n]);
      }
    }
  }

  /** How the connection ends, if the server is silent from here on. */
  function TurnRemainder(l: ClientLoop): seq<ClientLoopEvent> {
    match l
    case Taken(p, d) =>
      if p.ptype.Open? then [DialFailed, RefusalSent] else if p.ptype.Close? then [Remove] else [Forward(Wrote)]
    case ReplyDue => [Replied]
    case Dialed(_) => [Mark, OpenedSent]
    case Marked(_) => [OpenedSent]
    case RefusalDue(_) => [RefusalSent]
    case ShutLink(_) => [Shut]
    case _ => []
  }

  function CycleRemainder(l: ClientLoop): seq<ClientLoopEvent> {
    match l
    case Offline => []
    case Handshaking => [ClientLoopEvent.AuthFailed, Drain, Reset]
    case Lost => [Drain, Reset]
    case Drained => [Reset]
    case _ => TurnRemainder(l) + [Lose, Drain, Reset]
  }

  lemma TurnCompletable(l: ClientLoop, u: seq<ClientLoopEvent>)
    requires Current(l, u) && Exchanging(l)
    ensures IsExchange(u + TurnRemainder(l))
  {
    hide IsExchange, InClientTurn;
    match l
    case Ready => assert u + [] == u;
    case Taken(p, d) =>
      if p.ptype.Open? {
        OpenCurrent(l, u, DialFailed);
        EndCurrent(RefusalDue(p.linkId), u + [DialFailed], RefusalSent);
        assert u + [DialFailed] + [RefusalSent] == u + [DialFailed, RefusalSent];
      } else if p.ptype.Close? {
        ClientTurnEnds(u, [Take(p, d)], Remove, p, d);
      } else {
        EndCurrent(l, u, Forward(Wrote));
      }
    case ReplyDue => EndCurrent(l, u, Replied);
    case Dialed(o) =>
      OpenCurrent(l, u, Mark);
      EndCurrent(Marked(o), u + [Mark], OpenedSent);
      assert u + [Mark] + [OpenedSent] == u + [Mark, OpenedSent];
    case Marked(_) => EndCurrent(l, u, OpenedSent);
    case RefusalDue(_) => EndCurrent(l, u, RefusalSent);
    case ShutLink(_) => EndCurrent(l, u, Shut);
  }

  lemma CycleCompletable(l: ClientLoop, u: seq<ClientLoopEvent>)
    requires Current(l, u) && !l.Offline?
    ensures IsCycle(u + CycleRemainder(l))
  {
    hide IsExchange, InClientTurn, IsCycle, IsLost;
    if Exchanging(l) {
      TurnCompletable(l, u);
      var v := u + TurnRemainder(l);
      hide Current;
      LossCurrent(v, Lose);
      LostCycle(v + [Lose]);
      assert v + [Lose] + [Drain, Reset] == u + CycleRemainder(l);
    } else if l.Handshaking? {
      FailedCurrent(u);
      LostCycle(u + [ClientLoopEvent.AuthFailed]);
      assert u + [ClientLoopEvent.AuthFailed] + [Drain, Reset] == u + CycleRemainder(l);
    } else if l.Lost? {
      LostCycle(u);
    } else {
      var v := u[..|u| - 1];
      LostCycle(v);
      assert v + [Drain, Reset] == u + [Reset];
    }
  }

  lemma LostCycle(u: seq<ClientLoopEvent>)
    requires IsLost(u)
    ensures IsCycle(u + [Drain, Reset])
  {
    LostLength(u);
    hide IsLost;
    assert (u + [Drain, Reset])[..|u|] == u;
  }

  /** In every run of the client, against any server: the steps of its main loop are the beginning of whole cycles. Each
      connects and is refused, or is admitted and then deals with packet after packet, each in full before the next is
      read: a `Ping` with one reply, an `Open` with one `Opened` or one refusal, a `Close` with a teardown; it ends at
      the end of the stream or a `GwDeny`, and then all links are closed and the state is reset. And at every
      point the client reports itself waiting, processing or connected as its loop is. */
  lemma LifeOfClient(run: seq<Client>, events: seq<ClientEvent>) returns (rest: seq<ClientLoopEvent>)
    requires IsClientRun(run, events) && |run| == |events| + 1
    ensures AreCycles(MainSteps(events) + rest) && (run[|events|].loop.Offline? ==> rest == [])
    ensures StateTells(run[|events|])
  {
    LoopSpells(run, events);
    var l := run[|events|].loop;
    rest := CycleRemainder(l);
    hide IsClientRun, MainSpelled, AreCycles, StateTells;
    WordCompletable(l, MainSteps(events));
  }

  lemma WordCompletable(l: ClientLoop, w: seq<ClientLoopEvent>)
    requires MainSpelled(l, w)
    ensures AreCycles(w + CycleRemainder(l))
  {
    hide Current, AreCycles, IsCycle;
    var m :| 0 <= m <= |w| && AreCycles(w[..m]) && Current(l, w[m..]);
    var rest := CycleRemainder(l);
    hide CycleRemainder;
    if l.Offline? {
      OfflineBare(w[m..]);
      assert w + rest == w[..m];
    } else {
      CycleCompletable(l, w[m..]);
      OneMoreCycle(w[..m], w[m..] + rest);
      assert w + rest == w[..m] + (w[m..] + rest);
    }
  }

  lemma OfflineBare(u: seq<ClientLoopEvent>)
    requires Current(Offline, u)
    ensures u == [] && CycleRemainder(Offline) == []
  {
  }

  lemma OneMoreCycle(w: seq<ClientLoopEvent>, u: seq<ClientLoopEvent>)
    requires AreCycles(w) && IsCycle(u)
    ensures AreCycles(w + u)
  {
    hide IsCycle;
    assert |u| > 0 by { CycleLength(u); }
    assert (w + u)[..|w|] == w && (w + u)[|w|..] == u;
  }

  lemma CycleLength(u: seq<ClientLoopEvent>)
    requires IsCycle(u)
    ensures |u| >= 4
  {
  }

  // ----- A cycle can always be completed -----

  predicate ClientBusiness(l: ClientLoop) {
    l.Taken? ==> l.packet.ptype.Open? || l.packet.ptype.Close? || l.packet.ptype.Regular?
  }

  function ClientNext(l: ClientLoop): ClientLoopEvent {
    match l
    case Handshaking => ClientLoopEvent.AuthFailed
    case Taken(p, d) => if p.ptype.Open? then DialFailed else if p.ptype.Close? then Remove else Forward(Wrote)
    case ReplyDue => Replied
    case Dialed(_) => Mark
    case Marked(_) => OpenedSent
    case RefusalDue(_) => RefusalSent
    case ShutLink(_) => Shut
    case Lost => Drain
    case Drained => Reset
    case _ => Lose
  }

  function ClientAhead(l: ClientLoop): nat {
    match l
    case Taken(_, _) => 9
    case Dialed(_) => 8
    case Ready => 6
    case Lost => 4
    case Drained => 3
    case Offline => 0
    case _ => 7
  }

  lemma ClientNextGoes(s: Client)
    requires ClientBusiness(s.loop) && !s.loop.Offline?
    ensures var e := ByLoop(ClientNext(s.loop));
      May(s, e) && ClientBusiness(Move(s, e).loop) && ClientAhead(Move(s, e).loop) < ClientAhead(s.loop)
  {
  }

  lemma OneMoreMove(run: seq<Client>, events: seq<ClientEvent>, e: ClientEvent)
    requires IsClientRun(run, events) && |run| == |events| + 1 && May(run[|events|], e)
    ensures IsClientRun(run + [Move(run[|events|], e)], events + [e])
  {
    hide May, Move;
  }

  lemma SpelledClientBusiness(l: ClientLoop, w: seq<ClientLoopEvent>)
    requires MainSpelled(l, w)
    ensures ClientBusiness(l)
  {
    hide AreCycles;
  }

  lemma {:induction false} CycleToTheEnd(run: seq<Client>, events: seq<ClientEvent>)
    returns (run': seq<Client>, events': seq<ClientEvent>)
    requires IsClientRun(run, events) && |run| == |events| + 1 && ClientBusiness(run[|events|].loop)
    ensures IsClientRun(run', events') && run <= run' && events <= events' && |run'| == |events'| + 1
    ensures forall i :: |events| <= i < |events'| ==> events'[i].ByLoop?
    ensures run'[|events'|].loop.Offline?
    decreases ClientAhead(run[|events|].loop)
  {
    if run[|events|].loop.Offline? {
      run', events' := run, events;
    } else {
      var e := ByLoop(ClientNext(run[|events|].loop));
      ClientNextGoes(run[|events|]);
      OneMoreMove(run, events, e);
      hide IsClientRun, May, Move, ClientBusiness, ClientNext, ClientAhead;
      run', events' := CycleToTheEnd(run + [Move(run[|events|], e)], events + [e]);
      assert events'[|events|] == (events + [e])[|events|];
    }
  }

  /** The client is never stuck: from every point of every run its main loop can come to the end of its cycle, and try
      again, by steps of its own. */
  lemma ClientNeverStuck(run: seq<Client>, events: seq<ClientEvent>) returns (run': seq<Client>, events': seq<ClientEvent>)
    requires IsClientRun(run, events) && |run| == |events| + 1
    ensures IsClientRun(run', events') && run <= run' && events <= events' && |run'| == |events'| + 1
    ensures forall i :: |events| <= i < |events'| ==> events'[i].ByLoop?
    ensures run'[|events'|].loop.Offline?
  {
    hide IsClientRun, MainSpelled, ClientBusiness;
    LoopSpells(run, events);
    SpelledClientBusiness(run[|events|].loop, MainSteps(events));
    run', events' := CycleToTheEnd(run, events);
  }
}
