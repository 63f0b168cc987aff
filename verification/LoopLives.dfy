/** The life of one connection's loop on the server, from its start to the end of the cleanup: the words that its steps
    spell, whatever the client sends and the others do. */
module LoopLives {
  import opened Bytes
  import opened Packets
  import opened Links
  import opened LinkServer
  import opened ServerRuns
  import opened LinkCleanup
  import opened Releasing

  /** The steps of the loop of connection `c` in a run. */
  function LoopSteps(events: seq<Event>, c: nat): seq<LoopEvent> {
    if events == [] then [] else
      var n := |events| - 1;
      LoopSteps(events[..n], c) + if events[n].OfLoop? && events[n].c == c then [events[n].le] else []
  }

  // ----- Words -----

  /** What a packet calls for: `Ping` a `Pong`; data and `Opened` a look for the link, and its use if there is one; `Close`
      and `OpenFail` the removal of the route and of the link, and its closing if there is one; and all others nothing. */
  predicate IsFollowUp(p: Packet, d: Option<bytes>, r: seq<LoopEvent>) {
    match p.ptype
    case Ping => r == [PongSent]
    case Regular => if d.None? then r == [] else r == [Lookup] || (|r| == 2 && r[0] == Lookup && r[1].DeliverTo?)
    case Opened => r == [Lookup] || r == [Lookup, ConfirmLink]
    case OpenFail => r == [UnrouteFor, UnlinkFor] || r == [UnrouteFor, UnlinkFor, CloseFor]
    case Close => r == [UnrouteFor, UnlinkFor] || r == [UnrouteFor, UnlinkFor, CloseFor]
    case GwDeny => false
    case _ => r == []
  }

  /** One packet is read and dealt with. */
  predicate IsTurn(w: seq<LoopEvent>) {
    |w| >= 1 && w[0].Recv? && IsFollowUp(w[0].packet, w[0].data, w[1..])
  }

  ghost predicate AreTurns(w: seq<LoopEvent>)
    decreases |w|
  {
    w == [] || exists m :: 0 <= m < |w| && AreTurns(w[..m]) && IsTurn(w[m..])
  }

  /** The loop is left when the stream ends, and on a `GwDeny`. */
  predicate IsLeaving(w: seq<LoopEvent>) {
    w == [Eof] || (|w| == 1 && w[0].Recv? && w[0].packet.ptype.GwDeny?)
  }

  /** The collected links are taken out one by one, each closed if it was there. */
  ghost predicate AreSweeps(w: seq<LoopEvent>) {
    && (forall i :: 0 <= i < |w| ==> w[i].CleanNext? || w[i].CleanShut?)
    && (w != [] ==> w[0].CleanNext?)
    && (forall i, j :: 0 <= i < j < |w| && j == i + 1 && w[j].CleanShut? ==> w[i].CleanNext?)
  }

  /** Everything a connection's loop ever does. */
  ghost predicate WholeLoop(w: seq<LoopEvent>) {
    exists a, b, d :: w == [Spawn] + a + b + [Collect] + d + [CleanDone] && AreTurns(a) && IsLeaving(b) && AreSweeps(d)
  }

  // ----- Words and stages -----

  /** Spawned, and through with every packet read. */
  ghost predicate BetweenPackets(w: seq<LoopEvent>) {
    |w| >= 1 && w[0] == Spawn && AreTurns(w[1..])
  }

  ghost predicate HasLeft(w: seq<LoopEvent>) {
    |w| >= 2 && BetweenPackets(w[..|w| - 1]) && IsLeaving(w[|w| - 1..])
  }

  ghost predicate HasCollected(w: seq<LoopEvent>) {
    exists m :: 0 <= m < |w| && HasLeft(w[..m]) && w[m] == Collect && AreSweeps(w[m + 1..])
  }

  /** The last steps deal with a packet, and these are still to come. */
  ghost predicate InTurn(w: seq<LoopEvent>, done: seq<LoopEvent>) {
    |w| > |done| && BetweenPackets(w[..|w| - |done|]) && w[|w| - |done|..] == done
  }

  predicate LooksUp(p: Packet, d: Option<bytes>) {
    (p.ptype.Regular? && d.Some?) || p.ptype.Opened?
  }

  predicate Unlinks(p: Packet) {
    p.ptype.OpenFail? || p.ptype.Close?
  }

  /** The word a loop has spelled when it is at this stage. */
  ghost predicate LoopSpelled(l: Loop, w: seq<LoopEvent>) {
    match l
    case Fresh => w == []
    case Idle => BetweenPackets(w)
    case Held(p, d) => (LooksUp(p, d) || Unlinks(p)) && InTurn(w, [Recv(p, d)])
    case PongDue => exists p: Packet, d: Option<bytes> {:trigger Recv(p, d)} :: p.ptype.Ping? && InTurn(w, [Recv(p, d)])
    case Deliver(_, _) => exists p: Packet, d: Option<bytes> {:trigger Recv(p, d)} :: p.ptype.Regular? && d.Some? && InTurn(w, [Recv(p, d), Lookup])
    case Confirm(_) => exists p: Packet, d: Option<bytes> {:trigger Recv(p, d)} :: p.ptype.Opened? && InTurn(w, [Recv(p, d), Lookup])
    case Unlink(_) => exists p: Packet, d: Option<bytes> {:trigger Recv(p, d)} :: Unlinks(p) && InTurn(w, [Recv(p, d), UnrouteFor])
    case CloseLink(_) => exists p: Packet, d: Option<bytes> {:trigger Recv(p, d)} :: Unlinks(p) && InTurn(w, [Recv(p, d), UnrouteFor, UnlinkFor])
    case Leaving => HasLeft(w)
    case Cleaning(_) => HasCollected(w)
    case CleanClose(_, _) => |w| >= 1 && HasCollected(w) && w[|w| - 1].CleanNext?
    case Gone => |w| >= 1 && HasCollected(w[..|w| - 1]) && w[|w| - 1] == CleanDone
  }

  lemma TurnsOn(w: seq<LoopEvent>, turn: seq<LoopEvent>)
    requires BetweenPackets(w) && IsTurn(turn)
    ensures BetweenPackets(w + turn)
  {
    var t := (w + turn)[1..];
    var m := |w| - 1;
    assert t[..m] == w[1..] && t[m..] == turn;
  }

  /** A turn completed. */
  lemma TurnEnds(w: seq<LoopEvent>, done: seq<LoopEvent>, e: LoopEvent)
    requires InTurn(w, done) && IsTurn(done + [e])
    ensures BetweenPackets(w + [e])
  {
    hide BetweenPackets, IsTurn;
    var v := w[..|w| - |done|];
    TurnsOn(v, done + [e]);
    assert w + [e] == v + (done + [e]);
  }

  lemma TurnGoesOn(w: seq<LoopEvent>, done: seq<LoopEvent>, e: LoopEvent)
    requires InTurn(w, done)
    ensures InTurn(w + [e], done + [e])
  {
    var n := |w| - |done|;
    assert (w + [e])[..n] == w[..n] && (w + [e])[n..] == w[n..] + [e];
  }

  lemma TurnBegins(w: seq<LoopEvent>, e: LoopEvent)
    requires BetweenPackets(w)
    ensures InTurn(w + [e], [e])
    ensures IsLeaving([e]) ==> HasLeft(w + [e])
  {
    var w' := w + [e];
    assert w'[..|w|] == w && w'[|w|..] == [e];
  }

  lemma RecvSpells(w: seq<LoopEvent>, p: Packet, d: Option<bytes>)
    requires BetweenPackets(w)
    ensures LoopSpelled(Dispatch(p, d), w + [Recv(p, d)])
  {
    TurnBegins(w, Recv(p, d));
    if IsFollowUp(p, d, []) {
      assert [Recv(p, d)][1..] == [];
      TurnsOn(w, [Recv(p, d)]);
    }
    hide BetweenPackets, InTurn, HasLeft;
  }

  lemma LookupSpells(s: Server, w: seq<LoopEvent>, p: Packet, d: Option<bytes>)
    requires LooksUp(p, d) && InTurn(w, [Recv(p, d)])
    ensures LoopSpelled(AfterLookup(s, p, d), w + [Lookup])
  {
    TurnGoesOn(w, [Recv(p, d)], Lookup);
    assert [Recv(p, d)] + [Lookup] == [Recv(p, d), Lookup];
    assert [Recv(p, d), Lookup][1..] == [Lookup];
    TurnEnds(w, [Recv(p, d)], Lookup);
    hide BetweenPackets, InTurn;
  }

  lemma LastTurnStep(w: seq<LoopEvent>, done: seq<LoopEvent>, e: LoopEvent, p: Packet, d: Option<bytes>)
    requires InTurn(w, done) && |done| >= 1 && done[0] == Recv(p, d) && IsFollowUp(p, d, done[1..] + [e])
    ensures BetweenPackets(w + [e])
  {
    assert (done + [e])[1..] == done[1..] + [e];
    TurnEnds(w, done, e);
  }

  lemma UseSpells(l: Loop, w: seq<LoopEvent>, e: LoopEvent)
    requires LoopSpelled(l, w)
    requires (l.PongDue? && e.PongSent?) || (l.Deliver? && e.DeliverTo?) || (l.Confirm? && e.ConfirmLink?) || (l.CloseLink? && e.CloseFor?)
    ensures BetweenPackets(w + [e])
  {
    hide BetweenPackets, InTurn;
    match l
    case PongDue =>
      var p: Packet, d: Option<bytes> :| p.ptype.Ping? && InTurn(w, [Recv(p, d)]);
      LastTurnStep(w, [Recv(p, d)], e, p, d);
    case Deliver(_, _) =>
      var p: Packet, d: Option<bytes> :| p.ptype.Regular? && d.Some? && InTurn(w, [Recv(p, d), Lookup]);
      LastTurnStep(w, [Recv(p, d), Lookup], e, p, d);
    case Confirm(_) =>
      var p: Packet, d: Option<bytes> :| p.ptype.Opened? && InTurn(w, [Recv(p, d), Lookup]);
      LastTurnStep(w, [Recv(p, d), Lookup], e, p, d);
    case CloseLink(_) =>
      var p: Packet, d: Option<bytes> :| Unlinks(p) && InTurn(w, [Recv(p, d), UnrouteFor, UnlinkFor]);
      assert [Recv(p, d), UnrouteFor, UnlinkFor][1..] + [e] == [UnrouteFor, UnlinkFor, CloseFor];
      LastTurnStep(w, [Recv(p, d), UnrouteFor, UnlinkFor], e, p, d);
  }

  lemma UnlinkSpells(s: Server, id: u16, w: seq<LoopEvent>)
    requires LoopSpelled(Unlink(id), w)
    ensures LoopSpelled(if id in s.links then CloseLink(s.links[id]) else Idle, w + [UnlinkFor])
  {
    var p: Packet, d: Option<bytes> :| Unlinks(p) && InTurn(w, [Recv(p, d), UnrouteFor]);
    hide BetweenPackets, InTurn;
    TurnGoesOn(w, [Recv(p, d), UnrouteFor], UnlinkFor);
    assert [Recv(p, d), UnrouteFor] + [UnlinkFor] == [Recv(p, d), UnrouteFor, UnlinkFor];
    LastTurnStep(w, [Recv(p, d), UnrouteFor], UnlinkFor, p, d);
  }

  lemma UnrouteSpells(p: Packet, d: Option<bytes>, w: seq<LoopEvent>)
    requires Unlinks(p) && InTurn(w, [Recv(p, d)])
    ensures LoopSpelled(Unlink(p.linkId), w + [UnrouteFor])
  {
    TurnGoesOn(w, [Recv(p, d)], UnrouteFor);
    assert [Recv(p, d)] + [UnrouteFor] == [Recv(p, d), UnrouteFor];
    hide BetweenPackets, InTurn;
  }

  lemma CollectSpells(w: seq<LoopEvent>)
    requires HasLeft(w)
    ensures HasCollected(w + [Collect])
  {
    var w' := w + [Collect];
    assert w'[..|w|] == w && w'[|w| + 1..] == [];
  }

  lemma SweepSpells(w: seq<LoopEvent>, e: LoopEvent)
    requires HasCollected(w) && (e.CleanNext? || (e.CleanShut? && w[|w| - 1].CleanNext?))
    ensures HasCollected(w + [e])
  {
    hide HasLeft, AreSweeps;
    var m :| 0 <= m < |w| && HasLeft(w[..m]) && w[m] == Collect && AreSweeps(w[m + 1..]);
    var w' := w + [e];
    assert w'[..m] == w[..m] && w'[m + 1..] == w[m + 1..] + [e];
    if e.CleanShut? {
      assert m < |w| - 1;
      assert w[m + 1..][|w| - m - 2] == w[|w| - 1];
    }
    SweepsOn(w[m + 1..], e);
  }

  lemma SweepsOn(x: seq<LoopEvent>, e: LoopEvent)
    requires AreSweeps(x) && (e.CleanNext? || (e.CleanShut? && |x| > 0 && x[|x| - 1].CleanNext?))
    ensures AreSweeps(x + [e])
  {
  }

  lemma SpawnSpells()
    ensures BetweenPackets([Spawn])
  {
    assert [Spawn][1..] == [];
  }

  lemma LoopStepSpells(s: Server, c: nat, e: LoopEvent, w: seq<LoopEvent>)
    requires LoopEnabled(s, c, e) && LoopSpelled(s.conns[c].loop, w)
    ensures LoopSpelled(NextLoop(s, c, e), w + [e])
  {
    hide BetweenPackets, InTurn, HasLeft, HasCollected, Dispatch, AfterLookup;
    var l := s.conns[c].loop;
    assert (w + [e])[..|w|] == w;
    match e
    case Spawn => SpawnSpells(); assert [] + [e] == [Spawn];
    case Recv(p, d) => RecvSpells(w, p, d);
    case PongSent => UseSpells(l, w, e);
    case Lookup => LookupSpells(s, w, l.packet, l.data);
    case DeliverTo(_) => UseSpells(l, w, e);
    case ConfirmLink => UseSpells(l, w, e);
    case UnrouteFor => UnrouteSpells(l.packet, l.data, w);
    case UnlinkFor => UnlinkSpells(s, l.id, w);
    case CloseFor => UseSpells(l, w, e);
    case Eof => TurnBegins(w, e);
    case Collect => CollectSpells(w);
    case CleanNext(id) => SweepSpells(w, e);
    case CleanShut => SweepSpells(w, e);
    case CleanDone =>
  }

  lemma LoopAfter(s: Server, e: Event, c: nat)
    requires Enabled(s, e)
    ensures c in s.conns ==>
              (c in Step(s, e).conns
               && Step(s, e).conns[c].loop == if e.OfLoop? && e.c == c then NextLoop(s, c, e.le) else s.conns[c].loop)
    ensures c !in s.conns ==> !(e.OfLoop? && e.c == c) && (c in Step(s, e).conns ==> Step(s, e).conns[c].loop.Fresh?)
  {
    match e
    case OfTask(k, te) => TaskRecords(s, k, te); hide StepTask;
    case OfLoop(d, le) => LoopEffect(s, d, le); hide StepLoop, NextLoop;
    case _ =>
  }

  lemma LastServerStep(run: seq<Server>, events: seq<Event>)
    requires IsServerRun(run, events) && |events| > 0
    ensures var n := |events| - 1;
      && |run| == n + 2 && IsServerRun(run[..n + 1], events[..n])
      && Enabled(run[n], events[n]) && run[n + 1] == Step(run[n], events[n])
  {
    hide Enabled, Step;
  }

  lemma {:induction false} PlaceSpells(run: seq<Server>, events: seq<Event>, c: nat)
    requires IsServerRun(run, events) && |run| == |events| + 1
    ensures if c in run[|events|].conns then LoopSpelled(run[|events|].conns[c].loop, LoopSteps(events, c))
            else LoopSteps(events, c) == []
  {
    if |events| == 0 {
      assert run[0] == INIT;
    } else {
      hide IsServerRun, Enabled, Step, LoopSpelled, NextLoop;
      var n := |events| - 1;
      LastServerStep(run, events);
      var s, e := run[n], events[n];
      PlaceSpells(run[..n + 1], events[..n], c);
      LoopAfter(s, e, c);
      if c in s.conns {
        if e.OfLoop? && e.c == c {
          StepIsEnabled(s, c, e.le);
          LoopStepSpells(s, c, e.le, LoopSteps(events[..n], c));
        } else {
          assert LoopSteps(events, c) == LoopSteps(events[..n], c);
        }
      } else {
        assert LoopSteps(events, c) == [];
        FreshSpells();
      }
    }
  }

  lemma FreshSpells()
    ensures LoopSpelled(Fresh, [])
  {
  }

  lemma StepIsEnabled(s: Server, c: nat, le: LoopEvent)
    requires Enabled(s, OfLoop(c, le))
    ensures LoopEnabled(s, c, le)
  {
  }

  // ----- Whole loops -----

  lemma CollectedEnds(w: seq<LoopEvent>)
    requires HasCollected(w)
    ensures WholeLoop(w + [CleanDone])
  {
    hide HasLeft, AreSweeps, WholeLoop;
    var m :| 0 <= m < |w| && HasLeft(w[..m]) && w[m] == Collect && AreSweeps(w[m + 1..]);
    assert w == w[..m] + [Collect] + w[m + 1..];
    WholeFromLeft(w[..m], w[m + 1..]);
  }

  lemma WholeFromLeft(v: seq<LoopEvent>, d: seq<LoopEvent>)
    requires HasLeft(v) && AreSweeps(d)
    ensures WholeLoop(v + [Collect] + d + [CleanDone])
  {
    hide AreTurns, AreSweeps, IsLeaving, WholeLoop;
    var u, b := v[..|v| - 1], v[|v| - 1..];
    assert v == u + b;
    assert u == [Spawn] + u[1..];
    PartsMakeWhole(u[1..], b, d);
  }

  lemma PartsMakeWhole(a: seq<LoopEvent>, b: seq<LoopEvent>, d: seq<LoopEvent>)
    requires AreTurns(a) && IsLeaving(b) && AreSweeps(d)
    ensures WholeLoop([Spawn] + a + b + [Collect] + d + [CleanDone])
  {
    hide AreTurns, IsLeaving, AreSweeps;
  }

  lemma LeftEnds(w: seq<LoopEvent>)
    requires HasLeft(w)
    ensures WholeLoop(w + [Collect, CleanDone])
  {
    CollectSpells(w);
    CollectedEnds(w + [Collect]);
    assert w + [Collect] + [CleanDone] == w + [Collect, CleanDone];
  }

  lemma IdleEnds(w: seq<LoopEvent>)
    requires BetweenPackets(w)
    ensures WholeLoop(w + [Eof, Collect, CleanDone])
  {
    TurnBegins(w, Eof);
    LeftEnds(w + [Eof]);
    assert w + [Eof] + [Collect, CleanDone] == w + [Eof, Collect, CleanDone];
  }

  /** How the turn ends. */
  function TurnRest(l: Loop): seq<LoopEvent> {
    match l
    case Fresh => [Spawn]
    case Held(p, d) => if LooksUp(p, d) then [Lookup] else [UnrouteFor, UnlinkFor]
    case PongDue => [PongSent]
    case Deliver(_, _) => [DeliverTo(Wrote)]
    case Confirm(_) => [ConfirmLink]
    case Unlink(_) => [UnlinkFor]
    case CloseLink(_) => [CloseFor]
    case _ => []
  }

  predicate InLoop(l: Loop) {
    !l.Leaving? && !l.Cleaning? && !l.CleanClose? && !l.Gone?
  }

  lemma TurnCompletes(l: Loop, w: seq<LoopEvent>)
    requires LoopSpelled(l, w) && InLoop(l)
    ensures BetweenPackets(w + TurnRest(l))
  {
    hide BetweenPackets, InTurn;
    match l
    case Fresh => SpawnSpells(); assert w + [Spawn] == [Spawn];
    case Idle => assert w + [] == w;
    case Held(p, d) =>
      if LooksUp(p, d) {
        LastTurnStep(w, [Recv(p, d)], Lookup, p, d);
      } else {
        TurnGoesOn(w, [Recv(p, d)], UnrouteFor);
        assert [Recv(p, d)] + [UnrouteFor] == [Recv(p, d), UnrouteFor];
        LastTurnStep(w + [UnrouteFor], [Recv(p, d), UnrouteFor], UnlinkFor, p, d);
        assert w + [UnrouteFor] + [UnlinkFor] == w + [UnrouteFor, UnlinkFor];
      }
    case Unlink(_) =>
      var p: Packet, d: Option<bytes> :| Unlinks(p) && InTurn(w, [Recv(p, d), UnrouteFor]);
      LastTurnStep(w, [Recv(p, d), UnrouteFor], UnlinkFor, p, d);
    case PongDue => UseSpells(l, w, PongSent);
    case Deliver(_, _) => UseSpells(l, w, DeliverTo(Wrote));
    case Confirm(_) => UseSpells(l, w, ConfirmLink);
    case CloseLink(_) => UseSpells(l, w, CloseFor);
  }

  function LoopRest(l: Loop): seq<LoopEvent> {
    match l
    case Leaving => [Collect, CleanDone]
    case Cleaning(_) => [CleanDone]
    case CleanClose(_, _) => [CleanShut, CleanDone]
    case Gone => []
    case _ => TurnRest(l) + [Eof, Collect, CleanDone]
  }

  lemma LoopEndsWell(l: Loop, w: seq<LoopEvent>)
    requires LoopSpelled(l, w)
    ensures WholeLoop(w + LoopRest(l))
  {
    hide BetweenPackets, InTurn, HasLeft, HasCollected, WholeLoop, AreSweeps;
    if InLoop(l) {
      TurnCompletes(l, w);
      hide LoopSpelled;
      IdleEnds(w + TurnRest(l));
      assert w + TurnRest(l) + [Eof, Collect, CleanDone] == w + LoopRest(l);
    } else if l.Leaving? {
      LeftEnds(w);
    } else if l.Cleaning? {
      CollectedEnds(w);
    } else if l.CleanClose? {
      SweepSpells(w, CleanShut);
      CollectedEnds(w + [CleanShut]);
      assert w + [CleanShut] + [CleanDone] == w + [CleanShut, CleanDone];
    } else {
      CollectedEnds(w[..|w| - 1]);
      assert w + [] == w[..|w| - 1] + [CleanDone];
    }
  }

  /** In every run, whatever the client sends: the steps of a connection's loop are the beginning of a whole loop. It reads
      packet after packet and deals with each in full before it reads the next: a `Ping` with one `Pong`, data with
      one delivery, `Close` and `OpenFail` with a teardown; it ends only at the end of the stream or a `GwDeny`, and
      then cleans up. */
  lemma LifeOfLoop(run: seq<Server>, events: seq<Event>, c: nat) returns (rest: seq<LoopEvent>)
    requires IsServerRun(run, events) && |run| == |events| + 1 && c in run[|events|].conns
    ensures WholeLoop(LoopSteps(events, c) + rest)
    ensures run[|events|].conns[c].loop.Gone? <==> rest == []
  {
    PlaceSpells(run, events, c);
    var l := run[|events|].conns[c].loop;
    hide IsServerRun, LoopSpelled, WholeLoop;
    LoopEndsWell(l, LoopSteps(events, c));
    rest := LoopRest(l);
  }

  // ----- A loop can always be completed -----

  /** A packet is held only if there is something to do about it. */
  predicate HasBusiness(l: Loop) {
    l.Held? ==> LooksUp(l.packet, l.data) || Unlinks(l.packet)
  }

  function OwnNext(l: Loop): LoopEvent {
    match l
    case Fresh => Spawn
    case Held(p, d) => if LooksUp(p, d) then Lookup else UnrouteFor
    case PongDue => PongSent
    case Deliver(_, _) => DeliverTo(Wrote)
    case Confirm(_) => ConfirmLink
    case Unlink(_) => UnlinkFor
    case CloseLink(_) => CloseFor
    case Leaving => Collect
    case _ => Eof
  }

  function Ahead(l: Loop): nat {
    match l
    case Held(_, _) => 9
    case Unlink(_) => 8
    case Idle => 6
    case Leaving => 5
    case _ => 7
  }

  lemma OwnNextGoes(s: Server, c: nat)
    requires c in s.conns && HasBusiness(s.conns[c].loop) && !InCleanup(s.conns[c].loop)
    ensures var l := s.conns[c].loop; var e := OwnNext(l);
      && LoopEnabled(s, c, e) && HasBusiness(NextLoop(s, c, e))
      && (InCleanup(NextLoop(s, c, e)) || Ahead(NextLoop(s, c, e)) < Ahead(l))
  {
  }

  /** Steps of this loop alone, to its end. */
  lemma {:induction false} LoopToTheEnd(s: Server, c: nat) returns (b: seq<Server>, y: seq<Event>)
    requires c in s.conns && HasBusiness(s.conns[c].loop)
    ensures IsPath(b, y) && |b| == |y| + 1 && b[0] == s && c in b[|y|].conns && b[|y|].conns[c].loop.Gone?
    ensures forall i :: 0 <= i < |y| ==> y[i].OfLoop? && y[i].c == c
    decreases !InCleanup(s.conns[c].loop), Ahead(s.conns[c].loop)
  {
    if InCleanup(s.conns[c].loop) {
      b, y := RunCleanup(s, c);
      PathLength(b, y);
    } else {
      var e := OwnNext(s.conns[c].loop);
      OwnNextGoes(s, c);
      LoopEffect(s, c, e);
      var m := StepLoop(s, c, e);
      assert Leads(s, OfLoop(c, e), m);
      hide StepLoop, LoopEnabled, NextLoop, Leads, IsPath, HasBusiness, OwnNext, Ahead, InCleanup;
      b, y := LoopToTheEnd(m, c);
      Prepended(s, OfLoop(c, e), b, y);
      b, y := [s] + b, [OfLoop(c, e)] + y;
    }
  }

  lemma SpelledBusiness(l: Loop, w: seq<LoopEvent>)
    requires LoopSpelled(l, w)
    ensures HasBusiness(l)
  {
  }

  /** A loop is never stuck: from every point of every run it can come to the end of its cleanup by steps of its own. */
  lemma LoopNeverStuck(run: seq<Server>, events: seq<Event>, c: nat) returns (run': seq<Server>, events': seq<Event>)
    requires IsServerRun(run, events) && |run| == |events| + 1 && c in run[|events|].conns
    ensures IsServerRun(run', events') && run <= run' && events <= events' && |run'| == |events'| + 1
    ensures forall i :: |events| <= i < |events'| ==> events'[i].OfLoop? && events'[i].c == c
    ensures c in run'[|events'|].conns && run'[|events'|].conns[c].loop.Gone?
  {
    hide IsServerRun, LoopSpelled, IsPath, HasBusiness;
    PlaceSpells(run, events, c);
    SpelledBusiness(run[|events|].conns[c].loop, LoopSteps(events, c));
    var b, y := LoopToTheEnd(run[|events|], c);
    Extended(run, events, b, y);
    run', events' := run + b[1..], events + y;
    assert run'[|events| + |y|] == b[|y|];
  }
}
