/** The whole server: session registry and link traffic as one step system, in which a handler picks only a
    connection that is listed, and a connection's loop and its session go through their stages together. */
module ServerSessions {
  import opened Bytes
  import opened LinkServer
  import opened ServerRuns
  import opened LinkCleanup
  import opened Releasing
  import Handshake
  import S = Sessions

  datatype Host = Host(reg: S.Registry, srv: Server)

  const HOST_INIT := Host(S.NO_SESSIONS, INIT)

  datatype HostEvent =
    | Gateway(e: S.SessionEvent)
    | Traffic(t: Event)

  /** The registry has an entry of connection `c`. */
  ghost predicate IsListed(r: S.Registry, c: nat) {
    exists a :: a in r.sessions && r.sessions[a].peer == c
  }

  /** What a step means for the session of a connection: its loop takes a packet, or is left. */
  function SessionPart(x: HostEvent): Option<S.SessionEvent> {
    match x
    case Gateway(e) => Some(e)
    case Traffic(OfLoop(c, Eof)) => Some(S.Leave(c))
    case Traffic(OfLoop(c, Recv(p, d))) =>
      if Dispatch(p, d).Leaving? then Some(S.Leave(c)) else Some(S.SessionEvent.Dispatch(c))
    case _ => None
  }

  /** What a step means for the links: a connection is listed, or its loop spawned. */
  function ServerPart(h: Host, x: HostEvent): Option<Event> {
    match x
    case Gateway(List(c)) => if c < |h.reg.peers| then Some(Register(c, h.reg.peers[c].addr)) else None
    case Gateway(Spawn(c)) => Some(OfLoop(c, LoopEvent.Spawn))
    case Gateway(_) => None
    case Traffic(t) => Some(t)
  }

  /** A handler reads the registry while no shutdown holds it, and picks a listed connection, or none if there is
      none; a cleanup gets to the registry when it is through with the links. */
  ghost predicate InOrder(h: Host, x: HostEvent) {
    match x
    case Gateway(Dispatch(_)) => false
    case Gateway(Leave(_)) => false
    case Gateway(Unlist(c)) => c in h.srv.conns && h.srv.conns[c].loop.Gone?
    case Gateway(_) => true
    case Traffic(Register(_, _)) => false
    case Traffic(OfLoop(_, Spawn)) => false
    case Traffic(OfTask(_, Pick(c))) => h.reg.draining.None? && IsListed(h.reg, c)
    case Traffic(OfTask(_, Reject)) => h.reg.draining.None? && h.reg.sessions == map[]
    case Traffic(_) => true
  }

  ghost predicate CanGo(h: Host, x: HostEvent) {
    && InOrder(h, x)
    && (SessionPart(x).Some? ==> S.CanStep(h.reg, SessionPart(x).value))
    && (ServerPart(h, x).Some? ==> Enabled(h.srv, ServerPart(h, x).value))
  }

  ghost function Go(g: S.Guard, h: Host, x: HostEvent): Host
    requires CanGo(h, x)
  {
    Host(
      if SessionPart(x).Some? then S.StepSession(g, h.reg, SessionPart(x).value) else h.reg,
      if ServerPart(h, x).Some? then Step(h.srv, ServerPart(h, x).value) else h.srv)
  }

  ghost predicate HostGoes(g: S.Guard, h: Host, x: HostEvent, h': Host) {
    CanGo(h, x) && h' == Go(g, h, x)
  }

  ghost predicate IsHostRun(g: S.Guard, run: seq<Host>, xs: seq<HostEvent>) {
    && |run| == |xs| + 1 && run[0] == HOST_INIT
    && forall i :: 0 <= i < |xs| ==> HostGoes(g, run[i], xs[i], run[i + 1])
  }

  lemma StepTaken(g: S.Guard, run: seq<Host>, xs: seq<HostEvent>, i: nat)
    requires IsHostRun(g, run, xs) && i < |xs|
    ensures |run| == |xs| + 1 && HostGoes(g, run[i], xs[i], run[i + 1])
  {
    hide HostGoes;
  }

  lemma Before(g: S.Guard, run: seq<Host>, xs: seq<HostEvent>, i: nat)
    requires IsHostRun(g, run, xs) && i <= |xs|
    ensures IsHostRun(g, run[..i + 1], xs[..i])
  {
    hide HostGoes;
  }

  // ----- The run of either half -----

  /** The steps of a run that are steps of the sessions. */
  function SessionEvents(xs: seq<HostEvent>): seq<S.SessionEvent> {
    if xs == [] then [] else
      var n := |xs| - 1;
      SessionEvents(xs[..n]) + if SessionPart(xs[n]).Some? then [SessionPart(xs[n]).value] else []
  }

  lemma {:induction false} SessionHalf(g: S.Guard, run: seq<Host>, xs: seq<HostEvent>) returns (rs: seq<S.Registry>)
    requires IsHostRun(g, run, xs)
    ensures S.IsSessionRun(g, rs, SessionEvents(xs)) && |rs| == |SessionEvents(xs)| + 1 && rs[|rs| - 1] == run[|xs|].reg
  {
    if |xs| == 0 {
      rs := [S.NO_SESSIONS];
    } else {
      var n := |xs| - 1;
      Before(g, run, xs, n);
      rs := SessionHalf(g, run[..n + 1], xs[..n]);
      assert HostGoes(g, run[n], xs[n], run[n + 1]);
      hide S.CanStep, S.StepSession, InOrder;
      if SessionPart(xs[n]).Some? {
        rs := rs + [run[n + 1].reg];
      }
    }
  }

  /** Step `m` of the server half is one of the run. */
  ghost predicate Covered(run: seq<Host>, xs: seq<HostEvent>, at: seq<nat>, m: nat, e: Event) {
    |run| == |xs| + 1 == |at| && exists i :: 0 <= i < |xs| && at[i] == m && ServerPart(run[i], xs[i]) == Some(e)
  }

  /** `rs` with `es` is the server half of the run, and point `i` of the run is point `at[i]` of it. */
  ghost predicate IsServerHalf(run: seq<Host>, xs: seq<HostEvent>, rs: seq<Server>, es: seq<Event>, at: seq<nat>) {
    && |run| == |xs| + 1 && |at| == |run| && |rs| == |es| + 1 && at[|xs|] == |es|
    && (forall i :: 0 <= i < |run| ==> at[i] < |rs| && run[i].srv == rs[at[i]])
    && (forall i, j :: 0 <= i < j < |run| ==> at[i] <= at[j])
    && (forall i :: 0 <= i < |xs| && ServerPart(run[i], xs[i]).Some? ==>
          at[i + 1] == at[i] + 1 && es[at[i]] == ServerPart(run[i], xs[i]).value)
    && (forall m :: 0 <= m < |es| ==> Covered(run, xs, at, m, es[m]))
  }

  lemma Longer(rs: seq<Server>, es: seq<Event>, e: Event)
    requires IsServerRun(rs, es) && Enabled(rs[|es|], e)
    ensures IsServerRun(rs + [Step(rs[|es|], e)], es + [e])
  {
    hide Enabled, Step;
  }

  lemma RunLength(rs: seq<Server>, es: seq<Event>)
    requires IsServerRun(rs, es)
    ensures |rs| == |es| + 1
  {
  }

  lemma GoesServer(g: S.Guard, h: Host, x: HostEvent, h': Host)
    requires HostGoes(g, h, x, h')
    ensures match ServerPart(h, x)
      case None => h'.srv == h.srv
      case Some(e) => Enabled(h.srv, e) && h'.srv == Step(h.srv, e)
  {
  }

  lemma {:induction false} ServerHalf(g: S.Guard, run: seq<Host>, xs: seq<HostEvent>)
    returns (rs: seq<Server>, es: seq<Event>, at: seq<nat>)
    requires IsHostRun(g, run, xs)
    ensures IsServerRun(rs, es) && IsServerHalf(run, xs, rs, es, at)
  {
    if |xs| == 0 {
      rs, es, at := [INIT], [], [0];
    } else {
      var n := |xs| - 1;
      Before(g, run, xs, n);
      rs, es, at := ServerHalf(g, run[..n + 1], xs[..n]);
      assert HostGoes(g, run[n], xs[n], run[n + 1]);
      RunLength(rs, es);
      var part := ServerPart(run[n], xs[n]);
      GoesServer(g, run[n], xs[n], run[n + 1]);
      assert run[..n + 1] + [run[n + 1]] == run && xs[..n] + [xs[n]] == xs;
      HalfEnds(run[..n + 1], xs[..n], rs, es, at);
      hide IsHostRun, HostGoes, Enabled, Step, ServerPart, IsServerHalf, IsServerRun;
      if part.Some? {
        Longer(rs, es, part.value);
        HalfGrows(run[..n + 1], xs[..n], rs, es, at, run[n + 1], xs[n], part.value);
        rs, es, at := rs + [run[n + 1].srv], es + [part.value], at + [|es| + 1];
      } else {
        HalfStays(run[..n + 1], xs[..n], rs, es, at, run[n + 1], xs[n]);
        at := at + [|es|];
      }
    }
  }

  lemma HalfEnds(run: seq<Host>, xs: seq<HostEvent>, rs: seq<Server>, es: seq<Event>, at: seq<nat>)
    requires IsServerHalf(run, xs, rs, es, at)
    ensures run[|xs|].srv == rs[|es|]
  {
  }

  lemma CoveredOn(run: seq<Host>, xs: seq<HostEvent>, at: seq<nat>, m: nat, e: Event, h: Host, x: HostEvent, p: nat)
    requires Covered(run, xs, at, m, e)
    ensures Covered(run + [h], xs + [x], at + [p], m, e)
  {
    var i :| 0 <= i < |xs| && at[i] == m && ServerPart(run[i], xs[i]) == Some(e);
    hide ServerPart;
    assert (run + [h])[i] == run[i] && (xs + [x])[i] == xs[i] && (at + [p])[i] == m;
  }

  lemma HalfGrows(
    run: seq<Host>, xs: seq<HostEvent>, rs: seq<Server>, es: seq<Event>, at: seq<nat>, h: Host, x: HostEvent, e: Event)
    requires IsServerHalf(run, xs, rs, es, at) && ServerPart(run[|xs|], x) == Some(e)
    ensures IsServerHalf(run + [h], xs + [x], rs + [h.srv], es + [e], at + [|es| + 1])
  {
    hide ServerPart;
    var run', xs', es', at' := run + [h], xs + [x], es + [e], at + [|es| + 1];
    forall m | 0 <= m < |es'| ensures Covered(run', xs', at', m, es'[m]) {
      if m < |es| {
        CoveredOn(run, xs, at, m, es[m], h, x, |es| + 1);
      } else {
        assert at'[|xs|] == m && run'[|xs|] == run[|xs|];
      }
    }
    hide Covered;
    forall i | 0 <= i < |xs'| && ServerPart(run'[i], xs'[i]).Some?
      ensures at'[i + 1] == at'[i] + 1 && es'[at'[i]] == ServerPart(run'[i], xs'[i]).value
    {
      if i < |xs| {
        assert run'[i] == run[i] && xs'[i] == xs[i] && at'[i] == at[i] && at'[i + 1] == at[i + 1] && at[i + 1] <= at[|xs|];
      }
    }
    forall i | 0 <= i < |run'| ensures at'[i] < |rs| + 1 && run'[i].srv == (rs + [h.srv])[at'[i]] {
      if i < |run| {
        assert at'[i] == at[i];
      }
    }
  }

  lemma HalfStays(
    run: seq<Host>, xs: seq<HostEvent>, rs: seq<Server>, es: seq<Event>, at: seq<nat>, h: Host, x: HostEvent)
    requires IsServerHalf(run, xs, rs, es, at) && ServerPart(run[|xs|], x).None? && h.srv == run[|xs|].srv
    ensures IsServerHalf(run + [h], xs + [x], rs, es, at + [|es|])
  {
    hide ServerPart;
    forall m | 0 <= m < |es| ensures Covered(run + [h], xs + [x], at + [|es|], m, es[m]) {
      CoveredOn(run, xs, at, m, es[m], h, x, |es|);
    }
    hide Covered;
  }

  // ----- Sessions and loops keep pace -----

  predicate InExchange(l: Loop) {
    !l.Fresh? && !l.Leaving? && !InCleanup(l)
  }

  /** Where the session is, seen from where the loop is. */
  predicate InPace(p: S.Phase, l: Loop) {
    match p
    case Listed(_) => l.Fresh?
    case Serving(_) => InExchange(l)
    case Left(_) => l.Leaving? || InCleanup(l)
    case Unlisted(_) => l.Gone?
    case Over => l.Gone?
    case _ => false
  }

  ghost predicate Paced(h: Host) {
    && (forall c :: c in h.srv.conns ==>
          c < |h.reg.peers| && h.reg.peers[c].addr == h.srv.conns[c].addr
          && InPace(h.reg.peers[c].phase, h.srv.conns[c].loop))
    && (forall c :: 0 <= c < |h.reg.peers| && c !in h.srv.conns ==>
          !S.MayBeListed(h.reg.peers[c].phase) && !h.reg.peers[c].phase.Unlisted?)
    && (forall k :: 0 <= k < |h.srv.tasks| && h.srv.tasks[k].stage.Picking? ==> h.srv.tasks[k].conn.None?)
  }

  lemma TasksPaced(s: Server, e: Event)
    requires Enabled(s, e)
    requires forall k :: 0 <= k < |s.tasks| && s.tasks[k].stage.Picking? ==> s.tasks[k].conn.None?
    ensures forall k :: 0 <= k < |Step(s, e).tasks| && Step(s, e).tasks[k].stage.Picking? ==> Step(s, e).tasks[k].conn.None?
  {
    match e
    case OfTask(j, te) => TaskPaced(s, j, te); hide StepTask, TaskEnabled;
    case OfLoop(c, le) => LoopEffect(s, c, le); hide StepLoop, LoopEnabled;
    case _ =>
  }

  lemma TaskPaced(s: Server, j: nat, te: TaskEvent)
    requires TaskEnabled(s, j, te)
    requires forall k :: 0 <= k < |s.tasks| && s.tasks[k].stage.Picking? ==> s.tasks[k].conn.None?
    ensures var s' := StepTask(s, j, te);
      forall k :: 0 <= k < |s'.tasks| && s'.tasks[k].stage.Picking? ==> s'.tasks[k].conn.None?
  {
  }

  lemma LoopsPaced(s: Server, c: nat, le: LoopEvent)
    requires LoopEnabled(s, c, le)
    ensures var l, l' := s.conns[c].loop, NextLoop(s, c, le);
      && (InExchange(l) ==> InExchange(l') || (l'.Leaving? && (le.Eof? || (le.Recv? && Dispatch(le.packet, le.data).Leaving?))))
      && (le.Eof? || (le.Recv? && Dispatch(le.packet, le.data).Leaving?) ==> l.Idle? && l'.Leaving?)
      && (le.Recv? ==> l.Idle? && l' == Dispatch(le.packet, le.data))
      && (l.Leaving? || InCleanup(l) ==> InCleanup(l') && !l.Gone?)
      && (l.Fresh? ==> le.Spawn? && InExchange(l')) && (le.Spawn? ==> l.Fresh?)
  {
  }

  /** A step of the traffic changes one loop at most. */
  lemma ConnsAfter(s: Server, e: Event)
    requires Enabled(s, e)
    ensures Step(s, e).conns ==
      match e
      case Register(c, addr) => s.conns[c := Conn(addr, Fresh)]
      case OfLoop(c, le) => s.conns[c := s.conns[c].(loop := NextLoop(s, c, le))]
      case _ => s.conns
  {
    match e
    case OfTask(k, te) => TaskRecords(s, k, te); hide StepTask;
    case OfLoop(c, le) => LoopEffect(s, c, le); hide StepLoop, NextLoop;
    case _ =>
  }

  /** What a step of a session does to where the sessions are. */
  lemma PhasesAfter(g: S.Guard, r: S.Registry, e: S.SessionEvent)
    requires S.CanStep(r, e)
    ensures S.StepSession(g, r, e).peers ==
      if e.Accept? then r.peers + [S.Peer(e.addr, S.Accepted)]
      else if S.OfPeer(e) then r.peers[e.c := r.peers[e.c].(phase := S.NextPhase(g, r, e))]
      else r.peers
  {
    hide S.NextPhase;
  }


  lemma GatewayPaced(g: S.Guard, h: Host, e: S.SessionEvent)
    requires Paced(h) && CanGo(h, Gateway(e))
    ensures Paced(Go(g, h, Gateway(e)))
  {
    if ServerPart(h, Gateway(e)).Some? {
      LoopBornPaced(g, h, e);
    } else {
      SessionPaced(g, h, e);
    }
  }

  lemma LoopBornPaced(g: S.Guard, h: Host, e: S.SessionEvent)
    requires Paced(h) && CanGo(h, Gateway(e)) && (e.List? || e.Spawn?)
    ensures Paced(Go(g, h, Gateway(e)))
  {
    PhasesAfter(g, h.reg, e);
    var part := ServerPart(h, Gateway(e)).value;
    ConnsAfter(h.srv, part);
    TasksPaced(h.srv, part);
    if e.Spawn? {
      LoopsPaced(h.srv, e.c, LoopEvent.Spawn);
    }
    hide Step, NextLoop, S.StepSession, LoopEnabled, TaskEnabled, InCleanup, InExchange;
  }

  lemma SessionPaced(g: S.Guard, h: Host, e: S.SessionEvent)
    requires Paced(h) && CanGo(h, Gateway(e)) && !e.List? && !e.Spawn?
    ensures Paced(Go(g, h, Gateway(e)))
  {
    PhasesAfter(g, h.reg, e);
    hide Handshake.Pronounce, S.StepSession, InCleanup, InExchange;
  }

  lemma TrafficPaced(g: S.Guard, h: Host, t: Event)
    requires Paced(h) && CanGo(h, Traffic(t))
    ensures Paced(Go(g, h, Traffic(t)))
  {
    ConnsAfter(h.srv, t);
    TasksPaced(h.srv, t);
    if t.OfLoop? {
      LoopsPaced(h.srv, t.c, t.le);
    }
    if SessionPart(Traffic(t)).Some? {
      PhasesAfter(g, h.reg, SessionPart(Traffic(t)).value);
    }
    hide Step, NextLoop, Handshake.Pronounce, S.StepSession, LoopEnabled, TaskEnabled;
  }

  lemma GoesPaced(g: S.Guard, h: Host, x: HostEvent, h': Host)
    requires Paced(h) && HostGoes(g, h, x, h')
    ensures Paced(h')
  {
    match x
    case Gateway(e) => GatewayPaced(g, h, e);
    case Traffic(t) => TrafficPaced(g, h, t);
  }

  /** In every run of the whole server, at every point: a connection has a loop exactly from its listing on, at the
      stage that its session is at, and under the address it connected from. */
  lemma {:induction false} SessionsKeepPace(g: S.Guard, run: seq<Host>, xs: seq<HostEvent>, i: nat)
    requires IsHostRun(g, run, xs) && i < |run|
    ensures Paced(run[i])
  {
    if i > 0 {
      SessionsKeepPace(g, run, xs, i - 1);
      assert HostGoes(g, run[i - 1], xs[i - 1], run[i]);
      hide IsHostRun, Paced, HostGoes;
      GoesPaced(g, run[i - 1], xs[i - 1], run[i]);
    }
  }

  // ----- Nothing is picked after it is unlisted -----

  /** The connection was listed once, and is no longer. */
  ghost predicate Delisted(h: Host, c: nat) {
    c in h.srv.conns && !IsListed(h.reg, c)
  }

  lemma EntriesAfter(g: S.Guard, r: S.Registry, e: S.SessionEvent, c: nat)
    requires S.CanStep(r, e) && IsListed(S.StepSession(g, r, e), c)
    ensures IsListed(r, c) || (e == S.List(c) && c < |r.peers| && r.peers[c].phase.Saved?)
  {
    S.RegistryEffect(g, r, e);
    var r' := S.StepSession(g, r, e);
    var a :| a in r'.sessions && r'.sessions[a].peer == c;
    assert e.List? ==> S.At(r, e.c) && r.peers[e.c].phase.Saved?;
    hide S.StepSession, S.CanStep;
    if !(e.List? && r.peers[e.c].addr == a) {
      assert a in r.sessions && r.sessions[a].peer == c;
    }
  }

  /** A connection that has lost its entry never gets one again, and no handler can pick it. */
  lemma StaysDelisted(g: S.Guard, h: Host, x: HostEvent, h': Host, c: nat)
    requires Paced(h) && Delisted(h, c) && HostGoes(g, h, x, h')
    ensures Delisted(h', c)
    ensures forall k :: x != Traffic(OfTask(k, Pick(c)))
  {
    if ServerPart(h, x).Some? {
      ConnsAfter(h.srv, ServerPart(h, x).value);
    }
    assert !h.reg.peers[c].phase.Saved?;
    if IsListed(h'.reg, c) {
      EntriesAfter(g, h.reg, SessionPart(x).value, c);
    }
    hide Step, Paced, S.StepSession, S.CanStep, NextLoop, LoopEnabled, TaskEnabled, IsListed;
  }

  /** In every run: once the entry of a connection has left the registry, whether by its own cleanup, by a newer
      connection from the same address or by a shutdown, it never comes back, and no handler picks the connection
      any more. */
  lemma {:induction false} NotPickedOnceDelisted(g: S.Guard, run: seq<Host>, xs: seq<HostEvent>, i: nat, j: nat, c: nat)
    requires IsHostRun(g, run, xs) && i <= j <= |xs| && Delisted(run[i], c)
    ensures Delisted(run[j], c)
    ensures j < |xs| ==> forall k :: xs[j] != Traffic(OfTask(k, Pick(c)))
    decreases j
  {
    hide Paced, HostGoes, Delisted;
    if i < j {
      NotPickedOnceDelisted(g, run, xs, i, j - 1, c);
      SessionsKeepPace(g, run, xs, j - 1);
      StaysDelisted(g, run[j - 1], xs[j - 1], run[j], c);
    }
    if j < |xs| {
      SessionsKeepPace(g, run, xs, j);
      StaysDelisted(g, run[j], xs[j], run[j + 1], c);
    }
  }

  // ----- Only proved clients get links -----

  lemma ProvedStill(g: S.Guard, es: seq<S.SessionEvent>, fs: seq<S.SessionEvent>, c: nat)
    requires S.ProvedItself(g, es, |es|, c) && es <= fs
    ensures S.ProvedItself(g, fs, |fs|, c)
  {
    hide Handshake.Pronounce;
  }

  /** In every run of the whole server: a handler has picked, and so opens links to, only a connection that was sent a
      challenge and answered that very challenge with a response that verifies. */
  lemma {:induction false} LinksOnlyToProved(g: S.Guard, run: seq<Host>, xs: seq<HostEvent>, k: nat, c: nat)
    requires IsHostRun(g, run, xs)
    requires k < |run[|xs|].srv.tasks| && run[|xs|].srv.tasks[k].conn == Some(c)
    ensures S.ProvedItself(g, SessionEvents(xs), |SessionEvents(xs)|, c)
  {
    hide S.ProvedItself, IsHostRun, HostGoes, SessionEvents, S.IsSessionRun, Enabled, Step, IsListed;
    StartsEmpty(g, run, xs);
    if |xs| > 0 {
      var n := |xs| - 1;
      var h, x, h' := run[n], xs[n], run[n + 1];
      Before(g, run, xs, n);
      StepTaken(g, run, xs, n);
      EventsGrow(xs);
      if k < |h.srv.tasks| && h.srv.tasks[k].conn == Some(c) {
        LinksOnlyToProved(g, run[..n + 1], xs[..n], k, c);
      } else {
        NewlyPicked(g, h, x, h', k, c);
        var rs := SessionHalf(g, run[..n + 1], xs[..n]);
        ListedProved(g, rs, SessionEvents(xs[..n]), c);
      }
      ProvedStill(g, SessionEvents(xs[..n]), SessionEvents(xs), c);
    }
  }

  lemma StartsEmpty(g: S.Guard, run: seq<Host>, xs: seq<HostEvent>)
    requires IsHostRun(g, run, xs)
    ensures |run| == |xs| + 1 && run[0] == HOST_INIT
  {
  }

  lemma EventsGrow(xs: seq<HostEvent>)
    requires |xs| > 0
    ensures SessionEvents(xs[..|xs| - 1]) <= SessionEvents(xs)
  {
  }

  lemma NewlyPicked(g: S.Guard, h: Host, x: HostEvent, h': Host, k: nat, c: nat)
    requires HostGoes(g, h, x, h') && k < |h'.srv.tasks| && h'.srv.tasks[k].conn == Some(c)
    requires !(k < |h.srv.tasks| && h.srv.tasks[k].conn == Some(c))
    ensures IsListed(h.reg, c)
  {
    GoesServer(g, h, x, h');
    hide Enabled, Step, IsListed;
    ConnByPick(h.srv, ServerPart(h, x).value, c, k);
  }

  lemma ListedProved(g: S.Guard, rs: seq<S.Registry>, es: seq<S.SessionEvent>, c: nat)
    requires S.IsSessionRun(g, rs, es) && |rs| == |es| + 1 && IsListed(rs[|es|], c)
    ensures S.ProvedItself(g, es, |es|, c)
  {
    hide S.ProvedItself, S.IsSessionRun;
    S.AuthenticatedOnly(g, rs, es, |es|);
  }
}
