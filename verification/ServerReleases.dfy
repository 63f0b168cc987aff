/** What a cleanup leaves of its connection's links in the whole server, where handlers pick listed connections only. */
module ServerReleases {
  import opened Bytes
  import opened LinkServer
  import opened ServerRuns
  import opened CleanupLinks
  import opened LinkCleanup
  import opened Releasing
  import opened ServerSessions
  import S = Sessions

  // ----- Once the entry is gone -----

  /** A handler that has picked connection `c` has its link still to register, or has it registered. */
  ghost predicate Remains(s: Server, c: nat) {
    exists k: nat :: k < |s.tasks| && s.tasks[k].conn == Some(c) && (s.tasks[k].stage.Picked? || InRegistry(s, k))
  }

  /** A link of connection `c` is registered. */
  predicate Registers(s: Server, c: nat, k: nat) {
    k < |s.tasks| && s.tasks[k].conn == Some(c) && InRegistry(s, k)
  }

  lemma NoneRemains(g: S.Guard, h: Host, x: HostEvent, h': Host, c: nat)
    requires Paced(h) && HostGoes(g, h, x, h') && !Remains(h.srv, c)
    requires forall k :: x != Traffic(OfTask(k, Pick(c)))
    ensures !Remains(h'.srv, c)
  {
    if ServerPart(h, x).Some? && Remains(h'.srv, c) {
      var e := ServerPart(h, x).value;
      var s, s' := h.srv, h'.srv;
      var k: nat :| k < |s'.tasks| && s'.tasks[k].conn == Some(c) && (s'.tasks[k].stage.Picked? || InRegistry(s', k));
      ConnByPick(s, e, c, k);
      assert !Picks(e, c);
      assert s.tasks[k].conn == Some(c) && !s.tasks[k].stage.Picking?;
      StepLater(s, e);
      PickedFrom(s, e, k);
      hide Step, Enabled;
    }
  }

  lemma PickedFrom(s: Server, e: Event, k: nat)
    requires Enabled(s, e) && k < |s.tasks| && k < |Step(s, e).tasks| && Step(s, e).tasks[k].stage.Picked?
    ensures s.tasks[k].stage.Picked? || s.tasks[k].stage.Picking?
  {
    match e
    case OfTask(j, te) => TaskPicked(s, j, te, k); hide StepTask, TaskEnabled;
    case OfLoop(c, le) => LoopEffect(s, c, le); hide StepLoop, LoopEnabled;
    case _ =>
  }

  lemma TaskPicked(s: Server, j: nat, te: TaskEvent, k: nat)
    requires TaskEnabled(s, j, te) && k < |s.tasks| && StepTask(s, j, te).tasks[k].stage.Picked?
    ensures s.tasks[k].stage.Picked? || s.tasks[k].stage.Picking?
  {
  }

  lemma {:induction false} NoneRemainsFrom(g: S.Guard, run: seq<Host>, xs: seq<HostEvent>, i: nat, j: nat, c: nat)
    requires IsHostRun(g, run, xs) && |run| == |xs| + 1 && i <= j <= |xs| && Delisted(run[i], c) && !Remains(run[i].srv, c)
    ensures !Remains(run[j].srv, c)
    decreases j
  {
    hide IsHostRun, Paced, HostGoes, Delisted, Remains;
    if i < j {
      StepTaken(g, run, xs, j - 1);
      NoneRemainsFrom(g, run, xs, i, j - 1, c);
      SessionsKeepPace(g, run, xs, j - 1);
      NotPickedOnceDelisted(g, run, xs, i, j - 1, c);
      NoneRemains(g, run[j - 1], xs[j - 1], run[j], c);
    }
  }

  ghost predicate NoneRegistered(run: seq<Host>, i: nat, c: nat) {
    forall j: nat, k: nat :: i <= j < |run| ==> !Registers(run[j].srv, c, k)
  }

  /** For every run of the whole server up to a point where a connection has lost its entry: no link of the connection is
      registered then or at any time later, in whatever happens next, if and only if none is registered at that
      point and no handler that picked the connection earlier has its link still to register. */
  lemma GoneForGoodIffNoneRemains(g: S.Guard, run: seq<Host>, xs: seq<HostEvent>, c: nat)
    requires IsHostRun(g, run, xs) && Delisted(run[|xs|], c)
    ensures (forall run': seq<Host>, xs': seq<HostEvent> ::
               IsHostRun(g, run', xs') && run <= run' && xs <= xs' ==> NoneRegistered(run', |xs|, c)) <==>
            !Remains(run[|xs|].srv, c)
  {
    var h := run[|xs|];
    if !Remains(h.srv, c) {
      forall run': seq<Host>, xs': seq<HostEvent> | IsHostRun(g, run', xs') && run <= run' && xs <= xs'
        ensures NoneRegistered(run', |xs|, c)
      {
        forall j: nat, k: nat | |xs| <= j < |run'| ensures !Registers(run'[j].srv, c, k) {
          assert run'[|xs|] == h;
          NoneRemainsFrom(g, run', xs', |xs|, j, c);
        }
      }
    } else {
      var k: nat :| k < |h.srv.tasks| && h.srv.tasks[k].conn == Some(c) && (h.srv.tasks[k].stage.Picked? || InRegistry(h.srv, k));
      if InRegistry(h.srv, k) {
        assert run[|xs|] == h && Registers(run[|xs|].srv, c, k);
        assert IsHostRun(g, run, xs) && run <= run && xs <= xs && !NoneRegistered(run, |xs|, c);
      } else {
        var h' := Host(h.reg, Step(h.srv, OfTask(k, AddLink)));
        var run', xs' := run + [h'], xs + [Traffic(OfTask(k, AddLink))];
        assert HostGoes(g, h, Traffic(OfTask(k, AddLink)), h') && Registers(h'.srv, c, k);
        hide HostGoes, Registers, Remains, Delisted;
        assert IsHostRun(g, run', xs') && run <= run' && xs <= xs' && run'[|xs| + 1] == h';
        assert !NoneRegistered(run', |xs|, c);
      }
    }
  }

  // ----- From the collecting step on -----

  /** No id is issued that is live or that a cleanup has still to unlink. */
  ghost predicate IdsInOrder(run: seq<Host>, xs: seq<HostEvent>) {
    |run| == |xs| + 1 && forall i :: 0 <= i < |xs| && xs[i] == Traffic(Alloc) ==> NextIdFree(run[i].srv) && NotPending(run[i].srv)
  }

  lemma HalfInOrder(run: seq<Host>, xs: seq<HostEvent>, rs: seq<Server>, es: seq<Event>, at: seq<nat>)
    requires IsServerHalf(run, xs, rs, es, at) && IdsInOrder(run, xs)
    ensures IdsFresh(rs, es) && PendingKept(rs, es)
  {
    hide NextIdFree, NotPending;
    forall m | 0 <= m < |es| && es[m].Alloc? ensures NextIdFree(rs[m]) && NotPending(rs[m]) {
      assert Covered(run, xs, at, m, es[m]);
      var i :| 0 <= i < |xs| && at[i] == m && ServerPart(run[i], xs[i]) == Some(es[m]);
      assert xs[i] == Traffic(Alloc);
    }
  }

  /** No handler picks connection `c` from point `i` to point `u`, where the connection has lost its entry, or the run
      ends. */
  ghost predicate LeftAlone(run: seq<Host>, xs: seq<HostEvent>, i: nat, u: nat, c: nat) {
    && |run| == |xs| + 1 && i <= u <= |xs| && (u == |xs| || Delisted(run[u], c))
    && forall n, k :: i <= n < u ==> xs[n] != Traffic(OfTask(k, Pick(c)))
  }

  /** Then none picks it at all. */
  lemma NeverPicked(g: S.Guard, run: seq<Host>, xs: seq<HostEvent>, i: nat, u: nat, c: nat, n: nat, k: nat)
    requires IsHostRun(g, run, xs) && LeftAlone(run, xs, i, u, c) && i <= n < |xs|
    ensures xs[n] != Traffic(OfTask(k, Pick(c)))
  {
    if u <= n {
      NotPickedOnceDelisted(g, run, xs, u, n, c);
    }
  }

  lemma HalfNoPick(
    g: S.Guard, run: seq<Host>, xs: seq<HostEvent>, rs: seq<Server>, es: seq<Event>, at: seq<nat>, i: nat, u: nat, c: nat)
    requires IsHostRun(g, run, xs) && IsServerHalf(run, xs, rs, es, at) && i < |xs| && LeftAlone(run, xs, i, u, c)
    ensures NoPick(es, at[i], c)
  {
    forall m | at[i] <= m < |es| ensures !Picks(es[m], c) {
      assert Covered(run, xs, at, m, es[m]);
      var n :| 0 <= n < |xs| && at[n] == m && ServerPart(run[n], xs[n]) == Some(es[m]);
      assert at[n + 1] == m + 1;
      if Picks(es[m], c) {
        NeverPicked(g, run, xs, i, u, c, n, es[m].k);
      }
    }
  }

  /** A cleanup releases every link of its connection if each was routed, and none still to be registered, when it
      collected the routes, and no handler picks the connection between then and the removal of its entry: after
      the cleanup none is ever registered again. */
  lemma ReleasedIfLeftAlone(g: S.Guard, run: seq<Host>, xs: seq<HostEvent>, i: nat, u: nat, j: nat, c: nat, k: nat)
    requires IsHostRun(g, run, xs) && IdsInOrder(run, xs)
    requires i < j < |run| && xs[i] == Traffic(OfLoop(c, Collect)) && AllRouted(run[i].srv, c) && LeftAlone(run, xs, i, u, c)
    ensures !LeftBehind(run[j].srv, c, k)
  {
    var rs, es, at := ServerHalf(g, run, xs);
    HalfInOrder(run, xs, rs, es, at);
    HalfNoPick(g, run, xs, rs, es, at, i, u, c);
    var n := at[i];
    assert at[i + 1] == n + 1 && es[n] == OfLoop(c, Collect);
    var sooner, before := rs[..n + 1], es[..n];
    Part(rs, es, n);
    hide IsHostRun, IsServerRun, IdsFresh, PendingKept, NoPick, LeftBehind, AllRouted, LeftAlone, IdsInOrder;
    assert Collects(rs, es, n, c);
    assert GoesOn(sooner, before, c, rs, es);
    RoutedAreReleased(sooner, before, c, rs, es, at[j], k);
  }

  lemma Part(rs: seq<Server>, es: seq<Event>, n: nat)
    requires IsServerRun(rs, es) && IdsFresh(rs, es) && PendingKept(rs, es) && n <= |es|
    ensures IsServerRun(rs[..n + 1], es[..n]) && IdsFresh(rs[..n + 1], es[..n])
    ensures rs[..n + 1] <= rs && es[..n] <= es && |rs[..n + 1]| == n + 1 && rs[..n + 1][n] == rs[n]
  {
    hide Enabled, Step, NextIdFree, NotPending;
  }

  // ----- Exactly when a cleanup is certain to release everything -----

  /** A shutdown that holds the registry has emptied it. */
  ghost predicate DrainEmpties(r: S.Registry) {
    r.draining.Some? ==> r.sessions == map[]
  }

  lemma StepDrains(g: S.Guard, r: S.Registry, e: S.SessionEvent)
    requires DrainEmpties(r) && S.CanStep(r, e)
    ensures DrainEmpties(S.StepSession(g, r, e))
  {
    hide Handshake.Pronounce;
  }

  lemma {:induction false} RunDrains(g: S.Guard, run: seq<Host>, xs: seq<HostEvent>, i: nat)
    requires IsHostRun(g, run, xs) && i < |run|
    ensures DrainEmpties(run[i].reg)
  {
    if i > 0 {
      RunDrains(g, run, xs, i - 1);
      StepTaken(g, run, xs, i - 1);
      hide IsHostRun, DrainEmpties, S.CanStep, S.StepSession, Enabled, Step, InOrder;
      if SessionPart(xs[i - 1]).Some? {
        StepDrains(g, run[i - 1].reg, SessionPart(xs[i - 1]).value);
      }
    }
  }

  /** Steps of the links that mean nothing to the sessions, and that the registry allows. */
  ghost predicate Free(r: S.Registry, e: Event) {
    match e
    case OfTask(_, Pick(c)) => r.draining.None? && IsListed(r, c)
    case OfTask(_, AddLink) => true
    case OfLoop(_, le) => le.Collect? || le.CleanNext? || le.CleanShut? || le.CleanDone?
    case _ => false
  }

  /** The whole server can take such a path. */
  lemma {:induction false} HostFollows(g: S.Guard, run: seq<Host>, xs: seq<HostEvent>, b: seq<Server>, y: seq<Event>)
    returns (run': seq<Host>, xs': seq<HostEvent>)
    requires IsHostRun(g, run, xs) && IsPath(b, y) && |b| == |y| + 1 && b[0] == run[|xs|].srv
    requires forall n :: 0 <= n < |y| ==> Free(run[|xs|].reg, y[n])
    ensures IsHostRun(g, run', xs') && run <= run' && xs <= xs' && |xs'| == |xs| + |y|
    ensures forall n :: 0 <= n < |y| ==> xs'[|xs| + n] == Traffic(y[n])
    ensures run'[|xs'|].srv == b[|y|]
    decreases |y|
  {
    if |y| == 0 {
      run', xs' := run, xs;
    } else {
      var h := run[|xs|];
      var h' := Host(h.reg, b[1]);
      assert Leads(b[0], y[0], b[1]);
      FreeGoes(g, h, y[0], h');
      Extends(g, run, xs, Traffic(y[0]), h');
      TailIsPath(b, y);
      hide IsHostRun, IsPath, Leads, Free, HostGoes;
      run', xs' := HostFollows(g, run + [h'], xs + [Traffic(y[0])], b[1..], y[1..]);
      forall n | 0 <= n < |y| ensures xs'[|xs| + n] == Traffic(y[n]) {
        if n > 0 {
          assert y[1..][n - 1] == y[n];
        }
      }
    }
  }

  lemma FreeGoes(g: S.Guard, h: Host, e: Event, h': Host)
    requires Free(h.reg, e) && Leads(h.srv, e, h'.srv) && h'.reg == h.reg
    ensures HostGoes(g, h, Traffic(e), h')
  {
    hide Enabled, Step;
  }

  lemma Extends(g: S.Guard, run: seq<Host>, xs: seq<HostEvent>, x: HostEvent, h': Host)
    requires IsHostRun(g, run, xs) && HostGoes(g, run[|xs|], x, h')
    ensures IsHostRun(g, run + [h'], xs + [x])
  {
    hide HostGoes;
  }

  lemma TailIsPath(b: seq<Server>, y: seq<Event>)
    requires IsPath(b, y) && |y| > 0
    ensures IsPath(b[1..], y[1..])
  {
    hide Leads;
    forall i | 0 <= i < |y[1..]| ensures Leads(b[1..][i], y[1..][i], b[1..][i + 1]) {
      assert Leads(b[i + 1], y[i + 1], b[i + 2]);
    }
  }

  /** The run goes on with the collecting step of connection `c`, and accepts no application any more. */
  ghost predicate CollectsNext(
    g: S.Guard, run: seq<Host>, xs: seq<HostEvent>, c: nat, run': seq<Host>, xs': seq<HostEvent>) {
    && IsHostRun(g, run', xs') && run <= run' && xs < xs' && |run'| == |xs'| + 1
    && xs'[|xs|] == Traffic(OfLoop(c, Collect)) && forall n :: |xs| <= n < |xs'| ==> xs'[n] != Traffic(Alloc)
  }

  /** After the cleanup of `c` no link of the connection is registered. */
  ghost predicate LeavesNone(run: seq<Host>, i: nat, c: nat) {
    forall j: nat, k: nat :: i < j < |run| ==> !LeftBehind(run[j].srv, c, k)
  }

  ghost predicate NonePicking(s: Server) {
    forall k :: 0 <= k < |s.tasks| ==> !s.tasks[k].stage.Picking?
  }

  lemma StillNonePicking(s: Server, e: Event)
    requires Enabled(s, e) && NonePicking(s) && !e.Alloc?
    ensures NonePicking(Step(s, e))
  {
    StepLater(s, e);
    if |Step(s, e).tasks| > |s.tasks| {
      OnlyAllocAdds(s, e);
    }
  }

  lemma {:induction false} NoneIsPicking(
    g: S.Guard, run: seq<Host>, xs: seq<HostEvent>, c: nat, run': seq<Host>, xs': seq<HostEvent>, j: nat)
    requires IsHostRun(g, run, xs) && CollectsNext(g, run, xs, c, run', xs') && |xs| <= j < |run'|
    requires NonePicking(run[|xs|].srv)
    ensures NonePicking(run'[j].srv)
    decreases j
  {
    if j == |xs| {
      assert run'[j] == run[j];
    } else {
      NoneIsPicking(g, run, xs, c, run', xs', j - 1);
      StepTaken(g, run', xs', j - 1);
      GoesServer(g, run'[j - 1], xs'[j - 1], run'[j]);
      hide Enabled, Step, NonePicking, IsHostRun;
      var part := ServerPart(run'[j - 1], xs'[j - 1]);
      if part.Some? {
        StillNonePicking(run'[j - 1].srv, part.value);
      }
    }
  }

  /** A handler may still pick the connection. */
  ghost predicate MayBePicked(h: Host, c: nat) {
    IsListed(h.reg, c) && !NonePicking(h.srv)
  }

  lemma NotPickedLater(
    g: S.Guard, run: seq<Host>, xs: seq<HostEvent>, c: nat, run': seq<Host>, xs': seq<HostEvent>) returns (u: nat)
    requires IsHostRun(g, run, xs) && CollectsNext(g, run, xs, c, run', xs') && c in run[|xs|].srv.conns
    requires !MayBePicked(run[|xs|], c)
    ensures LeftAlone(run', xs', |xs|, u, c)
  {
    assert run'[|xs|] == run[|xs|];
    if Delisted(run[|xs|], c) {
      u := |xs|;
    } else {
      u := |xs'|;
      forall n, k | |xs| <= n < |xs'| ensures xs'[n] != Traffic(OfTask(k, Pick(c))) {
        NoneIsPicking(g, run, xs, c, run', xs', n);
        StepTaken(g, run', xs', n);
        hide IsHostRun, Step, S.StepSession;
      }
    }
  }

  lemma CanBeLeft(g: S.Guard, run: seq<Host>, xs: seq<HostEvent>, c: nat, b: seq<Server>, y: seq<Event>, k: nat)
    returns (run': seq<Host>, xs': seq<HostEvent>)
    requires IsHostRun(g, run, xs) && IdsInOrder(run, xs)
    requires IsPath(b, y) && |b| == |y| + 1 && b[0] == run[|xs|].srv && |y| > 0 && y[0] == OfLoop(c, Collect)
    requires (forall n :: 0 <= n < |y| ==> Free(run[|xs|].reg, y[n])) && LeftBehind(b[|y|], c, k)
    ensures CollectsNext(g, run, xs, c, run', xs') && IdsInOrder(run', xs') && !LeavesNone(run', |xs|, c)
  {
    run', xs' := HostFollows(g, run, xs, b, y);
    assert |run'| == |xs'| + 1;
    hide IsHostRun, IsPath, LeftBehind, NextIdFree, NotPending;
    forall n | |xs| <= n < |xs'| ensures xs'[n] != Traffic(Alloc) {
      assert xs'[|xs| + (n - |xs|)] == Traffic(y[n - |xs|]) && Free(run[|xs|].reg, y[n - |xs|]);
    }
    forall n | 0 <= n < |xs'| && xs'[n] == Traffic(Alloc) ensures NextIdFree(run'[n].srv) && NotPending(run'[n].srv) {
      assert n < |xs| && run'[n] == run[n] && xs'[n] == xs[n];
    }
    assert LeftBehind(run'[|xs'|].srv, c, k);
  }

  /** The handler picks the connection right after the routes were collected. */
  lemma PickedInBetween(s: Server, c: nat, k: nat) returns (b: seq<Server>, y: seq<Event>)
    requires LoopEnabled(s, c, Collect) && k < |s.tasks| && s.tasks[k].stage.Picking?
    ensures IsPath(b, y) && |b| == |y| + 1 && b[0] == s && |y| > 0 && y[0] == OfLoop(c, Collect)
    ensures forall n :: 1 <= n < |y| ==> CleanEvent(y[n], c) || y[n] == OfTask(k, AddLink) || y[n] == OfTask(k, Pick(c))
    ensures LeftBehind(b[|y|], c, k)
  {
    var s1 := StepLoop(s, c, Collect);
    CollectStep(s, c);
    assert s1.tasks == s.tasks;
    var s2 := StepTask(s1, k, Pick(c));
    assert Leads(s, OfLoop(c, Collect), s1) && Leads(s1, OfTask(k, Pick(c)), s2);
    PickedNow(s1, k, c);
    TaskRecords(s1, k, Pick(c));
    assert InCleanup(s2.conns[c].loop);
    hide StepLoop, StepTask, LoopEnabled, TaskEnabled, Leads, CleanEvent, LeftBehind, InCleanup;
    b, y := RunCleanup(s2, c);
    PathLength(b, y);
    b, y := AddBehind(b, y, c, k);
    Prepended(s1, OfTask(k, Pick(c)), b, y);
    Prepended(s, OfLoop(c, Collect), [s1] + b, [OfTask(k, Pick(c))] + y);
    b, y := [s] + ([s1] + b), [OfLoop(c, Collect)] + ([OfTask(k, Pick(c))] + y);
  }

  /** For every run of the whole server up to the collecting step of a cleanup: whatever the handlers already at work and
      everyone else do next, the cleanup releases all links of its connection for good, if and only if at that point
      each link of it that is registered is routed, no handler that picked it has its link still to register, and
      no handler may still pick it: its entry is gone, or no handler is about to choose. */
  lemma ReleasesIffRoutedAndUnpicked(g: S.Guard, run: seq<Host>, xs: seq<HostEvent>, c: nat)
    requires IsHostRun(g, run, xs) && IdsInOrder(run, xs) && LoopEnabled(run[|xs|].srv, c, Collect)
    ensures (forall run': seq<Host>, xs': seq<HostEvent> ::
               CollectsNext(g, run, xs, c, run', xs') && IdsInOrder(run', xs') ==> LeavesNone(run', |xs|, c)) <==>
            AllRouted(run[|xs|].srv, c) && !MayBePicked(run[|xs|], c)
  {
    var h := run[|xs|];
    assert c in h.srv.conns;
    if AllRouted(h.srv, c) && !MayBePicked(h, c) {
      hide IsHostRun, IdsInOrder, AllRouted, MayBePicked, LeftBehind, LeftAlone, LoopEnabled;
      forall run': seq<Host>, xs': seq<HostEvent> | CollectsNext(g, run, xs, c, run', xs') && IdsInOrder(run', xs')
        ensures LeavesNone(run', |xs|, c)
      {
        var u := NotPickedLater(g, run, xs, c, run', xs');
        forall j: nat, k: nat | |xs| < j < |run'| ensures !LeftBehind(run'[j].srv, c, k) {
          assert run'[|xs|] == h;
          ReleasedIfLeftAlone(g, run', xs', |xs|, u, j, c, k);
        }
      }
    } else {
      var b, y, k := SomeLeft(g, run, xs, c);
      hide IsHostRun, IdsInOrder, AllRouted, MayBePicked, LeftBehind, LeavesNone, CollectsNext, IsPath, Free;
      var run', xs' := CanBeLeft(g, run, xs, c, b, y, k);
    }
  }

  lemma SomeLeft(g: S.Guard, run: seq<Host>, xs: seq<HostEvent>, c: nat) returns (b: seq<Server>, y: seq<Event>, k: nat)
    requires IsHostRun(g, run, xs) && IdsInOrder(run, xs) && LoopEnabled(run[|xs|].srv, c, Collect)
    requires !AllRouted(run[|xs|].srv, c) || MayBePicked(run[|xs|], c)
    ensures IsPath(b, y) && |b| == |y| + 1 && b[0] == run[|xs|].srv && |y| > 0 && y[0] == OfLoop(c, Collect)
    ensures (forall n :: 0 <= n < |y| ==> Free(run[|xs|].reg, y[n])) && LeftBehind(b[|y|], c, k)
  {
    var h := run[|xs|];
    assert c in h.srv.conns;
    if MayBePicked(h, c) {
      RunDrains(g, run, xs, |xs|);
      assert h.reg.draining.None?;
      k :| 0 <= k < |h.srv.tasks| && h.srv.tasks[k].stage.Picking?;
      hide IsHostRun, IdsInOrder, LeftBehind, IsPath, LoopEnabled, AllRouted;
      b, y := PickedInBetween(h.srv, c, k);
    } else {
      var rs, es, at := ServerHalf(g, run, xs);
      HalfInOrder(run, xs, rs, es, at);
      NoLeakedLinks(rs, es);
      assert NoLeaks(h.srv);
      hide IsHostRun, IdsInOrder, LeftBehind, IsPath, LoopEnabled, AllRouted, NotRouted, NoLeaks, IsServerRun, MayBePicked;
      k := SomeNotRouted(h.srv, c);
      b, y := LeavesBehind(h.srv, c, k);
    }
  }
}
