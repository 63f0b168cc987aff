/** Runs of the server step system: putting them together, and what only ever changes one way along them. */
module ServerRuns {
  import opened Bytes
  import opened Links
  import opened LinkServer

  // ----- Paths -----

  /** Consecutive steps, from any state. */
  ghost predicate IsPath(run: seq<Server>, events: seq<Event>) {
    |run| == |events| + 1 && forall i :: 0 <= i < |events| ==> Leads(run[i], events[i], run[i + 1])
  }

  lemma LeadsMakeRun(run: seq<Server>, events: seq<Event>)
    requires |run| == |events| + 1 && run[0] == INIT
    requires forall i :: 0 <= i < |events| ==> Leads(run[i], events[i], run[i + 1])
    ensures IsServerRun(run, events)
  {
    forall i | 0 <= i < |events|
      ensures Enabled(run[i], events[i]) && run[i + 1] == Step(run[i], events[i])
    {
      assert Leads(run[i], events[i], run[i + 1]);
    }
  }

  lemma RunIsPath(run: seq<Server>, events: seq<Event>)
    requires IsServerRun(run, events)
    ensures IsPath(run, events)
  {
    hide Enabled, Step;
    forall i | 0 <= i < |events| ensures Leads(run[i], events[i], run[i + 1]) {
    }
  }

  lemma Prepended(s: Server, e: Event, run: seq<Server>, events: seq<Event>)
    requires IsPath(run, events) && Leads(s, e, run[0])
    ensures IsPath([s] + run, [e] + events)
  {
    hide Leads;
    var run', events' := [s] + run, [e] + events;
    forall i | 0 <= i < |events'| ensures Leads(run'[i], events'[i], run'[i + 1]) {
      if i > 0 {
        assert Leads(run[i - 1], events[i - 1], run[i]);
      }
    }
  }

  /** A run that goes on along a path. */
  lemma Extended(run: seq<Server>, events: seq<Event>, b: seq<Server>, y: seq<Event>)
    requires IsServerRun(run, events) && IsPath(b, y) && run[|events|] == b[0]
    ensures IsServerRun(run + b[1..], events + y)
    ensures forall i :: 0 <= i < |b| ==> (run + b[1..])[|events| + i] == b[i]
  {
    hide Enabled, Step;
    var run', events' := run + b[1..], events + y;
    forall i | 0 <= i < |events'| ensures Leads(run'[i], events'[i], run'[i + 1]) {
      if i >= |events| {
        assert Leads(b[i - |events|], y[i - |events|], b[i - |events| + 1]);
      }
    }
    LeadsMakeRun(run', events');
  }

  /** Every id is issued at a moment when all earlier tasks are done. */
  ghost predicate IssuedAtRest(run: seq<Server>, events: seq<Event>) {
    |run| == |events| + 1 && forall i :: 0 <= i < |events| && events[i].Alloc? ==> AtRest(run[i])
  }

  ghost predicate AtRest(s: Server) {
    forall k :: 0 <= k < |s.tasks| ==> s.tasks[k].stage.Done?
  }

  /** One path after another. */
  lemma Joined(a: seq<Server>, x: seq<Event>, b: seq<Server>, y: seq<Event>)
    requires IsPath(a, x) && IsPath(b, y) && a[|x|] == b[0]
    ensures IsPath(a + b[1..], x + y) && (a + b[1..])[|x + y|] == b[|y|]
    ensures IssuedAtRest(a, x) && IssuedAtRest(b, y) ==> IssuedAtRest(a + b[1..], x + y)
  {
    hide Leads, AtRest;
    var run, events := a + b[1..], x + y;
    forall i | 0 <= i < |events| ensures Leads(run[i], events[i], run[i + 1]) {
      if i >= |x| {
        assert events[i] == y[i - |x|] && run[i] == b[i - |x|] && run[i + 1] == b[i - |x| + 1];
      }
    }
    if IssuedAtRest(a, x) && IssuedAtRest(b, y) {
      forall i | 0 <= i < |events| && events[i].Alloc? ensures AtRest(run[i]) {
        if i >= |x| {
          assert events[i] == y[i - |x|] && run[i] == b[i - |x|];
        }
      }
    }
  }

  /** The two paths as one: first all of `a`, then the rest of `b`. */
  lemma Append(a: seq<Server>, x: seq<Event>, b: seq<Server>, y: seq<Event>) returns (run: seq<Server>)
    requires IsPath(a, x) && IsPath(b, y) && |a| == |x| + 1 && |b| == |y| + 1 && a[|x|] == b[0]
    requires IssuedAtRest(a, x) && IssuedAtRest(b, y)
    ensures IsPath(run, x + y) && IssuedAtRest(run, x + y) && |run| == |x| + |y| + 1
    ensures forall i :: 0 <= i < |a| ==> run[i] == a[i]
    ensures forall i :: 0 <= i < |b| ==> run[|x| + i] == b[i]
  {
    Joined(a, x, b, y);
    hide Leads, AtRest;
    run := a + b[1..];
  }

  lemma AtRestIsFresh(run: seq<Server>, events: seq<Event>)
    requires IssuedAtRest(run, events)
    ensures IdsFresh(run, events)
  {
    forall i | 0 <= i < |events| && events[i].Alloc? ensures NextIdFree(run[i]) {
      assert AtRest(run[i]);
    }
  }

  // ----- What only changes one way -----

  /** The task has had its link added to the registry. */
  predicate WasAdded(t: Task) {
    t.conn.Some? && !t.stage.Picking? && !t.stage.Picked?
  }

  /** `s'` can come after `s`: tasks keep ids and connections, and never become unfinished again; a link once
      added never comes back into the registry, and a shut one stays shut. */
  ghost predicate Later(s: Server, s': Server) {
    && |s.tasks| <= |s'.tasks|
    && (forall k :: 0 <= k < |s.tasks| ==>
          var t, t' := s.tasks[k], s'.tasks[k];
          && t'.id == t.id && (!t.stage.Picking? ==> !t'.stage.Picking? && t'.conn == t.conn) && (Unfinished(t') ==> Unfinished(t))
          && (WasAdded(t) ==> WasAdded(t') && (InRegistry(s', k) ==> InRegistry(s, k)))
          && (t'.link.open ==> t.link.open))
    && (forall c :: c in s.conns ==> c in s'.conns && s'.conns[c].addr == s.conns[c].addr)
  }

  lemma TaskLater(s: Server, k: nat, e: TaskEvent)
    requires TaskEnabled(s, k, e)
    ensures Later(s, StepTask(s, k, e))
  {
    TaskEffect(s, k, e);
    TaskRecords(s, k, e);
    assert e.AddLink? ==> !WasAdded(s.tasks[k]);
    hide StepTask, TaskEnabled;
  }

  lemma TaskRecords(s: Server, k: nat, e: TaskEvent)
    requires TaskEnabled(s, k, e)
    ensures var s' := StepTask(s, k, e);
      s'.conns == s.conns
      && forall j :: 0 <= j < |s.tasks| ==>
           var t, t' := s.tasks[j], s'.tasks[j];
           && (!t.stage.Picking? ==> !t'.stage.Picking? && t'.conn == t.conn)
           && (WasAdded(t) ==> WasAdded(t')) && (t'.link.open ==> t.link.open)
  {
  }

  lemma LoopLater(s: Server, c: nat, e: LoopEvent)
    requires LoopEnabled(s, c, e)
    ensures Later(s, StepLoop(s, c, e))
  {
    LoopEffect(s, c, e);
    LoopOpens(s, c, e);
    assert c in s.conns;
    hide StepLoop, LoopEnabled, NextLoop;
    var s' := StepLoop(s, c, e);
    assert forall j :: 0 <= j < |s.tasks| ==>
      s'.tasks[j].id == s.tasks[j].id && s'.tasks[j].stage == s.tasks[j].stage && s'.tasks[j].conn == s.tasks[j].conn;
  }

  lemma LoopOpens(s: Server, c: nat, e: LoopEvent)
    requires LoopEnabled(s, c, e)
    ensures forall j :: 0 <= j < |s.tasks| ==> (StepLoop(s, c, e).tasks[j].link.open ==> s.tasks[j].link.open)
  {
    hide NextLoop;
  }

  lemma StepLater(s: Server, e: Event)
    requires Enabled(s, e)
    ensures Later(s, Step(s, e))
  {
    hide StepTask, StepLoop, TaskEnabled, LoopEnabled;
    match e
    case OfTask(k, te) => TaskLater(s, k, te);
    case OfLoop(c, le) => LoopLater(s, c, le);
    case Alloc =>
    case Register(_, _) =>
    case Shutdown =>
  }

  lemma LaterThanLater(a: Server, b: Server, c: Server)
    requires Later(a, b) && Later(b, c)
    ensures Later(a, c)
  {
  }

  lemma {:induction false} RunLater(run: seq<Server>, events: seq<Event>, i: nat, j: nat)
    requires IsPath(run, events) && i <= j < |run|
    ensures Later(run[i], run[j])
    decreases j
  {
    if i < j {
      RunLater(run, events, i, j - 1);
      assert Leads(run[j - 1], events[j - 1], run[j]);
      StepLater(run[j - 1], events[j - 1]);
      hide Later, IsPath, Enabled, Step;
      LaterThanLater(run[i], run[j - 1], run[j]);
    }
  }

  /** Between two points of a path, an id was issued. */
  ghost predicate Issued(run: seq<Server>, events: seq<Event>, i: nat, j: nat, id: u16) {
    |run| == |events| + 1 && exists n :: i <= n < j && n < |events| && events[n].Alloc? && run[n].counter == id
  }

  /** A task that came in between got its id in between. */
  lemma {:induction false} NewTaskIssued(run: seq<Server>, events: seq<Event>, i: nat, j: nat, o: nat)
    requires IsPath(run, events) && i <= j < |run| && |run[i].tasks| <= o < |run[j].tasks|
    ensures Issued(run, events, i, j, run[j].tasks[o].id)
    decreases j
  {
    if i == j {
      assert false;
    } else {
      var s, e := run[j - 1], events[j - 1];
      assert Leads(s, e, run[j]);
      StepLater(s, e);
      hide Later;
      if o < |s.tasks| {
        NewTaskIssued(run, events, i, j - 1, o);
        LaterId(s, run[j], o);
      } else {
        assert e.Alloc? by { OnlyAllocAdds(s, e); }
      }
    }
  }

  lemma LaterId(s: Server, s': Server, k: nat)
    requires Later(s, s') && k < |s.tasks|
    ensures k < |s'.tasks| && s'.tasks[k].id == s.tasks[k].id
  {
  }

  lemma OnlyAllocAdds(s: Server, e: Event)
    requires Enabled(s, e) && |Step(s, e).tasks| > |s.tasks|
    ensures e.Alloc? && |Step(s, e).tasks| == |s.tasks| + 1 && Step(s, e).tasks[|s.tasks|].id == s.counter
  {
    hide StepTask, StepLoop;
  }
}
