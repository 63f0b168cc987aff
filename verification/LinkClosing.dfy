/** Nothing is dropped open: a server link that has left the registry is shut down, or about to be. */
module LinkClosing {
  import opened Bytes
  import opened Links
  import opened LinkServer
  import opened ServerRuns

  /** Some dispatch or cleanup loop has taken this link out and is about to close it. */
  ghost predicate BeingClosed(conns: map<nat, Conn>, k: nat) {
    exists c :: c in conns && Closes(conns[c].loop, k)
  }

  predicate Closes(l: Loop, k: nat) {
    (l.CloseLink? && l.link == k) || (l.CleanClose? && l.link == k)
  }

  ghost predicate Accounted(s: Server, k: nat)
    requires k < |s.tasks|
  {
    WasAdded(s.tasks[k]) ==>
      || InRegistry(s, k)
      || !s.tasks[k].link.open
      || s.tasks[k].stage == Unlinked(Some(k))
      || BeingClosed(s.conns, k)
  }

  ghost predicate NoneDropped(s: Server) {
    && (forall k :: 0 <= k < |s.tasks| ==> Accounted(s, k))
    && (forall k :: 0 <= k < |s.tasks| && s.tasks[k].stage.Unlinked? && s.tasks[k].stage.removed.Some? ==>
          s.tasks[k].stage.removed.value == k)
    && (forall k :: 0 <= k < |s.tasks| && s.tasks[k].stage.Picking? ==> s.tasks[k].conn.None?)
  }

  /** What a task's step does to its own record, and that it reopens nothing. */
  lemma OwnEffect(s: Server, k: nat, e: TaskEvent)
    requires TaskEnabled(s, k, e)
    requires e.Finish? && s.tasks[k].stage.removed.Some? ==> s.tasks[k].stage.removed.value == k
    ensures var s' := StepTask(s, k, e); var t, t' := s.tasks[k], s'.tasks[k];
      && s'.conns == s.conns && t'.id == t.id
      && (forall j :: 0 <= j < |s.tasks| && j != k ==> s'.tasks[j] == s.tasks[j])
      && (t'.link.open ==> t.link.open)
      && (t'.stage.Picking? ==> t.stage.Picking? && t'.conn == t.conn)
      && (t'.stage.Unlinked? ==> t'.stage == t.stage || (e.RemoveLink? && t'.stage.removed == Registered(s, t.id)))
      && (WasAdded(t') ==> WasAdded(t) || e.AddLink? || (t.stage.Picking? && t.conn.Some?))
      && (t.stage == Unlinked(Some(k)) ==> t' .stage == t.stage || !t'.link.open)
  {
  }

  /** The entry under an unfinished task's id is its own. */
  lemma OwnsEntry(s: Server, k: nat)
    requires NoLeaks(s) && k < |s.tasks| && Unfinished(s.tasks[k])
    ensures s.tasks[k].id in s.links ==> s.links[s.tasks[k].id] == k
  {
    if s.tasks[k].id in s.links {
      var j := s.links[s.tasks[k].id];
      assert MayBeLinked(s.tasks[j].stage) && Unfinished(s.tasks[j]);
    }
  }

  /** The task's own link, after a step of the task. */
  lemma OwnAccounted(s: Server, k: nat, e: TaskEvent)
    requires NoLeaks(s) && NoneDropped(s) && TaskEnabled(s, k, e)
    ensures Accounted(StepTask(s, k, e), k)
  {
    assert k < |s.tasks| && (e.Finish? ==> s.tasks[k].stage.Unlinked?);
    OwnEffect(s, k, e);
    TaskEffect(s, k, e);
    assert Accounted(s, k);
    if e.RemoveLink? {
      assert Unfinished(s.tasks[k]);
      OwnsEntry(s, k);
      assert StepTask(s, k, e).tasks[k].stage == Unlinked(Registered(s, s.tasks[k].id));
    }
    hide StepTask, TaskEnabled, LinksOwned, RoutesOwned, IdsDistinct, BeingClosed;
  }

  /** Another task's link, after a step of the task: it keeps its place in the registry. */
  lemma OtherAccounted(s: Server, k: nat, e: TaskEvent, j: nat)
    requires NoLeaks(s) && NoneDropped(s) && TaskEnabled(s, k, e) && j < |s.tasks| && j != k
    ensures StepTask(s, k, e).tasks[j] == s.tasks[j] && Accounted(StepTask(s, k, e), j)
  {
    assert e.Finish? ==> s.tasks[k].stage.Unlinked?;
    OwnEffect(s, k, e);
    TaskEffect(s, k, e);
    assert e.RemoveLink? || e.AddLink? ==> Unfinished(s.tasks[k]);
    assert Accounted(s, j);
    hide StepTask, TaskEnabled;
    if InRegistry(s, j) {
      assert Unfinished(s.tasks[j]);
    }
    hide BeingClosed, NoLeaks;
  }

  lemma TaskDropsNothing(s: Server, k: nat, e: TaskEvent)
    requires NoLeaks(s) && NoneDropped(s) && TaskEnabled(s, k, e)
    ensures NoneDropped(StepTask(s, k, e))
  {
    var s' := StepTask(s, k, e);
    assert k < |s.tasks| && (e.Finish? ==> s.tasks[k].stage.Unlinked?);
    assert e.RemoveLink? ==> Unfinished(s.tasks[k]);
    if e.RemoveLink? {
      OwnsEntry(s, k);
    }
    OwnEffect(s, k, e);
    OwnAccounted(s, k, e);
    hide StepTask, TaskEnabled, NoLeaks, Accounted;
    forall j | 0 <= j < |s'.tasks| ensures Accounted(s', j) {
      if j != k {
        OtherAccounted(s, k, e, j);
      }
    }
  }

  /** What a loop's step does to links and to what loops are closing. */
  lemma LoopCloses(s: Server, c: nat, e: LoopEvent)
    requires LoopEnabled(s, c, e)
    ensures var s' := StepLoop(s, c, e);
      && (forall j :: 0 <= j < |s.tasks| ==> (s'.tasks[j].link.open ==> s.tasks[j].link.open))
      && (forall j :: 0 <= j < |s.tasks| && Closes(s.conns[c].loop, j) ==> !s'.tasks[j].link.open)
      && (forall id :: id in s.links && id !in s'.links ==> Closes(s'.conns[c].loop, s.links[id]))
  {
  }

  lemma LoopDropsNothing(s: Server, c: nat, e: LoopEvent)
    requires NoLeaks(s) && NoneDropped(s) && LoopEnabled(s, c, e)
    ensures NoneDropped(StepLoop(s, c, e))
  {
    LoopEffect(s, c, e);
    LoopCloses(s, c, e);
    assert c in s.conns;
    hide StepLoop, LoopEnabled, NextLoop, Closes;
    var s' := StepLoop(s, c, e);
    forall j | 0 <= j < |s'.tasks| ensures Accounted(s', j) {
      assert Accounted(s, j);
      assert s'.tasks[j].stage == s.tasks[j].stage && s'.tasks[j].conn == s.tasks[j].conn && s'.tasks[j].id == s.tasks[j].id;
      if InRegistry(s, j) && !InRegistry(s', j) {
        assert Closes(s'.conns[c].loop, j);
      } else if BeingClosed(s.conns, j) {
        var d :| d in s.conns && Closes(s.conns[d].loop, j);
        assert d != c ==> s'.conns[d] == s.conns[d];
      }
    }
    assert forall j :: 0 <= j < |s.tasks| ==> s'.tasks[j].stage == s.tasks[j].stage;
  }

  lemma StepDropsNothing(s: Server, e: Event)
    requires NoLeaks(s) && NoneDropped(s) && Enabled(s, e)
    ensures NoneDropped(Step(s, e))
  {
    match e
    case OfTask(k, te) => TaskDropsNothing(s, k, te);
    case OfLoop(c, le) => LoopDropsNothing(s, c, le);
    case Alloc => AllocDropsNothing(s);
    case Register(c, addr) => RegisterDropsNothing(s, c, addr);
    case Shutdown => ShutdownDropsNothing(s);
  }

  lemma AllocDropsNothing(s: Server)
    requires NoneDropped(s)
    ensures NoneDropped(Step(s, Alloc))
  {
    var s' := Step(s, Alloc);
    forall j | 0 <= j < |s'.tasks| ensures Accounted(s', j) {
      if j < |s.tasks| {
        assert Accounted(s, j) && s'.tasks[j] == s.tasks[j];
      }
    }
  }

  lemma RegisterDropsNothing(s: Server, c: nat, addr: Addr)
    requires NoneDropped(s) && c !in s.conns
    ensures NoneDropped(Step(s, Register(c, addr)))
  {
    var s' := Step(s, Register(c, addr));
    forall j | 0 <= j < |s'.tasks| ensures Accounted(s', j) {
      assert Accounted(s, j);
      if BeingClosed(s.conns, j) {
        var d :| d in s.conns && Closes(s.conns[d].loop, j);
        assert s'.conns[d] == s.conns[d];
      }
    }
  }

  lemma ShutdownDropsNothing(s: Server)
    requires NoneDropped(s)
    ensures NoneDropped(Step(s, Shutdown))
  {
    var s' := Step(s, Shutdown);
    forall j | 0 <= j < |s'.tasks| ensures Accounted(s', j) {
      assert Accounted(s, j);
      if InRegistry(s, j) {
        assert j in s.links.Values;
      }
    }
  }

  lemma {:induction false} RunDropsNothing(run: seq<Server>, events: seq<Event>)
    requires IsServerRun(run, events) && IdsFresh(run, events)
    ensures NoneDropped(run[|run| - 1])
  {
    if |events| > 0 {
      NoLeakedLinks(run, events);
      hide NoneDropped, Enabled, Step, NoLeaks, NextIdFree;
      var n := |events| - 1;
      var before := run[..n + 1];
      RunDropsNothing(before, events[..n]);
      assert before[n] == run[n];
      StepDropsNothing(run[n], events[n]);
    }
  }

  /** Against arbitrary peers: the write half of a link that was ever registered and no longer is has been shut
      down (or had failed), unless a loop that took the link out, or its own task, is just about to do that;
      so once the task has ended and no loop is busy with the link, nothing is left open.  A shutdown makes
      no exception. */
  lemma RemovedMeansClosed(run: seq<Server>, events: seq<Event>, k: nat)
    requires IsServerRun(run, events) && IdsFresh(run, events)
    requires k < |run[|run| - 1].tasks| && WasAdded(run[|run| - 1].tasks[k])
    ensures var s := run[|run| - 1];
      && (!InRegistry(s, k) && s.tasks[k].link.open ==> BeingClosed(s.conns, k) || s.tasks[k].stage == Unlinked(Some(k)))
      && (s.tasks[k].stage.Done? && !BeingClosed(s.conns, k) ==> !s.tasks[k].link.open)
  {
    RunDropsNothing(run, events);
    NoLeakedLinks(run, events);
    var s := run[|run| - 1];
    assert NoLeaks(s) && Accounted(s, k);
    hide IsServerRun, BeingClosed;
    if InRegistry(s, k) {
      assert MayBeLinked(s.tasks[k].stage);
    }
  }

  lemma StaysBare(s: Server, e: Event)
    requires Enabled(s, e) && s.links == map[] && !(e.OfTask? && e.te.AddLink?)
    ensures Step(s, e).links == map[]
  {
    match e
    case OfTask(k, te) => TaskEffect(s, k, te); hide StepTask, TaskEnabled;
    case OfLoop(c, le) => LoopEffect(s, c, le); hide StepLoop, LoopEnabled, NextLoop;
    case _ =>
  }

  /** A shutdown leaves no link registered, until a handler registers another. */
  lemma {:induction false} ShutdownEmpties(run: seq<Server>, events: seq<Event>, i: nat, j: nat)
    requires IsServerRun(run, events) && i < j < |run| && events[i].Shutdown?
    requires forall n :: i < n < j ==> !(events[n].OfTask? && events[n].te.AddLink?)
    ensures run[j].links == map[]
    decreases j
  {
    assert Enabled(run[j - 1], events[j - 1]) && run[j] == Step(run[j - 1], events[j - 1]);
    if j > i + 1 {
      ShutdownEmpties(run, events, i, j - 1);
      hide IsServerRun, Enabled, Step;
      StaysBare(run[j - 1], events[j - 1]);
    }
  }
}
