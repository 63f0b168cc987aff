/** The life of one application task on the server, from its id to its end: the words that its steps spell, whatever
    happens around it. */
module TaskLives {
  import opened Bytes
  import opened Packets
  import opened Framing
  import opened Links
  import opened LinkServer
  import opened ServerRuns

  /** The steps of task `k` in a run; its socket may fail at any moment, which is no step of the task. */
  function OwnSteps(events: seq<Event>, k: nat): seq<TaskEvent> {
    if events == [] then [] else
      var n := |events| - 1;
      OwnSteps(events[..n], k)
      + if events[n].OfTask? && events[n].k == k && !events[n].te.AppBreak? then [events[n].te] else []
  }

  // ----- Words -----

  /** `handle_app_connection`: a client is chosen, the link registered and routed, `Open` written, and the state set. */
  predicate IsOpening(w: seq<TaskEvent>) {
    |w| == 5 && w[0].Pick? && w[1].AddLink? && w[2].AddRoute? && w[3].Emit? && w[4].SetWaiting?
  }

  predicate IsRead(e: TaskEvent) {
    e.AppRead? && 0 < |e.data| <= 16384
  }

  /** Rounds of the forwarding loop: each reads from the application and sends what it read. */
  predicate AreRounds(w: seq<TaskEvent>) {
    |w| % 2 == 0 && forall i :: 0 <= i < |w| ==> if i % 2 == 0 then IsRead(w[i]) else w[i] == Emit(true)
  }

  /** The last round: the application has ended, or what was read could not be sent. */
  predicate IsExit(w: seq<TaskEvent>) {
    w == [AppEnd] || (|w| == 2 && IsRead(w[0]) && w[1] == Emit(false))
  }

  /** `Close` is written, and `remove_link` takes out the route, takes out the link, and closes it. */
  predicate IsTeardown(w: seq<TaskEvent>) {
    |w| == 4 && w[0].Emit? && w[1].Unroute? && w[2].RemoveLink? && w[3].Finish?
  }

  /** Everything a task ever does. */
  ghost predicate WholeLife(w: seq<TaskEvent>) {
    w == [Reject]
    || exists a, b, c, d :: w == a + b + c + d && IsOpening(a) && AreRounds(b) && IsExit(c) && IsTeardown(d)
  }

  // ----- Words and stages -----

  predicate OpensWith(w: seq<TaskEvent>) {
    |w| >= 5 && IsOpening(w[..5])
  }

  /** The forwarding loop was left. */
  ghost predicate LeftLoop(w: seq<TaskEvent>) {
    OpensWith(w) && exists m :: 5 <= m <= |w| && AreRounds(w[5..m]) && IsExit(w[m..])
  }

  /** The word a task has spelled when it is at this stage. */
  ghost predicate Spelled(stage: Stage, w: seq<TaskEvent>) {
    var n := |w|;
    match stage
    case Picking => w == []
    case Picked => n == 1 && w[0].Pick?
    case Added => n == 2 && w[0].Pick? && w[1].AddLink?
    case Routed => n == 3 && w[0].Pick? && w[1].AddLink? && w[2].AddRoute?
    case OpenSent => n == 4 && w[0].Pick? && w[1].AddLink? && w[2].AddRoute? && w[3].Emit?
    case Running => OpensWith(w) && AreRounds(w[5..])
    case Sending(d) => n >= 6 && OpensWith(w) && AreRounds(w[5..n - 1]) && w[n - 1] == AppRead(d) && IsRead(w[n - 1])
    case Closing => LeftLoop(w)
    case CloseSent => n >= 1 && LeftLoop(w[..n - 1]) && w[n - 1].Emit?
    case Unrouted => n >= 2 && LeftLoop(w[..n - 2]) && w[n - 2].Emit? && w[n - 1].Unroute?
    case Unlinked(_) => n >= 3 && LeftLoop(w[..n - 3]) && w[n - 3].Emit? && w[n - 2].Unroute? && w[n - 1].RemoveLink?
    case Done => w == [Reject] || (n >= 4 && LeftLoop(w[..n - 4]) && IsTeardown(w[n - 4..]))
  }

  lemma RoundsOn(w: seq<TaskEvent>, d: bytes)
    requires OpensWith(w) && AreRounds(w[5..]) && IsRead(AppRead(d))
    ensures var w' := w + [AppRead(d), Emit(true)]; OpensWith(w') && AreRounds(w'[5..])
  {
    var w' := w + [AppRead(d), Emit(true)];
    assert w'[..5] == w[..5] && w'[5..] == w[5..] + [AppRead(d), Emit(true)];
  }

  lemma Leaves(w: seq<TaskEvent>, exit: seq<TaskEvent>)
    requires OpensWith(w) && AreRounds(w[5..]) && IsExit(exit)
    ensures LeftLoop(w + exit)
  {
    var w' := w + exit;
    assert w'[..5] == w[..5] && w'[5..|w|] == w[5..] && w'[|w|..] == exit;
  }

  lemma EmitSpells(t: Task, ok: bool, w: seq<TaskEvent>)
    requires Spelled(t.stage, w) && (t.stage.Routed? || t.stage.Sending? || t.stage.Closing?)
    ensures Spelled(AfterEmit(t.stage, ok), w + [Emit(ok)])
  {
    var w' := w + [Emit(ok)];
    var n := |w|;
    assert w'[..n] == w;
    if t.stage.Sending? {
      var d := t.stage.data;
      var v := w[..n - 1];
      assert v[..5] == w[..5] && v[5..] == w[5..n - 1];
      assert w' == v + [AppRead(d), Emit(ok)];
      hide AreRounds, IsOpening, IsRead;
      if ok {
        RoundsOn(v, d);
      } else {
        IsExitRead(d);
        Leaves(v, [AppRead(d), Emit(false)]);
      }
    }
  }

  lemma IsExitRead(d: bytes)
    ensures IsRead(AppRead(d)) ==> IsExit([AppRead(d), Emit(false)])
  {
  }

  lemma StepSpells(s: Server, k: nat, e: TaskEvent, w: seq<TaskEvent>)
    requires TaskEnabled(s, k, e) && !e.AppBreak? && Spelled(s.tasks[k].stage, w)
    ensures Spelled(StepTask(s, k, e).tasks[k].stage, w + [e])
  {
    OwnStage(s, k, e);
    var t := s.tasks[k];
    var w' := w + [e];
    var n := |w|;
    assert w'[..n] == w;
    hide StepTask;
    match e
    case Emit(ok) => EmitSpells(t, ok, w);
    case SetWaiting => assert w'[..5] == w' && w'[5..] == [];
    case AppRead(data) => assert w'[..5] == w[..5] && w'[5..n] == w[5..];
    case AppEnd => Leaves(w, [AppEnd]);
    case Unroute => assert w'[..n - 1] == w[..n - 1];
    case RemoveLink => assert w'[..n - 2] == w[..n - 2];
    case Finish => assert w'[..n - 3] == w[..n - 3] && w'[n - 3..] == [w[n - 3], w[n - 2], w[n - 1], e];
    case _ =>
  }

  lemma OwnStage(s: Server, k: nat, e: TaskEvent)
    requires TaskEnabled(s, k, e)
    ensures StepTask(s, k, e).tasks[k].stage == TaskStep(s.tasks[k], e, Registered(s, s.tasks[k].id)).stage
  {
  }

  lemma OthersStage(s: Server, e: Event, k: nat)
    requires Enabled(s, e) && k < |s.tasks| && !(e.OfTask? && e.k == k && !e.te.AppBreak?)
    ensures k < |Step(s, e).tasks|
    ensures Step(s, e).tasks[k].stage == s.tasks[k].stage && Step(s, e).tasks[k].read == s.tasks[k].read
  {
    match e
    case OfTask(j, te) => OtherTask(s, j, te, k); hide StepTask, TaskEnabled;
    case OfLoop(c, le) => LoopEffect(s, c, le); hide StepLoop, LoopEnabled;
    case _ =>
  }

  lemma OtherTask(s: Server, j: nat, te: TaskEvent, k: nat)
    requires TaskEnabled(s, j, te) && k < |s.tasks| && (j != k || te.AppBreak?)
    ensures StepTask(s, j, te).tasks[k].stage == s.tasks[k].stage && StepTask(s, j, te).tasks[k].read == s.tasks[k].read
  {
  }

  lemma FinalStep(run: seq<Server>, events: seq<Event>)
    requires IsServerRun(run, events) && |events| > 0
    ensures var n := |events| - 1;
      && |run| == n + 2 && IsServerRun(run[..n + 1], events[..n])
      && Enabled(run[n], events[n]) && run[n + 1] == Step(run[n], events[n])
  {
    hide Enabled, Step;
  }

  lemma {:induction false} NoStepsYet(run: seq<Server>, events: seq<Event>, k: nat)
    requires IsServerRun(run, events) && k >= |run[|events|].tasks|
    ensures OwnSteps(events, k) == []
  {
    if |events| > 0 {
      var n := |events| - 1;
      FinalStep(run, events);
      StepLater(run[n], events[n]);
      assert events[n].OfTask? ==> events[n].k < |run[n].tasks|;
      hide IsServerRun, Enabled, Step;
      NoStepsYet(run[..n + 1], events[..n], k);
    }
  }

  lemma {:induction false} StageSpells(run: seq<Server>, events: seq<Event>, k: nat)
    requires IsServerRun(run, events) && k < |run[|events|].tasks|
    ensures Spelled(run[|events|].tasks[k].stage, OwnSteps(events, k))
  {
    assert |events| > 0;
    hide IsServerRun, Spelled, Enabled, Step;
    var n := |events| - 1;
    FinalStep(run, events);
    var s, e, s' := run[n], events[n], run[n + 1];
    if k >= |s.tasks| {
      OnlyAllocAdds(s, e);
      NoStepsYet(run[..n + 1], events[..n], k);
      BornPicking(s);
      SpelledNothing();
    } else {
      StageSpells(run[..n + 1], events[..n], k);
      if e.OfTask? && e.k == k && !e.te.AppBreak? {
        OwnStepIs(s, k, e.te);
        StepSpells(s, k, e.te, OwnSteps(events[..n], k));
      } else {
        OthersStage(s, e, k);
        assert OwnSteps(events, k) == OwnSteps(events[..n], k);
      }
    }
  }

  lemma BornPicking(s: Server)
    ensures Step(s, Alloc).tasks[|s.tasks|].stage == Picking
  {
  }

  lemma OwnStepIs(s: Server, k: nat, te: TaskEvent)
    requires Enabled(s, OfTask(k, te))
    ensures TaskEnabled(s, k, te) && Step(s, OfTask(k, te)) == StepTask(s, k, te)
  {
  }

  lemma SpelledNothing()
    ensures Spelled(Picking, [])
  {
  }

  // ----- Whole lives -----

  predicate PastLoop(st: Stage) {
    st.Closing? || st.CloseSent? || st.Unrouted? || st.Unlinked? || st.Done?
  }

  /** The steps still to come. */
  function Ending(stage: Stage): seq<TaskEvent> {
    match stage
    case Picking => [Reject]
    case Picked => [AddLink, AddRoute, Emit(true), SetWaiting, AppEnd] + TEARDOWN
    case Added => [AddRoute, Emit(true), SetWaiting, AppEnd] + TEARDOWN
    case Routed => [Emit(true), SetWaiting, AppEnd] + TEARDOWN
    case OpenSent => [SetWaiting, AppEnd] + TEARDOWN
    case Running => [AppEnd] + TEARDOWN
    case Sending(_) => [Emit(false)] + TEARDOWN
    case Closing => TEARDOWN
    case CloseSent => TEARDOWN[1..]
    case Unrouted => TEARDOWN[2..]
    case Unlinked(_) => TEARDOWN[3..]
    case Done => []
  }

  lemma ClosedLife(w: seq<TaskEvent>, d: seq<TaskEvent>)
    requires LeftLoop(w) && IsTeardown(d)
    ensures WholeLife(w + d)
  {
    var m :| 5 <= m <= |w| && AreRounds(w[5..m]) && IsExit(w[m..]);
    assert w + d == w[..5] + w[5..m] + w[m..] + d;
  }

  lemma EndsWell(stage: Stage, w: seq<TaskEvent>)
    requires Spelled(stage, w)
    ensures WholeLife(w + Ending(stage))
  {
    if PastLoop(stage) {
      ClosingEnds(stage, w);
    } else {
      BusyEnds(stage, w);
    }
  }

  lemma BusyEnds(stage: Stage, w: seq<TaskEvent>)
    requires Spelled(stage, w) && !PastLoop(stage)
    ensures WholeLife(w + Ending(stage))
  {
    hide WholeLife, AreRounds, LeftLoop;
    if stage.Picking? {
      RejectedLife(w);
    } else if stage.Running? {
      RunningEnds(w);
    } else if stage.Sending? {
      SendingEnds(w, stage.data);
    } else {
      assert |w + Ending(stage)| == 10;
      OpeningTail(w, Ending(stage));
    }
  }

  lemma ClosingEnds(stage: Stage, w: seq<TaskEvent>)
    requires Spelled(stage, w) && PastLoop(stage)
    ensures WholeLife(w + Ending(stage))
  {
    hide WholeLife, LeftLoop, AreRounds, IsOpening;
    if stage.Closing? {
      ClosedLife(w, TEARDOWN);
    } else if stage.CloseSent? {
      TeardownRest(w, 1);
    } else if stage.Unrouted? {
      TeardownRest(w, 2);
    } else if stage.Unlinked? {
      TeardownRest(w, 3);
    } else {
      DoneEnds(w);
    }
  }

  lemma DoneEnds(w: seq<TaskEvent>)
    requires Spelled(Done, w)
    ensures WholeLife(w + Ending(Done))
  {
    hide WholeLife, LeftLoop;
    assert w + [] == w;
    if w == [Reject] {
      RejectedLife([]);
    } else {
      var n := |w|;
      assert w[n - 4..] + [] == w[n - 4..];
      ClosedTail(w, n - 4, []);
    }
  }

  lemma TeardownRest(w: seq<TaskEvent>, m: nat)
    requires 1 <= m < 4 && m <= |w| && LeftLoop(w[..|w| - m])
    requires w[|w| - m].Emit? && (m > 1 ==> w[|w| - m + 1].Unroute?) && (m > 2 ==> w[|w| - m + 2].RemoveLink?)
    ensures WholeLife(w + TEARDOWN[m..])
  {
    hide LeftLoop, WholeLife;
    assert IsTeardown(w[|w| - m..] + TEARDOWN[m..]);
    ClosedTail(w, |w| - m, TEARDOWN[m..]);
  }

  lemma RejectedLife(w: seq<TaskEvent>)
    requires w == []
    ensures WholeLife(w + [Reject]) && WholeLife([Reject])
  {
  }

  const TEARDOWN := [Emit(true), Unroute, RemoveLink, Finish]

  lemma RunningEnds(w: seq<TaskEvent>)
    requires OpensWith(w) && AreRounds(w[5..])
    ensures WholeLife(w + ([AppEnd] + TEARDOWN))
  {
    hide AreRounds, LeftLoop, WholeLife, OpensWith;
    Leaves(w, [AppEnd]);
    ClosedLife(w + [AppEnd], TEARDOWN);
    assert w + ([AppEnd] + TEARDOWN) == w + [AppEnd] + TEARDOWN;
  }

  lemma SendingEnds(w: seq<TaskEvent>, d: bytes)
    requires Spelled(Sending(d), w)
    ensures WholeLife(w + ([Emit(false)] + TEARDOWN))
  {
    var v := w[..|w| - 1];
    assert v[..5] == w[..5] && v[5..] == w[5..|w| - 1];
    IsExitRead(d);
    hide AreRounds, LeftLoop, WholeLife;
    Leaves(v, [AppRead(d), Emit(false)]);
    ClosedLife(v + [AppRead(d), Emit(false)], TEARDOWN);
    assert w + ([Emit(false)] + TEARDOWN) == v + [AppRead(d), Emit(false)] + TEARDOWN;
  }

  lemma ClosedTail(w: seq<TaskEvent>, m: nat, end: seq<TaskEvent>)
    requires m <= |w| && LeftLoop(w[..m]) && IsTeardown(w[m..] + end)
    ensures WholeLife(w + end)
  {
    assert w + end == w[..m] + (w[m..] + end);
    ClosedLife(w[..m], w[m..] + end);
  }

  lemma OpeningTail(w: seq<TaskEvent>, end: seq<TaskEvent>)
    requires |w + end| == 10 && IsOpening((w + end)[..5]) && (w + end)[5..] == [AppEnd, Emit(true), Unroute, RemoveLink, Finish]
    ensures WholeLife(w + end)
  {
    var u := w + end;
    assert u[5..9 + 1] == u[5..];
    assert u == u[..5] + [] + [AppEnd] + [Emit(true), Unroute, RemoveLink, Finish];
    assert AreRounds([]) && IsExit([AppEnd]) && IsTeardown([Emit(true), Unroute, RemoveLink, Finish]);
  }

  /** In every run, whatever the clients and the other tasks do, the steps of a task are the beginning of a whole life:
      it is rejected, or it opens its link, forwards what it reads round after round, leaves the loop at the end of
      the application's data or at the first send that fails, writes `Close` and takes the link down. */
  lemma LifeOfTask(run: seq<Server>, events: seq<Event>, k: nat) returns (rest: seq<TaskEvent>)
    requires IsServerRun(run, events) && k < |run[|events|].tasks|
    ensures WholeLife(OwnSteps(events, k) + rest)
    ensures run[|events|].tasks[k].stage.Done? <==> rest == []
  {
    StageSpells(run, events, k);
    var stage := run[|events|].tasks[k].stage;
    rest := Ending(stage);
    hide IsServerRun, Spelled, WholeLife;
    EndsWell(stage, OwnSteps(events, k));
  }

  // ----- What is read and what is written -----

  /** The application data of these steps. */
  function AllRead(w: seq<TaskEvent>): bytes {
    if w == [] then [] else
      var n := |w| - 1;
      AllRead(w[..n]) + if w[n].AppRead? then w[n].data else []
  }

  lemma AllReadOn(w: seq<TaskEvent>, e: TaskEvent)
    ensures AllRead(w + [e]) == AllRead(w) + if e.AppRead? then e.data else []
  {
    assert (w + [e])[..|w|] == w;
  }

  lemma OwnRead(s: Server, k: nat, e: TaskEvent)
    requires TaskEnabled(s, k, e)
    ensures StepTask(s, k, e).tasks[k].read == s.tasks[k].read + if e.AppRead? then e.data else []
  {
  }

  /** A task's record of what it read is what its steps read. */
  lemma {:induction false} ReadIsAllRead(run: seq<Server>, events: seq<Event>, k: nat)
    requires IsServerRun(run, events) && k < |run[|events|].tasks|
    ensures run[|events|].tasks[k].read == AllRead(OwnSteps(events, k))
  {
    assert |events| > 0;
    hide IsServerRun, Enabled, Step;
    var n := |events| - 1;
    FinalStep(run, events);
    var s, e := run[n], events[n];
    if k >= |s.tasks| {
      OnlyAllocAdds(s, e);
      NoStepsYet(run[..n + 1], events[..n], k);
      BornPicking(s);
    } else {
      ReadIsAllRead(run[..n + 1], events[..n], k);
      if e.OfTask? && e.k == k && !e.te.AppBreak? {
        OwnStepIs(s, k, e.te);
        OwnRead(s, k, e.te);
        AllReadOn(OwnSteps(events[..n], k), e.te);
      } else {
        OthersStage(s, e, k);
        assert OwnSteps(events, k) == OwnSteps(events[..n], k);
      }
    }
  }

  /** Every packet a task writes is the one that its steps call for: first `Open`; after a read, exactly what was read;
      and otherwise `Close`; always under the id of its link. */
  lemma PacketIsDue(run: seq<Server>, events: seq<Event>, k: nat, ok: bool, pid: u64)
    requires IsServerRun(run, events) && TaskEnabled(run[|events|], k, Emit(ok))
    ensures var t, w := run[|events|].tasks[k], OwnSteps(events, k);
      && |w| >= 3
      && Outgoing(t, pid) ==
         if |w| == 3 then Message(NewPacket(PacketType.Open, pid, t.id, 0), None)
         else if w[|w| - 1].AppRead? then
           Message(NewPacket(Regular, pid, t.id, |w[|w| - 1].data| % U16_SIZE), Some(w[|w| - 1].data))
         else Message(NewPacket(PacketType.Close, pid, t.id, 0), None)
  {
    StageSpells(run, events, k);
    hide IsServerRun, AreRounds;
    var t, w := run[|events|].tasks[k], OwnSteps(events, k);
    if t.stage.Closing? {
      var m :| 5 <= m <= |w| && AreRounds(w[5..m]) && IsExit(w[m..]);
      assert w[|w| - 1] == w[m..][|w| - m - 1];
    }
  }

  // ----- A send that fails -----

  lemma StaysPast(s: Server, e: Event, k: nat)
    requires Enabled(s, e) && k < |s.tasks| && PastLoop(s.tasks[k].stage)
    ensures k < |Step(s, e).tasks| && PastLoop(Step(s, e).tasks[k].stage) && Step(s, e).tasks[k].read == s.tasks[k].read
    ensures !(e.OfTask? && e.k == k && (e.te.AppRead? || e.te.AppEnd?))
  {
    if e.OfTask? && e.k == k && !e.te.AppBreak? {
      OwnStage(s, k, e.te);
      OwnRead(s, k, e.te);
    } else {
      OthersStage(s, e, k);
    }
    hide Step;
  }

  lemma StepHappens(run: seq<Server>, events: seq<Event>, i: nat)
    requires IsServerRun(run, events) && i < |events|
    ensures |run| == |events| + 1 && Enabled(run[i], events[i]) && run[i + 1] == Step(run[i], events[i])
  {
    hide Enabled, Step;
  }

  lemma FailsPast(s: Server, k: nat)
    requires TaskEnabled(s, k, Emit(false)) && s.tasks[k].stage.Sending?
    ensures var t' := StepTask(s, k, Emit(false)).tasks[k]; PastLoop(t'.stage) && t'.read == s.tasks[k].read
  {
  }

  lemma {:induction false} PastFrom(run: seq<Server>, events: seq<Event>, k: nat, i: nat, j: nat)
    requires IsServerRun(run, events) && |run| == |events| + 1 && i < j <= |events|
    requires events[i] == OfTask(k, Emit(false)) && k < |run[i].tasks| && run[i].tasks[k].stage.Sending?
    ensures k < |run[j].tasks| && PastLoop(run[j].tasks[k].stage) && run[j].tasks[k].read == run[i].tasks[k].read
    decreases j
  {
    hide IsServerRun, Step, Enabled, PastLoop;
    StepHappens(run, events, j - 1);
    if j == i + 1 {
      OwnStepIs(run[i], k, Emit(false));
      FailsPast(run[i], k);
    } else {
      PastFrom(run, events, k, i, j - 1);
      StaysPast(run[j - 1], events[j - 1], k);
    }
  }

  /** Once a send of what was read has failed, the task is done reading: it reads nothing more from its application,
      whatever happens, and if it writes another packet, that is `Close`. */
  lemma FailedSendEnds(run: seq<Server>, events: seq<Event>, k: nat, i: nat, j: nat)
    requires IsServerRun(run, events) && |run| == |events| + 1 && i < j <= |events|
    requires events[i] == OfTask(k, Emit(false)) && k < |run[i].tasks| && run[i].tasks[k].stage.Sending?
    ensures k < |run[j].tasks| && run[j].tasks[k].read == run[i].tasks[k].read
    ensures j < |events| && events[j].OfTask? && events[j].k == k ==> !events[j].te.AppRead?
    ensures j < |events| && events[j].OfTask? && events[j].k == k && events[j].te.Emit? ==>
              forall pid :: Outgoing(run[j].tasks[k], pid) == Message(NewPacket(PacketType.Close, pid, run[j].tasks[k].id, 0), None)
  {
    PastFrom(run, events, k, i, j);
    if j < |events| && events[j].OfTask? && events[j].k == k {
      StepHappens(run, events, j);
      OwnStepIs(run[j], k, events[j].te);
      hide IsServerRun, Step, Enabled;
    }
  }

  // ----- A life can always be completed -----

  /** A task that has chosen a connection has one that is known. */
  ghost predicate Bound(s: Server) {
    forall k :: 0 <= k < |s.tasks| && !s.tasks[k].stage.Picking? && !s.tasks[k].stage.Done? ==>
      s.tasks[k].conn.Some? && s.tasks[k].conn.value in s.conns
  }

  lemma TaskBound(s: Server, k: nat, e: TaskEvent)
    requires TaskEnabled(s, k, e) && Bound(s)
    ensures Bound(StepTask(s, k, e))
  {
    TaskRecords(s, k, e);
    OwnStage(s, k, e);
    forall j | 0 <= j < |s.tasks| && j != k ensures StepTask(s, k, e).tasks[j].stage == s.tasks[j].stage {
      OtherTask(s, k, e, j);
    }
    assert e.Pick? ==> StepTask(s, k, e).tasks[k].conn == Some(e.c);
    hide StepTask;
  }

  lemma StepBound(s: Server, e: Event)
    requires Enabled(s, e) && Bound(s)
    ensures Bound(Step(s, e))
  {
    match e
    case OfTask(k, te) => TaskBound(s, k, te);
    case OfLoop(c, le) => LoopEffect(s, c, le); hide StepLoop, LoopEnabled, NextLoop;
    case _ =>
  }

  lemma {:induction false} RunBound(run: seq<Server>, events: seq<Event>)
    requires IsServerRun(run, events)
    ensures Bound(run[|events|])
  {
    if |events| > 0 {
      hide IsServerRun, Enabled, Step, Bound;
      FinalStep(run, events);
      RunBound(run[..|events|], events[..|events| - 1]);
      StepBound(run[|events| - 1], events[|events| - 1]);
    }
  }

  /** Steps of task `k` alone, to its end. */
  lemma {:induction false} GoesToTheEnd(s: Server, k: nat) returns (b: seq<Server>, y: seq<Event>)
    requires Bound(s) && k < |s.tasks|
    ensures IsPath(b, y) && |b| == |y| + 1 && b[0] == s && k < |b[|y|].tasks| && b[|y|].tasks[k].stage.Done?
    ensures forall i :: 0 <= i < |y| ==> y[i].OfTask? && y[i].k == k
    decreases |Ending(s.tasks[k].stage)|
  {
    if s.tasks[k].stage.Done? {
      b, y := [s], [];
    } else {
      var e := Ending(s.tasks[k].stage)[0];
      OwnStage(s, k, e);
      TaskBound(s, k, e);
      var m := StepTask(s, k, e);
      assert Leads(s, OfTask(k, e), m);
      hide StepTask, TaskEnabled, Bound, Leads, IsPath;
      b, y := GoesToTheEnd(m, k);
      Prepended(s, OfTask(k, e), b, y);
      b, y := [s] + b, [OfTask(k, e)] + y;
    }
  }

  /** A task is never stuck: from every point of every run it can come to its end by steps of its own. */
  lemma NeverStuck(run: seq<Server>, events: seq<Event>, k: nat) returns (run': seq<Server>, events': seq<Event>)
    requires IsServerRun(run, events) && k < |run[|events|].tasks|
    ensures IsServerRun(run', events') && run <= run' && events <= events' && |run'| == |events'| + 1
    ensures forall i :: |events| <= i < |events'| ==> events'[i].OfTask? && events'[i].k == k
    ensures k < |run'[|events'|].tasks| && run'[|events'|].tasks[k].stage.Done?
  {
    RunBound(run, events);
    assert |run| == |events| + 1;
    var b, y := GoesToTheEnd(run[|events|], k);
    hide IsServerRun, IsPath;
    Extended(run, events, b, y);
    run', events' := run + b[1..], events + y;
    assert run'[|events| + |y|] == b[|y|];
  }
}
