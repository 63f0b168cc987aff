/** Every step of the server keeps the invariant of the composed system. */
module TunnelServer {
  import opened Bytes
  import opened Packets
  import opened Compression
  import opened Framing
  import opened Links
  import opened LinkServer
  import opened LinkClient
  import opened LinkProtocol
  import opened Wires
  import opened Tunnel
  import opened TunnelInv
  import opened TunnelWires

  // ----- Steps of a task other than its writes -----

  /** Such a step changes the task's own record and no other. */
  lemma OwnRecordOnly(sv: Server, k: nat, te: TaskEvent)
    requires TaskEnabled(sv, k, te)
    requires te.Finish? && sv.tasks[k].stage.removed.Some? ==> sv.tasks[k].stage.removed.value == k
    ensures var sv' := StepTask(sv, k, te);
      && |sv'.tasks| == |sv.tasks|
      && (forall j :: 0 <= j < |sv.tasks| && j != k ==> sv'.tasks[j] == sv.tasks[j])
      && sv'.conns == sv.conns
      && (!te.Finish? ==> sv'.tasks[k] == TaskStep(sv.tasks[k], te, Registered(sv, sv.tasks[k].id)))
      && (te.Finish? ==> var t := sv.tasks[k];
            sv'.tasks[k] == t.(stage := Stage.Done) || sv'.tasks[k] == t.(stage := Stage.Done, link := CloseConnection(t.link)))
      && sv'.links == (if te.AddLink? then sv.links[sv.tasks[k].id := k]
                       else if te.RemoveLink? then sv.links - {sv.tasks[k].id} else sv.links)
  {
    assert te.Finish? ==> TaskStep(sv.tasks[k], te, Registered(sv, sv.tasks[k].id)) == sv.tasks[k].(stage := Stage.Done);
    hide TaskStep;
  }

  /** The task's own bookkeeping stays in order, and no other record changes. */
  lemma RecordsKept(sv: Server, k: nat, te: TaskEvent, pipes: map<nat, Pipe>)
    requires TaskEnabled(sv, k, te) && TaskOk(sv.tasks[k], k, pipes)
    requires te.Pick? ==> te.c in pipes
    requires te.RemoveLink? && Registered(sv, sv.tasks[k].id).Some? ==> Registered(sv, sv.tasks[k].id).value == k
    ensures var sv' := StepTask(sv, k, te);
      && Stable(sv.tasks, sv'.tasks) && |sv'.tasks| == |sv.tasks| && sv'.conns == sv.conns
      && TaskOk(sv'.tasks[k], k, pipes)
      && (forall j :: 0 <= j < |sv.tasks| && j != k ==> sv'.tasks[j] == sv.tasks[j])
  {
    OwnRecordOnly(sv, k, te);
    hide StepTask;
  }

  lemma CleanCloseKept(sv: Server, k: nat, te: TaskEvent, l: Loop)
    requires TaskEnabled(sv, k, te) && CleanCloseOk(sv, l)
    ensures CleanCloseOk(StepTask(sv, k, te), l)
  {
  }

  lemma TasksAfterTask(z: Zstd, s: System, k: nat, te: TaskEvent)
    requires Inv(z, s) && TaskEnabled(s.sv, k, te)
    ensures var sv' := StepTask(s.sv, k, te);
      Stable(s.sv.tasks, sv'.tasks) && sv'.conns == s.sv.conns && TasksOk(sv'.tasks, s.pipes)
  {
    hide Inv, NoLeaks, LiveDistinct, ViewsOk, TaskOk, TasksOk, LoopsOk, PipesOk, TagsOk, ProcsOk, Stable;
    Parts(z, s);
    RemovesOwn(s, k, te);
    TaskPart(z, s, k);
    if te.Pick? {
      LoopPart(z, s, te.c);
    }
    RecordsKept(s.sv, k, te, s.pipes);
    TasksOkUpdate(s.sv.tasks, StepTask(s.sv, k, te).tasks, k, s.pipes);
  }

  lemma TaskStructure(z: Zstd, s: System, k: nat, te: TaskEvent)
    requires Inv(z, s) && TaskEnabled(s.sv, k, te)
    ensures Structure(z, s.(sv := StepTask(s.sv, k, te)))
  {
    hide Inv, NoLeaks, LiveDistinct, ViewsOk, TasksOk, LoopsOk, PipesOk, TagsOk, ProcsOk, Stable;
    Parts(z, s);
    TasksAfterTask(z, s, k, te);
    LoopsAfterTask(s.sv, s.pipes, k, te);
    var sv' := StepTask(s.sv, k, te);
    TagsStable(s.sv.tasks, sv'.tasks, s.pipes);
    ProcsStable(s.sv.tasks, sv'.tasks, s.pipes, s.cl);
  }

  lemma TaskFinishOwn(tasks: seq<Task>, k: nat, pipes: map<nat, Pipe>)
    requires k < |tasks| && TaskOk(tasks[k], k, pipes)
    ensures tasks[k].stage.Unlinked? && tasks[k].stage.removed.Some? ==> tasks[k].stage.removed.value == k
  {
  }

  lemma TasksOkUpdate(tasks: seq<Task>, tasks': seq<Task>, k: nat, pipes: map<nat, Pipe>)
    requires TasksOk(tasks, pipes) && k < |tasks| == |tasks'| && TaskOk(tasks'[k], k, pipes)
    requires forall j :: 0 <= j < |tasks| && j != k ==> tasks'[j] == tasks[j]
    ensures TasksOk(tasks', pipes)
  {
    hide TaskOk;
  }

  lemma LoopsAfterTask(sv: Server, pipes: map<nat, Pipe>, k: nat, te: TaskEvent)
    requires LoopsOk(sv, pipes) && TaskEnabled(sv, k, te)
    requires Stable(sv.tasks, StepTask(sv, k, te).tasks) && StepTask(sv, k, te).conns == sv.conns
    ensures LoopsOk(StepTask(sv, k, te), pipes)
  {
    var sv' := StepTask(sv, k, te);
    hide StepTask, TaskEnabled, CleanCloseOk, LoopOk, Stable;
    forall c | c in sv'.conns
      ensures c in pipes && LoopOk(sv'.tasks, c, sv'.conns[c].loop, pipes[c].stag)
      ensures CleanCloseOk(sv', sv'.conns[c].loop)
    {
      LoopStable(sv.tasks, sv'.tasks, c, sv.conns[c].loop, pipes[c].stag);
      CleanCloseKept(sv, k, te, sv.conns[c].loop);
    }
  }

  /** What a task removes from the registry at its end is its own link. */
  lemma RemovesOwn(s: System, k: nat, te: TaskEvent)
    requires NoLeaks(s.sv) && LiveDistinct(s) && TaskEnabled(s.sv, k, te)
    ensures te.RemoveLink? ==>
              (Registered(s.sv, s.sv.tasks[k].id).Some? ==> Registered(s.sv, s.sv.tasks[k].id).value == k)
  {
    if te.RemoveLink? {
      UnfinishedLive(s, k);
      LookupFindsIt(s, k);
    }
  }

  /** A step of the server that leaves its dispatch loops alone shows on a link only in its task record
      and its registration. */
  lemma SvView(s: System, sv': Server, k: nat)
    requires k < |s.sv.tasks| && k < |sv'.tasks| && sv'.conns == s.sv.conns
    requires sv'.tasks[k].conn == s.sv.tasks[k].conn && sv'.tasks[k].id == s.sv.tasks[k].id
    ensures ViewOf(s.(sv := sv'), k) ==
            ViewOf(s, k).(t := sv'.tasks[k], sreg := SrvRegistered(s.(sv := sv'), k))
    ensures ViewOf(s, k).t == s.sv.tasks[k] && ViewOf(s, k).sreg == SrvRegistered(s, k)
  {
    hide Proj, PhaseOf, ClientPhaseOf;
  }

  /** The step leaves another task's record and registration as they were. */
  lemma OthersSame(sv: Server, k: nat, te: TaskEvent, j: nat)
    requires NoLeaks(sv) && TaskEnabled(sv, k, te) && j < |sv.tasks| && j != k
    requires te.Finish? && sv.tasks[k].stage.removed.Some? ==> sv.tasks[k].stage.removed.value == k
    ensures var sv' := StepTask(sv, k, te); var id := sv.tasks[j].id;
      && sv'.tasks[j] == sv.tasks[j] && sv'.conns == sv.conns
      && ((id in sv'.links && sv'.links[id] == j) <==> (id in sv.links && sv.links[id] == j))
  {
    OwnRecordOnly(sv, k, te);
    assert (te.AddLink? || te.RemoveLink?) ==> Unfinished(sv.tasks[k]);
    hide StepTask, TaskEnabled;
    var id := sv.tasks[j].id;
    if id in sv.links && sv.links[id] == j {
      assert Unfinished(sv.tasks[j]);
    }
  }

  lemma TaskViewsOthers(z: Zstd, s: System, k: nat, te: TaskEvent, j: nat)
    requires Inv(z, s) && TaskEnabled(s.sv, k, te) && j < |s.sv.tasks| && j != k
    ensures ViewOf(s.(sv := StepTask(s.sv, k, te)), j) == ViewOf(s, j)
  {
    hide Inv, NoLeaks, TaskOk, ViewOf, LinkInv, PipesOk, TagsOk, TasksOk, LoopsOk, ProcsOk, ViewsOk, LiveDistinct;
    Parts(z, s);
    TaskPart(z, s, k);
    TaskFinishOwn(s.sv.tasks, k, s.pipes);
    FinishStage(s.sv, k, te);
    OthersSame(s.sv, k, te, j);
    SvView(s, StepTask(s.sv, k, te), j);
    hide StepTask, TaskEnabled;
  }

  lemma FinishStage(sv: Server, k: nat, te: TaskEvent)
    requires TaskEnabled(sv, k, te)
    ensures te.Finish? ==> sv.tasks[k].stage.Unlinked?
  {
  }

  /** The record of a task after a step of its own, when its connection is already chosen. */
  lemma OwnRecordAfter(sv: Server, k: nat, te: TaskEvent)
    requires TaskEnabled(sv, k, te) && !te.Pick?
    requires te.Finish? && sv.tasks[k].stage.removed.Some? ==> sv.tasks[k].stage.removed.value == k
    ensures k < |sv.tasks|
    ensures var sv' := StepTask(sv, k, te); var t, t' := sv.tasks[k], sv'.tasks[k];
      && sv'.conns == sv.conns && t'.conn == t.conn && t'.id == t.id
      && (te.Finish? || t' == TaskStep(t, te, Registered(sv, t.id)))
      && (te.Finish? ==> t' == t.(stage := Stage.Done)
                         || t' == t.(stage := Stage.Done, link := CloseConnection(t.link)))
      && sv'.links == (if te.AddLink? then sv.links[t.id := k] else if te.RemoveLink? then sv.links - {t.id} else sv.links)
  {
  }

  lemma TaskViewOwn(z: Zstd, s: System, k: nat, te: TaskEvent)
    requires Inv(z, s) && TaskEnabled(s.sv, k, te) && !te.Emit?
    ensures Keeps(ViewOf(s, k), ViewOf(s.(sv := StepTask(s.sv, k, te)), k))
  {
    if te.Pick? {
      PickView(z, s, k, te.c);
    } else {
      hide Inv, ViewOf, Keeps, TaskOk, LinkInv, StepTask, TaskStep, TaskEnabled;
      TaskPart(z, s, k);
      TaskFinishOwn(s.sv.tasks, k, s.pipes);
      FinishStage(s.sv, k, te);
      OwnRecordAfter(s.sv, k, te);
      var sv' := StepTask(s.sv, k, te);
      SvView(s, sv', k);
      TaskViewCases(s.sv, k, te, sv', ViewOf(s, k), ViewOf(s.(sv := sv'), k));
    }
  }

  lemma TaskViewCases(sv: Server, k: nat, te: TaskEvent, sv': Server, v: View, v': View)
    requires TaskEnabled(sv, k, te) && !te.Emit? && !te.Pick? && LinkInv(v) && k < |sv'.tasks|
    requires v.t == sv.tasks[k] && v.sreg == (v.t.id in sv.links && sv.links[v.t.id] == k)
    requires v' == v.(t := sv'.tasks[k], sreg := v.t.id in sv'.links && sv'.links[v.t.id] == k)
    requires te.Finish? || sv'.tasks[k] == TaskStep(v.t, te, Registered(sv, v.t.id))
    requires te.Finish? ==>
               (sv'.tasks[k] == v.t.(stage := Stage.Done)
                || sv'.tasks[k] == v.t.(stage := Stage.Done, link := CloseConnection(v.t.link)))
    requires sv'.links == (if te.AddLink? then sv.links[v.t.id := k]
                           else if te.RemoveLink? then sv.links - {v.t.id} else sv.links)
    ensures Keeps(v, v')
  {
    hide LinkInv, Keeps;
    match te
    case AddLink => AddLinkKeeps(v);
    case RemoveLink => RemoveLinkKeeps(v, Registered(sv, v.t.id));
    case Finish => FinishKeeps(v, v'.t.link);
    case _ =>
      TaskKeeps(v, te);
  }

  /** A link that has just been given its connection has nothing on that connection's wires. */
  lemma NothingSent(z: Zstd, s: System, k: nat, c: nat)
    requires Inv(z, s) && k < |s.sv.tasks| && s.sv.tasks[k].conn != Some(c) && c in s.pipes
    ensures Proj(s.pipes[c].s2c.sent, k) == [] && Proj(s.pipes[c].c2s.sent, k) == []
    ensures Proj(s.pipes[c].s2c.sent[..ReadCount(s.pipes[c].s2c)], k) == []
    ensures Proj(s.pipes[c].c2s.sent[..ReadCount(s.pipes[c].c2s)], k) == []
  {
    hide Inv, Proj;
    PipePart(z, s, c);
    var P := s.pipes[c];
    ProjEmpty(P.s2c.sent, k);
    ProjEmpty(P.c2s.sent, k);
    ProjEmpty(P.s2c.sent[..ReadCount(P.s2c)], k);
    ProjEmpty(P.c2s.sent[..ReadCount(P.c2s)], k);
  }

  lemma NothingDone(z: Zstd, s: System, k: nat, c: nat)
    requires Inv(z, s) && k < |s.sv.tasks| && s.sv.tasks[k].conn.None? && c in s.pipes
    ensures SrvPhase(s, c, k).PNone? && CliPhase(s, c, k).CNone? && CliLink(s, c, k).None?
    ensures forall id: u16 :: !CliRegistered(s, c, id, k)
  {
    hide Inv, PhaseOf, ClientPhaseOf;
    PipePart(z, s, c);
    var p := s.pipes[c].proc;
    ProcPart(z, s, p);
    if c in s.sv.conns {
      LoopPart(z, s, c);
    }
  }

  lemma PickStep(sv: Server, k: nat, c: nat)
    requires TaskEnabled(sv, k, Pick(c))
    ensures sv.tasks[k].stage.Picking? && c in sv.conns
    ensures StepTask(sv, k, Pick(c)) == sv.(tasks := sv.tasks[k := sv.tasks[k].(stage := Picked, conn := Some(c))])
  {
  }

  lemma PickView(z: Zstd, s: System, k: nat, c: nat)
    requires Inv(z, s) && TaskEnabled(s.sv, k, Pick(c))
    ensures Keeps(ViewOf(s, k), ViewOf(s.(sv := StepTask(s.sv, k, Pick(c))), k))
  {
    var s' := s.(sv := StepTask(s.sv, k, Pick(c)));
    PickStep(s.sv, k, c);
    hide Inv, Proj, LinkInv, Live, PhaseOf, ClientPhaseOf, Keeps, StepTask, TaskEnabled;
    TaskPart(z, s, k);
    LoopPart(z, s, c);
    NothingSent(z, s, k, c);
    NothingDone(z, s, k, c);
    var v, v' := ViewOf(s, k), ViewOf(s', k);
    assert v' == v.(t := v.t.(stage := Picked, conn := Some(c)), sb := v'.sb, cb := v'.cb, sup := v'.sup, cup := v'.cup);
    hide ViewOf;
    PickKeeps(v, c, v'.sb, v'.cb, v'.sup, v'.cup);
  }

  lemma PickKeeps(v: View, c: nat, sb: bool, cb: bool, sup: bool, cup: bool)
    requires LinkInv(v) && v.t.stage.Picking?
    ensures Keeps(v, v.(t := v.t.(stage := Picked, conn := Some(c)), sb := sb, cb := cb, sup := sup, cup := cup))
  {
    Grammar(v);
    hide Datas;
  }

  lemma TaskStepKeeps(z: Zstd, s: System, k: nat, te: TaskEvent)
    requires Inv(z, s) && TaskEnabled(s.sv, k, te) && !te.Emit?
    ensures Inv(z, s.(sv := StepTask(s.sv, k, te)))
  {
    var s' := s.(sv := StepTask(s.sv, k, te));
    TaskStructure(z, s, k, te);
    TaskKeepsNoLeaks(s.sv, k, te);
    TaskViewOwn(z, s, k, te);
    hide StepTask, LinkInv, ViewOf, Structure;
    forall j | 0 <= j < |s.sv.tasks| ensures Keeps(ViewOf(s, j), ViewOf(s', j)) {
      if j != k {
        TaskViewsOthers(z, s, k, te, j);
        KeepsSelf(ViewOf(s, j));
      }
    }
    ViewsKeptSuffices(s, s');
  }

  // ----- Writes -----

  /** What a task writes is well formed, is tagged with its owner, and is what its stage calls for. */
  lemma OutgoingOk(s: System, k: nat, pid: u64)
    requires TaskPipe(s, k) && LinkInv(ViewOf(s, k))
    requires var st := s.sv.tasks[k].stage; st.Routed? || st.Sending? || st.Closing?
    ensures var t := s.sv.tasks[k];
      var tm := Tagged(Some(k), Outgoing(t, pid));
      && WellFormed(tm.m) && SrvTagOk(s.sv.tasks, t.conn.value, tm) && Abs(tm.m) == TaskMsg(t.stage)
  {
    hide LinkInv, Proj, PhaseOf, ClientPhaseOf;
    SendingSizes(ViewOf(s, k));
    assert ViewOf(s, k).t == s.sv.tasks[k];
    hide ViewOf;
  }

  lemma EmitStructure(z: Zstd, s: System, k: nat, pid: u64, out: SendOutcome)
    requires Inv(z, s) && CanEmit(z, s, k, pid, out)
    ensures Structure(z, AfterSend(z, s, k, pid, out))
  {
    hide Inv, Structure, MayPut, ViewOf, LinkInv, TaskOk, WellFormed, SrvTagOk, Frame;
    TaskPart(z, s, k);
    OutgoingOk(s, k, pid);
    var tm := Tagged(Some(k), Outgoing(s.sv.tasks[k], pid));
    var c := s.sv.tasks[k].conn.value;
    TaskStructure(z, s, k, Emit(out.Sent?));
    var s1 := s.(sv := StepTask(s.sv, k, Emit(out.Sent?)));
    TasksAfterTask(z, s, k, Emit(out.Sent?));
    OwnsStable(s.sv.tasks, s1.sv.tasks, c, tm);
    hide StepTask, Stable;
    PutStructure(z, s1, c, tm, out);
  }

  predicate CanEmit(z: Zstd, s: System, k: nat, pid: u64, out: SendOutcome) {
    && TaskPipe(s, k) && TaskEnabled(s.sv, k, Emit(out.Sent?))
    && MayPut(z, s.pipes[s.sv.tasks[k].conn.value].s2c, Outgoing(s.sv.tasks[k], pid), out)
  }

  function AfterSend(z: Zstd, s: System, k: nat, pid: u64, out: SendOutcome): System
    requires CanEmit(z, s, k, pid, out)
  {
    s.(sv := StepTask(s.sv, k, Emit(out.Sent?)),
       pipes := ToClient(z, s, s.sv.tasks[k].conn.value, Tagged(Some(k), Outgoing(s.sv.tasks[k], pid)), out))
  }

  lemma OwnsStable(tasks: seq<Task>, tasks': seq<Task>, c: nat, tm: Tagged)
    requires Stable(tasks, tasks') && SrvTagOk(tasks, c, tm)
    ensures SrvTagOk(tasks', c, tm)
  {
  }

  lemma PutStructure(z: Zstd, s: System, c: nat, tm: Tagged, out: SendOutcome)
    requires Structure(z, s) && c in s.pipes && MayPut(z, s.pipes[c].s2c, tm.m, out)
    requires WellFormed(tm.m) && SrvTagOk(s.sv.tasks, c, tm)
    ensures Structure(z, s.(pipes := ToClient(z, s, c, tm, out)))
  {
    hide MayPut, WellFormed, SrvTagOk, PipesOk, TagsOk, TasksOk, LoopsOk, ProcsOk;
    PutToClient(z, s, c, tm, out);
    hide ToClient, SameEnds;
    EndsKeepRest(s.sv, s.pipes, ToClient(z, s, c, tm, out), s.cl);
  }

  lemma EmitViews(z: Zstd, s: System, k: nat, pid: u64, out: SendOutcome, j: nat)
    requires Inv(z, s) && CanEmit(z, s, k, pid, out) && j < |s.sv.tasks|
    ensures Keeps(ViewOf(s, j), ViewOf(AfterSend(z, s, k, pid, out), j))
  {
    hide Inv, MayPut, ViewOf, LinkInv, TaskOk, Frame, Keeps, WellFormed, SrvTagOk, WireOk;
    TaskPart(z, s, k);
    TaskPart(z, s, j);
    assert TaskEnabled(s.sv, k, Emit(out.Sent?));
    OutgoingOk(s, k, pid);
    var c := s.sv.tasks[k].conn.value;
    PipePart(z, s, c);
    GotBound(z, s.pipes[c].s2c);
    var tm := Tagged(Some(k), Outgoing(s.sv.tasks[k], pid));
    PutToClientView(z, s, c, tm, out, j);
    OwnRecordOnly(s.sv, k, Emit(out.Sent?));
    var s1 := s.(pipes := ToClient(z, s, c, tm, out));
    var sv' := StepTask(s.sv, k, Emit(out.Sent?));
    SvView(s1, sv', j);
    SvView(s, s.sv, j);
    if out.Sent? {
      SentUnbroken(z, s.pipes[c].s2c, tm.m, out);
    }
    hide StepTask, ToClient, Outgoing;
    if j == k {
      EmitKeeps(ViewOf(s, k), out.Sent?);
    } else {
      ForeignPutKeeps(ViewOf(s, j), ViewOf(s1, j).sb, ViewOf(s, j).cb);
    }
  }

  lemma GotBound(z: Zstd, w: Wire)
    requires WireOk(z, w)
    ensures w.got <= |w.sent|
  {
  }

  lemma SentUnbroken(z: Zstd, w: Wire, m: Message, out: SendOutcome)
    requires MayPut(z, w, m, out) && out.Sent?
    ensures !w.broken
  {
  }

  lemma EmitStepKeeps(z: Zstd, s: System, k: nat, pid: u64, out: SendOutcome)
    requires Inv(z, s) && CanEmit(z, s, k, pid, out)
    ensures Inv(z, AfterSend(z, s, k, pid, out))
  {
    var s' := AfterSend(z, s, k, pid, out);
    assert TaskEnabled(s.sv, k, Emit(out.Sent?));
    hide Inv, Structure, MayPut, ViewOf, LinkInv, NoLeaks, ViewsOk, LiveDistinct, Keeps, CanEmit,
      PipesOk, TagsOk, TasksOk, LoopsOk, ProcsOk;
    EmitStructure(z, s, k, pid, out);
    Parts(z, s);
    TaskKeepsNoLeaks(s.sv, k, Emit(out.Sent?));
    forall j | 0 <= j < |s.sv.tasks| ensures Keeps(ViewOf(s, j), ViewOf(s', j)) {
      EmitViews(z, s, k, pid, out, j);
    }
    hide StepTask, ToClient, TaskEnabled;
    ViewsKeptSuffices(s, s');
    InvFromParts(z, s');
  }
}
