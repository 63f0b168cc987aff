/** When the server's application misses data: exactly when `Waiting` landed on a connected link, and payloads of
    it were dispatched after that. */
module TunnelLoss {
  import opened Bytes
  import opened Packets
  import opened Compression
  import opened Framing
  import opened Links
  import opened LinkServer
  import opened ServerRuns
  import opened LinkClient
  import opened LinkProtocol
  import opened Wires
  import opened Tunnel
  import opened TunnelInv
  import opened TunnelWires
  import opened TunnelLoops
  import opened TunnelReads
  import opened TunnelRuns
  import opened TunnelHistory
  import opened TunnelTheorems

  // ----- The step that loses -----

  /** In step `j` the handler of task `k` sets its link waiting although it is connected already. */
  ghost predicate LateWaiting(run: seq<System>, acts: seq<Act>, j: nat, k: nat) {
    && |run| == |acts| + 1 && j < |acts| && acts[j] == SrvTask(k, SetWaiting)
    && k < |run[j].sv.tasks| && run[j].sv.tasks[k].link.state.Connected?
  }

  predicate PastWaiting(st: Stage) {
    !st.Picking? && !st.Picked? && !st.Added? && !st.Routed? && !st.OpenSent?
  }

  lemma TaskLost(sv: Server, k: nat, te: TaskEvent, o: nat)
    requires TaskEnabled(sv, k, te) && o < |sv.tasks|
    ensures o < |StepTask(sv, k, te).tasks|
    ensures var t, t' := sv.tasks[o], StepTask(sv, k, te).tasks[o];
      && (PastWaiting(t.stage) ==> PastWaiting(t'.stage))
      && (if k == o && te.SetWaiting? then
            !PastWaiting(t.stage) && PastWaiting(t'.stage)
            && t'.lost == if t.link.state.Connected? then Some(t.link.written) else t.lost
          else t'.lost == t.lost)
  {
  }

  lemma EventLost(sv: Server, e: Event, o: nat)
    requires Enabled(sv, e) && o < |sv.tasks|
    ensures o < |Step(sv, e).tasks|
    ensures var t, t' := sv.tasks[o], Step(sv, e).tasks[o];
      && (PastWaiting(t.stage) ==> PastWaiting(t'.stage))
      && (if e == OfTask(o, SetWaiting) then
            !PastWaiting(t.stage) && PastWaiting(t'.stage)
            && t'.lost == if t.link.state.Connected? then Some(t.link.written) else t.lost
          else t'.lost == t.lost)
  {
    match e
    case OfTask(k, te) => TaskLost(sv, k, te, o); hide StepTask, TaskEnabled;
    case OfLoop(c, le) => LoopEffect(sv, c, le); hide StepLoop, LoopEnabled;
    case _ =>
  }

  lemma ActLost(z: Zstd, s: System, a: Act, o: nat)
    requires CanAct(z, s, a) && o < |s.sv.tasks|
    ensures o < |Next(z, s, a).sv.tasks|
    ensures var t, t' := s.sv.tasks[o], Next(z, s, a).sv.tasks[o];
      && (PastWaiting(t.stage) ==> PastWaiting(t'.stage))
      && (if a == SrvTask(o, SetWaiting) then
            !PastWaiting(t.stage) && PastWaiting(t'.stage)
            && t'.lost == if t.link.state.Connected? then Some(t.link.written) else t.lost
          else t'.lost == t.lost)
  {
    ActOnServer(z, s, a);
    var e := EventOf(z, s, a);
    assert e == Some(OfTask(o, SetWaiting)) <==> a == SrvTask(o, SetWaiting);
    hide CanAct, Next, Enabled, Step, EventOf, PastWaiting;
    if e.Some? {
      EventLost(s.sv, e.value, o);
    }
  }

  /** In every run: the record of a loss is there exactly if such a step has happened, and it then holds what the
      application had been sent at that step. */
  lemma {:induction false} LostIffLate(z: Zstd, run: seq<System>, acts: seq<Act>, i: nat, k: nat)
    requires IsRun(z, run, acts) && i < |run| && k < |run[i].sv.tasks|
    ensures run[i].sv.tasks[k].lost.Some? <==> exists j :: 0 <= j < i && LateWaiting(run, acts, j, k)
    ensures forall j :: 0 <= j < i && LateWaiting(run, acts, j, k) ==>
              PastWaiting(run[i].sv.tasks[k].stage) && run[i].sv.tasks[k].lost == Some(run[j].sv.tasks[k].link.written)
  {
    hide CanAct, Next;
    if i > 0 {
      hide IsInit;
      var s, a := run[i - 1], acts[i - 1];
      assert CanAct(z, s, a) && run[i] == Next(z, s, a);
      if k < |s.sv.tasks| {
        LostIffLate(z, run, acts, i - 1, k);
        ActLost(z, s, a, k);
        hide IsRun;
        if a == SrvTask(k, SetWaiting) && s.sv.tasks[k].link.state.Connected? {
          assert LateWaiting(run, acts, i - 1, k);
        }
      } else {
        NewTaskNotLost(z, s, a, k);
        forall j | 0 <= j < i ensures !LateWaiting(run, acts, j, k) {
          ServerLater(z, run, acts, j, i - 1);
        }
      }
    }
  }

  lemma NewTaskNotLost(z: Zstd, s: System, a: Act, k: nat)
    requires CanAct(z, s, a) && |s.sv.tasks| <= k < |Next(z, s, a).sv.tasks|
    ensures Next(z, s, a).sv.tasks[k].lost.None?
  {
    ActOnServer(z, s, a);
    var e := EventOf(z, s, a);
    hide CanAct, Next, EventOf;
    OnlyAllocAdds(s.sv, e.value);
    hide StepTask, StepLoop, TaskEnabled, LoopEnabled;
  }

  // ----- Payloads -----

  /** The payloads in a log, in order. */
  function Payloads(log: seq<Msg>): seq<bytes> {
    if log == [] then [] else
      var m := log[|log| - 1];
      Payloads(log[..|log| - 1]) + (if m.MData? then [m.d] else [])
  }

  predicate NoEmptyData(log: seq<Msg>) {
    forall i :: 0 <= i < |log| && log[i].MData? ==> log[i].d != []
  }

  lemma {:induction false} LongerData(a: seq<Msg>, b: seq<Msg>)
    requires a <= b && NoEmptyData(b)
    ensures |Datas(a)| <= |Datas(b)| && |Payloads(a)| <= |Payloads(b)|
    ensures |Datas(a)| == |Datas(b)| ==> Payloads(a) == Payloads(b)
    ensures |Payloads(a)| == |Payloads(b)| ==> Payloads(a) == Payloads(b) && Datas(a) == Datas(b)
    decreases |b|
  {
    if |a| < |b| {
      LongerData(a, b[..|b| - 1]);
    } else {
      assert a == b;
    }
  }

  /** Two parts of one log carry the same bytes exactly if they have the same payloads. */
  lemma SamePayloads(log: seq<Msg>, a: seq<Msg>, b: seq<Msg>)
    requires a <= log && b <= log && NoEmptyData(log)
    ensures Datas(a) == Datas(b) <==> Payloads(a) == Payloads(b)
  {
    if |a| <= |b| {
      assert a <= b;
      LongerData(a, b);
    } else {
      assert b <= a;
      LongerData(b, a);
    }
  }

  // ----- Client to server: complete unless Waiting came late -----

  /** The packets of link `k` that the server has dealt with: all it took, but for the one its loop still holds. */
  function HandledAt(s: System, c: nat, k: nat): seq<Msg>
    requires c in s.pipes
  {
    ServerHandled(TakenAt(s, c, k), SrvPhase(s, c, k))
  }

  lemma DeliveredAt(v: View)
    requires LinkInv(v) && v.sreg && v.t.link.open
    ensures v.t.link.state.Connected? ==> v.t.link.written == Datas(ServerHandled(v.sh, v.sp))
    ensures v.t.lost.Some? ==> v.t.link.written == v.t.lost.value && !v.t.link.state.Connected?
    ensures OpenedHandled(v.sh, v.sp) && v.t.lost.None? ==> v.t.link.state.Connected?
  {
    hide ClientInv, ServerFlow, ServerSide, Datas;
  }

  lemma LogData(v: View)
    requires LinkInv(v)
    ensures NoEmptyData(v.clog) && ServerHandled(v.sh, v.sp) <= v.clog
  {
    Grammar(v);
    hide ServerFlow, ClientSide, ClientDelivery, ServerDelivery, ClientCounters, ServerSide, ServerGrammar, Datas;
  }

  /** What `HandledAt` and the rest say of a link in a reached state. */
  lemma AtPoint(z: Zstd, run: seq<System>, acts: seq<Act>, i: nat, k: nat, c: nat)
    requires i < |run| && Reached(z, run, acts, i, run[i]) && k < |run[i].sv.tasks| && On(run[i], k, c)
    ensures var s := run[i]; var t := s.sv.tasks[k];
      && NoEmptyData(Proj(s.pipes[c].c2s.sent, k)) && HandledAt(s, c, k) <= Proj(s.pipes[c].c2s.sent, k)
      && (SrvRegistered(s, k) && t.link.open ==>
            && (t.link.state.Connected? ==> t.link.written == Datas(HandledAt(s, c, k)))
            && (t.lost.Some? ==> t.link.written == t.lost.value && !t.link.state.Connected?)
            && (HandledAt(s, c, k) != [] && HandledAt(s, c, k)[0] == MOpened && t.lost.None? ==> t.link.state.Connected?))
  {
    hide Reached, Inv, ViewOf, LinkInv, Proj, Datas;
    var s := run[i];
    ReachedInv(z, run, acts, i, s);
    TaskPart(z, s, k);
    ViewRecord(s, k);
    var v := ViewOf(s, k);
    assert ServerHandled(v.sh, v.sp) == HandledAt(s, c, k);
    LogData(v);
    if v.sreg && v.t.link.open {
      DeliveredAt(v);
    }
  }

  /** Where the link stood when it was set waiting too late. */
  lemma AtLateStep(z: Zstd, run: seq<System>, acts: seq<Act>, i: nat, j: nat, k: nat, c: nat)
    requires i < |run| && Reached(z, run, acts, i, run[i]) && k < |run[i].sv.tasks| && On(run[i], k, c)
    requires SrvRegistered(run[i], k) && run[i].sv.tasks[k].link.open && j < i && LateWaiting(run, acts, j, k)
    ensures On(run[j], k, c) && run[j].sv.tasks[k].link.written == Datas(HandledAt(run[j], c, k))
    ensures HandledAt(run[j], c, k) <= Proj(run[i].pipes[c].c2s.sent, k)
  {
    assert Reached(z, run, acts, j, run[j]) && IsRun(z, run, acts);
    assert CanAct(z, run[j], acts[j]);
    var s, s' := run[j], run[i];
    assert WasAdded(s.sv.tasks[k]) by { LateWasAdded(z, run, acts, j, k); }
    ServerLater(z, run, acts, j, i);
    RunGrows(z, run, acts, j, i);
    hide Reached, CanAct, IsRun, LateWaiting, Proj, Datas;
    assert InRegistry(s.sv, k) && s.sv.tasks[k].link.open && s.sv.tasks[k].conn == Some(c);
    LateOnPipe(z, run, acts, j, k, c);
    AtPoint(z, run, acts, j, k, c);
    ProjMonotone(s.pipes[c].c2s.sent, s'.pipes[c].c2s.sent, k);
  }

  lemma LateWasAdded(z: Zstd, run: seq<System>, acts: seq<Act>, j: nat, k: nat)
    requires j < |run| && Reached(z, run, acts, j, run[j]) && LateWaiting(run, acts, j, k)
    ensures WasAdded(run[j].sv.tasks[k])
  {
    assert IsRun(z, run, acts) && CanAct(z, run[j], acts[j]);
    hide Reached, Inv, ViewOf, LinkInv;
    ReachedInv(z, run, acts, j, run[j]);
    TaskPart(z, run[j], k);
  }

  lemma LateOnPipe(z: Zstd, run: seq<System>, acts: seq<Act>, j: nat, k: nat, c: nat)
    requires j < |run| && Reached(z, run, acts, j, run[j]) && k < |run[j].sv.tasks| && run[j].sv.tasks[k].conn == Some(c)
    ensures On(run[j], k, c)
  {
    hide Reached, Inv, ViewOf, LinkInv;
    ReachedInv(z, run, acts, j, run[j]);
    TaskPart(z, run[j], k);
  }

  /** Take a link still in the server's registry whose `Opened` was handled and whose application still accepts
      data.  It is connected exactly if no handler's `Waiting` ever landed on it while it was connected.  Its
      application has been sent every payload handled for it exactly if there was no such step, or no
      payload was handled after it.  From such a step on nothing more is delivered. */
  lemma CompleteUnlessWaitingLate(z: Zstd, run: seq<System>, acts: seq<Act>, i: nat, k: nat, c: nat)
    requires i < |run| && Reached(z, run, acts, i, run[i]) && k < |run[i].sv.tasks| && On(run[i], k, c)
    requires SrvRegistered(run[i], k) && run[i].sv.tasks[k].link.open
    requires HandledAt(run[i], c, k) != [] && HandledAt(run[i], c, k)[0] == MOpened
    ensures var l := run[i].sv.tasks[k].link;
      && (l.state.Connected? <==> forall j :: 0 <= j < i ==> !LateWaiting(run, acts, j, k))
      && (l.written == Datas(HandledAt(run[i], c, k)) <==>
            forall j :: 0 <= j < i && LateWaiting(run, acts, j, k) ==>
              c in run[j].pipes && Payloads(HandledAt(run[j], c, k)) == Payloads(HandledAt(run[i], c, k)))
      && forall j :: 0 <= j < i && LateWaiting(run, acts, j, k) ==>
           c in run[j].pipes && l.written == Datas(HandledAt(run[j], c, k))
  {
    assert IsRun(z, run, acts);
    LostIffLate(z, run, acts, i, k);
    AtPoint(z, run, acts, i, k, c);
    hide Reached, IsRun, LateWaiting, Proj, Datas, Payloads, HandledAt, NoEmptyData;
    forall j | 0 <= j < i && LateWaiting(run, acts, j, k)
      ensures c in run[j].pipes && run[i].sv.tasks[k].link.written == Datas(HandledAt(run[j], c, k))
      ensures Datas(HandledAt(run[j], c, k)) == Datas(HandledAt(run[i], c, k)) <==>
              Payloads(HandledAt(run[j], c, k)) == Payloads(HandledAt(run[i], c, k))
    {
      AtLateStep(z, run, acts, i, j, k, c);
      SamePayloads(Proj(run[i].pipes[c].c2s.sent, k), HandledAt(run[j], c, k), HandledAt(run[i], c, k));
    }
  }

  /** A link whose `Close` the server holds: the client has read nothing beyond what the packets before it carry. */
  lemma CloseHeldAtServer(v: View)
    requires LinkInv(v) && v.sp == PHeld(MClose)
    ensures var h := ServerHandled(v.sh, v.sp);
      v.c.Some? && v.c.value.read == Datas(h) && h != [] && h[0] == MOpened
  {
    Grammar(v);
    HeldShapes(v);
    var n := |v.sh|;
    assert v.sh[n - 1] == MClose && v.clog[n - 1] == MClose && v.clog[0] == MOpened;
    assert v.sh == v.clog;
    assert Datas(v.sh) == Datas(v.sh[..n - 1]);
    assert Answer(v.c, v.clog, v.cb);
    ClosedClient(v.c.value, v.clog, v.cb, n);
    hide Datas, ServerFlow, ClientSide, ServerSide, ClientDelivery, ServerDelivery, ClientCounters, Answer;
  }

  lemma ClosedClient(c: ClientLink, log: seq<Msg>, broken: bool, n: nat)
    requires ClientFlow(c.stage, c.read, log, broken) && 2 <= n <= |log| && log[n - 1] == MClose
    ensures Datas(log) == c.read
  {
    hide Datas;
  }

  /** When the server comes to handle the client's `Close` for a link it still has, and whose application still
      accepts data: that application has been sent everything that was ever read at the client, exactly if no
      `Waiting` came too late, or no payload was handled after it. */
  lemma CloseAtServerFindsAll(z: Zstd, run: seq<System>, acts: seq<Act>, i: nat, c: nat)
    requires i < |run| && Reached(z, run, acts, i, run[i]) && c in run[i].sv.conns && run[i].sv.conns[c].loop.Held?
    requires var p := run[i].sv.conns[c].loop.packet; p.ptype.Close? && p.linkId in run[i].sv.links
    requires var k := run[i].sv.links[run[i].sv.conns[c].loop.packet.linkId];
      k < |run[i].sv.tasks| ==> run[i].sv.tasks[k].link.open
    ensures var k := run[i].sv.links[run[i].sv.conns[c].loop.packet.linkId];
      && k < |run[i].sv.tasks| && On(run[i], k, c) && CliLink(run[i], c, k).Some?
      && (run[i].sv.tasks[k].link.written == CliLink(run[i], c, k).value.read <==>
            forall j :: 0 <= j < i && LateWaiting(run, acts, j, k) ==>
              c in run[j].pipes && Payloads(HandledAt(run[j], c, k)) == Payloads(HandledAt(run[i], c, k)))
  {
    hide Reached, Inv, ViewOf, LinkInv, Proj, Datas, Payloads, LateWaiting, Live;
    var s := run[i];
    ReachedInv(z, run, acts, i, s);
    TaggedLookup(z, s, c);
    LoopPart(z, s, c);
    var k := s.pipes[c].stag.value;
    TaskPart(z, s, k);
    ViewRecord(s, k);
    CloseHeldAtServer(ViewOf(s, k));
    CompleteUnlessWaitingLate(z, run, acts, i, k, c);
  }
}
