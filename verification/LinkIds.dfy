/** Link ids are issued from a 16-bit counter that wraps: when ids repeat, and why live ids stay distinct. */
module LinkIds {
  import opened Bytes
  import opened Packets
  import opened Compression
  import opened Framing
  import opened Links
  import opened LinkServer
  import opened ServerRuns
  import opened LinkClient
  import opened LinkProtocol
  import opened Wires
  import opened Tunnel
  import opened TunnelInv
  import opened TunnelReads
  import opened TunnelRuns
  import opened TunnelRoutes

  /** The id issued by the `n`-th call of `next_link_id`, counting from 0. */
  function IdOf(n: nat): u16 {
    (n + 1) % U16_SIZE
  }

  /** Two calls return the same id exactly when they are a multiple of 65536 calls apart. */
  lemma SameIdIffCongruent(i: nat, j: nat)
    ensures IdOf(i) == IdOf(j) <==> i % U16_SIZE == j % U16_SIZE
  {
    var qi, ri := i / U16_SIZE, i % U16_SIZE;
    var qj, rj := j / U16_SIZE, j % U16_SIZE;
    assert i == qi * U16_SIZE + ri && j == qj * U16_SIZE + rj;
    assert IdOf(i) == (ri + 1) % U16_SIZE && IdOf(j) == (rj + 1) % U16_SIZE;
  }

  /** The counter wraps through 0, so the id reserved for control packets is issued to links too. */
  lemma ZeroIsIssued(n: nat)
    ensures IdOf(n) == 0 <==> n % U16_SIZE == U16_SIZE - 1
  {
    SameIdIffCongruent(n, U16_SIZE - 1);
  }

  /** Tasks are numbered by their allocation, and the counter is one allocation ahead. */
  ghost predicate Numbered(sv: Server) {
    && sv.counter == IdOf(|sv.tasks|)
    && forall k :: 0 <= k < |sv.tasks| ==> sv.tasks[k].id == IdOf(k)
  }

  lemma StepNumbered(sv: Server, e: Event)
    requires Numbered(sv) && Enabled(sv, e)
    ensures Numbered(Step(sv, e))
  {
    match e
    case Alloc => NextId(|sv.tasks|);
    case OfTask(k, te) => TaskEffect(sv, k, te); hide StepTask;
    case OfLoop(c, le) => LoopIds(sv, c, le); hide StepLoop;
    case _ =>
  }

  lemma NextId(n: nat)
    ensures (IdOf(n) + 1) % U16_SIZE == IdOf(n + 1)
  {
  }

  lemma LoopIds(sv: Server, c: nat, le: LoopEvent)
    requires LoopEnabled(sv, c, le)
    ensures var sv' := StepLoop(sv, c, le);
      |sv'.tasks| == |sv.tasks| && sv'.counter == sv.counter
      && forall j :: 0 <= j < |sv.tasks| ==> sv'.tasks[j].id == sv.tasks[j].id
  {
    hide NextLoop;
  }

  lemma TaskCounter(sv: Server, k: nat, te: TaskEvent)
    requires TaskEnabled(sv, k, te)
    ensures StepTask(sv, k, te).counter == sv.counter
  {
    hide TaskStep;
  }

  lemma ActNumbered(z: Zstd, s: System, a: Act)
    requires Numbered(s.sv) && CanAct(z, s, a)
    ensures Numbered(Next(z, s, a).sv)
  {
    hide Numbered, Step, StepTask, StepLoop, MayPut, MayTake, ReadPacket, LoopMoves, TaskMoves;
    match a
    case SrvAlloc => StepNumbered(s.sv, Alloc);
    case SrvRegister(c, addr) => StepNumbered(s.sv, Register(c, addr));
    case SrvTask(k, te) => TaskNumbered(s.sv, k, te);
    case SrvEmit(k, pid, out) => TaskNumbered(s.sv, k, Emit(out.Sent?));
    case SrvLoop(c, le) => LoopNumbered(s.sv, c, le);
    case SrvRecv(c) => var m := Received(z, s.pipes[c].c2s); LoopNumbered(s.sv, c, Recv(m.packet, m.data));
    case SrvPong(c, pid, out) => LoopNumbered(s.sv, c, PongSent);
    case SrvShutdown => StepNumbered(s.sv, Shutdown);
    case _ =>
  }

  lemma TaskNumbered(sv: Server, k: nat, te: TaskEvent)
    requires Numbered(sv) && TaskEnabled(sv, k, te)
    ensures Numbered(StepTask(sv, k, te))
  {
    TaskEffect(sv, k, te);
    TaskCounter(sv, k, te);
    hide StepTask;
  }

  lemma LoopNumbered(sv: Server, c: nat, le: LoopEvent)
    requires Numbered(sv) && LoopEnabled(sv, c, le)
    ensures Numbered(StepLoop(sv, c, le))
  {
    LoopIds(sv, c, le);
    hide StepLoop;
  }

  lemma {:induction false} RunNumbered(z: Zstd, run: seq<System>, acts: seq<Act>)
    requires IsRun(z, run, acts)
    ensures forall i :: 0 <= i < |run| ==> Numbered(run[i].sv)
  {
    hide CanAct, Next;
    if |acts| > 0 {
      hide Numbered, IsInit;
      var n := |acts|;
      var before, sooner := run[..n], acts[..n - 1];
      RunNumbered(z, before, sooner);
      assert before[n - 1] == run[n - 1];
      ActNumbered(z, run[n - 1], acts[n - 1]);
      assert forall i :: 0 <= i < n ==> before[i] == run[i];
    }
  }

  /** Every link issued at least 65536 allocations ago is finished. */
  ghost predicate OldLinksFinished(s: System) {
    forall k :: 0 <= k && k + U16_SIZE <= |s.sv.tasks| ==> !Live(ViewOf(s, k))
  }

  /** If, whenever an id is issued, the links of 65536 and more allocations ago are finished,
      then live ids stay distinct over the whole run. */
  lemma WindowSuffices(z: Zstd, run: seq<System>, acts: seq<Act>)
    requires IsRun(z, run, acts)
    requires forall i :: 0 <= i < |acts| && acts[i].SrvAlloc? ==> OldLinksFinished(run[i])
    ensures Disciplined(run, acts)
  {
    RunNumbered(z, run, acts);
    hide IsRun, Live, ViewOf;
    forall i | 0 <= i < |acts| && acts[i].SrvAlloc? ensures FreshId(run[i]) {
      var s := run[i];
      forall k | 0 <= k < |s.sv.tasks| && Live(ViewOf(s, k)) ensures s.sv.tasks[k].id != s.sv.counter {
        if IdOf(k) == IdOf(|s.sv.tasks|) {
          SameIdIffCongruent(k, |s.sv.tasks|);
          Apart(k, |s.sv.tasks|);
        }
      }
    }
  }

  lemma Apart(i: nat, j: nat)
    requires i < j && i % U16_SIZE == j % U16_SIZE
    ensures i + U16_SIZE <= j
  {
  }

  /** In every run, two tasks have the same id exactly when they were allocated a multiple of 65536 apart. */
  lemma TaskIdsRepeat(z: Zstd, run: seq<System>, acts: seq<Act>, n: nat, i: nat, j: nat)
    requires IsRun(z, run, acts) && n < |run| && i < |run[n].sv.tasks| && j < |run[n].sv.tasks|
    ensures run[n].sv.tasks[i].id == run[n].sv.tasks[j].id <==> i % U16_SIZE == j % U16_SIZE
  {
    RunNumbered(z, run, acts);
    assert Numbered(run[n].sv);
    hide IsRun;
    SameIdIffCongruent(i, j);
  }

  /** So if every link is finished before 65536 further allocations, `add_link` never finds its id in use. */
  lemma AddNeverOverwrites(z: Zstd, run: seq<System>, acts: seq<Act>, n: nat, k: nat)
    requires Lossless(z) && IsRun(z, run, acts) && n < |acts| && acts[n] == SrvTask(k, TaskEvent.AddLink)
    requires forall i :: 0 <= i < |acts| && acts[i].SrvAlloc? ==> OldLinksFinished(run[i])
    ensures k < |run[n].sv.tasks| && run[n].sv.tasks[k].id !in run[n].sv.links
  {
    WindowSuffices(z, run, acts);
    RunInv(z, run, acts);
    assert CanAct(z, run[n], acts[n]);
    hide IsRun, Disciplined, OldLinksFinished, Inv;
    Parts(z, run[n]);
    AddFindsFree(run[n].sv, k);
  }

  lemma AddFindsFree(sv: Server, k: nat)
    requires NoLeaks(sv) && TaskEnabled(sv, k, TaskEvent.AddLink)
    ensures forall id :: id in sv.links ==> id != sv.tasks[k].id
  {
    forall id | id in sv.links ensures id != sv.tasks[k].id {
      var j := sv.links[id];
      assert j != k && Unfinished(sv.tasks[j]) && Unfinished(sv.tasks[k]);
    }
  }

  /** Whatever a cleanup still has to unlink was issued within the last 65535 allocations. */
  ghost predicate PendingRecent(sv: Server) {
    forall c, id :: c in sv.conns && id in PendingIds(sv.conns[c].loop) ==>
      exists k :: 0 <= k < |sv.tasks| < k + U16_SIZE && sv.tasks[k].id == id
  }

  lemma RecentNotPending(sv: Server)
    requires Numbered(sv) && PendingRecent(sv)
    ensures NotPending(sv)
  {
    forall c | c in sv.conns ensures sv.counter !in PendingIds(sv.conns[c].loop) {
      if sv.counter in PendingIds(sv.conns[c].loop) {
        var k :| 0 <= k < |sv.tasks| < k + U16_SIZE && sv.tasks[k].id == sv.counter;
        SameIdIffCongruent(k, |sv.tasks|);
        Apart(k, |sv.tasks|);
      }
    }
  }

  /** So routes and links agree in every run in which, whenever an id is issued, the links of 65536 and more
      allocations ago are finished and off the list of every cleanup. */
  lemma AgreementInWindow(z: Zstd, run: seq<System>, acts: seq<Act>, i: nat)
    requires Lossless(z) && IsRun(z, run, acts) && i < |run| && !run[i].sv.shut
    requires forall j :: 0 <= j < |acts| && acts[j].SrvAlloc? ==> OldLinksFinished(run[j]) && PendingRecent(run[j].sv)
    ensures var sv := run[i].sv;
      forall id :: id in sv.routes ==> id in sv.links && sv.links[id] == sv.routes[id].owner
  {
    WindowSuffices(z, run, acts);
    RunNumbered(z, run, acts);
    forall j | 0 <= j < |acts| && acts[j].SrvAlloc? ensures NotPending(run[j].sv) {
      assert Numbered(run[j].sv);
      hide Numbered, PendingRecent, NotPending;
      RecentNotPending(run[j].sv);
    }
    hide IsRun, Disciplined, OldLinksFinished, PendingRecent, NotPending, Numbered;
    RouteLinkAgreement(z, run, acts, i);
  }
}
