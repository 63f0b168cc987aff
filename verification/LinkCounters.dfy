/** What the traffic counters of the server's links count: `set_state` restarts them on every change of state, so
    they are the totals since the last one. */
module LinkCounters {
  import opened Bytes
  import opened Links
  import opened LinkServer
  import opened ServerRuns

  /** What the application has been sent, less a torn write. */
  function Delivered(l: LinkVal): int {
    |l.written| - l.torn
  }

  predicate TornIsShut(l: LinkVal) {
    l.torn <= |l.written| && (l.open ==> l.torn == 0)
  }

  /** The step is a `set_state` on the link of task `k`. */
  predicate Resets(s: Server, e: Event, k: nat) {
    e == OfTask(k, SetWaiting)
    || (e.OfLoop? && e.le.ConfirmLink? && e.c in s.conns && s.conns[e.c].loop == Confirm(k))
  }

  /** The counters of `t'` are those of `t`, with what was read and delivered in between added. */
  predicate Adds(t: Task, t': Task) {
    && |t'.read| >= |t.read| && Delivered(t'.link) >= Delivered(t.link)
    && t'.link.bytesIn == (t.link.bytesIn + |t'.read| - |t.read|) % U64_SIZE
    && t'.link.bytesOut == (t.link.bytesOut + Delivered(t'.link) - Delivered(t.link)) % U64_SIZE
  }

  predicate Zeroed(l: LinkVal) {
    l.bytesIn == 0 && l.bytesOut == 0
  }

  lemma AddsNothing(t: Task)
    ensures Adds(t, t)
  {
  }

  lemma SendAdds(t: Task, payload: bytes, out: WriteOutcome)
    requires TornIsShut(t.link)
    ensures var l := SendPacket(t.link, payload, out); TornIsShut(l) && Adds(t, t.(link := l))
  {
  }

  lemma CloseCounts(t: Task)
    requires TornIsShut(t.link)
    ensures var t' := t.(link := CloseConnection(t.link));
      TornIsShut(t'.link) && Adds(t, t') && Adds(t, t)
  {
  }

  lemma TaskCounts(s: Server, k: nat, j: nat, e: TaskEvent)
    requires TaskEnabled(s, j, e) && k < |s.tasks| && TornIsShut(s.tasks[k].link)
    ensures var t, t' := s.tasks[k], StepTask(s, j, e).tasks[k];
      TornIsShut(t'.link) && if Resets(s, OfTask(j, e), k) then Zeroed(t'.link) else Adds(t, t')
  {
  }

  lemma LoopCounts(s: Server, c: nat, k: nat, e: LoopEvent)
    requires LoopEnabled(s, c, e) && k < |s.tasks| && TornIsShut(s.tasks[k].link)
    ensures var t, t' := s.tasks[k], StepLoop(s, c, e).tasks[k];
      TornIsShut(t'.link) && if Resets(s, OfLoop(c, e), k) then Zeroed(t'.link) else Adds(t, t')
  {
    hide NextLoop, SendPacket;
    if e.DeliverTo? {
      SendAdds(s.tasks[k], s.conns[c].loop.payload, e.out);
    }
  }

  lemma StepCounts(s: Server, e: Event, k: nat)
    requires Enabled(s, e) && k < |s.tasks| && TornIsShut(s.tasks[k].link)
    ensures k < |Step(s, e).tasks|
    ensures var t, t' := s.tasks[k], Step(s, e).tasks[k];
      TornIsShut(t'.link) && if Resets(s, e, k) then Zeroed(t'.link) else Adds(t, t')
  {
    hide StepTask, StepLoop, TaskEnabled, LoopEnabled, Adds, TornIsShut, Zeroed;
    match e
    case OfTask(j, te) => TaskCounts(s, k, j, te);
    case OfLoop(c, le) => LoopCounts(s, c, k, le);
    case Shutdown => CloseCounts(s.tasks[k]);
    case _ => AddsNothing(s.tasks[k]);
  }

  lemma AddsOn(a: Task, b: Task, c: Task)
    requires Adds(a, b) && Adds(b, c)
    ensures Adds(a, c)
  {
    ModStep(a.link.bytesIn + |b.read| - |a.read|, |c.read| - |b.read|);
    ModStep(a.link.bytesOut + Delivered(b.link) - Delivered(a.link), Delivered(c.link) - Delivered(b.link));
  }

  /** At point `j` the counters of task `k`'s link start from zero: its link is new, or its state was just set. */
  ghost predicate Restarts(run: seq<Server>, events: seq<Event>, j: nat, k: nat) {
    && 0 < j < |run| && |run| == |events| + 1 && k < |run[j].tasks|
    && (k < |run[j - 1].tasks| ==> Resets(run[j - 1], events[j - 1], k))
  }

  /** No `set_state` on task `k`'s link from point `j` to point `i`. */
  ghost predicate Undisturbed(run: seq<Server>, events: seq<Event>, j: nat, i: nat, k: nat) {
    j <= i < |run| && |run| == |events| + 1 && forall n :: j <= n < i ==> !Resets(run[n], events[n], k)
  }

  /** At every point of every run of the server, whatever the clients send: the incoming counter of a link is the
      length of what was read from its application since the state of the link was last set (or since the link was
      made), and the outgoing counter the length of what its application has been sent since then, less a torn
      write, modulo 2^64. */
  lemma CountsSinceReset(run: seq<Server>, events: seq<Event>, i: nat, k: nat) returns (j: nat)
    requires IsServerRun(run, events) && i < |run| && k < |run[i].tasks|
    ensures Restarts(run, events, j, k) && Undisturbed(run, events, j, i, k)
    ensures var was, t := run[j].tasks[k], run[i].tasks[k];
      && |was.read| <= |t.read| && t.link.bytesIn == (|t.read| - |was.read|) % U64_SIZE
      && Delivered(was.link) <= Delivered(t.link)
      && t.link.bytesOut == (Delivered(t.link) - Delivered(was.link)) % U64_SIZE
  {
    j := Since(run, events, i, k);
  }

  lemma {:induction false} Since(run: seq<Server>, events: seq<Event>, i: nat, k: nat) returns (j: nat)
    requires IsServerRun(run, events) && i < |run| && k < |run[i].tasks|
    ensures Restarts(run, events, j, k) && Undisturbed(run, events, j, i, k)
    ensures Zeroed(run[j].tasks[k].link) && TornIsShut(run[i].tasks[k].link) && Adds(run[j].tasks[k], run[i].tasks[k])
  {
    assert i > 0;
    var s, e, s' := run[i - 1], events[i - 1], run[i];
    assert Enabled(s, e) && s' == Step(s, e);
    hide IsServerRun, Adds, Enabled, Step, Resets;
    if k >= |s.tasks| {
      OnlyAllocAdds(s, e);
      NewLinkOf(s);
      j := i;
      AddsNothing(s'.tasks[k]);
    } else {
      var m := Since(run, events, i - 1, k);
      StepCounts(s, e, k);
      if Resets(s, e, k) {
        j := i;
        AddsNothing(s'.tasks[k]);
      } else {
        j := m;
        AddsOn(run[j].tasks[k], s.tasks[k], s'.tasks[k]);
      }
    }
  }

  lemma NewLinkOf(s: Server)
    ensures var t := Step(s, Alloc).tasks[|s.tasks|]; Zeroed(t.link) && TornIsShut(t.link)
  {
  }

  // ----- The state -----

  /** What a step makes of the state of task `k`'s link, if it sets it: the task marks it as waiting, a loop that handles
      `Opened` as connected, and whoever closes it as disconnected. */
  function StateSet(s: Server, e: Event, k: nat): Option<ConnectionState> {
    match e
    case OfTask(j, SetWaiting) => if j == k then Some(Waiting) else None
    case OfTask(j, Finish) => if j < |s.tasks| && s.tasks[j].stage == Unlinked(Some(k)) then Some(Disconnected) else None
    case OfLoop(c, ConfirmLink) => if c in s.conns && s.conns[c].loop == Confirm(k) then Some(Connected) else None
    case OfLoop(c, CloseFor) => if c in s.conns && s.conns[c].loop == CloseLink(k) then Some(Disconnected) else None
    case OfLoop(c, CleanShut) =>
      if c in s.conns && s.conns[c].loop.CleanClose? && s.conns[c].loop.link == k then Some(Disconnected) else None
    case Shutdown => if k in s.links.Values then Some(Disconnected) else None
    case _ => None
  }

  lemma TaskSets(s: Server, j: nat, e: TaskEvent, k: nat)
    requires TaskEnabled(s, j, e) && k < |s.tasks|
    ensures var now := StateSet(s, OfTask(j, e), k);
      StepTask(s, j, e).tasks[k].link.state == if now.Some? then now.value else s.tasks[k].link.state
  {
  }

  lemma LoopSets(s: Server, c: nat, e: LoopEvent, k: nat)
    requires LoopEnabled(s, c, e) && k < |s.tasks|
    ensures var now := StateSet(s, OfLoop(c, e), k);
      StepLoop(s, c, e).tasks[k].link.state == if now.Some? then now.value else s.tasks[k].link.state
  {
    hide NextLoop;
  }

  lemma StepSets(s: Server, e: Event, k: nat)
    requires Enabled(s, e) && k < |s.tasks|
    ensures k < |Step(s, e).tasks|
    ensures Step(s, e).tasks[k].link.state == if StateSet(s, e, k).Some? then StateSet(s, e, k).value else s.tasks[k].link.state
  {
    match e
    case OfTask(j, te) => TaskSets(s, j, te, k); hide StepTask, TaskEnabled;
    case OfLoop(c, le) => LoopSets(s, c, le, k); hide StepLoop, LoopEnabled;
    case _ =>
  }

  /** No step sets the state of task `k`'s link from point `j` to point `i`. */
  ghost predicate NoneSets(run: seq<Server>, events: seq<Event>, j: nat, i: nat, k: nat) {
    j <= i < |run| && |run| == |events| + 1 && forall n :: j <= n < i ==> StateSet(run[n], events[n], k).None?
  }

  /** At every point of every run of the server: the state that a link reports is the one that was last set, by its task,
      by the loop that handled `Opened`, or by whoever closed it; and a link whose state nobody has set yet is
      disconnected. */
  lemma {:induction false} StateIsLastSet(run: seq<Server>, events: seq<Event>, i: nat, k: nat) returns (j: nat)
    requires IsServerRun(run, events) && i < |run| && k < |run[i].tasks|
    ensures 0 < j && NoneSets(run, events, j, i, k)
    ensures var state := run[i].tasks[k].link.state;
      if k < |run[j - 1].tasks| then StateSet(run[j - 1], events[j - 1], k) == Some(state) else state == Disconnected
  {
    assert i > 0;
    var s, e, s' := run[i - 1], events[i - 1], run[i];
    assert Enabled(s, e) && s' == Step(s, e);
    hide IsServerRun, Enabled, Step, StateSet;
    if k >= |s.tasks| {
      OnlyAllocAdds(s, e);
      NewLinkIs(s);
      j := i;
    } else {
      var m := StateIsLastSet(run, events, i - 1, k);
      StepSets(s, e, k);
      j := if StateSet(s, e, k).Some? then i else m;
    }
  }

  lemma NewLinkIs(s: Server)
    ensures Step(s, Alloc).tasks[|s.tasks|].link.state == Disconnected
  {
  }
}
