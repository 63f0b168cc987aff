/** The life of one forwarding task on the client, from the answer to `Open` to its end: the words that its steps spell,
    whatever the server and the other tasks do. */
module ClientLives {
  import opened Bytes
  import opened Packets
  import opened Framing
  import opened Links
  import opened LinkClient

  /** The steps of the task of link `o`; its socket may fail at any moment, which is no step of the task. */
  function StepsOf(events: seq<ClientEvent>, o: nat): seq<ClientTaskEvent> {
    if events == [] then [] else
      var n := |events| - 1;
      StepsOf(events[..n], o)
      + if events[n].ByTask? && events[n].o == o && !events[n].te.AppFail? then [events[n].te] else []
  }

  // ----- Words -----

  predicate IsPump(e: ClientTaskEvent) {
    e.AppData? && 0 < |e.data| <= 16384
  }

  /** Rounds of the forwarding loop: each reads from the application, sends what it read, and counts it. */
  predicate ArePumps(w: seq<ClientTaskEvent>) {
    |w| % 3 == 0 && forall i :: 0 <= i < |w| ==>
      if i % 3 == 0 then IsPump(w[i]) else if i % 3 == 1 then w[i] == Put(true) else w[i] == Count
  }

  /** The last round: the application has ended, or what was read could not be sent. */
  predicate IsLast(w: seq<ClientTaskEvent>) {
    w == [AppOver] || (|w| == 2 && IsPump(w[0]) && w[1] == Put(false))
  }

  /** `Close` is written, and the link taken out of the registry. */
  predicate IsFarewell(w: seq<ClientTaskEvent>) {
    |w| == 2 && w[0].Put? && w[1].Forget?
  }

  /** Everything the task of a link ever does. */
  ghost predicate WholeTask(w: seq<ClientTaskEvent>) {
    exists a, b, c :: w == a + b + c && ArePumps(a) && IsLast(b) && IsFarewell(c)
  }

  // ----- Words and stages -----

  ghost predicate LoopLeft(w: seq<ClientTaskEvent>) {
    exists m :: 0 <= m <= |w| && ArePumps(w[..m]) && IsLast(w[m..])
  }

  /** The word a task has spelled when it is at this stage. */
  ghost predicate Spells(stage: ClientStage, w: seq<ClientTaskEvent>) {
    var n := |w|;
    match stage
    case Starting => w == []
    case Pumping => ArePumps(w)
    case Writing(d) => n >= 1 && ArePumps(w[..n - 1]) && w[n - 1] == AppData(d) && IsPump(w[n - 1])
    case Counting(d) =>
      n >= 2 && ArePumps(w[..n - 2]) && w[n - 2] == AppData(d) && IsPump(w[n - 2]) && w[n - 1] == Put(true)
    case Ending => LoopLeft(w)
    case EndSent => n >= 1 && LoopLeft(w[..n - 1]) && w[n - 1].Put?
    case Ended => n >= 2 && LoopLeft(w[..n - 2]) && IsFarewell(w[n - 2..])
  }

  lemma LeavesBy(w: seq<ClientTaskEvent>, last: seq<ClientTaskEvent>)
    requires ArePumps(w) && IsLast(last)
    ensures LoopLeft(w + last)
  {
    var w' := w + last;
    assert w'[..|w|] == w && w'[|w|..] == last;
  }

  lemma PumpsOn(w: seq<ClientTaskEvent>, d: bytes)
    requires ArePumps(w) && IsPump(AppData(d))
    ensures ArePumps(w + [AppData(d), Put(true), Count])
  {
  }

  lemma PutSpells(t: ClientLink, ok: bool, w: seq<ClientTaskEvent>)
    requires Spells(t.stage, w) && (t.stage.Writing? || t.stage.Ending?)
    ensures Spells(TaskDoes(t, Put(ok)).stage, w + [Put(ok)])
  {
    hide ArePumps, LoopLeft;
    var n := |w|;
    var w' := w + [Put(ok)];
    assert w'[..n] == w;
    if t.stage.Writing? {
      var v, d := w[..n - 1], t.stage.data;
      assert w'[..n - 1] == v;
      if !ok {
        LastRound(d);
        LeavesBy(v, [AppData(d), Put(false)]);
        assert w' == v + [AppData(d), Put(false)];
      }
    }
  }

  lemma LastRound(d: bytes)
    ensures IsPump(AppData(d)) ==> IsLast([AppData(d), Put(false)])
  {
  }

  lemma TaskSpells(s: Client, o: nat, e: ClientTaskEvent, w: seq<ClientTaskEvent>)
    requires TaskMay(s, o, e) && !e.AppFail? && Spells(s.objs[o].stage, w)
    ensures Spells(TaskMoves(s, o, e).objs[o].stage, w + [e])
  {
    var t := s.objs[o];
    var n := |w|;
    var w' := w + [e];
    assert w'[..n] == w;
    match e
    case Put(ok) => PutSpells(t, ok, w);
    case AppData(data) =>
    case AppOver => LeavesBy(w, [AppOver]);
    case Count =>
      var v, d := w[..n - 2], t.stage.data;
      assert w' == v + [AppData(d), Put(true), Count];
      PumpsOn(v, d);
    case Forget => assert w'[..n - 1] == w[..n - 1] && w'[n - 1..] == [w[n - 1], Forget];
  }

  /** A link that is being opened has not started its task. */
  predicate Unstarted(s: Client) {
    (s.loop.Dialed? || s.loop.Marked?) && s.loop.link in s.objs ==> s.objs[s.loop.link].stage.Starting?
  }

  lemma StaysUnstarted(s: Client, e: ClientEvent)
    requires Unstarted(s) && May(s, e)
    ensures Unstarted(Move(s, e))
  {
  }

  lemma OtherSteps(s: Client, e: ClientEvent, o: nat)
    requires Unstarted(s) && May(s, e) && o in s.objs && !(e.ByTask? && e.o == o && !e.te.AppFail?)
    ensures o in Move(s, e).objs && Move(s, e).objs[o].read == s.objs[o].read && Move(s, e).objs[o].id == s.objs[o].id
    ensures Move(s, e).objs[o].stage == s.objs[o].stage || (s.objs[o].stage.Starting? && Move(s, e).objs[o].stage.Pumping?)
  {
  }

  lemma NewObject(s: Client, e: ClientEvent, o: nat)
    requires May(s, e) && o !in s.objs
    ensures !(e.ByTask? && e.o == o)
    ensures o in Move(s, e).objs ==> Move(s, e).objs[o].stage.Starting? && Move(s, e).objs[o].read == []
  {
  }

  lemma LastMove(run: seq<Client>, events: seq<ClientEvent>)
    requires IsClientRun(run, events) && |events| > 0
    ensures var n := |events| - 1;
      && |run| == n + 2 && IsClientRun(run[..n + 1], events[..n])
      && May(run[n], events[n]) && run[n + 1] == Move(run[n], events[n])
  {
    hide May, Move;
  }

  lemma MoveAt(run: seq<Client>, events: seq<ClientEvent>, i: nat)
    requires IsClientRun(run, events) && i < |events|
    ensures |run| == |events| + 1 && May(run[i], events[i]) && run[i + 1] == Move(run[i], events[i])
  {
    hide May, Move;
  }

  lemma StartsBare(run: seq<Client>, events: seq<ClientEvent>)
    requires IsClientRun(run, events)
    ensures |run| == |events| + 1 && run[0].objs == map[] && Unstarted(run[0])
  {
    hide May, Move;
  }

  lemma {:induction false} AlwaysUnstarted(run: seq<Client>, events: seq<ClientEvent>, i: nat)
    requires IsClientRun(run, events) && i < |run|
    ensures Unstarted(run[i])
  {
    hide IsClientRun, May, Move, Unstarted;
    StartsBare(run, events);
    if i > 0 {
      AlwaysUnstarted(run, events, i - 1);
      MoveAt(run, events, i - 1);
      StaysUnstarted(run[i - 1], events[i - 1]);
    }
  }

  lemma SpelledBare()
    ensures Spells(Starting, []) && Spells(Pumping, [])
  {
  }

  lemma StartPumps(stage: ClientStage, stage': ClientStage, w: seq<ClientTaskEvent>)
    requires Spells(stage, w) && (stage' == stage || (stage.Starting? && stage'.Pumping?))
    ensures Spells(stage', w)
  {
  }

  lemma OwnMove(s: Client, o: nat, te: ClientTaskEvent)
    requires May(s, ByTask(o, te))
    ensures TaskMay(s, o, te) && Move(s, ByTask(o, te)) == TaskMoves(s, o, te)
    ensures o in s.objs && o in TaskMoves(s, o, te).objs
    ensures TaskMoves(s, o, te).objs[o].read == s.objs[o].read + if te.AppData? then te.data else []
    ensures TaskMoves(s, o, te).objs[o].id == s.objs[o].id
  {
  }

  /** The application data of these steps. */
  function AllPumped(w: seq<ClientTaskEvent>): bytes {
    if w == [] then [] else
      var n := |w| - 1;
      AllPumped(w[..n]) + if w[n].AppData? then w[n].data else []
  }

  lemma AllPumpedOn(w: seq<ClientTaskEvent>, e: ClientTaskEvent)
    ensures AllPumped(w + [e]) == AllPumped(w) + if e.AppData? then e.data else []
  {
    assert (w + [e])[..|w|] == w;
  }

  lemma {:induction false} ObjectSpells(run: seq<Client>, events: seq<ClientEvent>, o: nat)
    requires IsClientRun(run, events) && |run| == |events| + 1
    ensures if o in run[|events|].objs then
              && Spells(run[|events|].objs[o].stage, StepsOf(events, o))
              && run[|events|].objs[o].read == AllPumped(StepsOf(events, o))
            else StepsOf(events, o) == []
  {
    hide IsClientRun, May, Move, TaskMoves, Spells, Unstarted;
    StartsBare(run, events);
    if |events| > 0 {
      var n := |events| - 1;
      LastMove(run, events);
      AlwaysUnstarted(run, events, n);
      var s, e, s' := run[n], events[n], run[n + 1];
      var w := StepsOf(events[..n], o);
      ObjectSpells(run[..n + 1], events[..n], o);
      if o !in s.objs {
        NewObject(s, e, o);
        SpelledBare();
        assert StepsOf(events, o) == w;
      } else if e.ByTask? && e.o == o && !e.te.AppFail? {
        OwnMove(s, o, e.te);
        TaskSpells(s, o, e.te, w);
        AllPumpedOn(w, e.te);
      } else {
        OtherSteps(s, e, o);
        assert StepsOf(events, o) == w;
        StartPumps(s.objs[o].stage, s'.objs[o].stage, w);
      }
    }
  }

  // ----- Whole tasks -----

  const FAREWELL := [Put(true), Forget]

  /** The steps still to come. */
  function Remainder(stage: ClientStage): seq<ClientTaskEvent> {
    match stage
    case Starting => [AppOver] + FAREWELL
    case Pumping => [AppOver] + FAREWELL
    case Writing(_) => [Put(false)] + FAREWELL
    case Counting(_) => [Count, AppOver] + FAREWELL
    case Ending => FAREWELL
    case EndSent => [Forget]
    case Ended => []
  }

  lemma LeftTask(w: seq<ClientTaskEvent>, c: seq<ClientTaskEvent>)
    requires LoopLeft(w) && IsFarewell(c)
    ensures WholeTask(w + c)
  {
    var m :| 0 <= m <= |w| && ArePumps(w[..m]) && IsLast(w[m..]);
    assert w + c == w[..m] + w[m..] + c;
  }

  lemma FinishesBy(w: seq<ClientTaskEvent>, last: seq<ClientTaskEvent>)
    requires ArePumps(w) && IsLast(last)
    ensures WholeTask(w + (last + FAREWELL))
  {
    LeavesBy(w, last);
    hide LoopLeft, WholeTask, ArePumps;
    LeftTask(w + last, FAREWELL);
    assert w + (last + FAREWELL) == (w + last) + FAREWELL;
  }

  lemma FinishesWell(stage: ClientStage, w: seq<ClientTaskEvent>)
    requires Spells(stage, w)
    ensures WholeTask(w + Remainder(stage))
  {
    var n := |w|;
    hide WholeTask;
    match stage
    case Starting => FinishesBy(w, [AppOver]);
    case Pumping => FinishesBy(w, [AppOver]);
    case Writing(d) =>
      FinishesBy(w[..n - 1], [AppData(d), Put(false)]);
      assert w + Remainder(stage) == w[..n - 1] + ([AppData(d), Put(false)] + FAREWELL);
    case Counting(d) =>
      PumpsOn(w[..n - 2], d);
      FinishesBy(w[..n - 2] + [AppData(d), Put(true), Count], [AppOver]);
      assert w + Remainder(stage) == w[..n - 2] + [AppData(d), Put(true), Count] + ([AppOver] + FAREWELL);
    case Ending => LeftTask(w, FAREWELL);
    case EndSent =>
      LeftTask(w[..n - 1], [w[n - 1], Forget]);
      assert w + [Forget] == w[..n - 1] + [w[n - 1], Forget];
    case Ended =>
      LeftTask(w[..n - 2], w[n - 2..]);
      assert w + [] == w[..n - 2] + w[n - 2..];
  }

  /** In every run of the client, against any server: the steps of a link's task are the beginning of a whole one. It
      forwards and counts what it reads round after round, leaves the loop at the end of the application's data or
      at the first send that fails, writes `Close` and takes the link out of the registry; and it has read what
      these steps read. */
  lemma LifeOfClientTask(run: seq<Client>, events: seq<ClientEvent>, o: nat) returns (rest: seq<ClientTaskEvent>)
    requires IsClientRun(run, events) && |run| == |events| + 1 && o in run[|events|].objs
    ensures WholeTask(StepsOf(events, o) + rest)
    ensures run[|events|].objs[o].stage.Ended? <==> rest == []
    ensures run[|events|].objs[o].read == AllPumped(StepsOf(events, o))
  {
    ObjectSpells(run, events, o);
    var stage := run[|events|].objs[o].stage;
    hide IsClientRun, Spells, WholeTask;
    FinishesWell(stage, StepsOf(events, o));
    rest := Remainder(stage);
  }

  /** Every packet the task writes is the one that its steps call for: after a read, exactly what was read; otherwise
      `Close`; always under the id of its link. */
  lemma ClientPacketIsDue(run: seq<Client>, events: seq<ClientEvent>, o: nat, ok: bool, pid: u64)
    requires IsClientRun(run, events) && |run| == |events| + 1 && TaskMay(run[|events|], o, Put(ok))
    ensures var t, w := run[|events|].objs[o], StepsOf(events, o);
      && |w| >= 1
      && ClientOutgoing(t, pid) ==
         if w[|w| - 1].AppData? then
           Message(NewPacket(Regular, pid, t.id, |w[|w| - 1].data| % U16_SIZE), Some(w[|w| - 1].data))
         else Message(NewPacket(PacketType.Close, pid, t.id, 0), None)
  {
    ObjectSpells(run, events, o);
    hide IsClientRun, ArePumps;
    var t, w := run[|events|].objs[o], StepsOf(events, o);
    if t.stage.Ending? {
      var m :| 0 <= m <= |w| && ArePumps(w[..m]) && IsLast(w[m..]);
      assert w[|w| - 1] == w[m..][|w| - m - 1];
    }
  }

  // ----- A send that fails -----

  predicate LeftPumping(st: ClientStage) {
    st.Ending? || st.EndSent? || st.Ended?
  }

  lemma StaysLeft(s: Client, e: ClientEvent, o: nat)
    requires Unstarted(s) && May(s, e) && o in s.objs && LeftPumping(s.objs[o].stage)
    ensures o in Move(s, e).objs && LeftPumping(Move(s, e).objs[o].stage) && Move(s, e).objs[o].read == s.objs[o].read
    ensures !(e.ByTask? && e.o == o && (e.te.AppData? || e.te.AppOver? || e.te.Count?))
  {
    if e.ByTask? && e.o == o {
      OwnMove(s, o, e.te);
    } else {
      OtherSteps(s, e, o);
      hide Move;
    }
  }

  lemma FailsLeft(s: Client, o: nat)
    requires TaskMay(s, o, Put(false)) && s.objs[o].stage.Writing?
    ensures LeftPumping(TaskMoves(s, o, Put(false)).objs[o].stage)
  {
  }

  lemma {:induction false} LeftFrom(run: seq<Client>, events: seq<ClientEvent>, o: nat, i: nat, j: nat)
    requires IsClientRun(run, events) && |run| == |events| + 1 && i < j <= |events|
    requires events[i] == ByTask(o, Put(false)) && o in run[i].objs && run[i].objs[o].stage.Writing?
    ensures o in run[j].objs && LeftPumping(run[j].objs[o].stage) && run[j].objs[o].read == run[i].objs[o].read
    decreases j
  {
    hide IsClientRun, May, Move, TaskMoves, Unstarted, LeftPumping;
    MoveAt(run, events, j - 1);
    if j == i + 1 {
      OwnMove(run[i], o, Put(false));
      FailsLeft(run[i], o);
    } else {
      LeftFrom(run, events, o, i, j - 1);
      AlwaysUnstarted(run, events, j - 1);
      StaysLeft(run[j - 1], events[j - 1], o);
    }
  }

  /** Once a send of what was read has failed, the task reads nothing more from its application, whatever happens, and if
      it writes another packet, that is `Close`. */
  lemma FailedPutEnds(run: seq<Client>, events: seq<ClientEvent>, o: nat, i: nat, j: nat)
    requires IsClientRun(run, events) && |run| == |events| + 1 && i < j <= |events|
    requires events[i] == ByTask(o, Put(false)) && o in run[i].objs && run[i].objs[o].stage.Writing?
    ensures o in run[j].objs && run[j].objs[o].read == run[i].objs[o].read
    ensures j < |events| && events[j].ByTask? && events[j].o == o ==> !events[j].te.AppData?
    ensures j < |events| && events[j].ByTask? && events[j].o == o && events[j].te.Put? ==>
              forall pid :: ClientOutgoing(run[j].objs[o], pid) == Message(NewPacket(PacketType.Close, pid, run[j].objs[o].id, 0), None)
  {
    LeftFrom(run, events, o, i, j);
    if j < |events| && events[j].ByTask? && events[j].o == o {
      MoveAt(run, events, j);
      OwnMove(run[j], o, events[j].te);
      hide IsClientRun, Move, May, TaskMoves;
    }
  }

  // ----- A task can always be completed -----

  /** Whoever is not being opened any more has its task running, or ended. */
  ghost predicate AllStarted(s: Client) {
    forall o :: o in s.objs && s.objs[o].stage.Starting? ==> s.loop == Dialed(o) || s.loop == Marked(o)
  }

  lemma MoveStarts(s: Client, e: ClientEvent)
    requires May(s, e) && AllStarted(s)
    ensures AllStarted(Move(s, e))
  {
    var s' := Move(s, e);
    forall o | o in s'.objs && s'.objs[o].stage.Starting? ensures s'.loop == Dialed(o) || s'.loop == Marked(o) {
      assert o in s.objs ==> s.objs[o].stage.Starting?;
    }
  }

  lemma {:induction false} AlwaysStarted(run: seq<Client>, events: seq<ClientEvent>, i: nat)
    requires IsClientRun(run, events) && i < |run|
    ensures AllStarted(run[i])
  {
    hide IsClientRun, May, Move;
    StartsBare(run, events);
    if i > 0 {
      hide AllStarted;
      AlwaysStarted(run, events, i - 1);
      MoveAt(run, events, i - 1);
      MoveStarts(run[i - 1], events[i - 1]);
    }
  }

  lemma RemainderGoes(s: Client, o: nat)
    requires o in s.objs && !s.objs[o].stage.Starting? && !s.objs[o].stage.Ended?
    ensures var stage := s.objs[o].stage;
      && |Remainder(stage)| > 0 && var e := Remainder(stage)[0];
         && May(s, ByTask(o, e)) && o in Move(s, ByTask(o, e)).objs
         && Remainder(Move(s, ByTask(o, e)).objs[o].stage) == Remainder(stage)[1..]
         && !Move(s, ByTask(o, e)).objs[o].stage.Starting?
  {
  }

  lemma AppendMove(run: seq<Client>, events: seq<ClientEvent>, e: ClientEvent)
    requires IsClientRun(run, events) && |run| == |events| + 1 && May(run[|events|], e)
    ensures IsClientRun(run + [Move(run[|events|], e)], events + [e])
  {
    hide May, Move;
  }

  lemma {:induction false} TaskToTheEnd(run: seq<Client>, events: seq<ClientEvent>, o: nat)
    returns (run': seq<Client>, events': seq<ClientEvent>)
    requires IsClientRun(run, events) && |run| == |events| + 1
    requires o in run[|events|].objs && !run[|events|].objs[o].stage.Starting?
    ensures IsClientRun(run', events') && run <= run' && events <= events' && |run'| == |events'| + 1
    ensures forall i :: |events| <= i < |events'| ==> events'[i].ByTask? && events'[i].o == o
    ensures o in run'[|events'|].objs && run'[|events'|].objs[o].stage.Ended?
    decreases |Remainder(run[|events|].objs[o].stage)|
  {
    var s := run[|events|];
    if s.objs[o].stage.Ended? {
      run', events' := run, events;
    } else {
      RemainderGoes(s, o);
      var e := ByTask(o, Remainder(s.objs[o].stage)[0]);
      hide IsClientRun, May, Move, Remainder;
      AppendMove(run, events, e);
      run', events' := TaskToTheEnd(run + [Move(s, e)], events + [e], o);
      assert events'[|events|] == (events + [e])[|events|];
    }
  }

  /** A task is never stuck: in every run, once the loop is through with opening its link, the task runs, and it can come
      to its end by steps of its own. */
  lemma ClientTaskNeverStuck(run: seq<Client>, events: seq<ClientEvent>, o: nat)
    returns (run': seq<Client>, events': seq<ClientEvent>)
    requires IsClientRun(run, events) && |run| == |events| + 1 && o in run[|events|].objs
    requires run[|events|].loop != Dialed(o) && run[|events|].loop != Marked(o)
    ensures IsClientRun(run', events') && run <= run' && events <= events' && |run'| == |events'| + 1
    ensures forall i :: |events| <= i < |events'| ==> events'[i].ByTask? && events'[i].o == o
    ensures o in run'[|events'|].objs && run'[|events'|].objs[o].stage.Ended?
  {
    hide IsClientRun;
    AlwaysStarted(run, events, |events|);
    run', events' := TaskToTheEnd(run, events, o);
  }
}
