/** Who has an entry in the session registry, and for how long. */
module SessionEntries {
  import opened Bytes
  import opened LinkServer
  import opened Sessions
  import Handshake

  /** No connection from address `a` is listed in the steps from `i` on, up to `j`. */
  ghost predicate NoneListed(run: seq<Registry>, events: seq<SessionEvent>, i: nat, j: nat, a: Addr) {
    |run| == |events| + 1 && j <= |events|
    && forall n :: i <= n < j && events[n].List? ==> events[n].c < |run[n].peers| && run[n].peers[events[n].c].addr != a
  }

  lemma StepListsNone(g: Guard, r: Registry, e: SessionEvent, a: Addr)
    requires CanStep(r, e) && a !in r.sessions && (e.List? ==> e.c < |r.peers| && r.peers[e.c].addr != a)
    ensures a !in StepSession(g, r, e).sessions
  {
    RegistryEffect(g, r, e);
  }

  /** A new connection takes the place of the earlier session of its address: from the step that clears the address to the
      next listing at it, no matter who else comes and goes, the registry has no entry for the address. */
  lemma {:induction false} ClearedUntilListed(g: Guard, run: seq<Registry>, events: seq<SessionEvent>, i: nat, j: nat, c: nat)
    requires IsSessionRun(g, run, events) && i < j < |run| && events[i] == Clear(c) && c < |run[i].peers|
    requires NoneListed(run, events, i, j, run[i].peers[c].addr)
    ensures run[i].peers[c].addr !in run[j].sessions
    decreases j
  {
    var a := run[i].peers[c].addr;
    if j == i + 1 {
      hide NextPhase;
      assert run[j] == StepSession(g, run[i], events[i]);
    } else {
      ClearedUntilListed(g, run, events, i, j - 1, c);
      SessionStepAt(g, run, events, j - 1);
      hide IsSessionRun, CanStep, StepSession;
      StepListsNone(g, run[j - 1], events[j - 1], a);
    }
  }

  /** What can take the entry of connection `c` away: its own cleanup, a newer connection from its address, or a shutdown. */
  predicate Displaces(r: Registry, e: SessionEvent, c: nat)
    requires c < |r.peers|
  {
    e.BeginDrain? || e == Unlist(c)
    || ((e.Clear? || e.List?) && e.c < |r.peers| && r.peers[e.c].addr == r.peers[c].addr)
  }

  ghost predicate Undisplaced(run: seq<Registry>, events: seq<SessionEvent>, i: nat, j: nat, c: nat) {
    |run| == |events| + 1 && j <= |events|
    && forall n :: i <= n < j ==> c < |run[n].peers| && !Displaces(run[n], events[n], c)
  }

  /** The entry of connection `c` is in the registry. */
  ghost predicate HasEntry(r: Registry, c: nat) {
    && c < |r.peers| && MayBeListed(r.peers[c].phase) && r.peers[c].addr in r.sessions
    && r.sessions[r.peers[c].addr] == Session(c, r.peers[c].phase.sid)
  }

  lemma ListsItself(g: Guard, r: Registry, c: nat)
    requires CanStep(r, List(c))
    ensures HasEntry(StepSession(g, r, List(c)), c)
  {
  }

  lemma KeepsEntry(g: Guard, r: Registry, e: SessionEvent, c: nat)
    requires IdsUnique(r) && CanStep(r, e) && HasEntry(r, c) && !Displaces(r, e, c)
    ensures HasEntry(StepSession(g, r, e), c)
  {
    PeerEffect(g, r, e);
    if e.Unlist? {
      assert e.c != c && Holds(r.peers[c].phase) && Holds(r.peers[e.c].phase);
    }
    hide Handshake.Pronounce, Holds;
  }

  /** A connection that lists itself stays listed, no matter who else comes and goes, until its own cleanup, a newer
      connection from its address, or a shutdown. */
  lemma {:induction false} ListedUntilDisplaced(g: Guard, run: seq<Registry>, events: seq<SessionEvent>, i: nat, j: nat, c: nat)
    requires IsSessionRun(g, run, events) && i < j < |run| && events[i] == List(c)
    requires Undisplaced(run, events, i + 1, j, c)
    ensures HasEntry(run[j], c)
    decreases j
  {
    hide IsSessionRun, CanStep, StepSession, HasEntry, Displaces, SessionInv;
    SessionStepAt(g, run, events, j - 1);
    if j == i + 1 {
      ListsItself(g, run[i], c);
    } else {
      ListedUntilDisplaced(g, run, events, i, j - 1, c);
      RunKeepsSessions(g, run, events);
      InvParts(run[j - 1]);
      hide IdsUnique;
      KeepsEntry(g, run[j - 1], events[j - 1], c);
    }
  }

  lemma SessionStepAt(g: Guard, run: seq<Registry>, events: seq<SessionEvent>, i: nat)
    requires IsSessionRun(g, run, events) && i < |events|
    ensures |run| == |events| + 1 && CanStep(run[i], events[i]) && run[i + 1] == StepSession(g, run[i], events[i])
  {
    hide CanStep, StepSession;
  }

  lemma InvParts(r: Registry)
    requires SessionInv(r)
    ensures IdsUnique(r) && r.store == HeldIds(r.peers) - r.dropped
  {
    hide IdsUnique, EntriesOwned;
  }

  lemma DrainBounds(g: Guard, r: Registry)
    ensures CanStep(r, BeginDrain) ==> StepSession(g, r, BeginDrain).sessions == map[]
    ensures CanStep(r, EndDrain) ==> r.draining == Some({}) && StepSession(g, r, EndDrain).store == r.store
  {
  }

  lemma DrainsOn(g: Guard, r: Registry, e: SessionEvent)
    requires CanStep(r, e) && r.draining.Some? && !e.EndDrain?
    ensures var r' := StepSession(g, r, e);
      r'.draining.Some? && r.draining.value + r.dropped <= r'.draining.value + r'.dropped
  {
    hide Handshake.Pronounce;
  }

  lemma {:induction false} DrainCovers(g: Guard, run: seq<Registry>, events: seq<SessionEvent>, i: nat, j: nat)
    requires IsSessionRun(g, run, events) && i < j < |run| && events[i].BeginDrain?
    requires forall n :: i < n < j ==> !events[n].EndDrain?
    ensures run[j].draining.Some? && ListedIds(run[i]) <= run[j].draining.value + run[j].dropped
    decreases j
  {
    assert CanStep(run[j - 1], events[j - 1]) && run[j] == StepSession(g, run[j - 1], events[j - 1]);
    if j > i + 1 {
      DrainCovers(g, run, events, i, j - 1);
      hide IsSessionRun, CanStep, StepSession;
      DrainsOn(g, run[j - 1], events[j - 1]);
    }
  }

  /** When a shutdown is through, no session that was listed when it began is in the store. */
  lemma ShutdownDropsListed(g: Guard, run: seq<Registry>, events: seq<SessionEvent>, i: nat, j: nat)
    requires IsSessionRun(g, run, events) && i < j < |events| && events[i].BeginDrain? && events[j].EndDrain?
    requires forall n :: i < n < j ==> !events[n].EndDrain?
    ensures run[i + 1].sessions == map[]
    ensures forall sid :: sid in ListedIds(run[i]) ==> sid !in run[j + 1].store
  {
    hide IsSessionRun, CanStep, StepSession, SessionInv, ListedIds;
    SessionStepAt(g, run, events, i);
    SessionStepAt(g, run, events, j);
    DrainCovers(g, run, events, i, j);
    RunKeepsSessions(g, run, events);
    InvParts(run[j]);
    hide IdsUnique, HeldIds;
    DrainBounds(g, run[i]);
    DrainBounds(g, run[j]);
  }
}
