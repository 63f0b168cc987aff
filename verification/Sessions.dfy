/** The life of gateway connections on the server, from accept to cleanup, as a step system over the shared
    session registry and session store.  A critical section under one lock is one step; clients send
    whatever they like. */
module Sessions {
  import opened Bytes
  import opened Auth
  import opened LinkServer
  import Handshake

  type Uuid = nat

  /** The secrets of the server: its HMAC and its key. */
  datatype Guard = Guard(hmac: Hmac, key: bytes)

  /** Where `handle_gateway_connection`, and then `client_exchange` and `cleanup_client`, has got to. */
  datatype Phase =
    | Accepted                    // nothing done yet
    | Cleared                     // an earlier session of the same address removed
    | Challenged(nonce: bytes)    // challenge sent
    | Proven                      // response verified, verdict sent
    | Saved(sid: Uuid)            // in the session store
    | Listed(sid: Uuid)           // in the registry, loop not spawned yet
    | Serving(sid: Uuid)          // in the exchange loop
    | Left(sid: Uuid)             // loop left
    | Unlisted(sid: Uuid)         // registry cleaned
    | Over                        // store cleaned, or rejected

  datatype Peer = Peer(addr: Addr, phase: Phase)

  /** A registry entry; the write half it keeps tells which connection it belongs to. */
  datatype Session = Session(peer: nat, sid: Uuid)

  /** `draining` is set while `shutdown` holds the registry lock: the ids still to be removed from the
      store.  `issued` and `dropped` record the ids generated, and those removed by a shutdown. */
  datatype Registry = Registry(
    peers: seq<Peer>, sessions: map<Addr, Session>, store: set<Uuid>,
    draining: Option<set<Uuid>>, issued: set<Uuid>, dropped: set<Uuid>)

  const NO_SESSIONS := Registry([], map[], {}, None, {}, {})

  datatype SessionEvent =
    | Accept(addr: Addr)
    | Clear(c: nat)
    | Challenge(c: nat, nonce: bytes)
    | Respond(c: nat, input: bytes, wrote: bool)
    | GiveUp(c: nat)
    | Save(c: nat, sid: Uuid)
    | List(c: nat)
    | Spawn(c: nat)
    | Dispatch(c: nat)
    | Leave(c: nat)
    | Unlist(c: nat)
    | Restore(c: nat)
    | BeginDrain
    | DrainOne(sid: Uuid)
    | EndDrain

  /** An id is held from its save to its restore. */
  predicate Holds(p: Phase) {
    p.Saved? || MayBeListed(p) || p.Unlisted?
  }

  predicate MayBeListed(p: Phase) {
    p.Listed? || p.Serving? || p.Left?
  }

  predicate PastProof(p: Phase) {
    p.Proven? || Holds(p)
  }

  predicate At(r: Registry, c: nat) {
    c < |r.peers|
  }

  /** Steps on the registry map wait while a shutdown holds its lock. */
  predicate CanStep(r: Registry, e: SessionEvent) {
    match e
    case Accept(_) => true
    case Clear(c) => At(r, c) && r.peers[c].phase.Accepted? && r.draining.None?
    case Challenge(c, nonce) => At(r, c) && r.peers[c].phase.Cleared? && |nonce| == NONCE_SIZE
    case Respond(c, _, _) => At(r, c) && r.peers[c].phase.Challenged?
    case GiveUp(c) => At(r, c) && (r.peers[c].phase.Cleared? || r.peers[c].phase.Challenged?)
    case Save(c, sid) => At(r, c) && r.peers[c].phase.Proven? && sid !in r.issued
    case List(c) => At(r, c) && r.peers[c].phase.Saved? && r.draining.None?
    case Spawn(c) => At(r, c) && r.peers[c].phase.Listed?
    case Dispatch(c) => At(r, c) && r.peers[c].phase.Serving?
    case Leave(c) => At(r, c) && r.peers[c].phase.Serving?
    case Unlist(c) => At(r, c) && r.peers[c].phase.Left? && r.draining.None?
    case Restore(c) => At(r, c) && r.peers[c].phase.Unlisted?
    case BeginDrain => r.draining.None?
    case DrainOne(sid) => r.draining.Some? && sid in r.draining.value
    case EndDrain => r.draining == Some({})
  }

  function NextPhase(g: Guard, r: Registry, e: SessionEvent): Phase
    requires CanStep(r, e)
  {
    match e
    case Clear(_) => Cleared
    case Challenge(_, nonce) => Challenged(nonce)
    case Respond(c, input, wrote) =>
      if Handshake.Pronounce(g.hmac, g.key, r.peers[c].phase.nonce, input).ok && wrote then Proven else Over
    case Save(_, sid) => Saved(sid)
    case List(c) => Listed(r.peers[c].phase.sid)
    case Spawn(c) => Serving(r.peers[c].phase.sid)
    case Dispatch(c) => r.peers[c].phase
    case Leave(c) => Left(r.peers[c].phase.sid)
    case Unlist(c) => Unlisted(r.peers[c].phase.sid)
    case _ => Over
  }

  predicate OfPeer(e: SessionEvent) {
    !e.Accept? && !e.BeginDrain? && !e.DrainOne? && !e.EndDrain?
  }

  function StepSession(g: Guard, r: Registry, e: SessionEvent): Registry
    requires CanStep(r, e)
  {
    var r1 := if OfPeer(e) then r.(peers := r.peers[e.c := r.peers[e.c].(phase := NextPhase(g, r, e))]) else r;
    match e
    case Accept(addr) => r1.(peers := r.peers + [Peer(addr, Accepted)])
    case Clear(c) => r1.(sessions := r.sessions - {r.peers[c].addr})
    case Save(_, sid) => r1.(store := r.store + {sid}, issued := r.issued + {sid})
    case List(c) => r1.(sessions := r.sessions[r.peers[c].addr := Session(c, r.peers[c].phase.sid)])
    case Unlist(c) =>
      var addr := r.peers[c].addr;
      if addr in r.sessions && r.sessions[addr].sid == r.peers[c].phase.sid then r1.(sessions := r.sessions - {addr})
      else r1
    case Restore(c) => r1.(store := r.store - {r.peers[c].phase.sid})
    case BeginDrain => r1.(sessions := map[], draining := Some(ListedIds(r)))
    case DrainOne(sid) =>
      r1.(store := r.store - {sid}, dropped := r.dropped + {sid}, draining := Some(r.draining.value - {sid}))
    case EndDrain => r1.(draining := None)
    case _ => r1
  }

  // ----- The registry and the store -----

  /** Ids a shutdown has dropped or is about to drop. */
  function Doomed(r: Registry): set<Uuid> {
    r.dropped + if r.draining.Some? then r.draining.value else {}
  }

  /** Every registry entry is that of a connection of that address that listed itself, and that a
      shutdown has not taken out. */
  ghost predicate EntriesOwned(r: Registry) {
    forall a :: a in r.sessions ==>
      var s := r.sessions[a];
      && s.peer < |r.peers| && r.peers[s.peer].addr == a && MayBeListed(r.peers[s.peer].phase)
      && r.peers[s.peer].phase.sid == s.sid && s.sid !in Doomed(r)
  }

  ghost predicate IdsUnique(r: Registry) {
    && (forall c :: 0 <= c < |r.peers| && Holds(r.peers[c].phase) ==> r.peers[c].phase.sid in r.issued)
    && (forall c, d :: 0 <= c < d < |r.peers| && Holds(r.peers[c].phase) && Holds(r.peers[d].phase) ==>
          r.peers[c].phase.sid != r.peers[d].phase.sid)
    && (forall c :: 0 <= c < |r.peers| && r.peers[c].phase.Saved? ==> r.peers[c].phase.sid !in Doomed(r))
    && Doomed(r) <= r.issued
  }

  function HeldIds(peers: seq<Peer>): set<Uuid> {
    set c | 0 <= c < |peers| && Holds(peers[c].phase) :: peers[c].phase.sid
  }

  /** The store holds exactly the ids between their save and their restore that no shutdown dropped. */
  ghost predicate StoreExact(r: Registry) {
    r.store == HeldIds(r.peers) - r.dropped
  }

  ghost predicate SessionInv(r: Registry) {
    EntriesOwned(r) && IdsUnique(r) && StoreExact(r)
  }

  /** The id a connection holds, if any. */
  function IdHeld(p: Phase): set<Uuid> {
    if Holds(p) then {p.sid} else {}
  }

  lemma HeldIdsMember(peers: seq<Peer>, sid: Uuid)
    ensures sid in HeldIds(peers) <==> exists c :: 0 <= c < |peers| && sid in IdHeld(peers[c].phase)
  {
    if c :| 0 <= c < |peers| && sid in IdHeld(peers[c].phase) {
      assert Holds(peers[c].phase);
    }
    if sid in HeldIds(peers) {
      var c :| 0 <= c < |peers| && Holds(peers[c].phase) && peers[c].phase.sid == sid;
      assert sid in IdHeld(peers[c].phase);
    }
  }

  /** What all connections but one hold. */
  function HeldByOthers(peers: seq<Peer>, c: nat): set<Uuid>
    requires c < |peers|
  {
    HeldIds(peers[c := peers[c].(phase := Over)])
  }

  lemma HeldSplit(peers: seq<Peer>, c: nat)
    requires c < |peers|
    ensures HeldIds(peers) == HeldByOthers(peers, c) + IdHeld(peers[c].phase)
  {
    var others := peers[c := peers[c].(phase := Over)];
    forall sid: Uuid
      ensures sid in HeldIds(peers) <==> (sid in HeldIds(others) || sid in IdHeld(peers[c].phase))
    {
      HeldIdsMember(peers, sid);
      HeldIdsMember(others, sid);
      assert IdHeld(others[c].phase) == {};
      hide HeldIds, IdHeld;
      assert forall d :: 0 <= d < |peers| && d != c ==> others[d] == peers[d];
    }
  }

  /** The ids of all registry entries. */
  function ListedIds(r: Registry): set<Uuid> {
    set a | a in r.sessions :: r.sessions[a].sid
  }

  /** What a step does to the connections: ids appear by saving and never change. */
  lemma PeerEffect(g: Guard, r: Registry, e: SessionEvent)
    requires CanStep(r, e)
    ensures var r' := StepSession(g, r, e);
      && |r'.peers| >= |r.peers|
      && (forall c :: 0 <= c < |r.peers| ==>
            var p, p' := r.peers[c].phase, r'.peers[c].phase;
            && r'.peers[c].addr == r.peers[c].addr
            && (Holds(p') ==> (Holds(p) && p'.sid == p.sid) || e == Save(c, p'.sid))
            && (p'.Saved? ==> p == p' || e == Save(c, p'.sid))
            && (MayBeListed(p) ==> (MayBeListed(p') && p'.sid == p.sid) || e == Unlist(c)))
      && (forall c :: |r.peers| <= c < |r'.peers| ==> r'.peers[c].phase.Accepted?)
      && r'.issued == r.issued + (if e.Save? then {e.sid} else {})
      && (e.Save? ==> e.sid !in r.issued)
  {
    hide Handshake.Pronounce;
  }

  /** What a step does to the registry and to the doomed ids. */
  lemma RegistryEffect(g: Guard, r: Registry, e: SessionEvent)
    requires CanStep(r, e)
    ensures var r' := StepSession(g, r, e);
      && Doomed(r') == Doomed(r) + (if e.BeginDrain? then ListedIds(r) else {})
      && (e.BeginDrain? ==> r'.sessions == map[])
      && (forall a :: a in r'.sessions ==>
            if e.List? && r.peers[e.c].addr == a then
              r.peers[e.c].phase.Saved? && r'.peers[e.c].phase.Listed?
              && r'.sessions[a] == Session(e.c, r.peers[e.c].phase.sid) && r'.peers[e.c].phase.sid == r.peers[e.c].phase.sid
            else
              a in r.sessions && r'.sessions[a] == r.sessions[a]
              && (e.Unlist? && r.peers[e.c].addr == a ==> r.sessions[a].sid != r.peers[e.c].phase.sid))
  {
    hide Handshake.Pronounce;
  }

  lemma StepKeepsEntries(g: Guard, r: Registry, e: SessionEvent)
    requires EntriesOwned(r) && IdsUnique(r) && CanStep(r, e)
    ensures EntriesOwned(StepSession(g, r, e))
  {
    hide CanStep, StepSession, Holds, MayBeListed, Doomed;
    PeerEffect(g, r, e);
    RegistryEffect(g, r, e);
    ListingIs(r, e);
  }

  lemma ListingIs(r: Registry, e: SessionEvent)
    requires CanStep(r, e)
    ensures e.List? || e.Unlist? ==> e.c < |r.peers|
    ensures forall s :: MayBeListed(Listed(s))
  {
  }

  lemma StepKeepsIds(g: Guard, r: Registry, e: SessionEvent)
    requires EntriesOwned(r) && IdsUnique(r) && CanStep(r, e)
    ensures IdsUnique(StepSession(g, r, e))
  {
    hide CanStep, StepSession, Doomed;
    PeerEffect(g, r, e);
    RegistryEffect(g, r, e);
  }

  lemma StepKeepsStore(g: Guard, r: Registry, e: SessionEvent)
    requires IdsUnique(r) && StoreExact(r) && CanStep(r, e)
    ensures StoreExact(StepSession(g, r, e))
  {
    hide Handshake.Pronounce, HeldIds;
    var r' := StepSession(g, r, e);
    if OfPeer(e) {
      HeldSplit(r.peers, e.c);
      HeldSplit(r'.peers, e.c);
      assert r'.peers[e.c := r'.peers[e.c].(phase := Over)] == r.peers[e.c := r.peers[e.c].(phase := Over)];
      if e.Restore? {
        OthersHoldElse(r, e.c);
      }
    } else if e.Accept? {
      HeldSplit(r'.peers, |r.peers|);
      HeldGrows(r.peers, Peer(e.addr, Accepted));
    }
  }

  lemma OthersHoldElse(r: Registry, c: nat)
    requires IdsUnique(r) && c < |r.peers| && Holds(r.peers[c].phase)
    ensures r.peers[c].phase.sid !in HeldByOthers(r.peers, c)
  {
    HeldIdsMember(r.peers[c := r.peers[c].(phase := Over)], r.peers[c].phase.sid);
  }

  lemma HeldGrows(peers: seq<Peer>, p: Peer)
    requires !Holds(p.phase)
    ensures HeldIds(peers + [p]) == HeldIds(peers)
  {
    forall sid: Uuid ensures sid in HeldIds(peers + [p]) <==> sid in HeldIds(peers) {
      HeldIdsMember(peers, sid);
      HeldIdsMember(peers + [p], sid);
      hide HeldIds;
      assert forall d :: 0 <= d < |peers| ==> (peers + [p])[d] == peers[d];
    }
  }

  lemma StepKeepsSessions(g: Guard, r: Registry, e: SessionEvent)
    requires SessionInv(r) && CanStep(r, e)
    ensures SessionInv(StepSession(g, r, e))
  {
    hide EntriesOwned, IdsUnique, StoreExact, CanStep, StepSession;
    StepKeepsEntries(g, r, e);
    StepKeepsIds(g, r, e);
    StepKeepsStore(g, r, e);
  }

  // ----- Runs -----

  ghost predicate IsSessionRun(g: Guard, run: seq<Registry>, events: seq<SessionEvent>) {
    && |run| == |events| + 1 && run[0] == NO_SESSIONS
    && forall i :: 0 <= i < |events| ==> CanStep(run[i], events[i]) && run[i + 1] == StepSession(g, run[i], events[i])
  }

  lemma {:induction false} RunKeepsSessions(g: Guard, run: seq<Registry>, events: seq<SessionEvent>)
    requires IsSessionRun(g, run, events)
    ensures forall i :: 0 <= i < |run| ==> SessionInv(run[i])
  {
    if |events| > 0 {
      hide CanStep, StepSession, SessionInv;
      var n := |events|;
      var before := run[..n];
      RunKeepsSessions(g, before, events[..n - 1]);
      assert before[n - 1] == run[n - 1];
      StepKeepsSessions(g, run[n - 1], events[n - 1]);
      assert forall i :: 0 <= i < n ==> before[i] == run[i];
    } else {
      StartInv();
    }
  }

  lemma StartInv()
    ensures SessionInv(NO_SESSIONS)
  {
    assert HeldIds([]) == {};
  }

  /** What the shutdowns of a run have dropped so far comes from steps of theirs. */
  lemma {:induction false} DroppedByDrains(g: Guard, run: seq<Registry>, events: seq<SessionEvent>)
    requires IsSessionRun(g, run, events)
    requires forall i :: 0 <= i < |events| ==> !events[i].BeginDrain?
    ensures run[|run| - 1].dropped == {} && run[|run| - 1].draining.None?
  {
    if |events| > 0 {
      hide NextPhase;
      var n := |events|;
      DroppedByDrains(g, run[..n], events[..n - 1]);
      assert run[..n][n - 1] == run[n - 1];
    }
  }

  /** In every run: each id in the registry is in the store, and belongs to a connection of that address
      between its listing and the cleanup of the registry; and as long as no shutdown has begun, the store
      holds exactly the ids of the connections between their save and their restore. */
  lemma SessionRegistry(g: Guard, run: seq<Registry>, events: seq<SessionEvent>)
    requires IsSessionRun(g, run, events)
    ensures var r := run[|run| - 1];
      && (forall a :: a in r.sessions ==>
            var s := r.sessions[a];
            && s.sid in r.store && s.peer < |r.peers| && r.peers[s.peer].addr == a
            && MayBeListed(r.peers[s.peer].phase) && r.peers[s.peer].phase.sid == s.sid)
      && ((forall i :: 0 <= i < |events| ==> !events[i].BeginDrain?) ==> r.store == HeldIds(r.peers))
      && r.store == HeldIds(r.peers) - r.dropped
  {
    RunKeepsSessions(g, run, events);
    var r := run[|run| - 1];
    assert SessionInv(r);
    hide IsSessionRun;
    forall a | a in r.sessions ensures r.sessions[a].sid in r.store {
      var s := r.sessions[a];
      HeldIdsMember(r.peers, s.sid);
      assert s.sid in IdHeld(r.peers[s.peer].phase);
    }
    if forall i :: 0 <= i < |events| ==> !events[i].BeginDrain? {
      DroppedByDrains(g, run, events);
    }
  }

  /** Cleaning up after a connection takes out its own entry, if that is still there, and no other: in
      particular not that of a newer connection from the same address. */
  lemma CleanupSparesNewer(g: Guard, run: seq<Registry>, events: seq<SessionEvent>, c: nat)
    requires IsSessionRun(g, run, events) && CanStep(run[|run| - 1], Unlist(c))
    ensures var r := run[|run| - 1];
      var r' := StepSession(g, r, Unlist(c));
      forall a :: a in r'.sessions <==> a in r.sessions && r.sessions[a].peer != c
    ensures var r := run[|run| - 1];
      var r' := StepSession(g, r, Unlist(c));
      forall a :: a in r'.sessions ==> r'.sessions[a] == r.sessions[a]
  {
    RunKeepsSessions(g, run, events);
    hide IsSessionRun, StoreExact;
    var r := run[|run| - 1];
    assert SessionInv(r);
  }

  // ----- Who got past the handshake -----

  /** Before point `i`, connection `c` was sent a challenge, and later answered with a response that verifies
      against that very nonce. */
  ghost predicate ProvedItself(g: Guard, events: seq<SessionEvent>, i: nat, c: nat) {
    exists k, j :: 0 <= k < j < i <= |events| && events[k].Challenge? && events[k].c == c
      && events[j].Respond? && events[j].c == c && events[j].wrote
      && Handshake.Pronounce(g.hmac, g.key, events[k].nonce, events[j].input).ok
  }

  ghost predicate WasChallenged(events: seq<SessionEvent>, i: nat, c: nat, nonce: bytes) {
    exists k :: 0 <= k < i <= |events| && events[k] == Challenge(c, nonce)
  }

  ghost predicate Vouched(g: Guard, run: seq<Registry>, events: seq<SessionEvent>, i: nat)
    requires i < |run|
  {
    forall c :: 0 <= c < |run[i].peers| ==>
      && (run[i].peers[c].phase.Challenged? ==> WasChallenged(events, i, c, run[i].peers[c].phase.nonce))
      && (PastProof(run[i].peers[c].phase) ==> ProvedItself(g, events, i, c))
  }

  lemma StepVouched(g: Guard, run: seq<Registry>, events: seq<SessionEvent>, i: nat)
    requires IsSessionRun(g, run, events) && i < |events| && Vouched(g, run, events, i)
    ensures Vouched(g, run, events, i + 1)
  {
    var r, r', e := run[i], run[i + 1], events[i];
    assert r' == StepSession(g, r, e) && CanStep(r, e);
    hide IsSessionRun;
    forall c | 0 <= c < |r'.peers|
      ensures r'.peers[c].phase.Challenged? ==> WasChallenged(events, i + 1, c, r'.peers[c].phase.nonce)
      ensures PastProof(r'.peers[c].phase) ==> ProvedItself(g, events, i + 1, c)
    {
      if c < |r.peers| {
        if r.peers[c].phase.Challenged? {
          var nonce := r.peers[c].phase.nonce;
          var k :| 0 <= k < i && events[k] == Challenge(c, nonce);
          if e.Respond? && e.c == c && PastProof(r'.peers[c].phase) {
            assert ProvedItself(g, events, i + 1, c);
          }
        }
        hide Handshake.Pronounce;
        if PastProof(r.peers[c].phase) {
          assert ProvedItself(g, events, i + 1, c);
        }
      }
    }
  }

  lemma {:induction false} AllVouched(g: Guard, run: seq<Registry>, events: seq<SessionEvent>, i: nat)
    requires IsSessionRun(g, run, events) && i < |run|
    ensures Vouched(g, run, events, i)
  {
    if i > 0 {
      hide Vouched, IsSessionRun;
      AllVouched(g, run, events, i - 1);
      StepVouched(g, run, events, i - 1);
    }
  }

  /** At every point of every run, whoever is in the registry, and whoever has a running exchange loop or
      dispatches a packet, was challenged on that connection and answered that challenge with a response that
      verifies: what `Handshake.OnlyTheHmacConvinces` says only the HMAC under the server's key does. */
  lemma AuthenticatedOnly(g: Guard, run: seq<Registry>, events: seq<SessionEvent>, i: nat)
    requires IsSessionRun(g, run, events) && i < |run|
    ensures forall a :: a in run[i].sessions ==> ProvedItself(g, events, i, run[i].sessions[a].peer)
    ensures forall c :: 0 <= c < |run[i].peers| && run[i].peers[c].phase.Serving? ==> ProvedItself(g, events, i, c)
    ensures i < |events| && events[i].Dispatch? ==> ProvedItself(g, events, i, events[i].c)
  {
    AllVouched(g, run, events, i);
    RunKeepsSessions(g, run, events);
    assert SessionInv(run[i]);
    assert i < |events| ==> CanStep(run[i], events[i]);
    hide IsSessionRun, ProvedItself, StoreExact, WasChallenged;
  }
}
