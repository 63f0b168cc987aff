/** The server object on the heap: its registries, and the operations that release what a client holds, as
    they run without interference.  (`LinkServer` and `Sessions` are about their interleavings.) */
module GatewayServers {
  import opened Bytes
  import opened Links
  import opened Gateways
  import opened LinkServer
  import opened Sessions

  // ----- The session store -----

  datatype StoreOp = Stored(sid: Uuid) | Released(sid: Uuid)

  /** A session exists after some operations: it was saved, and neither restored nor removed since. */
  ghost predicate Exists(log: seq<StoreOp>, sid: Uuid) {
    exists i :: 0 <= i < |log| && log[i] == Stored(sid) && forall j :: i < j < |log| ==> log[j] != Released(sid)
  }

  lemma ExistsAfter(log: seq<StoreOp>, op: StoreOp, sid: Uuid)
    ensures Exists(log + [op], sid) <==> op == Stored(sid) || (Exists(log, sid) && op != Released(sid))
  {
    var after := log + [op];
    if op == Stored(sid) {
      assert after[|log|] == Stored(sid);
    } else if op != Released(sid) && Exists(log, sid) {
      var i :| 0 <= i < |log| && log[i] == Stored(sid) && forall j :: i < j < |log| ==> log[j] != Released(sid);
      assert after[i] == Stored(sid);
      assert forall j :: i < j < |after| ==> after[j] == (if j < |log| then log[j] else op);
    }
    if op != Stored(sid) && Exists(after, sid) {
      var i :| 0 <= i < |after| && after[i] == Stored(sid) && forall j :: i < j < |after| ==> after[j] != Released(sid);
      assert i < |log| && log[i] == Stored(sid) && after[|log|] == op;
      assert forall j :: i < j < |log| ==> log[j] == after[j];
    }
  }

  /** `log` records what was done to the store. */
  class SessionStore {
    var sessions: map<Uuid, seq<(u16, Link)>>
    ghost var log: seq<StoreOp>

    ghost predicate Valid()
      reads this
    {
      forall sid :: sid in sessions <==> Exists(log, sid)
    }

    constructor ()
      ensures Valid() && sessions == map[] && log == []
    {
      sessions, log := map[], [];
    }

    method SaveSession(sid: Uuid, links: seq<(u16, Link)>)
      requires Valid()
      modifies this
      ensures Valid() && log == old(log) + [Stored(sid)]
      ensures sessions == old(sessions)[sid := links]
    {
      forall other ensures Exists(log + [Stored(sid)], other) <==> other == sid || Exists(log, other) {
        ExistsAfter(log, Stored(sid), other);
      }
      sessions, log := sessions[sid := links], log + [Stored(sid)];
    }

    /** A session can be restored once. */
    method RestoreSession(sid: Uuid) returns (r: Option<seq<(u16, Link)>>)
      requires Valid()
      modifies this
      ensures Valid() && log == old(log) + [Released(sid)]
      ensures sessions == old(sessions) - {sid}
      ensures r == if sid in old(sessions) then Some(old(sessions)[sid]) else None
    {
      r := if sid in sessions then Some(sessions[sid]) else None;
      RemoveSession(sid);
    }

    /** A session exists exactly if it was saved, and neither restored nor removed since. */
    method HasSession(sid: Uuid) returns (r: bool)
      requires Valid()
      ensures r <==> Exists(log, sid)
    {
      r := sid in sessions;
    }

    method RemoveSession(sid: Uuid)
      requires Valid()
      modifies this
      ensures Valid() && log == old(log) + [Released(sid)]
      ensures sessions == old(sessions) - {sid}
    {
      forall other ensures Exists(log + [Released(sid)], other) <==> other != sid && Exists(log, other) {
        ExistsAfter(log, Released(sid), other);
      }
      sessions, log := sessions - {sid}, log + [Released(sid)];
    }

    /** The count is that of the sessions that exist. */
    method SessionCount() returns (n: nat)
      requires Valid()
      ensures n == |set op | op in log && Exists(log, op.sid) :: op.sid|
    {
      n := |sessions|;
      assert (set op | op in log && Exists(log, op.sid) :: op.sid) == sessions.Keys by {
        forall sid | sid in sessions.Keys ensures sid in (set op | op in log && Exists(log, op.sid) :: op.sid) {
          var i :| 0 <= i < |log| && log[i] == Stored(sid);
          assert log[i] in log && log[i].sid == sid;
        }
      }
    }
  }

  // ----- The server -----

  datatype ClientSession = ClientSession(writer: Stream, addr: Addr, connectedAt: int, sid: Uuid)

  /** The ids routed to an address. */
  function RoutedTo(routes: map<u16, Addr>, addr: Addr): set<u16> {
    set id | id in routes && routes[id] == addr
  }

  /** The links registered under some of the ids. */
  function LinksAt(links: map<u16, Link>, ids: set<u16>): set<Link> {
    set id | id in ids && id in links :: links[id]
  }

  class GatewayServer {
    const base: Gateway
    const store: SessionStore
    var clientSessions: map<Addr, ClientSession>
    var linkClients: map<u16, Addr>

    ghost predicate Valid()
      reads this, base, store
    {
      base.Valid() && store.Valid()
    }

    constructor ()
      ensures Valid() && fresh(base) && fresh(store)
      ensures clientSessions == map[] && linkClients == map[] && base.links == map[] && store.sessions == map[]
    {
      base := new Gateway();
      store := new SessionStore();
      clientSessions, linkClients := map[], map[];
    }

    /** `remove_link`: the route goes first, then the link, which is closed. */
    method RemoveLink(id: u16)
      requires Valid()
      modifies this`linkClients, base`links, LinksAt(base.links, {id})
      ensures Valid() && linkClients == old(linkClients) - {id} && base.links == old(base.links) - {id}
      ensures id in old(base.links) ==> old(base.links)[id].Val() == CloseConnection(old(base.links[id].Val()))
    {
      linkClients := linkClients - {id};
      var link := base.RemoveLink(id);
      if link.Some? {
        link.value.Shut();
      }
    }

    /** The ids of the routes of an address, each once. */
    method Owned(addr: Addr) returns (owned: seq<u16>)
      ensures forall i, j :: 0 <= i < j < |owned| ==> owned[i] != owned[j]
      ensures forall id :: id in owned <==> id in RoutedTo(linkClients, addr)
    {
      owned := [];
      var rest := linkClients.Keys;
      while rest != {}
        invariant rest <= linkClients.Keys
        invariant forall i, j :: 0 <= i < j < |owned| ==> owned[i] != owned[j]
        invariant forall id :: id in owned <==> id in RoutedTo(linkClients, addr) - rest
        decreases |rest|
      {
        var id :| id in rest;
        assert id !in owned;
        rest := rest - {id};
        if linkClients[id] == addr {
          owned := owned + [id];
        }
      }
    }

    /** Removes the given routes. */
    method RemoveRoutes(owned: seq<u16>)
      modifies this`linkClients
      ensures linkClients == old(linkClients) - (set id | id in owned)
    {
      for i := 0 to |owned|
        invariant linkClients == old(linkClients) - (set id | id in owned[..i])
      {
        assert owned[..i + 1] == owned[..i] + [owned[i]];
        linkClients := linkClients - {owned[i]};
      }
      assert owned[..|owned|] == owned;
    }

    /** Takes the given links out of the registry and closes each. */
    method CloseOwned(owned: seq<u16>, ghost ids: set<u16>)
      requires Valid() && forall id :: id in owned <==> id in ids
      requires forall i, j :: 0 <= i < j < |owned| ==> owned[i] != owned[j]
      modifies base`links, LinksAt(base.links, ids)
      ensures Valid() && base.links == old(base.links) - ids
      ensures forall id :: id in old(base.links) && id in ids ==>
                old(base.links)[id].Val() == CloseConnection(old(base.links[id].Val()))
    {
      ghost var was, done := base.links, {};
      for i := 0 to |owned|
        invariant Valid() && base.links == was - done && done <= ids
        invariant forall j :: 0 <= j < |owned| ==> (owned[j] in done <==> j < i)
        invariant forall id :: id in was ==>
                    was[id].Val() == if id in done then CloseConnection(old(was[id].Val())) else old(was[id].Val())
      {
        var link := base.RemoveLink(owned[i]);
        done := done + {owned[i]};
        if link.Some? {
          assert link.value in LinksAt(was, ids);
          link.value.Shut();
        }
      }
      assert done == ids;
    }

    /** The session is unlisted if it is still the one listed for its address. */
    method Unlist(addr: Addr, sid: Uuid)
      modifies this`clientSessions
      ensures clientSessions == if addr in old(clientSessions) && old(clientSessions)[addr].sid == sid
                                then old(clientSessions) - {addr} else old(clientSessions)
    {
      if addr in clientSessions && clientSessions[addr].sid == sid {
        clientSessions := clientSessions - {addr};
      }
    }

    /** `cleanup_client`: exactly the routes of the address and exactly the registered links with those ids
        are removed, and those links closed; the session is removed if it is still the one listed, and
        leaves the store; nothing else changes. */
    method CleanupClient(addr: Addr, sid: Uuid)
      requires Valid()
      modifies this, base`links, base`state, store, LinksAt(base.links, RoutedTo(linkClients, addr))
      ensures Valid()
      ensures linkClients == old(linkClients) - RoutedTo(old(linkClients), addr)
      ensures base.links == old(base.links) - RoutedTo(old(linkClients), addr)
      ensures forall id :: id in old(base.links) && id in RoutedTo(old(linkClients), addr) ==>
                old(base.links)[id].Val() == CloseConnection(old(base.links[id].Val()))
      ensures clientSessions == if addr in old(clientSessions) && old(clientSessions)[addr].sid == sid
                                then old(clientSessions) - {addr} else old(clientSessions)
      ensures store.sessions == old(store.sessions) - {sid}
      ensures base.state == if clientSessions == map[] then GwWaiting else old(base.state)
    {
      hide SessionStore.Valid;
      var owned := Owned(addr);
      ghost var ids := RoutedTo(linkClients, addr);
      assert (set id | id in owned) == ids;
      RemoveRoutes(owned);
      CloseOwned(owned, ids);
      Unlist(addr, sid);
      var _ := store.RestoreSession(sid);
      if clientSessions == map[] {
        base.state := GwWaiting;
      }
    }

    /** A new connection from an address: the earlier session of that address is closed and removed. */
    method ClosePrevious(addr: Addr)
      modifies this`clientSessions, if addr in clientSessions then {clientSessions[addr].writer} else {}
      ensures clientSessions == old(clientSessions) - {addr}
      ensures addr in old(clientSessions) ==> old(clientSessions)[addr].writer.room == Some(0)
    {
      if addr in clientSessions {
        var previous := clientSessions[addr];
        clientSessions := clientSessions - {addr};
        previous.writer.Shutdown();
      }
    }

    /** After the handshake: the session is saved, and then listed. */
    method Admit(addr: Addr, writer: Stream, now: int, sid: Uuid)
      requires Valid()
      modifies this`clientSessions, base`state, store
      ensures Valid() && base.state == GatewayState.GwConnected
      ensures store.sessions == old(store.sessions)[sid := []]
      ensures clientSessions == old(clientSessions)[addr := ClientSession(writer, addr, now, sid)]
    {
      base.state := GatewayState.GwConnected;
      store.SaveSession(sid, []);
      clientSessions := clientSessions[addr := ClientSession(writer, addr, now, sid)];
    }

    /** Closes every session and drops it from the store. */
    method DrainSessions()
      requires store.Valid()
      modifies this`clientSessions, store, Writers(clientSessions)
      ensures store.Valid()
      ensures clientSessions == map[] && store.sessions == old(store.sessions) - Sids(old(clientSessions))
      ensures forall a :: a in old(clientSessions) ==> old(clientSessions)[a].writer.room == Some(0)
    {
      hide Sids, SessionStore.Valid;
      ghost var was := clientSessions;
      var drained := clientSessions;
      clientSessions := map[];
      ghost var gone: set<Uuid> := {};
      while drained != map[]
        invariant store.Valid() && clientSessions == map[] && gone + Sids(drained) == Sids(was) && drained.Keys <= was.Keys
        invariant forall a :: a in drained ==> drained[a] == was[a]
        invariant forall a :: a in was && a !in drained ==> was[a].writer.room == Some(0)
        invariant store.sessions == old(store.sessions) - gone
        decreases drained.Keys
      {
        var a :| a in drained;
        var session := drained[a];
        SidsTake(drained, a);
        drained := drained - {a};
        session.writer.Shutdown();
        store.RemoveSession(session.sid);
        gone := gone + {session.sid};
      }
      assert Sids(drained) == {} by { NoSids(); }
    }

    /** `shutdown`: every link is closed and unregistered, every session closed, and dropped from the store.
        The routes stay. */
    method Shutdown()
      requires Valid()
      modifies this`clientSessions, base`links, base.links.Values, store, Writers(clientSessions)
      ensures Valid() && base.links == map[] && clientSessions == map[]
      ensures forall id :: id in old(base.links) ==>
                old(base.links)[id].Val() == CloseConnection(old(base.links[id].Val()))
      ensures store.sessions == old(store.sessions) - Sids(old(clientSessions))
      ensures forall a :: a in old(clientSessions) ==> old(clientSessions)[a].writer.room == Some(0)
    {
      base.CloseAllLinks();
      DrainSessions();
    }
  }

  function Writers(sessions: map<Addr, ClientSession>): set<Stream> {
    set a | a in sessions :: sessions[a].writer
  }

  function Sids(sessions: map<Addr, ClientSession>): set<Uuid> {
    set a | a in sessions :: sessions[a].sid
  }

  lemma SidsTake(sessions: map<Addr, ClientSession>, a: Addr)
    requires a in sessions
    ensures Sids(sessions) == Sids(sessions - {a}) + {sessions[a].sid}
  {
    var less := sessions - {a};
    forall sid | sid in Sids(sessions) ensures sid in Sids(less) + {sessions[a].sid} {
      var b :| b in sessions && sessions[b].sid == sid;
      assert b != a ==> less[b].sid == sid;
    }
  }

  lemma NoSids()
    ensures Sids(map[]) == {}
  {
  }
}
