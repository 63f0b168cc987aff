# Verification of the gateway tunnel

This project models a gateway pair and proves what it is for. The server accepts TCP connections from local
applications and multiplexes them over one byte stream to a gateway client, which opens the matching connection
to its own application. The Dafny files are checked together: `dafny verify dfyconfig.toml`.

The centre is a step system (`Tunnel`) made of one server, any number of clients that connect and reconnect, and
two FIFO byte wires per connection. Its steps are those of the application tasks, the dispatch loops, the ping
loops, the failing sockets and the shutdowns, in every interleaving. The bytes on the wires are the frames
of `Framing`, so what a reader gets is decided by parsing bytes, not by the model. From one invariant over all runs
(`TunnelRuns.RunInv`) follow the statements an application cares about: both directions of every link deliver a
prefix of what was said, nothing of another link is mixed in, and nothing is missing where the code promises that.

## How the code is modelled

- `Bytes`, `Packets`, `Compression`, `Framing`: the header codec, optional compression, and the two sides of a
  frame (`src/gateway/packet.rs`, `src/gateway/compression.rs`, `send_gw_packet` and `read_gw_packet` in
  `src/gateway/mod.rs`).
- `Links`, `BufferPools`, `Gateways`, `GatewayServers`, `GatewayClients`, `HandshakePrograms`: the objects of the
  program as classes and methods that change state in place, each proved against a function on values.
- `LinkServer` (`handle_app_connection`, `app_exchange`, `client_exchange`, `cleanup_client`, `remove_link`),
  `LinkClient` (`run`, `on_connection`, `gateway_exchange`, `connect_client`, `app_exchange`) and `Sessions`
  (`handle_gateway_connection`, the session parts of `cleanup_client` and of the server's `shutdown`): the
  concurrent programs as step systems. What the far side sends is arbitrary in these three.
- `Admission`: one connection from its first byte, with both handshake programs and then both loops on its wires.
- `Wires`, `Tunnel`: the composition of `LinkServer` and `LinkClient` over byte wires, from the end of the handshake on.
- `LinkProtocol`: one link as it looks from both ends (`View`), and the invariant that each step of either end keeps.
  `TunnelInv`, `TunnelWires`, `TunnelServer`, `TunnelLoops`, `TunnelReads`, `TunnelClients`, `TunnelTakes` and
  `TunnelRuns` lift it to the composed system, one kind of step at a time.
- `TaskLives`, `ClientLives`, `LoopLives`, `ClientCycles`: the words that the steps of a task or a loop spell, from its start to
  its end, in every run. `TunnelHalves` says that they hold in the composed system too.
- `Exchanges`: what the client's exchange loop makes of a stream of frames. `SessionEntries`: how long an entry stays.
- `ServerSessions`: the composition of `Sessions` and `LinkServer`, in which a handler picks a listed connection.
- `TunnelTheorems`, `TunnelLoss`, `TunnelFlows`, `TunnelTraces`, `TunnelRoutes`, `TunnelAgreement`, `KeepAlive`, `LinkIds`,
  `LinkCleanup`, `CleanupLinks`, `Releasing`, `ServerReleases`, `LinkClosing`, `ClientClosing`, `LinkStays`, `ClientStays`,
  `LinkCounters`, `Traffic`: what follows for whole runs. `ServerRuns` and `TunnelHistory` say what only changes one way
  along a run.
- `TunnelLate`, `Reissue`, `TunnelReissue`: three runs, built step by step, in which something is lost.

A critical section under one lock guard is one step, and separate lock acquisitions are separate steps. So
`set_state(Waiting)` is a step of its own after the `Open` write, insertion into `links` and into `link_clients`
are two steps, and so are their removals.

Assumptions:

- zstd is a pair of functions that may fail; a frame it produces is not empty and decodes to its input
  (`Compression.Lossless`). HMAC-SHA256 (section 2 of RFC 2104) is a function of key and nonce with 32-byte
  results (`Auth.IsHmac`).
- A session id is generated at most once.
- A socket write that fails may have put any proper prefix of the frame on the wire; after that nothing gets
  through. Writes of one frame are not interleaved, because the writer's lock is held for the whole frame.
- Counters wrap around, as in a release build.
- An application read returns between 1 and 16384 bytes.

Link objects and tasks are named by the ordinal of their `next_link_id` call, so that two links which had the same
16-bit id at different times are told apart; the maps themselves are keyed by the 16-bit id. The tags on wires,
`Route.owner`, `Task.read`, `Task.lost`, `Registry.issued` and `Registry.dropped` are history that no step looks at,
with one exception: the name given to a new client link object is the tag of the `Open` it answers.

"Live ids are distinct" means that no id is issued while something can still happen to the link that had it: its
server task runs, its client task runs, or one of its packets is in flight or being dispatched (`LinkProtocol.Live`,
`TunnelReads.FreshId`; for the server alone, `LinkServer.NextIdFree`). "No pending id is issued" means that no id is
issued that a cleanup has collected and still has to unlink (`LinkServer.NotPending`). `LinkIds.WindowSuffices` and
`LinkIds.AgreementInWindow` give bounds on the id counter that are enough for both.

## Results that differ from what one might expect

- A well-behaved client can lose data towards the server's application. `Waiting` is set after `Open` is written,
  so it can land on a link that `Opened` has already connected, and every later payload is then dropped
  (`TunnelLate.LateWaitingLosesData` is such a run of the whole system). `TunnelLoss.CompleteUnlessWaitingLate` says
  exactly when delivery is complete, in terms of that step and of what was handled after it;
  `TunnelLoss.CloseAtServerFindsAll` says it for the whole of what the client's application said. In the other
  direction delivery is always complete (`DispatchedIsDelivered`, `CloseFindsAllDelivered`).
- `cleanup_client` selects routes by address and takes the links later, by id. Both matter:
  - An old connection's cleanup takes the links of a newer connection from the same address
    (`LinkCleanup.OldCleanupTakesNewRoute`). As long as no pending id is issued, a cleanup is certain to take only links of
    its own connection if and only if no registered link is routed to another connection from its address when it
    collects (`CleanupLinks.AlwaysOwnIffAlone`).
  - An id that is issued again before its turn names another link, which the cleanup then takes, whoever it belongs to
    (`Reissue.ReissuedIdIsTaken` is such a run, in which live ids stay distinct). For any run,
    `CleanupLinks.TakesOwnIffNotReissued` says exactly when all links taken are those collected for the connection.
  - The session entry is safe (`Sessions.CleanupSparesNewer`).
- "Releases all links owned by this client" is not certain. A handler can pick the client at any time until the session
  leaves the registry, which is after the routes were collected and the links taken, and register its link later still.
  - For the whole server, `ServerReleases.ReleasesIffRoutedAndUnpicked` says when it is certain, whatever the handlers
    already at work and everyone else do from the collecting step on: if and only if at that step each registered
    link of the connection is routed, no handler that picked the connection has its link still to register, and no
    handler may still pick it. `Releasing.ReleasesIffAllRouted` says the same of all handlers, later ones too, provided
    that none picks the connection any more, and `Releasing.LaterPickCanStay` that one that does can always leave its
    link behind. `Releasing.PickAfterCollect` and `LinkCleanup.LateLinkOutlivesClient` are two such runs.
  - Once the entry is gone, no handler picks the connection (`ServerSessions.NotPickedOnceDelisted`), and it is rid of
    links for good if and only if it has none registered or about to be
    (`ServerReleases.GoneForGoodIffNoneRemains`).
  - As long as no pending id is issued, the links a cleanup takes are exactly those routed to the address when it collected
    and still registered when their turn comes (`CleanupLinks.CleanupTakesExactly`).
- Issuing an id that a cleanup has still to unlink puts the agreement of routes and links at risk: with distinct live ids
  alone, a routed id can be missing from the registry (`TunnelReissue.RoutesWithoutLinks` is such a run).
  `TunnelAgreement.AgreesIffNotPending` says that the agreement is certain after issuing an id if and only if the id is
  not pending.
- Link id 0 is issued after the counter wraps (`LinkIds.ZeroIsIssued`), although section 5.4 of `DESCRIPTION.md`
  reserves it for control packets.
- A `GwConnected` whose payload is neither 12 bytes nor empty leaves the client off a frame boundary
  (`Handshake.AcceptedAligned`); the server never sends one.
- Parsing a header is not injective: unassigned type codes read as `Regular`, and the two reserved bytes are
  ignored (`Packets.HeaderCanonical`).

## Model

| member | source | states |
|---|---|---|
| `TunnelTheorems.StreamsPreserved` | `src/gateway/server.rs:246-323` | Under every interleaving with live ids distinct, what each application has been sent over a link is a prefix of what was read from the application at the other end for that link, in both directions. |
| `TunnelTheorems.UnopenedGetsNothing` | `src/gateway/server.rs:268-283` | The application of a link that no client ever opened is sent nothing. |
| `TunnelTheorems.DispatchedIsDelivered` | `src/gateway/client.rs:295-309` | Between packets, every link in the client's registry is connected and its application has been sent every payload dispatched for it, unless its socket failed. |
| `TunnelTheorems.CloseFindsAllDelivered` | `src/gateway/server.rs:532-535` | When the client comes to handle the server's `Close` for a link it still has, its application has been sent everything ever read at the server, unless its socket failed. |
| `TunnelTheorems.EndTearsDown` | `src/gateway/server.rs:291-301` | Once a dispatch loop has dealt with the far side's `Close` or `OpenFail` for a link, the link is out of the registry, at the server and at the client; that it is closed is in `RemovedMeansClosed` and `ClientRemovedMeansClosed`. |
| `ClientClosing.ClientRemovedMeansClosed` | `src/gateway/client.rs:295-305` | At every point of every run with live ids distinct, a client link that has left the registry, by the server's `Close`, the loss of the connection or a shutdown, is shut down (or had failed), unless the loop that took it out is just about to do that, or its own task has ended and given it up. |
| `KeepAlive.PingsAnswered` | `src/gateway/mod.rs:285-296` | On every connection of every run the server has written as many pongs as it has taken pings, but for one that it is about to write, as long as writing has not failed. |
| `TunnelTheorems.OpenIsFirst` | `src/gateway/client.rs:330-345` | When the client handles an `Open`, no link object for it exists yet, so answering it is never blocked. |
| `TunnelFlows.OpenIsAnswered` | `src/gateway/client.rs:336-372` | Between packets, the first packet the client wrote for a link whose `Open` it has taken is `Opened` if it has a link for it and `OpenFail` if not, unless writing has failed. |
| `TunnelFlows.SaidIsSent` | `src/gateway/server.rs:493-521` | What was ever read at the server for a link is exactly what its packets on the wire carry and what its task still holds, unless writing has failed; the first of these packets is `Open`. |
| `TunnelFlows.ClientSaidIsSent` | `src/gateway/client.rs:396-423` | The same for what was read at the client. |
| `TunnelLoss.CompleteUnlessWaitingLate` | `src/gateway/server.rs:466-476` | For a registered, confirmed link with a working application socket, in every run with live ids distinct: it is connected if and only if no `set_state(Waiting)` ever landed on it while connected, and its application has every payload handled for it if and only if there was no such step or no payload was handled after it. |
| `TunnelLoss.CloseAtServerFindsAll` | `src/gateway/server.rs:298-301` | When the server comes to handle the client's `Close` for a link it still has, whose application socket works: the application has everything ever read at the client, if and only if there was no late `Waiting` or no payload was handled after it. |
| `TunnelLoss.LostIffLate` | `src/gateway/server.rs:476` | The loss record of a link is set exactly if a step of the run put `Waiting` on it while connected, and it holds what the application had at that step. |
| `TunnelLate.LateWaitingLosesData` | `src/gateway/server.rs:284-290` | A concrete run of the whole system, with a client that follows the protocol, distinct ids and no failing socket: `Opened` is handled before `set_state(Waiting)`, and the payload after it is dropped. |
| `TunnelTheorems.TraceGrammar` | `src/gateway/server.rs:493-537` | Each link's packets on a wire are a prefix of Open, data, Close from the server, and OpenFail or a prefix of Opened, data, Close from the client; the wire's trace for a link id is the same until the id is used again on that connection. |
| `TunnelTraces.TraceAcrossReuse` | `src/gateway/client.rs:387-430` | What a wire carries for one link id, across any reuse of the id, is the words of the links that had it, one after the other in the order of their allocation, and each word follows that grammar. |
| `TunnelTheorems.CountersExact` | `src/gateway/client.rs:401-423` | A client link's `bytes_in` is the total length of the payloads it has sent, between iterations, and its `bytes_out` the total delivered less a torn write, modulo 2^64. |
| `LinkCounters.CountsSinceReset` | `src/gateway/link.rs:97-133` | At every point of every run of the server, against any clients, a link's `bytes_in` is the length of what was read from its application since the last `set_state` on it (or since it was made), and `bytes_out` of what its application has been sent since then less a torn write, modulo 2^64. |
| `TunnelRuns.NextKeepsInv` | `src/gateway/server.rs:428-537` | Every step of the composed system keeps the invariant, provided a newly issued id is not that of a live link. |
| `TunnelRuns.RunInv` | `src/gateway/server.rs:246-537` | The invariant holds at every point of every run with live ids distinct. |
| `TunnelRoutes.RouteLinkAgreement` | `src/gateway/server.rs:326-367` | With live ids distinct and no pending id issued, at every interleaving point before shutdown, each routed id is in the registry, where it names the link whose task inserted the route. The converse is in `AgreesIffNotPending`. |
| `TunnelAgreement.AgreesIffNotPending` | `src/gateway/server.rs:363-367` | For every run up to the issuing of a fresh id, with no pending id issued and no shutdown so far: routes and links agree before shutdown in all continuations that issue no live and later no pending id, if and only if this id is not pending. |
| `TunnelReissue.RoutesWithoutLinks` | `src/gateway/server.rs:363-367` | A concrete run of the whole system in which live ids are distinct, a pending id is issued, and a routed id is then missing from the registry. |
| `LinkIds.AgreementInWindow` | `src/gateway/mod.rs:96-114` | Routes and links agree if, whenever an id is issued, the links of 65536 and more allocations ago are finished and off the list of every cleanup. |
| `LinkServer.NoLeakedLinks` | `src/gateway/server.rs:428-537` | Against arbitrary peers, in every run that never reissues the id of an unfinished task, every key of `links` and `link_clients` belongs to a task that has not finished its final removal. |
| `LinkServer.DoneMeansGone` | `src/gateway/server.rs:532-537` | In every such run, once a task has ended, neither map refers to it, and its id is in neither until an unfinished task has that id. |
| `TaskLives.LifeOfTask` | `src/gateway/server.rs:428-537` | Whatever the others do, the steps of a handler and its forwarding loop are the beginning of a whole life: rejected; or client chosen, link registered, routed, `Open`, state set, then rounds of one read and one send, left at the end of the application's data or the first send that fails, then `Close`, unrouted, unlinked, closed. |
| `TaskLives.FailedSendEnds` | `src/gateway/server.rs:509-521` | After a send of what was read has failed, the task reads nothing more, and the next packet it writes, if any, is `Close`. |
| `TaskLives.PacketIsDue` | `src/gateway/server.rs:466-535` | Every packet a task writes is the one its steps call for: first `Open`, after a read exactly what was read, otherwise `Close`, always under the id of its link. |
| `TaskLives.ReadIsAllRead` | `src/gateway/server.rs:500-508` | What a task is said to have read is what its reads returned, in order. |
| `TaskLives.NeverStuck` | `src/gateway/server.rs:428-537` | From every point of every run a task can come to its end by steps of its own. |
| `LoopLives.LifeOfLoop` | `src/gateway/server.rs:246-388` | Whatever a client sends, the steps of its loop are the beginning of a whole loop: packet after packet, each dealt with in full before the next is read (`Ping` with one `Pong`, data with one delivery, `Opened` with one confirmation, `Close` and `OpenFail` with a teardown), left only at the end of the stream or a `GwDeny`, and then one cleanup. |
| `LoopLives.LoopNeverStuck` | `src/gateway/server.rs:246-388` | From every point of every run a connection's loop can come to the end of its cleanup by steps of its own. |
| `LinkCounters.StateIsLastSet` | `src/gateway/link.rs:117-144` | The state a server link reports is the one last set: by its task, by the handling of `Opened`, or by whoever closed it; before that it is disconnected. |
| `LinkClosing.RemovedMeansClosed` | `src/gateway/server.rs:326-367` | Against arbitrary peers, a link that has left the registry is shut down (or had failed) unless whoever took it out is just about to do so; once its task has ended and no loop is busy with it, nothing is left open. |
| `LinkClosing.ShutdownEmpties` | `src/gateway/mod.rs:133-140` | After a shutdown no link is registered until a handler registers another. |
| `LinkStays.RegisteredUntilTaken` | `src/gateway/mod.rs:117-128` | From the step in which a handler adds its link, the registry has it under its id until a task with that id, a `Close` or `OpenFail` for it, a cleanup that collected it, a link added in its place, or a shutdown takes it out. |
| `LinkStays.TakenUntilAdded` | `src/gateway/mod.rs:117-128` | From any such step the id is not registered until a handler with that id adds a link. |
| `LinkStays.RoutedUntilTaken` | `src/gateway/server.rs:463-464` | From the step in which a handler adds its route, the id is routed to the address of the connection it picked, until its task or the far side ends the link, a cleanup at that address collects it, or it is routed anew. |
| `LinkStays.UnroutedUntilAdded` | `src/gateway/server.rs:326-361` | From any such step the id is not routed until a handler with that id adds a route. |
| `LinkStays.ShutForCause` | `src/gateway/link.rs:81-144` | A server link whose write half is shut had its socket fail, or was closed by someone, in an earlier step of the run. |
| `LinkClosing.StepDropsNothing` | `src/gateway/server.rs:326-388` | Every server step, a shutdown included, keeps every added link either registered, shut down, or in the hands of someone about to close it. |
| `LinkServer.TaskKeepsNoLeaks` | `src/gateway/server.rs:428-537` | A handler's or forwarding loop's step keeps ownership of the two maps. |
| `LinkServer.LoopKeepsNoLeaks` | `src/gateway/server.rs:246-388` | A dispatch or cleanup step, on any packet, keeps ownership of the two maps. |
| `CleanupLinks.AlwaysOwnIffAlone` | `src/gateway/server.rs:349-367` | For every run up to the collecting step of a cleanup: in all continuations that issue no live or pending id it takes only links of its own connection, if and only if no registered link is routed to another connection from the same address at that step. |
| `CleanupLinks.TakesOwnIffNotReissued` | `src/gateway/server.rs:349-367` | In every run with live ids distinct: all links a cleanup takes were routed by its own connection when it collected, if and only if each was collected under a route of that connection and its id was not issued again before its turn. |
| `CleanupLinks.TakenIsCollectedIffNotReissued` | `src/gateway/server.rs:363-367` | The link taken under an id is the one whose route was collected, if and only if the id was not issued in between. |
| `CleanupLinks.CleanupTakesExactly` | `src/gateway/server.rs:363-367` | With no pending id issued, the links a cleanup takes are exactly those routed to its address when it collected and still registered at their turn, and by its end each has had its turn. |
| `CleanupLinks.CollectsAllIffAllRouted` | `src/gateway/server.rs:349-361` | Of the ids collected in that one step: that of an unfinished task is among them if and only if its link is routed to the address, so those of all unfinished tasks of the connection if and only if all are routed. |
| `ServerReleases.ReleasesIffRoutedAndUnpicked` | `src/gateway/server.rs:341-380` | For every run of the whole server up to the collecting step of a cleanup: in all continuations that accept no further application, no link of the connection is registered after the cleanup, if and only if at that step each registered link of it is routed, no handler that picked it has its link still to register, and its entry is gone or no handler is about to choose. |
| `ServerReleases.ReleasedIfLeftAlone` | `src/gateway/server.rs:349-380` | In every run of the whole server that issues no live or pending id: if at the collecting step each registered link of the connection is routed and none is still to be registered, and no handler picks the connection from then to the removal of its entry, no link of it is registered at any time after the cleanup. |
| `ServerReleases.GoneForGoodIffNoneRemains` | `src/gateway/server.rs:369-380` | For every run up to a point where a connection has lost its entry: no link of it is registered then or ever after, in any continuation, if and only if none is registered at that point and no handler that picked it has its link still to register. |
| `ServerSessions.NotPickedOnceDelisted` | `src/gateway/server.rs:441-448` | In every run of the whole server, an entry that has left the registry, by a cleanup, a newer connection or a shutdown, never comes back, and no handler picks that connection any more. |
| `ServerSessions.LinksOnlyToProved` | `src/gateway/server.rs:441-463` | In every run of the whole server, a handler has bound its link only to a connection that answered its own challenge with a response that verifies. |
| `ServerSessions.SessionsKeepPace` | `src/gateway/server.rs:207-260` | In every run of the whole server, a connection has a loop exactly from its listing on, at the stage its session is at, and under the address it connected from. |
| `ServerSessions.ServerHalf` | `src/gateway/server.rs:428-464` | Every run of the whole server is, as far as links go, a run of `LinkServer`, point by point, so what is proved of those holds of it. |
| `Releasing.ReleasesIffAllRouted` | `src/gateway/server.rs:349-382` | For every run up to the collecting step of a cleanup: in all continuations that issue no live or pending id and in which no handler picks the connection any more, no link of it is registered after the cleanup, if and only if at that step each registered link of it is routed and no handler that picked it has its link still to register. |
| `Releasing.LaterPickCanStay` | `src/gateway/server.rs:441-464` | For every run in which a handler picks the connection after its cleanup has collected, there is a continuation in which the cleanup ends and the link of that handler is registered. |
| `Releasing.PickAfterCollect` | `src/gateway/server.rs:371-380` | A concrete run in which a connection without links is picked after its cleanup collected nothing, and its new link stays registered and routed when the cleanup is over. |
| `Reissue.ReissuedIdIsTaken` | `src/gateway/mod.rs:109-114` | A concrete run, all the way round the id counter, in which a cleanup whose only route was its own takes a link of another client at another address. |
| `LinkCleanup.CleanupIsOwnIffAlone` | `src/gateway/server.rs:349-361` | The collecting step of a cleanup removes every route of its connection, and no other routes if and only if no link is routed to another connection from the same address. |
| `LinkCleanup.CleanupReleases` | `src/gateway/server.rs:349-367` | In every run with live ids distinct: a link routed to a cleanup's address when it collects the routes never has a route again, and when the cleanup is over it is not in the registry. |
| `LinkCleanup.LateLinkOutlivesClient` | `src/gateway/server.rs:441-464` | A concrete run in which a handler that picked its client before the cleanup registers and routes its link after it: the client is gone and the link stays. |
| `LinkCleanup.OldCleanupTakesNewRoute` | `src/gateway/server.rs:350-361` | A concrete run in which the cleanup of an old connection removes the route of a link opened on a newer one. |
| `LinkIds.SameIdIffCongruent` | `src/gateway/mod.rs:109-114` | Two calls of `next_link_id` return the same id if and only if they are a multiple of 65536 calls apart. |
| `LinkIds.ZeroIsIssued` | `src/gateway/mod.rs:109-114` | Exactly every 65536th call, from the 65536th on, returns id 0. |
| `LinkIds.RunNumbered` | `src/gateway/server.rs:438` | In every run the k-th task carries the id of the k-th call, and the counter is one ahead. |
| `LinkIds.WindowSuffices` | `src/gateway/mod.rs:96-114` | If the links issued 65536 or more allocations ago are finished whenever an id is issued, live ids stay distinct over the whole run. |
| `LinkIds.TaskIdsRepeat` | `src/gateway/server.rs:438` | In every run two tasks have the same id if and only if they were allocated a multiple of 65536 apart. |
| `LinkIds.AddNeverOverwrites` | `src/gateway/server.rs:462-463` | If every link is finished before 65536 further allocations, `add_link` never finds its id in use. |
| `LinkClient.ClientLifecycle` | `src/gateway/client.rs:448-504` | Over every connect, authenticate, exchange and disconnect cycle against any server: a non-empty registry implies state Connected, every registered id was opened on the current connection, and a handshake starts with an empty registry. |
| `LinkClient.OpensOnlyWhenAdmitted` | `src/gateway/client.rs:87-118` | Whenever the client takes a packet or registers a link, it has read `GwConnected` on the current connection, without reconnecting since. |
| `ClientCycles.LifeOfClient` | `src/gateway/client.rs:60-118` | Against any server, the steps of the client's main loop are the beginning of whole cycles: connect, refused or admitted, packet after packet dealt with in full (`Ping` with one reply, `Open` with one `Opened` or one refusal, `Close` with a teardown), left at the end of the stream or a `GwDeny`, all links closed, state reset; and the state it reports is waiting, processing or connected as its loop is. |
| `ClientCycles.ClientNeverStuck` | `src/gateway/client.rs:448-472` | From every point of every run the client can come to the end of its cycle, and try again, by steps of its own. |
| `ClientStays.RegisteredUntilRemoved` | `src/gateway/client.rs:336-345` | From the step in which the application is reached, the client has the link under its id until a task with that id ends, the server closes it, another is opened in its place, or all links are closed. |
| `ClientStays.RemovedUntilOpened` | `src/gateway/client.rs:295-305` | From any such step the id is not registered until a link is opened under it. |
| `ClientStays.ClientStateIsLastSet` | `src/gateway/link.rs:117-144` | The state a client link reports is the one last set; before that it is disconnected. |
| `ClientStays.ClientShutForCause` | `src/gateway/link.rs:81-144` | A client link whose write half is shut had its socket fail, or was closed by someone, in an earlier step of the run. |
| `ClientLives.LifeOfClientTask` | `src/gateway/client.rs:387-430` | The steps of a link's task are the beginning of a whole one: rounds of read, send and count, left at the end of the application's data or the first send that fails, then `Close` and removal; and it has read what these steps read. |
| `ClientLives.FailedPutEnds` | `src/gateway/client.rs:408-418` | After a send of what was read has failed, the task reads nothing more, and the next packet it writes, if any, is `Close`. |
| `ClientLives.ClientPacketIsDue` | `src/gateway/client.rs:404-429` | After a read the packet carries exactly what was read; otherwise it is `Close`; always under the id of the link. |
| `ClientLives.ClientTaskNeverStuck` | `src/gateway/client.rs:336-356` | Once the loop is through with opening a link, its task runs, and from every such point of every run it can come to its end by steps of its own. |
| `TunnelHalves.RunOfServer` | `src/gateway/server.rs:246-537` | Every run of the composed system is, seen from the server, a run of `LinkServer`. |
| `TunnelHalves.RunOfClient` | `src/gateway/client.rs:278-430` | Every run of the composed system is, seen from each client, a run of `LinkClient`. |
| `LinkClient.MoveKeepsLifecycle` | `src/gateway/client.rs:278-372` | Every client step keeps the lifecycle invariant. |
| `Sessions.SessionRegistry` | `src/gateway/server.rs:193-222` | In every run each id in `client_sessions` is in the store and belongs to a listed connection of that address; without shutdown the store is exactly the ids between save and restore, and in general those that no shutdown dropped. |
| `Sessions.CleanupSparesNewer` | `src/gateway/server.rs:369-380` | Cleaning up after a connection removes its own registry entry if it is still there, and every other entry stays. |
| `SessionEntries.ClearedUntilListed` | `src/gateway/server.rs:193-200` | From the step in which a new connection removes the earlier session of its address to the next listing at that address, the registry has no entry for it. |
| `SessionEntries.ListedUntilDisplaced` | `src/gateway/server.rs:213-222` | A connection that lists itself stays listed until its own cleanup, a newer connection from its address, or a shutdown. |
| `SessionEntries.ShutdownDropsListed` | `src/gateway/server.rs:643-648` | A shutdown empties the registry, and when it is through, no session that was listed when it began is in the store. |
| `Sessions.AuthenticatedOnly` | `src/gateway/server.rs:139-234` | Every registry entry, running exchange loop and dispatched packet was preceded on that connection by a challenge and a response that verifies against that very nonce. |
| `Sessions.StepKeepsSessions` | `src/gateway/server.rs:643-648` | Every step, those of a shutdown included, keeps the registry and store invariant. |
| `Admission.FramesOnlyAfterAgreement` | `src/gateway/server.rs:203-234` | In every interleaving of both programs on one connection, from its first byte: a side is in its loop, and a frame is sent or read, only if the keys agree on the nonce; each loop's wire holds frames only, and it reads exactly the next one. |
| `Handshake.Agreement` | `src/gateway/server.rs:84-169` | Run against each other, both sides return the same verdict, true if and only if the HMACs under the two keys on the nonce are equal, and each has read exactly what the other wrote. |
| `Handshake.OnlyTheHmacConvinces` | `src/gateway/server.rs:107-140` | On arbitrary input the server accepts if and only if the input starts with a `GwAuthResponse` header of the right size followed by its own HMAC of its own nonce. |
| `Handshake.OnlyOwnVersionAdmits` | `src/gateway/client.rs:196-229` | On arbitrary input the client is admitted if and only if the input starts with a `GwConnected` header, and its size is below 12 or the 12 bytes follow and start with the client's own major version; it has then read exactly that. |
| `Handshake.OnlyAChallengeIsAnswered` | `src/gateway/client.rs:134-185` | On arbitrary input the client answers if and only if a `GwAuthChallenge` of size 32 and the 32 bytes follow; the answer is its HMAC of these bytes, and nothing is written otherwise. |
| `Handshake.OnlyAResponseIsJudged` | `src/gateway/server.rs:106-168` | On arbitrary input the server writes a verdict if and only if a complete `GwAuthResponse` follows: its version if it accepts, a `GwDeny` with the reason if it does not. |
| `Handshake.AnswerToChallenge` | `src/gateway/client.rs:134-185` | The client reads the whole challenge and nothing after it, and answers with its HMAC of the nonce. |
| `Handshake.PronounceOnAnswer` | `src/gateway/server.rs:138-168` | The server reads the whole response and nothing after it, and its verdict is that of the HMACs. |
| `Handshake.ConcludeOnVerdict` | `src/gateway/client.rs:187-253` | The client reads each of the server's two verdicts exactly to its end, and returns it (for any other input see `OnlyOwnVersionAdmits`). |
| `Handshake.AcceptedAligned` | `src/gateway/client.rs:196-229` | After an accepting verdict the client is on a frame boundary if and only if the `GwConnected` payload is 12 bytes or empty. |
| `HandshakePrograms.SendChallenge` | `src/gateway/server.rs:90-104` | The challenge goes out under the next packet id; failure leaves a prefix of it. |
| `HandshakePrograms.JudgeResponse` | `src/gateway/server.rs:106-169` | The imperative second half of `authenticate_client` reads, verifies and answers as `Pronounce` says, leaves exactly the bytes unread that `Pronounce` leaves, and is content exactly when its verdict could also be sent. |
| `HandshakePrograms.AnswerChallenge` | `src/gateway/client.rs:133-185` | The imperative first half of `gw_authenticate` answers as `Answer` says and leaves exactly the bytes unread that `Answer` leaves, whether it answers or refuses; it takes a packet id only for an answer. |
| `HandshakePrograms.ReadVerdict` | `src/gateway/client.rs:187-254` | The imperative second half of `gw_authenticate` concludes as `Conclude` says. |
| `HandshakePrograms.Meet` | `src/gateway/client.rs:128-254` | The two programs run on two mutable streams agree, the verdict is that of the keys, and both streams are read to their end. |
| `Auth.VerifyResponse` | `src/gateway/auth.rs:54-67` | The XOR/OR accumulator loop accepts if and only if the response equals the expected HMAC, for responses of any length. |
| `Auth.XorZeroIffEqual` | `src/gateway/auth.rs:60-66` | The exclusive or of two values is zero if and only if they are equal. |
| `Auth.OrZeroIffBothZero` | `src/gateway/auth.rs:60-66` | The inclusive or of two values is zero if and only if both are. |
| `Framing.StreamPrefixRoundTrip` | `src/gateway/mod.rs:213-282` | Reading any byte prefix of a stream of frames yields exactly the packets whose frames are complete in it, with their original payloads, and what is left begins the next frame. |
| `Framing.StreamRoundTrip` | `src/gateway/mod.rs:152-282` | A whole stream of frames reads back as the packets sent (an empty payload as none), with nothing left over. |
| `Framing.FrameRoundTrip` | `src/gateway/mod.rs:163-188` | One frame followed by anything reads back as its message, leaving exactly what follows. |
| `Framing.FrameIsShortest` | `src/gateway/mod.rs:163-179` | A frame is 16 bytes longer than the shortest form of its payload: the encoded form if there is one, the payload has 1024 bytes or more, and it gets shorter; the payload itself otherwise. |
| `Framing.CutFrameWaits` | `src/gateway/mod.rs:224-253` | A frame cut short is never taken for a packet. |
| `Framing.AnyBytesRead` | `src/gateway/mod.rs:213-282` | On arbitrary bytes: the reader waits if and only if the header or the payload it announces is incomplete, fails if and only if a complete payload marked compressed does not decode, and otherwise takes exactly the packet and its payload. |
| `Framing.AlignedIffSized` | `src/gateway/mod.rs:180-188` | Without compression, the reader stops at the end of the frame if and only if the size field equals the payload length. |
| `Packets.HeaderRoundTrip` | `src/gateway/packet.rs:193-226` | Parsing what was written gives the packet back, whatever follows. |
| `Packets.HeaderCanonical` | `src/gateway/packet.rs:121-226` | A 16-byte block is reproduced by parsing and writing if and only if its type code is assigned and its reserved bytes are zero; the other bytes always are. |
| `Packets.ToBytes` | `src/gateway/packet.rs:195-203` | The header assembled in place in a zeroed array is the header layout. |
| `Packets.CopyInto` | `src/gateway/packet.rs:198-200` | Copying into a range changes that range and nothing else. |
| `Bytes.FromToLE` | `src/gateway/packet.rs:198-214` | Little-endian digits of a number that fits read back as that number. |
| `Bytes.ToFromLE` | `src/gateway/packet.rs:213-215` | The number read from little-endian digits is written back as those digits. |
| `Compression.CompressRoundTrip` | `src/gateway/compression.rs:48-99` | Decompressing with the flag that compression chose gives the input back, and no payload becomes empty. |
| `Compression.CompressData` | `src/gateway/compression.rs:48-84` | Data marked compressed is its encoded form, was at least 1024 bytes and got shorter; all other data is unchanged; from 1024 bytes on, what is sent is never longer than the encoded form. |
| `Gateways.Gateway.SendGwPacket` | `src/gateway/mod.rs:152-207` | One frame is written under the lock, or a prefix of it and an error; only a completed frame is counted. |
| `Gateways.Gateway.ReadGwPacket` | `src/gateway/mod.rs:213-282` | The packet at the head of the stream is taken, or none; the counters record the header and the payload as far as they were read; the pooled buffer is given back. |
| `Gateways.ReadPooled` | `src/gateway/mod.rs:248-261` | A payload read through a pooled buffer is exactly the next bytes of the stream, and the pool gets its buffer back. |
| `Gateways.Gateway.SendPong` | `src/gateway/mod.rs:285-296` | A ping is answered with a pong under the next packet id; a failed write is ignored, and only a whole pong is counted. |
| `Gateways.Gateway.CloseAllLinks` | `src/gateway/mod.rs:133-140` | Every registered link is closed and the registry is empty. |
| `Traffic.TrafficConserved` | `src/gateway/mod.rs:180-258` | At every point between whole sends and reads the sender's counters are the frames and bytes sent, and the reader's are those less what is in flight, modulo 2^64; a torn frame adds its header exactly if the reader ran into it and the header arrived. |
| `Traffic.GotIffWholeFrames` | `src/gateway/mod.rs:224-253` | A reader obtains a packet while whole frames are in flight, and it is the next one sent; at a torn end it waits. |
| `Traffic.CountFrame` | `src/gateway/mod.rs:236-258` | Reading a whole frame adds one packet and the frame's length. |
| `Traffic.CountTorn` | `src/gateway/mod.rs:236-253` | Reading into a torn frame adds one packet and 16 bytes if its header arrived, and nothing otherwise. |
| `BufferPools.PoolRunBounds` | `src/gateway/buffer_pool.rs:62-118` | In every run the pool holds at most max(initial, 100) buffers, pooled plus leased stays at least min(initial, 100), an allocation means at least that many are leased, and up to 100 leases the allocations are exactly the peak demand beyond the initial size. |
| `BufferPools.BufferPool.Acquire` | `src/gateway/buffer_pool.rs:109-118` | The last pooled buffer or a new one is leased: all zeros, at least `buffer_size` long, and no longer pooled. |
| `BufferPools.BufferPool.Release` | `src/gateway/buffer_pool.rs:62-74` | Whatever its holder did, a dropped buffer is blanked at its issued size and pooled if there is room; no buffer is both pooled and leased. |
| `BufferPools.BufferPool.HolderWrites` | `src/gateway/buffer_pool.rs:56-60` | Writing to a leased buffer leaves the pool and every buffer in it as it was. |
| `BufferPools.BufferPool.constructor` | `src/gateway/buffer_pool.rs:91-103` | A new pool holds the given number of distinct blank buffers. |
| `BufferPools.Reuse` | `src/gateway/buffer_pool.rs:158-171` | A buffer dirtied by one holder is the next one issued, blank and no shorter. |
| `Links.Link.Send` | `src/gateway/link.rs:81-94` | Only a connected link writes; a completed write is counted, a torn one is not and ends the write half. |
| `Links.SendCountsOut` | `src/gateway/link.rs:81-94` | Sending keeps the outgoing counter equal to what the application was sent less a torn write. |
| `GatewayServers.GatewayServer.CleanupClient` | `src/gateway/server.rs:341-388` | Without interference: exactly the routes of the address and exactly the registered links with those ids go, each such link is closed, the session goes if it is the listed one, its id leaves the store, and nothing else changes. |
| `GatewayServers.GatewayServer.Owned` | `src/gateway/server.rs:350-356` | The routes of an address are collected, each once. |
| `GatewayServers.GatewayServer.CloseOwned` | `src/gateway/server.rs:363-367` | The given links are unregistered and closed, and no others. |
| `GatewayServers.GatewayServer.RemoveLink` | `src/gateway/server.rs:326-335` | Route and link of an id are removed and the link closed. |
| `GatewayServers.GatewayServer.ClosePrevious` | `src/gateway/server.rs:193-200` | An earlier session of the same address is removed and its writer shut down. |
| `GatewayServers.GatewayServer.Admit` | `src/gateway/server.rs:207-222` | The session is saved under its id and then listed under its address. |
| `GatewayServers.GatewayServer.Shutdown` | `src/gateway/server.rs:639-649` | Every link is closed, every session's writer shut down, and the store loses exactly the listed ids; the routes stay. |
| `GatewayServers.SessionStore.RestoreSession` | `src/gateway/session_store.rs:58-61` | A session is returned and removed, so it is restored at most once. |
| `GatewayServers.SessionStore.HasSession` | `src/gateway/session_store.rs:72-75` | After any operations on the store, a session exists if and only if it was saved, and neither restored nor removed since. |
| `GatewayServers.SessionStore.SessionCount` | `src/gateway/session_store.rs:87-90` | The count is the number of ids that were saved, and neither restored nor removed since. |
| `GatewayServers.ExistsAfter` | `src/gateway/session_store.rs:46-84` | Which sessions exist after one more save, restore or removal. |
| `GatewayClients.GatewayClient.GatewayExchange` | `src/gateway/client.rs:278-325` | Without interference, and whether or not its replies get through, the exchange loop leaves the links, the bytes sent and the packet ids that `Exchanged` computes from the bytes of the stream. |
| `GatewayClients.OwnDataOnly` | `src/gateway/client.rs:295-309` | A connected link gets exactly its own payloads from any stream of frames that neither opens nor closes it, however they are mixed with those of other links, and counts them. |
| `Exchanges.EachRequestAnswered` | `src/gateway/client.rs:286-345` | Whatever frames the server sends, up to a `GwDeny`: what the client appends to its stream, read back, is exactly one answer to each request, in order and under consecutive packet ids: `Pong` to `Ping`, `Opened` to an `Open` whose application was reached, `OpenFail` to any other; if its stream fails, a beginning of these. |
| `Exchanges.LinksAreThoseOpen` | `src/gateway/client.rs:295-345` | At the end of any stream of frames the client has exactly the links that it had or opened successfully, and that were not closed since. |
| `Exchanges.OpenedGetsItsData` | `src/gateway/client.rs:330-381` | A link opened within a stream is connected, and its application gets exactly the payloads for it that follow. |
| `GatewayClients.GatewayClient.Handle` | `src/gateway/client.rs:286-317` | One packet does what `Handled` says: reply, open, close, forward, or nothing. |
| `GatewayClients.GatewayClient.ConnectClient` | `src/gateway/client.rs:330-358` | A reached application gets a new registered, connected link and `Opened` is sent; otherwise `OpenFail` is. |
| `GatewayClients.GatewayClient.ForwardToApp` | `src/gateway/client.rs:375-381` | Data goes to the registered link with that id and to no other. |
| `GatewayClients.GatewayClient.OnDisconnection` | `src/gateway/client.rs:498-504` | Every link is closed, the registry is empty and the client waits. |

## Left out

- Sockets, listeners, timeouts, sleeps and signals: nondeterministic steps, or parameters (`Stream.room`, `Luck`).
- `src/main.rs`, `src/configuration.rs`, `src/consts.rs`, `src/gateway/metrics.rs`, `src/gateway/utils.rs`,
  `src/gateway/operations.rs`: startup, parsing, metrics, clocks and forwarding traits, which would only add easy members.
- The handlers and loops of `src/gateway/server.rs` and of the client's tasks are step systems on values, because what
  is proved about them is about their interleavings; the class methods cover the operations that run to their end.
- The server's `state` field beyond `cleanup_client` and `Admit`: with separate steps it does not track whether
  sessions exist, so no property is claimed for it.
- The server's `on_disconnection`: no code calls it.
- How long a server link's counters go back: `set_state` can reset them after data has moved, so `LinkCounters` counts from
  the last reset.
- Persistence of the session id, the internals of zstd, HMAC, nonce and UUID generation.
- Session migration of links, `Closed`, `ProtocolVersion`, `GwAuth` and the 90-second keep-alive timeout: documented,
  but no code carries them out. The keep-alive stamps and `last_activity` influence nothing.
- The 10 MB check in `read_gw_packet` (a 16-bit size never reaches it) and the link's awaiter (never set).
- A poisoned pool lock: it needs a panic inside a two-line critical section.
- Which entry `client_sessions.values().next()` yields: in `ServerSessions` any listed connection. In `LinkServer` alone, and in
  `Tunnel`, a handler may pick any connection that ever registered, which includes every listed one.
- ServerReleases.ReleasesIffRoutedAndUnpicked: is about continuations that accept no further application. A later one can
  pick the connection as long as it is listed; once it is not, or if none does, `ReleasedIfLeftAlone` covers all of them.
- TunnelTheorems.StreamsPreserved: assumes live ids distinct; with a reused id two links' packets cannot be told apart.
- LinkServer.NoLeakedLinks: assumes that the id of an unfinished task is not issued again; without that an `add_link`
  can replace a link in use.
- TunnelRoutes.RouteLinkAgreement: assumes that no pending id is issued (for the converse see
  `TunnelAgreement.AgreesIffNotPending`), and excludes the time after a shutdown, which empties the registry and leaves
  the routes.
- Admission.FramesOnlyAfterAgreement: a side may stop between any two steps, but its writes go out whole; cut writes are
  in `HandshakePrograms` and `Tunnel`.
