# Spanreed hub: model and proofs

The Spanreed hub lets browser clients talk to game servers over UDP. This project models its core: the
shared client table, the hub with its goroutines, the client connection router with one session per client,
and the UDP destination. It comes in two forms that are proved to agree.

**The concurrent machine** (`Machine`). Every goroutine is split into steps: one channel receive, one critical
section of a lock, or one send. Steps of all goroutines interleave freely, a `select` is a free choice, a
channel is a bounded first-in first-out queue that also remembers what was received from it, and a send is
possible only when there is room. The clock is non-decreasing; where the source reads it and then enters a
critical section, the step carries any time between the read and now. A kick is five steps (read the router
name, read the destination name, send, send, remove), so kicks overlap with each other and with routing. A sweep
lists the table one entry at a time, so stamps, verdicts and routing interleave with it; that nobody enters or
leaves the table while it is being listed, which the table's read lock ensures, is not assumed. The locks that
protect the handler maps only forbid interleavings, so what holds of every run of the model holds of
every run of the hub. The runs that `Witnesses` and `Conversation` exhibit respect those locks: in them a hub
goroutine that forwards data, a verdict or an open, which holds a read lock from its lookup to its send, gets to
the send before any other hub goroutine moves, and a kick takes its write lock only within the single step that
sends a close; nor does anybody enter or leave the table while it is being listed. Some of the state is history:
the destination an id was routed to, when a client entered the table, the address it was registered with, the
accepting verdicts heard, clients made and dropped, and when the last complete tick of the timeout goroutine began.

**The objects** (`ClientStores`, `Proxies`, `ClientRouters`, `UdpDestinations`). These are classes with the
fields and methods of the source. A method is one call from start to end that finds room on each channel it
sends on. `Agreement`, `Demultiplexing` and `UdpAgrees` prove that a goroutine of the machine which is not
interfered with does what the method is specified to do.

Clients are numbered by allocation. The id of the n-th allocation is n modulo 2^32, so theorems about a
client's history hold while no id has been handed out twice (`Distinct`: the first 2^32 allocations). Theorems
about the table itself (capacity, conservation, registered names, residence by age) have no such bound.
Handler names are not empty and handlers are registered before the hub starts (`ValidConfig`), as the hub's
main program does.

The theorems, for every run, client and destination:

- The hub refines a simple machine: request, verdict, two first-in first-out pipes that lose at most a
  suffix, closed (`HubRefinesPipe`). Conversely every conversation can happen: there is a run in which all
  data of both sides arrives (`EveryConversation`), and nothing is lost while the client is connected
  (`NothingLost`).
- Endings: a client is shown the first verdict its destination gave, refusals included; a session that stops after
  asking has shown a refusal unless its client hung up, and always signals its transport; closes reach the session
  they name (`FirstVerdictIsShown`, `StoppedIsRefused`, `VerdictsArrive`, `ClosesReachSession`, `RelayEndings`).
  There are runs with every refusal and every orderly end (`EveryRefusal`, `EveryConversationEnds`).
- Delivery in both directions, the two conversation grammars, accept provenance and the handshake
  (`Delivery`, `HandshakeSafety`, `ShownAcceptWasHeard`, `TalkedShape`, `FacedShape`).
- Routing: the first match, chosen once and for good, opened at most once; the address policy (`Dispatch`,
  `AtMostOneOpen`, `RouteIsFixed`, `OpenedAtMostOnce`, `AddressPolicy`).
- Time: residence by age and by silence, and reclaiming of clients that were never accepted (`AgeBound`,
  `SilenceBound`, `PromptSilence`, `NeverAcceptedIsReclaimed`). The sweep assumption is that a complete tick
  began at most `K` ago.
- Sparing: a sweep lists only clients past a configured deadline, and a client heard on both sides within the
  timeouts is spared (`OnlyOverdueAreListed`, `HeardIsRecorded`, `HeardIsSpared`).
- Kicks, split at lock boundaries and interleaved freely: a client that left was told at least once, one that
  stays was told nothing, the accounts are exact if and only if no kick clashed with another or with routing,
  and the shutdown drain closes each client it finds exactly once (`LeaversAreTold`, `StayersAreUntold`,
  `ExactCloses`, `DrainCloses`). A client whose string nobody claims is
  kicked, and so is one whose router or destination asks for its close (`UnclaimedIsKicked`, `CloseIsKick`).
- Progress: a goroutine at work waits only for room on the one channel it sends on, and some sends never wait
  (`HubLoopsGoOn`, `DrainProceeds`, `SessionGoesOn`). A router passes a close on at once unless kicks of that
  client clashed (`CloseNeverWaits`).
- No channel ever exceeds its capacity (`QueuesStayBounded`), and allocation makes progress despite wrap-around
  (`AllocationProgress`).

Three promises one might expect do not hold of the code as it stands. Each has its condition, and
`Witnesses` gives a family of runs in which it fails. The residence bounds counted from the creation time or the
last message alone hold exactly as long as the client enters the table before the limit has passed, because the
clock is read before the table's lock is taken (`PromptBound`, `PromptSilence`, `StaleClock`). Exact kick accounts
hold exactly as long as there is no clash while the client is in the table: no second kick looks the client up
while another is past its lookup (`KickedTwice`: the client is sent two closes), and the client is not routed
after a kick has read that it has no destination (`RoutedDuringKick`: its destination is opened and never closed
by the hub). Whatever else the hub does meanwhile, to this client or to others, does not matter (`ExactCloses`).
That a close never holds up a router fails after such a clash: the session has stopped, its close channel has one
place, and the router, which serves all its clients, is left with the second close (`ClashHoldsUpRouter`).

The code and its names or comments disagree in a few places; the model follows the code. `IsConnected` of the
store answers whether the client exists. A refusal also marks a client as connected, so the auth sweep
leaves it to the others. A `case` without a body in a relay goroutine consumes its signal and does nothing.

## Model

| member | source | states |
|---|---|---|
| Refinement.HubRefinesPipe | pkg/transport/client_connection_router.go:111-300 | what one client and one destination see of any run is, state by state, a run of the simple machine from its rest state: a request at the first match and the address the client names, one verdict, client packets passed up only after the client was shown an accept, payloads passed down in order, one close |
| Endings.VerdictIsShown | pkg/transport/client_connection_router.go:218-230 | in every run, a session that has taken a verdict and is done telling it has shown its client exactly that verdict, first, and takes no second one |
| Endings.StoppedIsRefused | pkg/transport/client_connection_router.go:203-230 | a session that stopped after asking has signalled its transport once; unless the client hung up it was shown one refusal and nothing else, which is the verdict it took or goes back to a close, a cancelled transport or the shutdown; if the client hung up it was shown nothing |
| Endings.StoppedEarlyAsksForClose | pkg/transport/client_connection_router.go:163-191 | a session that stopped before asking has shown nothing, and has asked the hub for exactly one close unless its first packet could not be read; some signal made it stop |
| Endings.RelayEndings | pkg/transport/client_connection_router.go:245-290 | the relay goroutines have together taken exactly the closes that ended them: the outer one ends only on a close and then signals its transport once, the inner one on a close or when its context is done and then asks the hub for one close |
| Verdicts.VerdictsArrive | pkg/proxy/proxy.go:665-687 | what reached a session's own verdict queue is a prefix of the verdicts its destination gave for its id; while the client is in the table and linked, the rest is exactly what is under way at each hop |
| Verdicts.FirstVerdictIsShown | pkg/transport/client_connection_router.go:218-230 | so the packet a client is shown carries the first verdict its destination gave, refusals included |
| Conversation.EveryConversation | pkg/transport/client_connection_router.go:159-290 | with any configuration that routes the client to an allowed address and any packets and payloads, there is a run in which the client is accepted and all packets and all payloads sent arrive in order, on both sides |
| Conversation.EveryRefusal | pkg/transport/client_connection_router.go:218-230 | with any such configuration and any app data, there is a run in which the destination refuses, the client is shown exactly that refusal, and its session stops with one signal to its transport |
| Conversation.EveryConversationEnds | pkg/transport/client_connection_router.go:245-260 | with any such configuration, packets and payloads, there is a run in which after the whole conversation the server closes: the client leaves the table, its relaying session signals its transport, and the server is sent one close, last |
| Conversation.AcceptedTooLate | pkg/transport/client_connection_router.go:209-212 | with any such configuration, a reachable state has a client in the table that hung up before its verdict, was accepted and marked as answered afterwards, and was shown nothing |
| Theorems.Delivery | pkg/proxy/proxy.go:453-505 | packets handed to a client are one verdict and, after an accept that was heard, a prefix of the payloads its destination sent; datagrams queued for it are one request with its own app data, a prefix of its packets after the first, at most one close, all to one address |
| Theorems.FifoDown | pkg/transport/client_connection_router.go:352-363 | in every state of every run, what reached a client's own queue is a prefix of the payloads accepted for its id, across both hub hops |
| Theorems.FifoUp | pkg/transport/udp_destination.go:343-385 | in every state of every run, the client data queued as datagrams is a prefix of what the session relayed, and there is none at any other destination |
| Theorems.NothingLost | pkg/proxy/proxy.go:453-505 | while the client is relayed, in the table, linked and registered, its packets after the first are exactly those queued for its destination followed by those under way at each hop, and likewise the payloads towards it |
| Grammar.TalkedShape | pkg/transport/udp_destination.go:284-426 | an orderly conversation with a destination, written out: one request, data to the same address, perhaps one close |
| Grammar.FacedShape | pkg/transport/client_connection_router.go:203-260 | an orderly conversation with a client, written out: nothing, one refusal, or one accept and then data |
| Handshake.HandshakeSafety | pkg/transport/udp_destination.go:428-446 | client data is queued for a destination only after that destination accepted the client in a datagram heard while the client was registered there |
| Handshake.AcceptWasHeard | pkg/transport/udp_destination.go:428-446 | each recorded accept goes back to its own earlier step, at which a registered client's accepting verdict datagram with the same app data was heard |
| Handshake.ShownAcceptWasHeard | pkg/transport/client_connection_router.go:218-230 | the accept a client was shown goes back to a datagram with the same app data, heard from the destination the client is routed to |
| Handshake.AtMostOneOpen | pkg/proxy/proxy.go:545-601 | over all destinations, at most one open command leaves the hub for a client, to the destination it is routed to |
| Handshake.OpenIffRouted | pkg/proxy/proxy.go:573-587 | a client is routed to a destination if and only if its open was forwarded there or is about to be |
| Handshake.RouteIsFixed | internal/client_store.go:147-161 | a client's destination, once chosen, never changes |
| Handshake.ChoiceHolds | pkg/proxy/proxy.go:559-594 | the destination a client is routed to is the first registered one that matches the string it opened with |
| Handshake.Dispatch | pkg/proxy/proxy.go:559-600 | a destination that was sent anything for a client is the first match of the connection string in the client's own first packet |
| Handshake.NoMatchNoOpen | pkg/proxy/proxy.go:591-600 | a client whose string nobody claims is never routed, and no destination is sent an open, data or a datagram for it |
| Requests.UnclaimedIsKicked | pkg/proxy/proxy.go:591-600 | in every run, once the hub has received a request that nobody claims and is done with it, the client is not in the table and was sent a close |
| Requests.RequestIsAnswered | pkg/proxy/proxy.go:545-601 | in every run, once the hub has received a client's request and is done with it, the client is routed to the first match of its string or is no longer in the table |
| Requests.CloseIsKick | pkg/proxy/proxy.go:368-407 | in every run, once the hub has received a close request for a client, from its router or from its destination, and is done with it, the client is not in the table and was sent a close |
| Handshake.AddressPolicy | pkg/transport/udp_destination.go:74-96 | every registered address and every queued datagram's address is the resolution of the host in the client's own string, and that host passed the deny-first rule |
| OpenOnce.OpenedAtMostOnce | pkg/proxy/proxy.go:545-601 | whatever messages the hub alone is fed, duplicates included, it opens an id at most once, and its destination name goes from empty to one fixed value |
| Silence.AgeBound | internal/client_store.go:225-261 | in every run, ids reused or not, an entry is no older than its limit plus K, counted from creation or from entering the table if that was later; recorded times never lie ahead of the clock |
| Silence.PromptBound | pkg/proxy/proxy.go:507-543 | an entry that entered before its limit passed is bounded by its creation time alone, for the age and for the auth limit |
| Silence.SilenceBound | pkg/proxy/proxy.go:507-525 | neither side of an entry has been silent for longer than its timeout plus K, counted from its last message or from entering the table if that was later than the limit; its clocks start at its creation |
| Silence.PromptSilence | pkg/proxy/proxy.go:507-525 | the plain bounds for both silences, and for the age of a client that was shown no accept, if the client entered the table before the limit had passed |
| Silence.NeverAcceptedIsReclaimed | pkg/proxy/proxy.go:355-358 | a client that was shown no accept, whether refused, unanswered or gone before its accept came, is out of the table after the client timeout plus K, counted from creation or from entering the table if that was later than the limit, whatever its destination sends, because its own clock cannot move |
| Witnesses.StaleClock | pkg/proxy/proxy.go:270-281 | for every delay between reading the clock and entering the table there is a run that meets each of the plain age, auth, silence and never-accepted bounds if and only if the delay is within its limit |
| Sparing.OnlyOverdueAreListed | pkg/proxy/proxy.go:507-543 | in every run, an entry is put on a sweep's list only when it is older than the maximum length or one side has been silent for longer than its timeout, and on the auth sweep's list only when it has no verdict and is older than the auth timeout |
| Sparing.HeardIsRecorded | pkg/proxy/proxy.go:355-395 | in every run, once data was forwarded for a client that is still in the table and the stamp is made, that side's clock is at least the time of forwarding and not ahead of now, for both sides |
| Sparing.HeardIsSpared | internal/client_store.go:225-242 | so a client whose two sides were both heard within their timeouts and that is not too old is not put on a silence sweep's list |
| KickRuns.LeaversAreTold | pkg/proxy/proxy.go:643-663 | with kicks in separate steps and overlapping, an admitted client that is not in the table was sent a close through its own router |
| AccountRuns.ExactCloses | pkg/proxy/proxy.go:603-663 | a client that left without a clash got exactly one close and its destination exactly one if and only if it was routed; once no kick of it is under way, exact accounts hold if and only if there was no clash |
| AccountRuns.StayersAreUntold | pkg/proxy/proxy.go:643-663 | in every run a client in the table has had as many closes as kicks under way have told it, and its destination at most as many as are about to remove it, so none if no kick is under way |
| AccountRuns.DrainCloses | pkg/proxy/proxy.go:442-450 | in every run, a client the drain finds has left when the drain is over, with exactly one close, and one at its destination if and only if it was routed |
| Witnesses.ShutdownEnds | pkg/proxy/proxy.go:442-450 | with any configuration, a reachable state has a finished drain that found a client: the table is empty and the client was sent one close |
| KickRuns.DrainEnded | internal/client_store.go:59-71 | at the moment the drain ends the table is empty, and clients made equal clients dropped |
| Accounts.KickBalances | pkg/proxy/proxy.go:643-663 | each of the five steps of a kick keeps the ledger of lookups and closes balanced, whatever other kicks of the client are under way |
| AccountRuns.LedgerHolds | pkg/proxy/proxy.go:643-663 | in every run each lookup that found the client has become one close or is carried by a kick under way, and likewise for its destination |
| Kicks.KickCloses | pkg/proxy/proxy.go:643-663 | each of the five steps keeps that a client is told before it is forgotten |
| Witnesses.RoutedDuringKick | pkg/proxy/proxy.go:643-663 | with any configuration that can route, a reachable state has a removed client that was opened at its destination, with one close for itself and none for the destination |
| Witnesses.KickedTwice | pkg/proxy/proxy.go:643-663 | with any configuration, a reachable state has a removed client that a sweep and its own hanging up both kicked, with two closes |
| Clearance.AtMostOneClose | pkg/proxy/proxy.go:603-663 | in every run a client whose kicks did not clash was sent at most one close, whether it has left or not |
| Clearance.CloseNeverWaits | pkg/transport/client_connection_router.go:337-350 | in every run a router that holds a close for a client can pass it on at once, whatever the session does, unless kicks of that client have clashed |
| Clearance.VerdictNeverWaits | pkg/transport/client_connection_router.go:365-376 | and a verdict at once, unless the destination gave that client more than one |
| Witnesses.ClashHoldsUpRouter | pkg/transport/client_connection_router.go:349 | with any configuration, a reachable state in which the router of a client that was kicked twice holds the second close and cannot pass it on, and the session reads nothing any more |
| Ownership.OneOwner | pkg/transport/client_connection_router.go:127-146 | a client is linked in at most its own router, its entry names that router, and only the destination it is routed to can have it registered |
| Ownership.RouterIsKnown | pkg/proxy/proxy.go:488-495 | a client in the table always has a registered router, so the missing client handler error cannot happen |
| Ownership.DestinationIsKnown | pkg/proxy/proxy.go:461-468 | relayed data of a client in the table always finds its destination, so the missing destination handler error cannot happen |
| Ownership.Conservation | internal/client_store.go:85-114 | the table never exceeds its capacity, and clients created equal clients removed plus clients live |
| Runs.TableHolds | internal/client_store.go:41-48 | capacity, conservation, registered names, clock order and sweep progress hold in every state of every run |
| Runs.ClientHolds | pkg/proxy/proxy.go:337-451 | one invariant joins a client's session, the hub, the routers and the destinations in every state |
| Bounds.QueuesStayBounded | pkg/proxy/proxy.go:130-136 | in every state of every run every channel holds at most its capacity, those of the hub, the handlers and each session |
| Progress.HubLoopsGoOn | pkg/proxy/proxy.go:350-410 | in every run each hub goroutine at work has a step if and only if the one channel it has to send on is not full |
| Progress.TickerGoesOn | pkg/proxy/proxy.go:426-437 | in every run the timeout goroutine has a step unless it waits for room for a close |
| Progress.DrainProceeds | pkg/proxy/proxy.go:442-450 | once the three goroutines have ended, the drain has a step if and only if the handler it tells has room |
| Progress.RouterGoesOn | pkg/transport/client_connection_router.go:337-376 | a router waits if and only if the queue of the linked client it has something for is full |
| Progress.SessionGoesOn | pkg/transport/client_connection_router.go:203-260 | in every run a session's signal to its transport never waits, nor does its verdict if the client's channel has a place at all |
| Progress.AskingGoesOn | pkg/transport/client_connection_router.go:163-290 | what a session has for the hub waits if and only if the hub's channel is full |
| Progress.UdpGoesOn | pkg/transport/udp_destination.go:284-426 | a destination's command goroutine waits only for room for its datagram or its refusal |
| ClientStores.ClientStore.constructor | internal/client_store.go:50-57 | an empty table, its counter at zero |
| ClientStores.ClientStore.GetNewClientId | internal/client_store.go:73-75 | the next id, wrapping at 2^32 |
| ClientStores.ClientStore.HasClient | internal/client_store.go:77-83 | whether the id is in the table |
| ClientStores.ClientStore.CreateClient | internal/client_store.go:85-108 | a duplicate is reported before a full table, either leaves the table alone; otherwise exactly one fresh entry is added, and capacity is kept |
| ClientStores.ClientStore.RemoveClient | internal/client_store.go:110-114 | exactly that entry is gone |
| ClientStores.ClientStore.Connect | internal/client_store.go:116-130 | marks an existing client, reports a missing one |
| ClientStores.ClientStore.IsConnected | internal/client_store.go:132-145 | true if and only if the client exists, whatever its flag says |
| ClientStores.ClientStore.SetDestinationHandlerName | internal/client_store.go:147-161 | changes that field of an existing client only |
| ClientStores.ClientStore.GetDestinationHandlerName | internal/client_store.go:163-176 | the recorded destination name, or a missing client |
| ClientStores.ClientStore.GetClientHandlerName | internal/client_store.go:178-191 | the recorded router name, or a missing client |
| ClientStores.ClientStore.SetClientRecvTimestamp | internal/client_store.go:193-207 | sets the client's clock of an existing client to the given time; every other field and entry stays; a missing client is reported |
| ClientStores.ClientStore.SetDestinationRecvTimestamp | internal/client_store.go:209-223 | sets the destination's clock of an existing client to the given time; every other field and entry stays; a missing client is reported |
| ClientStores.ClientStore.GetTimeoutClientList | internal/client_store.go:225-242 | lists, once each, exactly the clients past one of three deadlines |
| ClientStores.ClientStore.GetAuthTimeoutClientList | internal/client_store.go:244-261 | lists, once each, exactly the clients without a verdict past the deadline |
| ClientStores.ClientStore.KickAllClients | internal/client_store.go:59-71 | each client is handled at most once; without a failure none is left, with one exactly those handled before it are gone |
| ClientStores.Request | internal/client_store.go:73-108 | an id request keeps every live entry as it was and adds at most its own |
| ClientStores.AllocationProgress | internal/client_store.go:73-108 | with n clients live, room and a free id, the first request to succeed is among the next n + 1, and those before it change only the counter |
| ClientStores.WindowSize | internal/client_store.go:73-75 | up to 2^32 requests in a row try different ids, across the wrap-around |
| Proxies.Proxy.constructor | pkg/proxy/proxy.go:115-214 | a hub without handlers and clients, with each of the four timeouts and the capacity as given |
| Proxies.Proxy.CreateClientMessageHandler | pkg/proxy/proxy.go:224-268 | a free name gets empty channels, a taken one is a collision that changes nothing |
| Proxies.Proxy.CreateDestinationMessageHandler | pkg/proxy/proxy.go:283-335 | likewise, and a new destination is the last to be asked for a match |
| Proxies.Proxy.GetNextClientId | pkg/proxy/proxy.go:270-281 | succeeds exactly when the next id can be created, and then returns it |
| Agreement.AdmitAgrees | internal/client_store.go:85-108 | a connection of the machine enters the table if and only if its id is free and there is room, with every clock at the time read; otherwise the table stays and the connection is given up |
| Proxies.Proxy.SendClientDisconnect | pkg/proxy/proxy.go:603-621 | one close to a named, registered router, else nothing |
| Proxies.Proxy.SendDestinationDisconnect | pkg/proxy/proxy.go:623-641 | one close to a named, registered destination, else nothing |
| Proxies.Proxy.KickClient | pkg/proxy/proxy.go:643-663 | one close to each side the entry names, then the entry is gone |
| Proxies.Proxy.KickOldClients | pkg/proxy/proxy.go:507-525 | kicks exactly the clients past a silence or age deadline, each counted back from now by its own timeout |
| Proxies.Proxy.CheckForAuthTimeouts | pkg/proxy/proxy.go:527-543 | kicks exactly the clients without a verdict that are older than the auth timeout |
| Proxies.Proxy.Drain | pkg/proxy/proxy.go:442-450 | kicks every client once and leaves none |
| Proxies.SweepExact | pkg/proxy/proxy.go:519-524 | kicking a list removes exactly its clients, keeps every other entry, and adds to each handler's queue one close per listed client that names it, nothing else |
| Proxies.OneClientClose | pkg/proxy/proxy.go:603-621 | so each kicked client has exactly one close at its own router |
| Proxies.OneDestClose | pkg/proxy/proxy.go:623-641 | and exactly one at its destination, if it has one |
| Proxies.Proxy.ForwardClientMessage | pkg/proxy/proxy.go:453-478 | appended at the end of the recorded destination's queue if and only if client and handler exist, else the error says which is missing; no other queue and no entry changes |
| Proxies.Proxy.ForwardDestinationMessage | pkg/proxy/proxy.go:480-505 | appended at the end of the recorded router's queue if and only if client and handler exist, else the error says which is missing |
| Proxies.Proxy.ForwardDestinationVerdict | pkg/proxy/proxy.go:665-687 | any verdict marks the client as answered and is appended at the end of its router's verdict queue, if and only if client and handler exist |
| Proxies.Proxy.FindHandler | pkg/proxy/proxy.go:562-589 | the least index whose predicate matches, or none |
| Proxies.Proxy.HandleClientConnectionRequest | pkg/proxy/proxy.go:545-601 | a missing client is an error, a duplicate is ignored, the first match is assigned and opened, no match is an error that kicks |
| Agreement.ClientKickAgrees | pkg/proxy/proxy.go:368-370 | the five kick steps of the client-side goroutine, uninterrupted, are one kick |
| Agreement.DestKickAgrees | pkg/proxy/proxy.go:402-404 | the same for the destination-side goroutine |
| Agreement.SweepAgrees | pkg/proxy/proxy.go:519-524 | a sweep's steps, uninterrupted, kick its list in order |
| Agreement.ListAgrees | internal/client_store.go:225-261 | a listing's steps from reading the clock on, uninterrupted, list once each exactly the clients past a deadline, each deadline being the time read less the configured timeout |
| Agreement.DeliverIsSend | pkg/proxy/proxy.go:470-475 | sending in the machine and delivering in the object keep every queue of every handler equal, for each kind of message the hub sends |
| Agreement.OpenAgrees | pkg/proxy/proxy.go:362-367 | the steps that serve an open request, uninterrupted, are the whole operation |
| Agreement.ClientMessageAgrees | pkg/proxy/proxy.go:355-361 | the steps that serve client data forward it and stamp the client's clock exactly on success |
| Agreement.DestinationMessageAgrees | pkg/proxy/proxy.go:391-395 | the steps that serve destination data forward it and stamp the destination's clock exactly on success |
| Agreement.VerdictAgrees | pkg/proxy/proxy.go:396-401 | the steps that serve a verdict mark the client and pass the verdict on |
| ClientRouters.ClientConnectionRouter.AddConnection | pkg/transport/client_connection_router.go:127-146 | a new id gets queues of its own, an id in use is refused and keeps its queues |
| ClientRouters.ClientConnectionRouter.Remove | pkg/transport/client_connection_router.go:302-307 | exactly that link is gone |
| ClientRouters.ClientConnectionRouter.MarkConnected | pkg/transport/client_connection_router.go:234-241 | sets the flag of a linked client only |
| ClientRouters.ClientConnectionRouter.HandleProxyCloseRequest | pkg/transport/client_connection_router.go:337-350 | one close on the named client's queue, if linked; no other queue can change |
| ClientRouters.ClientConnectionRouter.HandleOutgoingMessage | pkg/transport/client_connection_router.go:352-363 | the data at the end of the named client's queue, if linked |
| ClientRouters.ClientConnectionRouter.HandleIncomingVerdict | pkg/transport/client_connection_router.go:365-376 | the verdict at the end of the named client's queue, if linked |
| ClientRouters.ClientConnectionRouter.Serve | pkg/transport/client_connection_router.go:317-328 | whatever the hub sent, each linked client's queues grow by exactly the commands that name it, in order |
| Demultiplexing.DemuxAgrees | pkg/transport/client_connection_router.go:337-376 | one step of the machine's demultiplexer lets the three queues of every linked session grow by what the command it holds names for that id, as `Serve` does, and changes no other session |
| Demultiplexing.TakeAgrees | pkg/transport/client_connection_router.go:317-328 | the demultiplexer takes the first message, verdict or close of its queue and holds exactly that command |
| Demultiplexing.LinkAgrees | pkg/transport/client_connection_router.go:127-146 | a new id is linked to its own session; an id in use is refused and keeps its link |
| Demultiplexing.UnlinkAgrees | pkg/transport/client_connection_router.go:302-307 | exactly that link is gone and nothing else changes |
| Demultiplexing.ClosesReachSession | pkg/transport/client_connection_router.go:337-350 | in every run, over any stretch in which a client stays linked, the closes its router takes for it are exactly those its session gains, queued or consumed, plus the one the router holds |
| UdpRules.Contains | pkg/util/strutils.go:3-10 | true if and only if the list has the string |
| UdpRules.IsDestinationAllowed | pkg/transport/udp_destination.go:74-84 | allowed if and only if not denied and (all allowed or listed), written out on the lists |
| UdpRules.MatchIffResolves | pkg/transport/udp_destination.go:86-96 | for strings of at least four bytes, matching and host resolution agree, and scheme plus host give back the string |
| UdpRules.TargetIff | pkg/transport/udp_destination.go:284-301 | a connection string leads to an address if and only if it has a host, the host is not denied, all hosts are allowed or it is listed, and that host resolves to the address |
| UdpDestinations.UdpDestination.OnConnectClient | pkg/transport/udp_destination.go:284-341 | succeeds if and only if the string leads to an allowed address; registers it and asks it, or names which of three causes stopped it and changes nothing |
| UdpDestinations.UdpDestination.ServeOpen | pkg/transport/udp_destination.go:242-253 | a failed open is answered with a refusal |
| UdpDestinations.UdpDestination.OnClientMessage | pkg/transport/udp_destination.go:343-385 | data goes to the registered address, or is dropped |
| UdpDestinations.UdpDestination.OnProxyRequestClose | pkg/transport/udp_destination.go:387-426 | a close goes to the registered address and ends the registration, or is dropped |
| UdpDestinations.UdpDestination.OnReceiveVerdict | pkg/transport/udp_destination.go:428-446 | passed to the hub if and only if the client is registered |
| UdpDestinations.UdpDestination.OnReceiveProxyMessage | pkg/transport/udp_destination.go:448-463 | passed to the hub if and only if the client is registered |
| UdpDestinations.UdpDestination.OnReceiveCloseRequest | pkg/transport/udp_destination.go:465-481 | passed to the hub if and only if the client is registered |
| UdpDestinations.UdpAgrees | pkg/transport/udp_destination.go:239-259 | the command goroutine's steps, uninterrupted, are the methods above |
| UdpDestinations.HearsAgrees | pkg/transport/udp_destination.go:428-481 | what the listener hears in the machine and in the object puts the same verdict, payload or close at the end of the same queue, and only accepts are recorded as such |
| UdpDestinations.RefuseAgrees | pkg/transport/udp_destination.go:242-253 | a failed open is answered with the same refusal in the machine and in the object |
| UdpDestinations.UdpDestination.CloseAll | pkg/transport/udp_destination.go:147-173 | at shutdown each registered client's address is sent exactly one close, in some order, and none stays registered |
| UdpDestinations.WipeAgrees | pkg/transport/udp_destination.go:153-170 | in the machine that step happens only at shutdown and clears that destination's registrations only |
| Selects.ClientLoopTakes | pkg/proxy/proxy.go:350-375 | each message, open or close that has arrived can be taken by the waiting goroutine, which then holds exactly it; it quits if and only if the hub shuts down |
| Selects.DestLoopTakes | pkg/proxy/proxy.go:386-409 | the same for the destination side |
| Selects.SessionTakes | pkg/transport/client_connection_router.go:163-290 | a waiting session can go on, give up or take a signal if and only if the packet, verdict, done context or signal is there |
| Selects.IgnoredSignal | pkg/transport/client_connection_router.go:275 | a relay goroutine that takes its client's signal goes on as before |
| Selects.ContextEnds | pkg/transport/client_connection_router.go:164-170 | a session gives up if and only if its transport has cancelled it or the hub shuts down |
| Selects.TransportTakes | pkg/transport/client_connection_router.go:153-156 | the transport takes packets and the close signal in order, if and only if there is one, and signals the client's close once |
| Selects.RouterTakes | pkg/transport/client_connection_router.go:317-328 | a waiting demultiplexer can take a command if and only if there is one, and leaves if and only if the hub shuts down |
| Selects.UdpTakes | pkg/transport/udp_destination.go:239-259 | a waiting command goroutine can take each command that has arrived and then holds exactly it |

## Left out

- Silence.AgeBound: counts from entering the table where that is later than the recorded creation time plus the limit; the plain bound, under its exact condition, is `PromptBound`.
- Silence.SilenceBound: counts from entering the table in the same way; the plain bounds are `PromptSilence`.
- Silence.NeverAcceptedIsReclaimed: counts from entering the table in the same way; the plain bound is `PromptSilence`.
- UdpRules.MatchIffResolves: for strings of at least four bytes, because the slice both functions take fails on shorter ones.
- The session handshake has no object form: its goroutines block on several channels at once, so it exists only as steps of the machine (`SessionGo`).
- Fairness and liveness of whole runs: `Progress` says when a goroutine has a step, not that the scheduler takes it; the bounds on time assume that ticks complete.
- Clearance.CloseNeverWaits: one direction only, because after a clash the second close may still find the first one already read.
- FlatBuffers encoding: messages are datatypes and the parse of the first packet is an uninterpreted function; absent and empty app data are not told apart.
- Sockets, TLS, WebSocket and WebTransport: a transport is an environment that pushes and fetches packets, hangs up, cancels and unlinks.
- Host and address resolution are uninterpreted functions of the configuration; order is stated on a destination's outgoing queue, not on the wire.
- The close datagrams a destination writes directly to its socket at shutdown are in the object only (`CloseAll`); in the machine the step `Wipe` has their effect on the registrations.
- Receive and route timestamps carried in messages, close reasons, error text and logging.
- Channel capacities: one record holds the capacity of each kind of channel, the same for all handlers; default values of the configuration are not modelled.
- The `int64` width of timestamps: times are unbounded integers.
- The router's `IsConnected` flag, which nothing reads, is in the router object only.
- Environment parsing, magic number and version, random labels, the example client and server.
