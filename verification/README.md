# Copper: verified models of the stream protocol, the registry and what is under them

Copper multiplexes streams over one connection between two nodes and keeps, on
each node, a registry of services: what is published locally, what peers offer,
which routes are set, and which subscriptions follow all of that. This project
models four connected parts in Dafny and proves what holds on all their inputs
and all their runs. `dafny verify dfyconfig.toml` checks everything.

**The stream protocol.** `Stream.dfy` gives the effect of every piece of code
that runs under a stream's lock, and `RawStream.dfy` the object that is updated
in place. `Endpoint.dfy` turns one side into a state machine whose steps are
application calls, writer steps (split where `writeCtrl` and `writeData` drop the
lock) and deliveries; `Duplex.dfy` joins two sides over first-in first-out wires.
`DuplexTheorems.dfy`, `Signals.dfy`, `Closing.dfy` and `Settling.dfy` hold the theorems
about all runs, `FrameChoice.dfy` says which frames are sent and refused, and `Connection.dfy` shows that any number of streams behind one scheduler each
run exactly like that; `ConnectionSettling.dfy` shows that the whole comes to rest.
`Pings.dfy` does the same for pings, `Relay.dfy` for the relay between two streams,
`RelayedStreams.dfy` for two whole streams with the relay between them, and
`RelayedBoth.dfy` for both directions at once.

**The registry.** `Registry.dfy` says what it means that all cached candidates,
priorities, active indexes and back-references equal a fresh scan. `Server.dfy`
has the object whose every operation keeps that; the files between hold its parts
(`Subscription.dfy`, `Announcements.dfy`, `Membership.dfy`, `RegistryFrames.dfy`,
`RegistrySteps.dfy`), and `IndexMeaning.dfy` says field by field what is cached. `Dispatch.dfy` and `Lookup.dfy` derive where requests go.
`Changes.dfy`, `Peers.dfy` and `Replication.dfy` follow the publications of one
node to a peer of another, and `PeerIndex.dfy` and `PeerDistances.dfy` from there into its registry;
`Node.dfy` joins the registry with the publications and the watchers of a server, and
`Hub.dfy` has the object whose calls are its steps.

**The publication allocator.** `Allocator*.dfy` is the state machine of grants,
waiters, hand-over, cancellation and unpublishing, with its theorems;
`Publication.dfy` is the object, whose calls are steps of those runs; `Requests.dfy`
has requests with all their attempts, `Retry.dfy` shows why retry loops end, and
`IdleRequests.dfy` how a request comes to wait for a ready endpoint; `WaiterFates.dfy`
and `RequestFates.dfy` say exactly what becomes of waiters and requests, and when.

**The data structures.** `RingBuffer.dfy`, `StreamQueue.dfy` and `Powers.dfy` are
the ring buffer, the ring queue and `minpow2`; `WriteBuffer.dfy` is a stream's write
buffer while a frame is on its way out; `FrameCodec.dfy` the frame formats and
`FrameLayout.dfy` what they are byte by byte;
`StreamIds.dfy` the allocation of stream ids.

Inputs that the program takes from outside are parameters: random draws, the order
in which Go iterates over a map (any order), the moment at which each goroutine
runs (any interleaving), and what applications call.

Where the code differs from what one might expect, the model follows the code:

- A request looks for a ready endpoint and joins the queue under separate locks, so
  it can wait although an endpoint is ready. `WaiterIsPassed` and `IdleWaitIsReachable`
  give the run and `IdleWaitExactly` the exact condition over whole runs.
- `setRouteLocked` panics on a choice without options. `SetRoute` says that it does so
  exactly then.
- After `allocateLocked` has failed once, its cursor is out of range and the next
  call hands that value out; the contract of `Allocate` says both.
- An application that closes with an error without a message and the code 100 ends the
  peer's reading as a normal close does; `HowReadingEnds` says exactly when that is.
- `WriteReset` loses the kind of an error, and an error without a message arrives as
  a bare code; SETTINGS are written without flags other than ACK. `Arrives` says what
  comes out, and `ReEncode` exactly when bytes are reproduced.
- `SettingsFrame.Value` always reports a setting as absent (frame.go:450-457), so
  windows keep their initial size; the model has a fixed window.

## Model

| member | source | states |
|---|---|---|
| DuplexTheorems.NeverBreaks | rawstream.go:198-294 | in every reachable state of two endpoints, no delivery raises EINVALIDSTREAM, EWINDOWOVERFLOW or EINVALIDFRAME, and no channel of a stream is ever closed twice |
| DuplexTheorems.CreditConserved | rawstream.go:268-313 | on every run, the sender's remaining window plus DATA bytes on the wire plus WINDOW increments on the wire back equal the receiver's remaining window while the sender's stream is live, and never exceed it |
| DuplexTheorems.WindowAccounted | rawstream.go:213-225 | on every run, window left, increments owed and buffered bytes add up to the local window while the read side is open; the read buffer never exceeds the window |
| DuplexTheorems.EndToEnd | rawstream.go:198-265 | on every run, bytes read plus buffered are a prefix of the bytes Write accepted, and all of them once a frame of the peer closed the read side; io.EOF only ever comes from such a frame |
| DuplexTheorems.EmissionsLawful | doc/PROTOCOL.md:138-156 | on every run, an opener's first frame is its only OPEN, at most one end of the write side is sent with no DATA after it, the read side is reset at most once, and no WINDOW is empty |
| DuplexTheorems.WriterAfterEnd | rawstream.go:345-432 | after the peer's end was seen the writer chooses no WINDOW and no RESET-READ, and after both ends nothing |
| DuplexTheorems.RunExtends | doc/PROTOCOL.md:138-156 | between any two moments of a run histories only grow, and the silence rules hold for everything sent in between |
| DuplexTheorems.NoLostWork | rawstream.go:321-467 | an endpoint that the scheduler has nothing queued for owes no OPEN, ACK, WINDOW, RESET or drained EOF, and holds bytes back only for lack of window |
| DuplexTheorems.StallsOnlyOnReader | rawstream.go:297-313 | if nothing moves and bytes are held back, the other side is open for reading and has a full window of unread bytes |
| DuplexTheorems.CleanedUp | rawstream.go:126-149 | once both sides are closed at both ends and nothing moves, neither live map holds the stream, even if data was blocked on an empty window |
| Signals.ErrorsAgree | rawstream.go:244-265 | on every run, a read side closed by the peer reports the error its writer closed with: io.EOF for ECLOSED, else that error as RESET carries it |
| Signals.AcknowledgementsAgree | rawstream.go:198-212 | on every run, a stream counts as acknowledged only if the peer acknowledged it, and an acknowledgement sent has been seen once the wire is empty |
| Signals.CtrlTruthful | rawstream.go:333-429 | every frame that ends the write side carries the write error, and ACK is sent exactly when it is owed |
| Closing.HowReadingEnds | rawstream.go:244-265 | on every run, a read side ended by the peer reports what the peer's application gave to the call that closed its write side: a normal end exactly for nil, io.EOF, 100 or an error without message and code 100; any other code or message as it is, 200 as 201 |
| Closing.HowWritingEnds | rawstream.go:247-252 | on every run, a write side that the peer closed fails with what the peer's application gave to the call that closed its read side, 100 for nil or io.EOF |
| Closing.CallOrigins | rawstream.go:739-771 | a side is closed by the first call or frame only: a call leaves the error it was given, 100 for nil or io.EOF |
| Closing.StaysUnheard | rawstream.go:323-332 | a stream that is opened and closed before anything was written or sent never sends a frame, whatever happens next |
| FrameChoice.WhatCtrlSends | rawstream.go:333-429 | which control frame comes next, with all its fields, and what it changes; nothing exactly if none is due |
| FrameChoice.WhatDataSends | rawstream.go:438-450 | a turn for data sends as much as buffer, window and frame format allow, and the end with the last bytes of a side that closed normally; nothing exactly if nothing is buffered or the window is used up |
| FrameChoice.WhatIsRefused | rawconn.go:216-322 | from any sound state, exactly what a peer must not do is refused, and with which code: 205 for DATA on a stream it may not use, 204 for more bytes than credit, 203 for an empty WINDOW |
| Frames.LawfulMeansObeys | doc/PROTOCOL.md:138-156 | the step-by-step rule that endpoints keep is equivalent to the protocol's rules stated by position |
| Settling.SystemStepShrinks | rawstream.go:321-467 | every writer step and every delivery lowers a natural-number rank |
| Settling.Settles | rawstream.go:321-467 | from any moment of any run the machinery alone takes at most rank-many steps |
| Settling.StopsWhenQuiescent | rawconn_outgoing.go:125-215 | no writer step or delivery is possible exactly when queues and wires are empty |
| EndpointProofs.CallKeeps | rawstream.go:511-652 | every application call keeps the endpoint's invariant: credit, integrity, lawful history, scheduling |
| EndpointProofs.WriterKeeps | rawstream.go:321-467 | so does every writer step, between any two points where the lock is dropped |
| EndpointProofs.ReceiveKeeps | rawconn.go:216-322 | a lawful next frame is accepted and keeps it |
| Duplex.StepKeeps | rawconn.go:216-288 | every step of either endpoint or wire, with the creation of a stream and the processing of its OPEN frame as separate steps, keeps the invariant of the pair and raises no protocol error |
| Connection.ConnRunKeeps | rawconn_outgoing.go:125-215 | on every run of a connection with any number of streams, queues, the writer and the shared wire agree with the streams |
| Connection.StreamsAreIndependent | rawconn_outgoing.go:88-215 | every stream of a connection is, at any moment, in a state that a stream on its own wires reaches, so all theorems about single streams apply |
| Connection.AlwaysDispatches | rawconn.go:216-322 | on every run, the next frame on either wire creates its stream or is accepted by it |
| Connection.NothingForgotten | rawconn_outgoing.go:88-215 | a stream is in each queue at most once, exactly when its flag says so, and when writeready is clear no stream owes a frame or has sendable bytes |
| Connection.ServedInOrder | rawconn_outgoing.go:88-215 | streams are taken in the order they were queued, those with control frames first |
| ConnectionSettling.StepShrinks | rawconn_outgoing.go:125-215 | every step of either writer or readloop that changes anything lowers a measure summed over all streams of the connection |
| ConnectionSettling.ConnectionSettles | rawconn_outgoing.go:125-215 | from any moment of any run, a connection without new streams and application calls takes at most measure-many steps |
| ConnectionSettling.StopsExactly | rawconn_outgoing.go:125-215 | it has stopped exactly when every stream is quiescent and both writers are asleep |
| RawStream.RawStream.SetReadError | rawstream.go:511-530 | updates the object exactly as the model of the runs says; the previous error is returned |
| RawStream.RawStream.SetWriteError | rawstream.go:533-551 | likewise |
| RawStream.RawStream.CloseWithError | rawstream.go:553-564 | the first close ends each side that is open with the error given, 100 for nil or io.EOF; later ones change nothing |
| RawStream.RawStream.CloseReadWithError | rawstream.go:746-754 | the same for the read side, if it is open |
| RawStream.RawStream.CloseWriteWithError | rawstream.go:763-771 | the same for the write side, if it is open |
| RawStream.RawStream.ClearWriteBuffer | rawstream.go:134-149 | drops unsent bytes and schedules a pending EOF |
| RawStream.RawStream.ProcessData | rawstream.go:198-233 | both error paths and the new state of an incoming DATA frame |
| RawStream.RawStream.ProcessReset | rawstream.go:244-265 | RESET READ fails an open write side with the frame's error and drops what is unsent; RESET WRITE ends an open read side with it, 100 as io.EOF; the state follows the model of the runs |
| RawStream.RawStream.ChangeWriteWindow | rawstream.go:268-279 | the window moves and data is scheduled when it becomes positive again |
| RawStream.RawStream.PrepareData | rawstream.go:297-313 | what is put on the wire: the front of the buffer, as much as the window and the frame format allow |
| RawStream.RawStream.OutgoingFlags | rawstream.go:491-508 | OPEN, ACK and EOF are each given out once |
| RawStream.RawStream.CtrlTurn | rawstream.go:333-429 | the frame that one turn of writeCtrl's loop chooses, and the state it leaves |
| RawStream.RawStream.SkipUnopened | rawstream.go:323-332 | a stream closed before it was opened is dropped silently |
| RawStream.RawStream.DataTurn | rawstream.go:438-450 | the frame that writeData chooses, and what it schedules next |
| RawStream.RawStream.Complete | rawstream.go:455-463 | wired bytes leave the buffer after the frame was written |
| RawStream.RawStream.Write | rawstream.go:628-652 | accepts a prefix of its argument up to the buffer's room, with the write error if that stopped it; nothing after the write side is closed |
| RawStream.RawStream.Read | rawstream.go:590-610 | returns the front of the buffer, with the read error once a closed side is drained, and owes the peer as much window while open |
| RawStream.RawStream.Acknowledge | rawstream.go:702-712 | the first call on an open write side schedules an ACK; later ones, and any after the write side is closed, change nothing |
| Pings.Causality | rawconn_pings.go:63-81 | on every run, a callback that runs with success is that of the very ping answered, also with repeated data, and the peer has processed that ping and so every frame sent before it |
| Pings.RunsOnce | rawconn_pings.go:27-81 | on every run no callback runs twice, and after fail each accepted one has run exactly once, also those of pings added when the outgoing side had failed, which are never sent |
| Pings.StepKeeps | rawconn_outgoing.go:146-173 | pings on their way through both queues, both wires and the reply stay in order and match the callbacks kept for their data |
| Pings.RawPings.AddPing | rawconn_pings.go:46-55 | the callback goes to the end of the list for its data, unless the connection has failed; the ping is scheduled unless the outgoing side has |
| Pings.RawPings.HandleAck | rawconn_pings.go:63-81 | the oldest callback for the data is taken, and the list goes when it is empty |
| Pings.RawPings.Fail | rawconn_pings.go:27-41 | all callbacks left run, each once, and nothing is kept |
| Relay.Transparent | passthru.go:21-63 | on every run, what dst accepted is a prefix of what src delivered, at least what was discarded; once the relay closes dst with src's error, dst has accepted every byte |
| Relay.SourceIsClosed | passthru.go:28-57 | when dst takes no more, the relay is over, what was accepted is what was discarded, and src is closed with dst's error |
| RelayedStreams.NothingInvented | passthru.go:21-63 | on every run of two streams with a relay between them, what the far application has read or can read is a prefix of what the near one wrote |
| RelayedStreams.NothingTruncated | passthru.go:21-63 | if the far read side was ended by its peer, every byte the near application wrote has come through, and the far error is what the near application gave to its close, carried over both streams; a normal end exactly for a normal close |
| RelayedStreams.RefusalTravelsBack | passthru.go:14-19 | if the near write side was closed by its peer, the far application has closed its read side, and the near one fails with what it gave |
| RelayedStreams.LeavesNothingOpen | passthru.go:53-62 | a relay that is over leaves neither its source open for reading nor its destination for writing |
| RelayedStreams.StepKeeps | passthru.go:21-63 | every step of either stream and of the relay keeps what is between them accounted for |
| RelayedBoth.BothWays | passthru.go:66-76 | on every run with a relay for each direction between the same two streams, both applications read a prefix of what the other wrote, a side ended by its peer has all of it, with the other side's error, and a refusal travels back |
| RelayedBoth.StepKeeps | passthru.go:66-76 | every step keeps both directions accounted for, although each relay's source is the other's destination |
| Server.Server.Publish | server_pubs.go:215-242 | finds the publication of a name and priority if there is one and changes nothing; else a new one enters the index and all caches again equal a fresh scan |
| Server.Server.Unpublish | server_pubs.go:306-323 | a publication leaves; likewise |
| Server.Server.AddRemote | server_peers.go:286-307 | a remote enters; likewise |
| Server.Server.RemoveRemote | server_peers.go:315-331 | a remote leaves; likewise |
| Server.Server.Subscribe | server_subs.go:300-380 | refused exactly without options; else the new subscription is indexed and listed wherever it matches |
| Server.Server.Unsubscribe | server_subs.go:382-410 | the subscription leaves every back-reference and name list, and nothing else changes |
| Server.Server.SetRoute | server_routes.go:59-122 | the route is set, replaced, removed or left alone as asked, its own subscriptions follow, all other subscriptions and routes stay, and the index equals a fresh scan; it panics if and only if some choice has no options |
| RegistrySteps.PublishIn | server_pubs.go:222-242 | from any index that equals a fresh scan, the one after publishing does too, with exactly this entry added |
| RegistrySteps.UnpublishIn | server_pubs.go:306-323 | the same for removing a publication |
| RegistrySteps.AddRemoteIn | server_peers.go:286-307 | the same for adding a remote |
| RegistrySteps.RemoveRemoteIn | server_peers.go:315-331 | the same for removing a remote |
| RegistrySteps.SubscribeIn | server_subs.go:305-379 | the same for a new subscription, found through the maps by name, which are part of the index |
| RegistrySteps.UnsubscribeIn | server_subs.go:382-410 | the same for ending one |
| Server.SetRouteIn | server_routes.go:59-122 | the same on values, with every case a subscription of its own; the panic is that of the loop when a subscription is refused |
| Server.BuildCases | server_routes.go:106-117 | each choice gets a case with its weight and options and routes disabled, up to the first choice whose subscription is refused, which is the first without options |
| Server.TrySubscribe | server_subs.go:300-303 | refused exactly without options, and then nothing has changed |
| Subscription.AddPublication | server_subs.go:244-257 | one subscription's options list the publication exactly where they match, sorted, with the first active option recomputed; it reports a change exactly when it wants the publication |
| Subscription.RemovePublication | server_subs.go:259-270 | the reverse |
| Subscription.AddRemote | server_subs.go:272-285 | the same for remotes, with priority and number of ties |
| Subscription.RemoveRemote | server_subs.go:287-298 | the reverse |
| Subscription.AddRoute | server_subs.go:213-227 | the same for routes, ignored when routes are disabled |
| Subscription.RemoveRoute | server_subs.go:229-242 | every option lets go of that very route |
| Subscription.LowestPriority | server_subs.go:93-107 | the priority of the first entry and exactly how many entries share it |
| Subscription.FindActive | server_subs.go:203-211 | the first active option, or past the end |
| Membership.BuildSub | server_subs.go:372-379 | sorting the lists found by name gives options that equal a scan of all registries |
| Membership.ScanPubs | server_subs.go:314-352 | going through the names asked for and the map of publications by name finds, for every option, exactly the publications it matches, and lists the subscription with exactly those it wants |
| Membership.ScanRemotes | server_subs.go:354-370 | the same through the peers' maps of remotes by name |
| Membership.LeavePubs | server_subs.go:385-399 | the back-references dropped through the cached lists are exactly those of publications it wants |
| IndexMeaning.WhatOptionsList | server_subs.go:109-181 | an option lists exactly the publications of its service unless its range starts beyond 0, and the remotes of its service within its range, each once, lowest priority first, and has the route of its service unless routes are disabled |
| IndexMeaning.WhatIsCached | server_subs.go:85-107 | the cached priorities are those of the first entries, and exactly the entries with that priority are counted |
| IndexMeaning.WhatIsActive | server_subs.go:203-211 | the active option is the first with a route, a publication or a remote |
| IndexMeaning.WhoListsPub | server_subs.go:244-257 | a publication refers back to exactly the subscriptions with an option that lists it |
| IndexMeaning.WhoListsRemote | server_subs.go:272-285 | a remote likewise |
| IndexMeaning.WhatCasesAre | server_routes.go:104-117 | a case has its choice's weight and a subscription of its own for its choice's options, with routes disabled |
| Dispatch.PlainDispatch | server_subs.go:55-70 | an active option without a route always dispatches, whatever the draw, to a candidate of minimum priority, a local one on ties |
| Dispatch.FirstWithCandidates | server_subs.go:203-211 | options before the active one have no candidate at all |
| Dispatch.BestIsDrawn | server_subs.go:62-67 | every best remote is reached by some draw |
| Dispatch.WhatIsBest | server_subs.go:55-70 | what is offered to an option and what is best, field by field: service and range, then lowest priority, a remote only if it beats all publications |
| Dispatch.PickShare | server_routes.go:47-54 | a case gets exactly weight-many of the possible draws |
| Dispatch.CaseShare | server_routes.go:35-57 | a case with an active option gets as many draws as it weighs, any other none |
| Dispatch.DrawCase | server_routes.go:47-57 | the loop over the bins ends inside the share of an active case; its panic is unreachable |
| Dispatch.RoutedDispatch | server_routes.go:35-57 | through a route, a request reaches a best candidate of the drawn case, and none exactly when no weighted case is active |
| Dispatch.CasesArePlain | server_routes.go:108-111 | the subscription of a case never has a route, so a request passes at most one |
| Dispatch.TargetRegistered | server_subs.go:55-70 | a request is only sent to what is registered at that moment |
| Dispatch.HandleRequest | server_subs.go:191-197 | computes the dispatch of the model, by the two loops of a route |
| Dispatch.Endpoints | server_subs.go:39-53 | reports exactly the targets that some draw reaches, also through a route |
| Lookup.FindEndpoint | server.go:214-251 | by the loops over the publications and each peer's remotes under the name: a route if there is one; else no candidate has lower priority or, at the same priority, a better distance tier; local is preferred; nothing exactly if there is no candidate |
| Lookup.FindRemote | server.go:234-248 | the loop over the peers, of which those out of range are skipped as a whole, ends with the best of all candidates |
| Lookup.WhatIsChosen | server.go:193-251 | field by field: an entry of the service within the range, none of lower priority, and none of the same priority closer, with 0 and 1 alike |
| Lookup.IsBetter | server.go:193-207 | better is lower priority, then lower distance with 0 and 1 alike |
| Changes.CaughtUp | server_changes.go:63-92 | with nothing pending, replaying all batches read has given exactly the current publications |
| Changes.OwesRead | server_changes.go:63-92 | a read of any part of what is pending leaves the rest pending and nothing else |
| Changes.OwesChanged | server_changes.go:55-61 | noting a change keeps pending exactly what the client does not know |
| Changes.OwesRemoved | server_changes.go:45-53 | likewise for a removal, also of what was never sent |
| Changes.ReadShortens | server_changes.go:15-92 | each read sends all removals and up to 256 changes, so a reading client catches up |
| Changes.ChangesStream.Read | server_changes.go:63-92 | end of stream, a batch that is such a read, or nothing exactly when nothing is pending |
| Changes.ChangesStream.AddRemoved | server_changes.go:45-53 | a removal cancels a pending change and is owed only if the service was sent |
| Changes.ChangesStream.AddChanged | server_changes.go:55-61 | a change cancels a pending removal |
| Node.ClientsSeeEndpoints | server_pubs.go:274-338 | on every run of a server with its index, publications and watchers joined, the index holds exactly the publications with endpoints, and a client with nothing pending has each with the largest distance an endpoint allows |
| Node.NextKeeps | server_pubs.go:215-338 | publishing and unpublishing an endpoint changes the index exactly when the publication appears or goes, and every watcher each time |
| Hub.Hub.Publish | server_pubs.go:215-284 | finds or makes the publication, adds the endpoint, wakes waiters and tells every watcher: a step of the joined server that creates a publication or adds to one; refused only by a publication that is there, and then nothing has changed |
| Hub.Hub.Unpublish | server_pubs.go:286-345 | refused exactly unless the endpoint is published; else a step that drops the endpoint and tells every watcher of a change, or ends the publication, takes it out of the index and tells every watcher of a removal |
| Hub.Hub.Open | server_changes.go:22-43 | a new watcher has exactly the current publications pending |
| Hub.Hub.Read | server_changes.go:63-92 | a batch exactly if something is pending, and a step of the joined server that gives it to the watcher's client |
| Hub.Hub.Stop | server_changes.go:95-105 | the watcher is closed and hears no more |
| Peers.MirrorsProcessed | server_peers.go:239-284 | processing a batch at distance d is replaying it and keeping what is within reach, from the current client only |
| Peers.Peer.ProcessChanges | server_peers.go:239-258 | refused unless from the current client; both maps of remotes stay in agreement |
| Peers.Peer.AddRemote | server_peers.go:260-313 | added, updated in place, replaced or dropped, as reach, name and priority demand |
| Peers.Peer.Detach | server_peers.go:163-175 | the current client takes all its remotes along, another one nothing |
| PeerIndex.ServerPeer.ProcessChanges | server_peers.go:239-331 | refused from another client or on a failed peer; a batch changes the peer's table as replication says, and for each service in it the registry has one remote of this peer, with the service's name and priority and the peer's distance, and no others of this peer; its index equals a fresh scan, and nothing else changes |
| PeerIndex.ServerPeer.Detach | server_peers.go:163-175 | losing the client takes exactly its remotes out of the index |
| PeerIndex.AddRemote | server_peers.go:260-307 | a change of reach alone leaves the index alone, a new name or priority replaces the entry, one out of reach leaves it |
| PeerDistances.ListedByDistance | server_peers.go:286-307 | an option lists a peer's service exactly if it asks for it and its range includes the peer's distance |
| PeerDistances.OthersKeep | server_peers.go:239-331 | what one peer does leaves the tables and remotes of all other peers as they were |
| PeerDistances.AllPeersAt | server_peers.go:286-294 | with all peers joined like this, every remote is as far away as its peer, as lookups by distance assume |
| Replication.Replicates | server_peers.go:239-331 | on every run of changes, reads, deliveries, reconnects and forced removals, the peer holds only services of its current client within reach, and exactly the server's, but for forced removals, once nothing is pending or under way |
| Replication.ReplicatesExactly | server_changes.go:22-92 | without forced removals the peer then holds exactly the publications within its distance |
| Replication.WorkShrinks | server_changes.go:63-92 | reads and deliveries alone come to an end |
| AllocatorTheorems.CapacityAccounted | server_pubs.go:40-85 | on every run, an endpoint's counter is its outstanding grants, at most its concurrency, and it is ready exactly below that; keys are unique; the publication's limits are exact sums without wrap-around and its reach the exact maximum |
| AllocatorTheorems.WhatMayBePublished | server_pubs.go:243-252 | an endpoint is refused exactly for a key in use or a total of 2^32 or more |
| AllocatorTheorems.WhatIsPublished | server_pubs.go:253-272 | a new endpoint is ready and without grants and adds its share; the first one brings the priority |
| AllocatorTheorems.WaitersInLine | server_pubs.go:68-141 | on every run, the queue is bounded and empty without endpoints, no channel is used after it was closed, and waiters are served in order of arrival |
| AllocatorTheorems.ResolvedOnce | server_pubs.go:87-117 | between any two moments of a run, a resolved waiter keeps its result |
| WaiterFates.WaiterFate | server_pubs.go:68-141 | on every run, a waiter's channel is given up only by its own request, served only as the first in line with an endpoint that was freed, and closed empty exactly when an endpoint is unpublished and no place is left for it |
| WaiterFates.WhatIsReceived | server_pubs.go:172-186 | a waiter has its endpoint if that is still published, tries again if it is not or the publication has none left, and is over capacity exactly if it was let go while endpoints are left |
| AllocatorTheorems.CancelledGrantReturns | server_pubs.go:99-117 | a waiter served and then cancelled gives its grant to the next waiter or back to the pool |
| AllocatorTheorems.IdleWaitIsReachable | server_pubs.go:157-163 | a run in which a request waits although an endpoint is ready, and a third request then takes that endpoint past it |
| IdleRequests.WaiterIsPassed | server_pubs.go:153-209 | such a run made of requests alone: one takes the endpoint, a second looks and finds none, the first gives it back, the second joins the queue, and a third takes the endpoint past it |
| AllocatorTheorems.IdleWaitExactly | server_pubs.go:157-163 | on any run, nobody waits for a ready endpoint outside a wake-up, if and only if no request ever joined the queue while an endpoint was ready |
| AllocatorTheorems.StepPrompt | server_pubs.go:40-141 | from a state without such a wait exactly one step leads to one: joining the queue while an endpoint is ready; publishing hands the new endpoint to just as many waiters as it has room for |
| AllocatorTheorems.WakingGoesOn | server_pubs.go:120-141 | the wake-up loop of a publish always has a waiter and a ready endpoint for its next turn, so its early exit is never taken |
| AllocatorProofs.StepKeeps | server_pubs.go:40-338 | every operation keeps the invariant of grants, queue, sums and maximum |
| Publication.Publication.TakeEndpoint | server_pubs.go:40-59 | the loop finds a ready endpoint with the fewest grants |
| Publication.Publication.ReleaseEndpoint | server_pubs.go:68-85 | hand-over to the first waiter, or back to the pool; nothing for an unpublished endpoint |
| Publication.Publication.QueueWaiter | server_pubs.go:87-97 | refused exactly when the queue is full |
| Publication.Publication.CancelWaiter | server_pubs.go:99-117 | leaves the queue, or releases what was served |
| Publication.Publication.WakeupWaiters | server_pubs.go:120-141 | wakes exactly as many waiters as asked for, or all if there are fewer, as wake-up steps of the allocator |
| Publication.WakeRunServes | server_pubs.go:120-141 | such a run serves the first waiters in order |
| Publication.Publication.Publish | server_pubs.go:244-272 | refused exactly for a key in use or if a 32-bit total would wrap; else a publish step of the allocator and then wake-ups until none is due |
| Publication.SegmentContinues | server_pubs.go:244-272 | such a call continues any run of the allocator, so the theorems about runs hold for the object |
| Publication.Publication.Take | server_pubs.go:61-66 | a request's take is a take step of the allocator, or finds nothing ready |
| Publication.Publication.Release | server_pubs.go:68-85 | a request's release is a release step of the allocator |
| Publication.Publication.Unpublish | server_pubs.go:286-335 | the endpoint's share goes and the maximum is found again; with endpoints left, as many waiters as the new queue size stay in line with their channels as they are, and the others are let go; without, all are |
| Publication.Publication.DropDistance | util.go:7-15 | the counter is decremented or removed, and the maximum is that of the distances left |
| Retry.WaiterRetryLoses | server_pubs.go:172-186 | a waiter told to retry has lost the endpoint it was sent, or every endpoint of the publication it had chosen |
| Retry.RetryLoses | server_pubs.go:165-209 | every event that makes a request retry means that a target registered when the attempt began, or since, is registered no more |
| RequestFates.RequestFate | server_pubs.go:153-213 | a request is tried again exactly when a wait was lost, its stream could not be opened or its remote not be reached, and is refused for capacity exactly when there is no place in line |
| Retry.ReturnKeeps | server_pubs.go:201-209 | a request whose stream could not be opened retries only after its endpoint was unpublished, by itself or before |
| Retry.RemovedIsGone | server_peers.go:315-331 | removing a remote leaves it unregistered in every case, because registered remotes belong to their peer's current client |
| Retry.CallFailsKeeps | server_peers.go:39-62 | a remote that could not be reached is gone when the request retries |
| Retry.StepKeeps | server.go:316-368 | every event of the server and of any request, at the head of a retry loop or within an attempt, keeps this account |
| Retry.RetriesEnd | server_client.go:40-62 | on every run of any number of requests, publications and peers, with registrations going on: retries of a request plus targets still registered are at most the targets registered when it began plus those registered since |
| Powers.MinPow2 | buffer.go:4-14 | the least power of two not below n, for every size up to 2^62 |
| RingBuffer.Buffer.Read | buffer.go:24-46 | moves the front of the contents out, for every offset and wrap, and leaves the rest of dst alone |
| RingBuffer.Buffer.ReadByte | buffer.go:49-62 | takes the first byte |
| RingBuffer.Buffer.Write | buffer.go:65-97 | appends, reallocates exactly when there is no room, and touches no live byte of the storage at hand |
| RingBuffer.Buffer.WriteByte | buffer.go:100-123 | the same for one byte |
| RingBuffer.Buffer.Peek | buffer.go:133-154 | makes the same contents contiguous, in place if there is room for twice the data |
| RingBuffer.Buffer.Discard | buffer.go:157-170 | drops up to n bytes from the front |
| RingBuffer.MoveKeeps | buffer.go:146-150 | the in-place move is right whenever twice the data fits |
| RingBuffer.MoveLoses | buffer.go:138-150 | otherwise a slice is out of bounds or some contents are lost |
| RingBuffer.PlacedExtends | buffer.go:82-94 | bytes written behind the live ones extend the contents and leave the live ones in place |
| WriteBuffer.WriteBuffer.Prepare | rawstream.go:297-313 | the payload of a DATA frame is a slice of the ring buffer's own storage and equals the front of the buffer |
| WriteBuffer.WriteBuffer.Write | rawstream.go:628-652 | while the frame is being written, the application's writes leave that slice as it was |
| WriteBuffer.WriteBuffer.Clear | rawstream.go:134-149 | so does a reset by the peer, which drops the buffer |
| WriteBuffer.WriteBuffer.Complete | rawstream.go:455-463 | what was written is what was prepared, and just that leaves the buffer |
| StreamQueue.Queue.Push | rawstream_queue.go:11-31 | appends to the queue, for every offset and wrap |
| StreamQueue.Queue.Take | rawstream_queue.go:34-46 | takes the first stream or none; no slot outside the queue keeps a reference |
| FrameCodec.RoundTrip | frame.go:181-437 | an encoded frame followed by anything decodes to what it says, and leaves what follows |
| FrameLayout.Written | frame.go:181-437 | the bytes of a frame by position: stream, length, flags and type of the header, then every field of each of the five types, most significant byte first; too long exactly beyond the limits |
| FrameLayout.WhatIsRead | frame.go:195-479 | nothing is the end, too few bytes a broken end, exactly the malformed frames are refused, and any other is read as its bytes say |
| FrameCodec.StreamRoundTrip | frame.go:195-219 | any concatenation of frames that can be written decodes frame by frame to what each says, and to a clean end |
| FrameCodec.ReEncode | frame.go:269-550 | a decoded frame is written as the same bytes, exactly unless it is SETTINGS with flags other than ACK |
| FrameCodec.HeaderInverse | frame.go:181-247 | header encoding and decoding are inverse both ways |
| FrameCodec.ParseSettings | frame.go:474-479 | the loop over the payload decodes all settings in order |
| StreamIds.Streams.Allocate | rawconn_streams.go:50-73 | terminates; from a cursor in range it gives the next free id of its side in order, going around once, or fails exactly when none is free; what happens after a failure |

## Left out

- Connection failure and Shutdown: the runs of a stream end before them; frames that arrive then are not counted by the code either (rawconn.go:251-263).
- Blocking, condition variables, deadlines and keepalive timers: a call is a step once it can run.
- SETTINGS in the stream protocol: they never change a window (frame.go:450-457); their format is in the codec.
- DATA and RESET frames for stream 0 and unknown frame types: they never reach a stream.
- RESET messages longer than a frame: the writer fails the connection.
- Reuse of stream ids after wrap-around: runs of a connection use fresh ids, since reuse rests on a timing assumption (doc/PROTOCOL.md:50).
- Flag bits: the stream's eight flags are booleans, not a bit mask.
- RawStream.RawStream.Read: the copy into the caller's slice is in RingBuffer.Buffer; the stream object holds plain byte sequences, and WriteBuffer has the ring buffer under its write side.
- PeerIndex.ServerPeer.ProcessChanges: the peer's own `remotesByName` is part of the registry there.
- Server.Server.SetRoute: the entry of a removed route goes before its cases end, and new cases are appended one by one, all under one lock; the registry after a panic is only described up to the case that failed, by Server.BuildCases.
- Subscription.AddPublication: `indexByName` is a test on the option's service; sort.Sort is an insertion sort, of which only sortedness and contents are used.
- Powers.MinPow2: sizes above 2^62, which no slice has.
- RingBuffer.Buffer.Write: contents above 2^62 bytes.
- Relay.Transparent: the waitack branch, which is never used, and acknowledgements.
- RelayedStreams.NothingTruncated: the relay alone writes to and closes its destination, its source is closed besides only by the watcher, with the destination's error, and a Close of both sides comes once the relays are through with them (server_client.go:40-62).
- Changes.ChangesStream.Read: waiting; a pass that finds nothing says so.
- Retry.RetriesEnd: a request may pick any registered target, of which dispatch picks some; HTTP handling around the loop is not modelled.
- Server.Server.Unpublish: the index part of unpublishing a last endpoint; waiters and watchers are in Publication and Hub.
- Node.NextKeeps: other registry operations are steps that keep the index and the publications; what else they do is in Server. Requests on a publication are its own steps, in Publication.
- HTTP proxying, RPC marshalling, listeners, logging and the Python implementation: plumbing, or the same protocol again.
