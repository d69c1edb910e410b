# Verification of the sysplane tunnel, registries, invocation service and agent file tools

sysplane has a center that calls tools on agents. Agents connect to the center or to a proxy by a
bidirectional stream; the center stores a call, sends a request down a stream, a proxy may relay it,
an agent runs it in a goroutine and the reply travels back into a one-slot channel. This project
models that system in Dafny and proves what holds in every interleaving of its steps.

`dafny verify dfyconfig.toml` checks everything.

## The parts

**The tool-call protocol** (`Tunnel`, `RouterTable`, `Protocol*`, `Components`). `Protocol` is a state
machine with any number of calls, proxies, agents and streams. One event is one map operation, channel
operation or stream send of one goroutine; streams are FIFO queues that may break and lose a suffix of
what is on them; dialers reconnect on new streams. Messages carry the number of the call they belong
to, which no step reads, so that "its own reply" is said without trusting request IDs. The only
hypothesis on runs is that a call starts with an ID that nothing in the system still carries; it is
discharged for every history of IDs that never repeats (`DistinctIdsAreFree`), for template calls and
single-target builtins (`InvocationCallsStartFree`), and it is shown to be needed by a run in which two
targets of one builtin share an ID (`SharedIdMixesUp`). `ProtocolInvariant` holds the invariant,
`ProtocolFrames` what a step leaves alone, and the `Protocol...Steps` files one lemma per event.
`ProtocolOutcomes` follows what a `Send` returns back to the event that decided it, `ProtocolCancelRuns` a
cancel to the goroutine it stops, and `ProtocolHangUps` says what a broken stream is still good for.
`ProtocolRoundTrip` shows that undisturbed calls do return, directly and through a proxy. `Components` has the
same operations as methods that update the router's, proxy's and agent's tables in place, and each is
proved to refine the protocol: from any protocol state that agrees with the object, the events of that
function are possible, and object and streams end as they do after these events (`ComponentRuns`).

**Registries and connection handlers** (`RegistryTable`, `NodeRegistry`, `Connections`, `ConnectionTheorems`,
`ConnectionRecovery`, `SilentNodes`, `Heartbeats`, `TunnelService`, `ConnectionRuns`). `NodeRegistry.Registry` updates shared
records in place. `Connections` interleaves any number of `Connect` handlers, a clock and the offline
checker over one registry; a proxy is the same machine without forwarded registrations and without a
persister. `TunnelService` is one `Connect` call over a `Registry`, which `ConnectionRuns` shows to be a run
of `Connections`.

**The invocation service** (`Text`, `Sorting`, `FanOut`, `Invocations`, `InvocationInvariant`,
`InvocationTheorems`, `InvocationHistory`, `InvocationService`, `InvocationRuns`, `Templates`, `Pagination`,
`NodeList`). `Invocations` interleaves creation, fan-out, cancellation, summary and audit of any number of
invocations; `InvocationService` has the same sections as methods over the service's maps, and
`InvocationRuns` shows their effect to be that of a run of `Invocations`.

**The agent's file tools** (`Search`, `FileReads`, `PathGuard`, `LimitBuffer`) and **request IDs**
(`RequestIds`).

## Where the code does not do what one would expect

- The targets of a multi-target builtin share one request ID, and then a call can return another host's
  result: `ProtocolMixup.SharedIdMixesUp`, `RequestIds.AllCallsDiffer`. The run exists for any ID
  that two concurrent calls share. Another source of shared IDs is `ExecTemplate`, which sends under the
  request ID of the HTTP request (`internal/sysplane-center/admin/service.go:788`), and that is the client's
  `X-Request-Id` header when there is one (`internal/sysplane-center/httpapi/server.go:97`).
- A failed persist of a forwarded registration unregisters by host name and can drop the record of a
  node that has connected directly since; its heartbeats do not bring the record back:
  `ConnectionTheorems.FailedPersistDropsAConnectedNode`, `ConnectionTheorems.GoneUntilRegistered`.
- A forwarded registration of a known host only refreshes it, but known means known at the lookup: a node
  that connects between lookup and registration is rerouted: `ConnectionTheorems.ForwardedRegistrationCanReroute`.
- A cancel request that comes before the goroutine has its cancel function, or for a synchronous
  invocation, has no effect: `InvocationTheorems.CancelReachesOnlyItsOwn`.
- The online-nodes metric goes stale when a record is unregistered or revived: `RegistryTable.MetricLags`.
- A refused template patch may have been written, and bad timeouts then stay: `Templates.RefusedPatchLeavesTemplateAlone`,
  `Templates.RefusedAgainLeavesTemplateAlone`, `Templates.RefusedTimeoutsStay`.
- `ReregisterAll` runs before the new stream is live, so it clears the relay table and sends nothing:
  `Components.DownstreamService.OnRegisterAck`. Recovery comes from heartbeats.
- Reading the first lines of a file reports truncation also when the file ends exactly there:
  `FileReads.TruncationIsRightUnlessFileEndsAtBound`, `FileReads.OneLineFileIsCalledTruncated`.
- An empty write to a full output buffer would set its truncation flag although nothing is lost
  (`LimitBuffer.EmptyChunkOverstates`). It does not happen: the buffers are fed by `io.Copy`
  (`internal/sysplane-agent/cmdexec/process.go:109-113`), which never writes an empty slice, and then the
  flag is right (`LimitBuffer.ChunkingDoesNotShow`).

## Model

| member | source | states |
|---|---|---|
| ProtocolTheorems.SendReturnsItsOwnReply | internal/sysplane-center/router/router.go:41-97 | in every run, a `Send` that returns a result returns what an agent of its host made for this very call; an agent error is that agent's error for this call, or the proxy's HOST_NOT_FOUND, and then no goroutine ever ran for it |
| ProtocolOutcomes.SendReturnsWhatTheHandlerEndedWith | internal/sysplane-agent/agent.go:262-283 | in every run each call asks what it was begun with; a result is what the handler of a goroutine of this call succeeded with; an agent error is TOOL_ERROR with the message a handler of this call failed with, or TOOL_NOT_FOUND, or the proxy's HOST_NOT_FOUND naming the call's host |
| ProtocolOutcomes.SendReturnsForItsReason | internal/sysplane-center/router/router.go:60-97 | in every run a call that has returned gives the timeout exactly if its deadline came, the cancel error exactly if its caller canceled, the send error exactly if its send failed, and a result or agent error exactly if it took a reply |
| ProtocolOutcomes.ExpiredSendReturnsItsContextsError | internal/sysplane-center/router/router.go:71-84 | once a waiting call's context has ended, its error is what the call returns in every continuation |
| ProtocolRoundTrip.DirectCallReturns | internal/sysplane-center/router/router.go:41-97 | from every state in which an agent's stream is up, an undisturbed call returns what its handler ends with and leaves all tables and streams as they were |
| ProtocolRoundTrip.RelayedCallReturns | internal/sysplane-proxy/tunnel/downstream.go:161-203 | the same by way of a proxy, which forgets the request |
| ProtocolRoundTrip.UnknownHostIsRefused | internal/sysplane-proxy/tunnel/downstream.go:178-196 | an undisturbed call to a host its proxy does not know returns HOST_NOT_FOUND with the host's name |
| ProtocolRoundTrip.FirstCallReturns | internal/pkg/stream/dialer.go:99-171 | from every initial state a proxy and one of its agents can connect and a call then returns what its handler ends with |
| ProtocolHangUps.HangUpIsForGood | internal/pkg/stream/dialer.go:145-161 | a dialer that hangs up leaves its stream broken for ever, with nothing new on it, and never uses it again |
| ProtocolHangUps.BrokenIsBrokenForever | internal/pkg/stream/dialer.go:156-161 | the same for a stream that breaks |
| ProtocolTheorems.KeepRun | internal/sysplane-center/router/router.go:41-137 | the protocol invariant, which relates router, streams, relay tables, agents and goroutines, is kept along every run |
| ProtocolTheorems.DistinctIdsAreFree | internal/sysplane-center/router/router.go:49-51 | if no request ID is used twice, every call of any history starts with a free ID |
| ProtocolConservation.AtMostOnePlace | internal/sysplane-center/router/router.go:126-137 | a call's request or reply is in at most one place: to be sent, on a stream, in a read loop, running, in a slot or returned |
| ProtocolConservation.OneGoroutineOneReply | internal/sysplane-agent/agent.go:256-283 | a call starts at most one goroutine; a goroutine that is not running any more has made exactly one reply, and every reply of the call on a stream is that one |
| ProtocolConservation.SlotIsAlwaysEmpty | internal/sysplane-center/router/router.go:132-136 | a reply put into a slot is put into its own call's slot and finds it empty: the default branch is unreachable |
| ProtocolConservation.ReplyFindsItsCall | internal/sysplane-center/router/router.go:126-131 | a reply that reaches the center finds its call's slot exactly while the call has not returned |
| ProtocolConservation.ReturnedCallLeavesNoTrace | internal/sysplane-center/router/router.go:49-84 | a returned call is in no table: not in `pending`, not in `pendingRequests` once its cancel has been read and unless it is stranded, not in `cancelFns` once its goroutine has finished |
| ProtocolConservation.NextAckForgets | internal/sysplane-proxy/tunnel/downstream.go:230-235 | the next accepted registration of a proxy empties its relay table, and calls of older streams never get an entry again |
| ProtocolCancel.CancelFollowsItsRequest | internal/sysplane-center/router/router.go:71-84 | a cancel comes from a call that timed out or was canceled, lies behind its request on a stream, and is at a later hop only when the request has left the first |
| ProtocolCancel.CancelIsTakenLast | internal/pkg/stream/dialer.go:157-170 | when a hop takes a cancel, the request is not behind it on that stream, and past the first hop it is not left at the first hop |
| ProtocolCancel.ProxyRoutesTheCancel | internal/sysplane-proxy/tunnel/downstream.go:207-217 | a proxy that takes the cancel of a call it has handed on, whose reply has not come back, finds the entry and routes the cancel to the call's host |
| ProtocolCancel.CancelIsSentOn | internal/sysplane-proxy/tunnel/downstream.go:217-224 | if that host is still registered, the remaining steps of the read loop append the cancel to the host's stream; `CancelGetsThrough` is the statement over interleaved runs |
| ProtocolCancel.AgentCancelsTheRightOne | internal/sysplane-agent/agent.go:239-254 | an agent that takes a cancel cancels the goroutine of that call if it is unfinished, and no goroutine of another call |
| ProtocolCancelRuns.CancelGetsThrough | internal/sysplane-center/router/router.go:71-84 | in every run in which the streams to a call's host do not break and its proxy keeps the host in its table: once the call has given up and its cancel is no longer on the way, no goroutine of the call runs uncanceled, then or at any later time |
| ProtocolCancel.DrainedIdIsFreeAgain | internal/sysplane-center/router/router.go:49-51 | an ID whose last call is over, drained and not stranded may be used again |
| ProtocolMixup.SharedIdMixesUp | internal/sysplane-center/admin/service.go:690-704 | with one ID for two hosts there is a run in which the second host's call returns the first host's answer |
| Components.Router.Ask | internal/sysplane-center/router/router.go:49-65 | storing the slot and sending, with the slot given up when the send fails, is possible in the protocol as begin, send and, on failure, return, and leaves router and stream as these events do; a failed send has returned the send error |
| Components.Router.GiveUp | internal/sysplane-center/router/router.go:71-84 | giving up refines the protocol's abort and return, whether or not the cancel could be sent, and returns the cancel error exactly if the caller canceled, else the timeout error, as the protocol does |
| Components.Router.Accept | internal/sysplane-center/router/router.go:85-96 | taking the reply refines the protocol's take and return; a tool response is returned as its result, an error response as an error with its code and message |
| Components.Router.Deliver | internal/sysplane-center/router/router.go:126-137 | a delivery refines the protocol's load and put, or the load alone when nobody waits for the ID; only the head of the stream it came on goes |
| Components.Router.DeliverFromMessage | internal/sysplane-center/router/router.go:141-152 | replies are delivered as the protocol delivers them; any other message leaves the router as it is |
| Components.DownstreamService.DeliverToolRequest | internal/sysplane-proxy/tunnel/downstream.go:178-203 | relaying refines the protocol's lookup, store, send and undo, or lookup and refusal for an unknown host: entries, the host's stream and the upstream end as after these events |
| Components.DownstreamService.DeliverCancelRequest | internal/sysplane-proxy/tunnel/downstream.go:207-224 | a cancel refines the protocol's take, route and send, or the prefix of these at which an unknown ID or host ends it |
| Components.DownstreamService.RelayReply | internal/sysplane-proxy/tunnel/downstream.go:161-171 | a reply refines the protocol's taking and sending of a reply |
| Components.DownstreamService.ReregisterAll | internal/sysplane-proxy/tunnel/downstream.go:230-258 | the relay table is emptied, and the online records are sent in order with the proxy's name in front of their path, or none when the stream is not live |
| Components.DownstreamService.OnRegisterAck | internal/sysplane-proxy/tunnel/downstream.go:230-258 | called for the ack of a stream that is not live yet, it refines the protocol's ack step and registers nothing |
| Components.ReregistrationsAppend | internal/sysplane-proxy/tunnel/downstream.go:236-258 | one more record adds its registration exactly if it is online |
| Components.Agent.Dispatch | internal/sysplane-agent/agent.go:238-255 | taking a request or a cancel refines the protocol's start or cancel step of the agent: cancel functions and contexts end as after it |
| Components.Agent.Finish | internal/sysplane-agent/agent.go:256-283 | the end of a goroutine refines the protocol's reply and cleanup; the one message sent is TOOL_NOT_FOUND for an unknown tool, TOOL_ERROR with the handler's error, or the handler's result |
| NodeRegistry.Registry.Register | internal/sysplane-center/registry/registry.go:47-58 | the record is stored under its host, all others stay, and the metric is the number of online records |
| NodeRegistry.Registry.Unregister | internal/sysplane-center/registry/registry.go:61-65 | exactly that host is removed; the metric is not set |
| NodeRegistry.Registry.UnregisterByStream | internal/sysplane-center/registry/registry.go:69-80 | exactly the records routed to the stream are removed, and each of their hosts is returned once |
| NodeRegistry.Registry.Lookup | internal/sysplane-center/registry/registry.go:83-87 | the stored record itself, or null exactly if there is none |
| NodeRegistry.Registry.OnlineCount | internal/sysplane-center/registry/registry.go:102-112 | the number of online records |
| NodeRegistry.Registry.UpdateHeartbeat | internal/sysplane-center/registry/registry.go:115-122 | a known host becomes online with a heartbeat of now, nothing else changes |
| NodeRegistry.Registry.CheckOffline | internal/sysplane-center/registry/registry.go:143-172 | exactly the stale online records go offline, each is reported once, and the metric is set |
| RegistryTable.MetricLags | internal/sysplane-center/registry/registry.go:61-80 | the metric stops being the number of online records exactly when an online record is taken away or an offline one revived |
| ConnectionTheorems.EveryRecordIsOwned | internal/sysplane-center/tunnel_svc.go:115-146 | in every run every record lies under its own host, its stream belongs to a handler that has not finished, and it repeats a registration received on that stream |
| ConnectionTheorems.ExitRemovesExactlyItsOwn | internal/sysplane-center/tunnel_svc.go:129-135 | however a handler ends, exactly the records routed to its stream disappear and the others are unchanged |
| ConnectionTheorems.EndedHandlerIsOver | internal/sysplane-center/tunnel_svc.go:117-151 | in every run an ended handler takes no further step, and no record is ever routed to its stream again |
| ConnectionTheorems.RecordStaysPut | internal/sysplane-center/tunnel_svc.go:179-242 | a record keeps host, path, registration time and route in every run in which its own handler stays, nobody registers its host and no persist of its host fails |
| ConnectionTheorems.GoneUntilRegistered | internal/sysplane-center/registry/registry.go:115-122 | without a registration of its host no step brings a missing record back |
| ConnectionTheorems.ForwardedKnownHostOnlyRefreshes | internal/sysplane-center/tunnel_svc.go:179-198 | a forwarded registration that finds its host known enrolls nothing before the next one is received |
| ConnectionTheorems.FailedPersistDropsAConnectedNode | internal/sysplane-center/tunnel_svc.go:216-237 | a run in which the record of a connected node is removed by another handler's failed persist |
| ConnectionTheorems.ForwardedRegistrationCanReroute | internal/sysplane-center/tunnel_svc.go:183-211 | a run in which a forwarded registration takes over a node that connected after the lookup |
| Connections.StepOnRecord | internal/sysplane-center/tunnel_svc.go:115-146 | a record disappears exactly when its own handler ends or a failed persist names its host, and is rerouted only by a registration of its host |
| ConnectionRecovery.RelayTellsTheNodesPath | internal/sysplane-proxy/tunnel/downstream.go:137-160 | in every run of a proxy a heartbeat is relayed exactly if the proxy has a record of the node, and names the node, with the proxy's name in front of the path it registered on the stream that serves it |
| ConnectionRecovery.Recovery | internal/sysplane-center/tunnel_svc.go:179-216 | in a run of any length, once a relayed heartbeat of each node has come in on the proxy's stream, the center has a record of each, routed to that stream with the relayed path |
| ConnectionRecovery.RecoveryThroughProxy | internal/sysplane-proxy/tunnel/downstream.go:137-160 | proxy and center together: if what comes in is what the proxy relays in any run of its own, the center reaches every agent over the proxy's stream on the proxy's name followed by the path the agent registered |
| ConnectionRecovery.OnlineSinceHeartbeat | internal/sysplane-center/registry/registry.go:115-122 | a node is online from its relayed heartbeat on as long as every check comes at most one timeout after that heartbeat |
| ConnectionRecovery.RecoveredNodeIsOnline | internal/sysplane-center/tunnel_svc.go:183-211 | the same for each host by itself in the course of a recovery |
| ConnectionRecovery.FurtherHeartbeat | internal/sysplane-center/tunnel_svc.go:183-198 | a further relayed heartbeat keeps registration time, route and path and sets the heartbeat to now |
| Heartbeats.BeatRefreshes | internal/sysplane-center/tunnel_svc.go:155-156 | a heartbeat makes the record of its stream's host online with a heartbeat of now and changes nothing else |
| Heartbeats.BeatingNodeIsOnline | internal/sysplane-center/registry/registry.go:115-122 | in every run, a connected node that owns its record and has beaten at most one timeout before every check is online, with a heartbeat no older than its last |
| Heartbeats.SilentNodeGoesOffline | internal/sysplane-center/registry/registry.go:143-172 | in every run, a node not heard of for longer than the timeout is offline after the next check, with a callback exactly if it was online; after a shorter silence the check changes nothing |
| Heartbeats.RegistrationTimeIsItsArrival | internal/sysplane-center/tunnel_svc.go:77-115 | a registration is entered with the time it came in, however long persisting takes, and keeps it while the record stays put |
| Heartbeats.ForwardedRegistrationTime | internal/sysplane-center/tunnel_svc.go:199-211 | a forwarded registration of an unknown host is entered with the time at which the clock was read for it |
| SilentNodes.SilenceIsBounded | internal/sysplane-center/registry/registry.go:143-154 | if checks come at most P apart and registrations take at most D, no online record is older than max(timeout, D) + P |
| SilentNodes.OfflineMeansOld | internal/sysplane-center/registry/registry.go:147-152 | a record goes offline exactly at a check at which it is older than the timeout |
| SilentNodes.CallbacksAreSeparated | internal/sysplane-center/registry/registry.go:163-171 | between two offline callbacks for a host there is a heartbeat or a registration of it |
| TunnelService.Service.Connect | internal/sysplane-center/tunnel_svc.go:53-246 | the registry after a connection nobody interferes with is the old one without its own host, but for the heartbeats it passed on; a rejected one changes nothing |
| TunnelService.Service.Forwarded | internal/sysplane-center/tunnel_svc.go:179-238 | a forwarded registration never touches a record that was there before, but for its heartbeat |
| TunnelService.Service.ReadLoop | internal/sysplane-center/tunnel_svc.go:148-240 | the registry after the read loop is the one its messages come to, and the own record is online with the time of the last heartbeat |
| TunnelService.KnownHostIsRefreshed | internal/sysplane-center/tunnel_svc.go:155-198 | a known host keeps its place and is online with the time of the last message that names it |
| TunnelService.UnknownHostIsEntered | internal/sysplane-center/tunnel_svc.go:199-238 | an unknown host gets place and registration time from the first forwarded registration that can be persisted and its heartbeat from the last message that names it |
| TunnelService.UnknownUntilPersisted | internal/sysplane-center/tunnel_svc.go:211-238 | an unknown host is entered exactly if some registration forwarded for it can be persisted |
| ConnectionRuns.HeardIsPlayed | internal/sysplane-center/tunnel_svc.go:148-240 | handling a message is a run of the handler's steps in `Connections` |
| ConnectionRuns.ConnectIsPlayed | internal/sysplane-center/tunnel_svc.go:53-246 | a whole connection, rejected, not acknowledged or read to its end, is a run of one handler's steps from every state |
| InvocationTheorems.StatusMoves | internal/sysplane-center/admin/service.go:616-659 | a status moves only from pending to running to one terminal value, and a step leaves a terminal invocation and its results alone |
| InvocationTheorems.TerminalIsFinal | internal/sysplane-center/admin/service.go:616-659 | a terminal invocation and its results never change again in any run |
| InvocationTheorems.MapsAgree | internal/sysplane-center/admin/service.go:302-305 | invocations and results have the same keys; an invocation's audit event is its own, accepted until the invocation is terminal and then with the same outcome and finish time |
| InvocationTheorems.FinishedAuditHasOutcome | internal/sysplane-center/admin/service.go:904-915 | after `finishAudit` the event has the invocation's status and finish time |
| InvocationTheorems.CancelFunctionsAreLive | internal/sysplane-center/admin/service.go:307-312 | cancel functions exist only for asynchronous invocations whose execution has not returned, each for its own |
| InvocationTheorems.ResultsAreOnePerTarget | internal/sysplane-center/admin/service.go:625-655 | a terminal invocation has exactly one result per target, strictly ascending by node; any other has none |
| InvocationTheorems.SynchronousCreateReturnsTheOutcome | internal/sysplane-center/admin/service.go:314-317 | a synchronous create returns a terminal invocation and the results stored for it |
| InvocationTheorems.CompletionOrderDoesNotMatter | internal/sysplane-center/admin/service.go:625-659 | executions whose targets end the same way store the same results and status in whatever order the targets finish |
| InvocationTheorems.CanceledBeforeSummaryEndsCanceled | internal/sysplane-center/admin/service.go:642-644 | an execution whose context is aborted before the summary ends canceled in every continuation |
| InvocationTheorems.CancelReachesOnlyItsOwn | internal/sysplane-center/admin/service.go:370-384 | a cancel reaches a context exactly if the invocation is asynchronous and armed and has not returned, and reaches no other |
| InvocationHistory.StoredIsWhatHappened | internal/sysplane-center/admin/service.go:616-659 | in every run, a stored invocation has the targets it was created with, exactly the results its targets completed with, the times of its start and of its summary, and the status that says how the results are |
| InvocationHistory.CancelRequestCancels | internal/sysplane-center/admin/service.go:370-384 | a cancel request for a finished invocation changes nothing; one that fires while the invocation is asynchronous, armed and not summed up ends it canceled in every continuation |
| InvocationHistory.CancelFiresOnce | internal/sysplane-center/admin/service.go:370-384 | no more cancels fire than were requested |
| InvocationHistory.CallerWhoLeaves | internal/sysplane-center/admin/service.go:642-644 | a synchronous invocation whose caller cancels before the summary ends canceled; one whose caller's deadline passes first gets the status its results have |
| InvocationRuns.InvocationIsPlayed | internal/sysplane-center/admin/service.go:278-318 | from every state a new invocation, synchronous or asynchronous, canceled or not, can be run to its end, with the tables `ExecuteInvocation` leaves |
| FanOut.StoredResultsIgnoreOrder | internal/sysplane-center/admin/service.go:642 | sorting by node makes every completion order the same list |
| FanOut.VerdictIgnoresOrder | internal/sysplane-center/admin/service.go:1237-1261 | the final status depends only on the results as a multiset and on the context |
| FanOut.SummarizeInvocationStatus | internal/sysplane-center/admin/service.go:1237-1261 | succeeded exactly if not canceled and there are results and all succeeded; canceled exactly if the context or all results are; partial exactly if not canceled and some but not all succeeded; failed otherwise |
| FanOut.VerdictSaysHow | internal/sysplane-center/admin/service.go:1237-1261 | that description leaves one status for any results |
| FanOut.TargetsAreTheNames | internal/sysplane-center/admin/service.go:1448-1463 | the targets are exactly the names without the white space at their ends, blanks left out, each once |
| FanOut.TargetsInOrderOfMention | internal/sysplane-center/admin/service.go:1448-1463 | of two targets the one mentioned first stands first |
| FanOut.Dedupe | internal/sysplane-center/admin/service.go:1448-1463 | the loop with its seen-set keeps exactly these names, each at its first mention |
| Sorting.AscendingIsUnique | internal/sysplane-center/admin/service.go:642 | there is only one strictly ascending order of given elements |
| Text.TrimmedIsTheMiddle | internal/sysplane-center/admin/service.go:1452 | trimming takes white space away from both ends until none is left there, and nothing else |
| Text.TrimmedIsUnique | internal/sysplane-center/admin/service.go:1452 | that leaves only one string |
| Text.TightIsLeftAlone | internal/sysplane-center/admin/service.go:1452 | exactly the names without white space at their ends are left as they are |
| InvocationService.Service.CreateInvocation | internal/sysplane-center/admin/service.go:278-318 | a synchronous invocation from names to stored outcome: targets, sorted results, status, times and audit event |
| InvocationService.Service.ExecuteInvocation | internal/sysplane-center/admin/service.go:616-659 | running, results in any order, terminal status, audit, cancel function removed |
| InvocationService.Service.RunTargets | internal/sysplane-center/admin/service.go:625-642 | targets taken in any order give the sorted results |
| Templates.Template.Update | internal/sysplane-center/admin/service.go:466-498 | the fields as they are after each check, and the answer |
| Templates.WhatAPatchWrites | internal/sysplane-center/admin/service.go:466-498 | field by field what an accepted and what a refused patch writes |
| Templates.AcceptedMeansValid | internal/sysplane-center/admin/service.go:472-497 | accepted exactly if risk level and schema are good and the resulting timeouts valid |
| Templates.RefusedPatchLeavesTemplateAlone | internal/sysplane-center/admin/service.go:466-498 | a template with valid timeouts survives a refused patch unchanged exactly if the patch names a bad risk level and no new description, or a bad schema and no new description, risk level or target systems |
| Templates.RefusedAgainLeavesTemplateAlone | internal/sysplane-center/admin/service.go:466-498 | a template whose timeouts are bad survives a patch refused for them unchanged exactly if the patch names nothing new |
| Templates.RefusedTimeoutsStay | internal/sysplane-center/admin/service.go:495-497 | valid timeouts survive exactly if the patch is not refused for its timeouts; otherwise later patches are refused until repaired |
| Pagination.Paginate | internal/sysplane-center/httpapi/server.go:647-667 | the page behind the first item named by the cursor, and the next cursor |
| Pagination.PageIsFull | internal/sysplane-center/httpapi/server.go:647-667 | a page starts behind the first item the cursor names, is as long as limit and list allow, and names its last item exactly if the list goes on |
| Pagination.FirstPageAndLostCursor | internal/sysplane-center/httpapi/server.go:647-667 | the first page starts at the beginning, and behind a cursor no item has there is nothing |
| Pagination.WalkIsTheList | internal/sysplane-center/admin/service.go:1329-1349 | on a fixed list with different non-empty names the walk ends and its pages are the list |
| Pagination.NamesMustDifferAndNotBeEmpty | internal/sysplane-center/admin/service.go:1329-1349 | with equal names the walk can stay on one page for ever, with an empty one it can end early |
| Pagination.NormalizeLimit | internal/sysplane-center/admin/service.go:1351-1359 | a limit from 1 to 200 stays, none or a negative one becomes 50, and a larger one 200 |
| NodeList.ListNodes | internal/sysplane-center/httpapi/server.go:139-155 | the loop with its filters gives the page of the ascending list of exactly the agents that pass them |
| NodeList.EveryStandingNodeOnce | internal/sysplane-center/httpapi/server.go:139-155 | walking with nodes coming and going returns a node listed at every request exactly once and no node twice, if each cursor node is still listed |
| Search.SearchFileContent | internal/sysplane-agent/fileops/search.go:108-162 | the lines shown are exactly those in the windows of the first MaxMatches matches, in increasing order, each with its label; the count rule |
| Search.OutputIsUnique | internal/sysplane-agent/fileops/search.go:108-162 | that description leaves only one output |
| Search.BeforeLinesAreNoMatches | internal/sysplane-agent/fileops/search.go:132-162 | a line labelled before is no match, and a line is labelled after exactly if an earlier shown match's window reaches it |
| Search.NewLineIsLast | internal/sysplane-agent/fileops/search.go:133-143 | a line of a window that is not shown yet lies behind everything shown |
| Search.WindowIsAround | internal/sysplane-agent/fileops/search.go:132-162 | the window of a match is the match and the wanted lines around it, clipped to the file |
| Search.OutputIsLinesOfTheFile | internal/sysplane-agent/fileops/search.go:132-162 | the output is lines of the file in its order, as they are, numbered from one or with zeros |
| Search.InvertedSearch | internal/sysplane-agent/fileops/search.go:118-125 | an inverted search is the search for the lines that do not match |
| Search.FirstMatchesAreTaken | internal/sysplane-agent/fileops/search.go:126-132 | as many matches are shown as the limit allows, none if only the count is wanted |
| Search.CountTellsWhatIsMissing | internal/sysplane-agent/fileops/search.go:126-132 | the count is the number of matches, or one more than are shown if some are not |
| FileReads.ReadTail | internal/sysplane-agent/fileops/readfile.go:136-169 | the ring returns the last min(n, total) lines in order, truncated exactly if there were more |
| FileReads.OldestFirst | internal/sysplane-agent/fileops/readfile.go:156-161 | the place of each kept line in the ring at every residue of the total |
| FileReads.ReadLines | internal/sysplane-agent/fileops/readfile.go:96-117 | the whole file, or its first lines exactly if it has at least as many as the smallest positive bound; truncated exactly in that case |
| FileReads.TruncationIsRightUnlessFileEndsAtBound | internal/sysplane-agent/fileops/readfile.go:109-116 | the flag tells whether lines are missing exactly unless there is a bound and the file has as many lines as it |
| FileReads.OneLineFileIsCalledTruncated | internal/sysplane-agent/fileops/readfile.go:109-112 | the first line of a file of one line is called truncated |
| FileReads.JoinLines | internal/sysplane-agent/fileops/readfile.go:175-191 | the lines separated by newlines |
| FileReads.SplitOfJoin | internal/sysplane-agent/fileops/readfile.go:175-191 | splitting what was joined gives the lines back, except that no lines look like one empty line |
| FileReads.ReadRange | internal/sysplane-agent/fileops/readfile.go:193-228 | the bytes of the range clipped to the file, never past its size; truncated exactly if the file goes on |
| FileReads.ReadAllRanges | internal/sysplane-agent/fileops/readfile.go:193-228 | reading on while truncated ends after the right number of reads and gives the file |
| PathGuard.PrefixTest | internal/sysplane-agent/fileops/guard.go:48-57 | a string prefix of paths with separators is a prefix of their components, root included |
| PathGuard.RenderedPath | internal/sysplane-agent/fileops/guard.go:48-57 | paths are absolute, end with a separator only at the root, and say which components they have |
| PathGuard.Guard.constructor | internal/sysplane-agent/fileops/guard.go:19-35 | every path is stored with a separator at its end |
| PathGuard.Guard.Check | internal/sysplane-agent/fileops/guard.go:38-70 | refused exactly if a blocked path is, component by component, a prefix of it, or there are allowed paths and none is |
| LimitBuffer.Buffer.Write | internal/sysplane-agent/cmdexec/process.go:153-169 | the buffer keeps the first bytes of all writes; the exact condition for the truncation flag |
| LimitBuffer.Collect | internal/sysplane-agent/cmdexec/process.go:147-169 | the same for any sequence of writes to a new buffer |
| LimitBuffer.ChunkingDoesNotShow | internal/sysplane-agent/cmdexec/process.go:147-169 | with non-empty writes, the first min(limit, total) bytes, truncated exactly if there is a limit and there were more; without a positive limit nothing |
| LimitBuffer.EmptyChunkOverstates | internal/sysplane-agent/cmdexec/process.go:153-169 | an empty write to a buffer that is exactly full makes it report truncation although nothing is missing |
| RequestIds.CountersTellIdsApart | internal/pkg/stream/dialer.go:22-24 | generated IDs with different counters differ, whatever their prefixes and clock readings |
| RequestIds.GeneratedIdsAreDifferent | internal/pkg/stream/dialer.go:19-24 | all generated IDs differ until the counter has come round |
| RequestIds.GenerateAll | internal/pkg/stream/dialer.go:19-24 | consecutive calls return those IDs |
| RequestIds.CallIdDecodes | internal/sysplane-center/admin/service.go:721 | kind, invocation and node can be read off a call's ID |
| RequestIds.CallIdsAreDifferent | internal/sysplane-center/admin/service.go:690-721 | the IDs of calls differ exactly if the calls are not two targets of one builtin or the same call |
| RequestIds.AllCallsDiffer | internal/sysplane-center/admin/service.go:625-640 | of invocations with consecutive counters all calls differ exactly if each is of a template or has one target |
| RequestIds.InvocationCallsStartFree | internal/sysplane-center/admin/service.go:661-721 | every history of calls of templates and single-target builtins, with IDs drawn from consecutive counters and targets as they are deduplicated, is a run of the protocol |
| RequestIds.MultiIdsDiffer | internal/sysplane-center/router/router.go:108-121 | two calls of one `SendMulti` share an ID exactly if they are for the same host |
| RequestIds.SendMulti | internal/sysplane-center/router/router.go:108-121 | whatever order the calls end in and whatever they give, each result is at the index of its record, under its host |

## Left out

- The registry inside the protocol: a call's route may be any stream that serves its host, and a proxy's routing table may change to any other valid table at any step; `ConnectionTheorems.EveryRecordIsOwned` shows that a record's stream is one on which its host was registered.
- Registrations, heartbeats and their acks on the protocol's streams: they are events of `Connections`, not messages in the queues.
- More than one proxy between center and agent: a proxy's read loop ignores registrations from below.
- A send that fails on a stream that is not broken, and flow control: a send fails only on a broken stream, and what is sent on a broken stream without an error is lost.
- Components.Router.Ask, Components.Router.GiveUp and Components.Router.Accept are the parts of `Send` between its waits, run without interruption; what other goroutines do in between is in `Protocol`.
- ProtocolCancelRuns.CancelGetsThrough: nothing makes a read loop take what is on its stream; the theorem speaks of the time when the cancel is on its way no longer.
- ProtocolCancel.CancelIsTakenLast: with two agents of one host name the request may still lie on the other agent's stream; on a way that stays open it cannot, by `ProtocolCancelRuns.CancelGetsThrough`.
- TunnelService.Service.Connect: one connection without interference; any number of interleaved handlers is `Connections`.
- InvocationService.Service.CreateInvocation: the synchronous path without interference; asynchronous creation, cancellation and interleaving are `Invocations`.
- SilentNodes.SilenceIsBounded: the 15 second period of the checker and the configured timeout are parameters; the clock is monotone.
- ConnectionRecovery.Recovery: the loss of the center's records is a start state in which whatever is known of the wanted hosts came over the proxy's stream; messages that concern other hosts may come in between. `RecoveryThroughProxy` joins a run of the proxy and a run of the center by what is forwarded, not by one queue.
- The dialer's backoff, and its immediate retry when a registration is rejected: the protocol lets a dialer reconnect at any time.
- Forwarding between centers, the PostgreSQL store and the call log: foreign calls; a persist may fail at any time and a result from another center does not pass through the router.
- The text of TOOL_NOT_FOUND, which quotes the tool's name: the protocol's event carries it.
- How a target's outcome comes about: argument marshalling, template rendering, error classification and output checks are an arbitrary result per target.
- Action names, risk levels, tokens, parameter schemas and timeouts of invocations: single checks before a plan exists.
- Templates.Template.Update: the admin check, the lookup, the audit event and the check of a schema itself are not modelled; a schema is accepted or not by a parameter.
- Creating, resolving and listing templates, and listings sorted by creation time, whose order is not determined for equal times.
- FanOut.Dedupe and Text.TrimmedIsTheMiddle work on characters; invalid UTF-8 does not occur.
- NodeList.ListNodes: the name of a node stands for its whole record, which is copied before it is filtered.
- Search.SearchFileContent: the lines and the match predicate are inputs; file access, regular expressions and cancellation of the search are not modelled.
- FileReads.ReadTail, FileReads.ReadLines and FileReads.ReadRange: the file is given as lines or bytes; binary detection, the size limit, symbolic links and JSON encoding are not modelled.
- PathGuard.Guard.Check: paths come cleaned, absolute and with symbolic links resolved.
- LimitBuffer.Buffer.Write: the process, its streams and their concurrency are not modelled.
- Data races on record and invocation fields that Go reads without the lock: each read is one atomic step.
