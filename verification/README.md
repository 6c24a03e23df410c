# Protocol and algorithm models for pi

A Dafny model of the state machines and algorithms at the core of the pi packages, with proofs about all their runs.

| part | files | models |
|---|---|---|
| session router | `SessionRouterSpec`, `SessionRouterProof`, `SessionRouterTheorems`, `SessionRouterHistory`, `SessionRouterCalls`, `SessionRouterRemovals`, `SessionRouterOpens`, `SessionRouterDraining`, `SessionRouterShutdown`, `SessionRouterReleases`, `SessionRouterNotices`, `SessionRouterLeases`, `SessionRouterProgress`, `SessionRouterAttaching`, `SessionRouter` | clients, hosted sessions, attachments and leases of the server |
| subscriptions | `SubscriptionSpec`, `SubscriptionProof`, `SubscriptionTheorems`, `SubscriptionHistory`, `SubscriptionEndings`, `SubscriptionElsewhere`, `Subscription` | gated publishing on the server, hydration and delivery on the client, over a FIFO channel |
| requests | `RpcSpec`, `RpcProof`, `RpcTheorems`, `RpcOutcomes`, `RpcCancellation`, `RpcEndings`, `Rpc` | requests and responses over successive connections |
| connections | `ClientConnection`, `ServerConnection`, `ServerConnectionHistory` | the life of a connection at either end |
| agent | `AgentSpec`, `AgentTheorems`, `Agent` | the agent loop, its queues and its transcript |
| catalogs | `CatalogSpec`, `CatalogProof`, `CatalogTheorems`, `CatalogHistory`, `Catalog` | refreshing model catalogs |
| frames | `Framing`, `FramingInverse`, `FrameDecoder` | length-prefixed frames |
| search | `SearchSpec`, `SearchMeaning`, `SearchIndex` | the transcript search index |
| formulas | `LatexLayout`, `LatexGeometry`, `LatexParser` | two-dimensional layout |
| proxy | `ProxyStream`, `ProxyHistory` | a proxied reply |
| shared | `Wrappers`, `Sequences` | options and results; when an element may overtake a sequence |

The concurrent parts come in two forms. A `…Spec` module gives the state and, for each stretch of code between two awaits,
what it makes of the state; whatever the environment decides (that a promise settles, a handle terminates, a message
arrives) is an event of its own, and any enabled event may come next. The theorems are about every state that some sequence
of events reaches. A class then has the fields of the program's object and a method for each stretch of code, whose contract
says that it takes exactly that step and keeps the invariant. Objects with identity that the program keeps in maps and sets
(attachments, handles, publications, handlers) are entries of tables, named by their position; a new one is appended, so no
identity is used twice.

Besides what every run keeps, the theorems say what a run must bring about. The `…History`, `…Outcomes`, `…Leases`,
`…Notices`, `…Progress` and `…Attaching` modules read off the events of a run why its state is what it is: a call is
delivered if and only if it was admissible when its turn came, a promise resolves with a value only if the handler of its
own request returned it, a subscription fails only if somebody ended it and otherwise delivers everything, a refresh is
current exactly as long as nothing supersedes it, a connection is ready exactly from its hello on until something ends it.

The agent is one class. What callbacks, tools, streams and listeners decide is chosen freely inside its methods, and between
any two steps other code may queue messages, change a queue's mode or abort. A ghost log records what a run emits, drains and
executes; an automaton says which entry may come next, the methods are proved to keep to it, and the theorems say what any
log it accepts looks like. The loop is given a number of turns it may take at most, so everything is proved of every run up
to any point, and the closing statements of runs that come to their end.

The frame decoder, the search index, the box layout, the parser's numbering and the proxy reader are imperative programs
proved against functions that say what they compute: an automaton over single bytes, a search with one span per character
and no cursor or cache, the rows and columns of a joined box, the lines of the whole text.

Some promises do not hold in general, and the model says exactly where they end.

- Hosting a session keeps every live handle hosted exactly when no live handle is hosted under the resolved id
  (`HostingLosesNothingIff`; `AliasingLosesAHandle` is a run that loses one).
- A lease is released under a call exactly when a call is admitted while `release` is under way, or `release` is called with
  calls out that were admitted after the release took stock of them (`ReleasedUnderACallIff`). A release that the client's
  own queue begins is safe; one begun by a removal or a termination need not be (`RemovalReleasesUnderACall`,
  `TerminationReleasesUnderACall`). Once the router is closing no call is admitted at all (`ClosingAdmitsNothing`).
- A client's attachment that nobody has begun to release outlives the hosting of its session exactly when a removal of its
  handle has been carried out, as long as ids resolve to themselves (`AttachedIsHostedIff`). It is enough to attach after the removal has listed whom to release,
  long before it calls `close` (`AttachingDuringReleasesOutlivesTheSession`). Shutdown releases the leases of sessions that
  are hosted (`HostedLeaseIsReleased`) and does not find such a one (`ShutdownLeavesALease`); a disconnect of its client
  releases it (`ClientThatLeftIsReleased`), and closing the server disconnects every client first
  (`packages/server/src/server.ts:496-497`).
- A client knows which attachment it has, unless it was released without a word, to disconnect or to switch
  (`ClientsAreTold`). If the new lease of a switch is refused after the old one was released, a connected client goes on
  believing in the old attachment (`FailedSwitchIsNotTold`).
- A run in which updates are also published through the callbacks of other requests keeps the subscriber's promise, a prefix
  of what was published and nothing lost while intact, exactly when each of them finds the subscription lost already, or
  answered and holding back nothing but the same update (`AlwaysPromisedIff`, `ElsewhereOvertakes`).
- Messages are executed in the order in which they came exactly as long as none arrives between the moment the connection
  is ready and the moment the messages deferred by the handshake are dispatched (`StepKeepsOrderIff`, `LateMessageOvertakes`).
- A formula is drawn without markers exactly when no operator or matrix in it holds one (`NoMarkIsDrawnIff`).
- The loop's context is the transcript exactly as long as no stream starts twice (`StreamAssistantResponse`).

Run `dafny verify dfyconfig.toml` to check everything.

## Model

| member | source | states |
|---|---|---|
| `SessionRouterTheorems.LeaseReleasedAtMostOnce` | packages/server/src/session-router.ts:234-260 | in every interleaving of attaching, switching, detaching, disconnecting, removal, termination and shutdown, also while an acquire is in flight: a lease is released at most once, and one that was acquired stays in its session's set until its release has been called |
| `SessionRouterTheorems.MappedAttachmentHoldsLease` | packages/server/src/session-router.ts:160-197 | every entry of the client map is that client's, holds a lease and is in its session's set |
| `SessionRouterTheorems.NoLeaseIsLost` | packages/server/src/session-router.ts:182-191 | until shutdown is complete, a lease nobody has begun to release is the client's current one or still awaited by the operation that asked for it |
| `SessionRouterShutdown.UnreleasedLeaseIsAttended` | packages/server/src/session-router.ts:166-195 | until shutdown is complete, an attachment whose lease has not been released yet, whoever has begun to release it, is its client's current one or has an operation of the client waiting for it |
| `SessionRouterTheorems.QueuedReleaseWaitsForCalls` | packages/server/src/session-router.ts:216-241 | a release started from the client's own queue calls `release` only after every call admitted on the attachment has settled, and no call is admitted after that |
| `SessionRouterCalls.ReleasedUnderACallIff` | packages/server/src/session-router.ts:216-252 | a step brings a released lease and a call on it together if and only if it admits a call to the current attachment while that one's lease is being released, or calls `release` while calls admitted since the release began are out; never for a release begun by the client's own queue |
| `SessionRouterCalls.EndsUnderACall` | packages/server/src/session-router.ts:216-252 | and a run has a lease released under a call only if one of those steps was taken in it |
| `SessionRouterCalls.CallsReachTheirTarget` | packages/server/src/session-router.ts:199-232 | over the whole run a call is delivered only to the attachment it is addressed to: named by id and by the session its handle serves, the caller's own, and holding a lease |
| `SessionRouterTheorems.ClientOperationsNeverOverlap` | packages/server/src/session-router.ts:146-158 | operations of one client run one after the other |
| `SessionRouterTheorems.OneLiveHandlePerSession` | packages/server/src/session-router.ts:262-311 | if `resolveSession` answers with the id it was asked for, every handle ever opened is hosted, closed or terminated, so no id has two live handles |
| `SessionRouterOpens.AcquiresShareOneOpen` | packages/server/src/session-router.ts:262-274 | concurrent acquires share one open: whatever ids are resolved, no session has two opens in flight |
| `SessionRouterTheorems.OpeningIsNotHosted` | packages/server/src/session-router.ts:262-274 | under the same condition as above, a session being opened is not hosted |
| `SessionRouterOpens.ShutdownAwaitsOpens` | packages/server/src/session-router.ts:109-114 | shutdown waits for every open, whatever ids are resolved |
| `SessionRouterTheorems.ShutdownLeavesNothingOpen` | packages/server/src/session-router.ts:108-144 | after shutdown no handle is live and none is being opened |
| `SessionRouterTheorems.HostingLosesNothingIff` | packages/server/src/session-router.ts:276-300 | hosting an opened handle keeps every live handle hosted if and only if the router is closing or no live handle is hosted under the id that was resolved |
| `SessionRouterTheorems.AliasingLosesAHandle` | packages/server/src/session-router.ts:276-292 | a run in which two ids resolve to one and a live handle is lost |
| `SessionRouterTheorems.RemovalReleasesUnderACall` | packages/server/src/session-router.ts:72-89 | a run in which a call is admitted to a lease that `removeSession` has released |
| `SessionRouterCalls.TerminationReleasesUnderACall` | packages/server/src/session-router.ts:302-311 | and one without any removal, in which the lease of a terminated session is released under a call |
| `SessionRouterRemovals.AttachedIsHostedIff` | packages/server/src/session-router.ts:86-88 | if ids resolve to themselves, a client's current attachment that nobody has begun to release is of a hosted session if and only if no removal of its handle has been carried out; and a removed handle has been closed |
| `SessionRouterTheorems.AttachingDuringRemovalOutlivesTheSession` | packages/server/src/session-router.ts:82-86 | a run in which a client attaches while a removal awaits `close` and keeps an attachment of a session no longer hosted |
| `SessionRouterRemovals.AttachingDuringReleasesOutlivesTheSession` | packages/server/src/session-router.ts:72-86 | and one in which it attaches while the removal still awaits the releases |
| `SessionRouterShutdown.ShutdownAwaitsOperations` | packages/server/src/session-router.ts:108-114 | shutdown waits for every operation that any client queued before it was requested |
| `SessionRouterShutdown.AttachesAreOver` | packages/server/src/session-router.ts:108-125 | after that wait every attach is over, and an attachment not released yet is its client's current one or the client is already leaving it |
| `SessionRouterReleases.LeavingLeavesNothing` | packages/server/src/session-router.ts:65-101 | over every run, until shutdown is complete: once a detach or a disconnect that no attach of the client follows is over, every lease the client was ever given has been released and it is attached to nothing |
| `SessionRouterReleases.ClientThatLeftIsReleased` | packages/server/src/session-router.ts:65-131 | if such a detach or disconnect was queued before `close`, every lease of the client has been released when shutdown goes on from the queues and ever after, whether or not its session is hosted |
| `SessionRouterReleases.HostedLeaseIsReleased` | packages/server/src/session-router.ts:118-131 | every lease of a session that is hosted when shutdown goes on from the queues is released before the handles are closed, and no attachment is made any more |
| `SessionRouterReleases.ShutdownLeavesALease` | packages/server/src/session-router.ts:118-143 | a run in which shutdown completes over a lease of a removed session whose client was not disconnected |
| `SessionRouterDraining.BarredClientGainsNothing` | packages/server/src/session-router.ts:160-190 | while the router is closing or the client disconnecting, no step attaches the client to anything or delivers a call of its |
| `SessionRouterDraining.ClosingAdmitsNothing` | packages/server/src/session-router.ts:108-131 | once closing has begun, nobody is attached and no call delivered any more, however what is under way turns out |
| `SessionRouterProof.Preserved` | packages/server/src/session-router.ts:34-311 | every step of the router keeps the whole invariant: sets, leases, client map, queues, releases, deliveries |
| `SessionRouterNotices.BegunHow` | packages/server/src/session-router.ts:65-101 | every release is begun by a detach, a disconnect, a switch, a lease that is given back, a termination, a removal or the shutdown, and these decide whether its end is told and for which operation it is |
| `SessionRouterNotices.ClientsAreTold` | packages/server/src/session-router.ts:182-260 | over every run, until shutdown is complete: a client was told last exactly the attachment it has, or that it has none, unless the one it was told of was released without a word to disconnect it or to switch |
| `SessionRouterNotices.FailedSwitchIsNotTold` | packages/server/src/session-router.ts:165-190 | a run in which a switch whose new lease is refused leaves the client connected, attached to nothing, with nothing under way, and still told that it has its old attachment |
| `SessionRouterLeases.LeasedIff` | packages/server/src/session-router.ts:174-190 | a lease was granted if and only if the handle granted it, refused if and only if it refused it |
| `SessionRouterLeases.WentWellIff` | packages/server/src/session-router.ts:234-260 | a release that has come to its end went well if and only if the lease had not been refused and neither `release` nor telling the client failed |
| `SessionRouterLeases.DeliveredIffAdmitted` | packages/server/src/session-router.ts:199-232 | over every run a call is delivered exactly once if, when its turn came, its client was not barred and attached to just the session and attachment it names, and otherwise never |
| `SessionRouterLeases.AdmittedIsOutUntilSettled` | packages/server/src/session-router.ts:216-241 | an admitted call is out, and a release that takes stock waits for it, exactly until it settles |
| `SessionRouterLeases.SwitchesIff` | packages/server/src/session-router.ts:165-173 | a switch goes on to ask for a new lease if and only if the release of the old one went well |
| `SessionRouterAttaching.UnspoiledAttachAttaches` | packages/server/src/session-router.ts:160-197 | in a run in which ids resolve to themselves and no open, lease, release or publication fails, nothing terminates, is removed or closes and the client does not disconnect: a client whose last operation to have started is an attach that is over is attached to the session it named, and was told so |
| `SessionRouterAttaching.ReattachingChangesNothing` | packages/server/src/session-router.ts:160-164 | attaching to the session the client is attached to already is over at once and changes nothing |
| `SessionRouterProgress.TerminatedIsReleased` | packages/server/src/session-router.ts:302-311 | once the termination of a hosted handle has been handled it is never hosted again, and every attachment it had is being released from then on |
| `SessionRouterProgress.RemovedIsReleased` | packages/server/src/session-router.ts:72-89 | removing a session begins the release of every attachment it has, and by the time its handle is closed all those releases have settled |
| `SessionRouterProgress.BarredWhileDisconnecting` | packages/server/src/session-router.ts:91-101 | a client is barred only while a disconnect of its is not over, and exactly that long if it has asked once at most |
| `SessionRouterProgress.NothingIsStuck` | packages/server/src/session-router.ts:146-197 | no operation is ever stuck: it, or one it is queued behind, can take its next step or waits for an outcome that is still due |
| `SessionRouterProgress.ShutdownForgets` | packages/server/src/session-router.ts:131-143 | shutdown forgets every session for good, but for those whose handle failed to close, which it keeps |
| `SessionRouting.SessionRouter.constructor` | packages/server/src/session-router.ts:34-45 | an empty router |
| `SessionRouting.SessionRouter.RunForClient` | packages/server/src/session-router.ts:47-70 | queueing an operation behind the client's last one, with the checks made beforehand |
| `SessionRouting.SessionRouter.Start` | packages/server/src/session-router.ts:146-158 | an operation whose turn has come takes the step of its kind |
| `SessionRouting.SessionRouter.Settle` | packages/server/src/session-router.ts:149-156 | a settled operation leaves the chain map only if it is still the last |
| `SessionRouting.SessionRouter.AttachClientNow` | packages/server/src/session-router.ts:160-164 | up to `acquire`: refused, already attached, or acquiring |
| `SessionRouting.SessionRouter.AcquireSession` | packages/server/src/session-router.ts:262-270 | share the hosted session, share the open in flight, or start one |
| `SessionRouting.SessionRouter.AcquireReturned` | packages/server/src/session-router.ts:269-273 | the open leaves the map only if it is still the registered one |
| `SessionRouting.SessionRouter.ResumeAttachClient` | packages/server/src/session-router.ts:165-173 | after `acquire`: refuse, release the current attachment, or create the new one |
| `SessionRouting.SessionRouter.CurrentAttachmentReleased` | packages/server/src/session-router.ts:166-173 | a failed release of the current attachment ends the attach |
| `SessionRouting.SessionRouter.LeaseArrived` | packages/server/src/session-router.ts:174-190 | a refused lease leaves its session |
| `SessionRouting.SessionRouter.InstallLease` | packages/server/src/session-router.ts:182-196 | a lease that is no longer wanted is given back, any other one becomes the client's |
| `SessionRouting.SessionRouter.LeaveCurrent` | packages/server/src/session-router.ts:65-101 | detach publishes the change, disconnect does not |
| `SessionRouting.SessionRouter.StartServiceCall` | packages/server/src/session-router.ts:199-232 | a call is admitted only to the client's current attachment, named by session and id |
| `SessionRouting.SessionRouter.ReleaseAttachment` | packages/server/src/session-router.ts:234-252 | release is memoized: the first caller decides what it waits for and whether it publishes |
| `SessionRouting.SessionRouter.CallsDrained` | packages/server/src/session-router.ts:238-241 | `release` is called once the calls have settled, or the lease is awaited |
| `SessionRouting.SessionRouter.LeaseAwaited` | packages/server/src/session-router.ts:240-241 | a lease that never arrives ends the release |
| `SessionRouting.SessionRouter.ReleaseSettled` | packages/server/src/session-router.ts:247-249 | clearing follows whether or not the release succeeded |
| `SessionRouting.SessionRouter.ClearedPublished` | packages/server/src/session-router.ts:257-259 | the release rejects if the publication of its end does |
| `SessionRouting.SessionRouter.ClearAttachment` | packages/server/src/session-router.ts:254-260 | the attachment leaves its session and, if current, the client map |
| `SessionRouting.SessionRouter.SessionResolved` | packages/server/src/session-router.ts:276-278 | the session resolves or the open fails |
| `SessionRouting.SessionRouter.HandleOpened` | packages/server/src/session-router.ts:278-299 | a handle is hosted, or closed at once while draining |
| `SessionRouting.SessionRouter.InvalidateSession` | packages/server/src/session-router.ts:302-311 | a terminated session is unhosted and all its attachments are released |
| `SessionRouting.SessionRouter.RemoveSession` | packages/server/src/session-router.ts:72-79 | removal releases every attachment first |
| `SessionRouting.SessionRouter.RemovalReleasesSettled` | packages/server/src/session-router.ts:80-85 | then closes the handle |
| `SessionRouting.SessionRouter.RemovalHandleClosed` | packages/server/src/session-router.ts:86-88 | and unhosts it if it is still the hosted one |
| `SessionRouting.SessionRouter.ReleaseAll` | packages/server/src/session-router.ts:77-79 | every attachment of a set is being released, others are untouched |
| `SessionRouting.SessionRouter.ShutdownOperationsSettled` | packages/server/src/session-router.ts:109-125 | once operations and opens have settled, all attachments are released |
| `SessionRouting.SessionRouter.ShutdownAttachmentsSettled` | packages/server/src/session-router.ts:126-130 | then all hosted handles are closed |
| `SessionRouting.SessionRouter.ShutdownHandlesSettled` | packages/server/src/session-router.ts:131-143 | then sessions whose close succeeded are forgotten and the maps cleared |
| `SubscriptionTheorems.DeliveredIsAPrefix` | packages/server/src/server.ts:333-382 | the listener is called with a prefix of what the provider published, in order and without repetition, and no message is ever undecodable or unexpected |
| `SubscriptionTheorems.NothingIsLost` | packages/server/src/server.ts:438-450 | while connection and subscription are intact, published = delivered + about to be + queued + on the channel + held back by the server |
| `SubscriptionTheorems.QuietMeansComplete` | packages/server/src/server.ts:368-378 | once nothing is under way the listener has seen everything published |
| `SubscriptionTheorems.DecoderFollowsEncoder` | packages/client/src/client.ts:313-331 | the decoder expects exactly the first encoded message on the channel, and after the last one what the encoder would produce next |
| `SubscriptionTheorems.NothingBeforeStart` | packages/client/src/client.ts:210-220 | nothing is delivered before `start`, and `start` comes after the snapshot |
| `SubscriptionTheorems.EarlyUpdatesWait` | packages/client/src/client.ts:193-205 | updates that come before the answer leave the client where it would be had the answer come first |
| `SubscriptionHistory.FailedForAReason` | packages/client/src/client.ts:206-224 | a subscription fails only if its caller gave up, the connection went, or the provider refused |
| `SubscriptionHistory.UndisturbedIsDelivered` | packages/client/src/client.ts:185-224 | an undisturbed subscription that the provider has answered comes to be, in every order of events: when everything is quiet it is subscribed, `start` makes it ready, and once that is quiet the listener has been called with exactly what was published |
| `SubscriptionHistory.UndisturbedLosesNothing` | packages/server/src/server.ts:333-382 | as long as nothing ends the subscription everything published since the request came is accounted for, in order |
| `SubscriptionHistory.CutForAReason` | packages/server/src/server.ts:417-450 | the server stops putting updates on the wire only if the client unsubscribed or the connection went |
| `SubscriptionHistory.GateIff` | packages/server/src/server.ts:350-382 | the server has answered if and only if the provider has come back, and has refused if and only if it came back with an error |
| `SubscriptionHistory.RunRecords` | packages/server/src/server.ts:338-344 | the books record exactly what the provider published and how often the listener was called |
| `SubscriptionHistory.StaysReady` | packages/client/src/client.ts:216-220 | once started a subscription stays started |
| `SubscriptionHistory.DisposedHearsNothingNew` | packages/client/src/client.ts:221-224 | once `dispose` was called the listener gets only what was on its delivery chain by then |
| `SubscriptionHistory.DisconnectedHearsNothingNew` | packages/client/src/client.ts:345-351 | and once the connection is gone it gets nothing that had not been accepted by then |
| `SubscriptionEndings.CutIff` | packages/server/src/server.ts:417-450 | the server puts updates on the wire exactly until the client unsubscribes or the connection goes |
| `SubscriptionEndings.SilencedSendsNothing` | packages/server/src/server.ts:417-450 | once it has unsubscribed, or the connection is gone, not one more update goes out |
| `SubscriptionEndings.DisconnectedSendsNothing` | packages/server/src/server.ts:452-472 | and once the connection is gone nothing at all does: what is on the channel is the rest of what was |
| `SubscriptionEndings.GivenUpNeverSubscribes` | packages/client/src/client.ts:185-214 | a subscription whose caller gives up or whose connection goes before it was answered never comes to be, whatever answer comes later |
| `SubscriptionEndings.DisposeTellsTheServer` | packages/client/src/client.ts:221-232 | disposing of a subscription tells the server, if the connection is there and the caller wants it: from then on, and only then, the unsubscribe can arrive |
| `SubscriptionElsewhere.ElsewhereKeepsPromiseIff` | packages/server/src/server.ts:338-344 | an update published through the callback of another request keeps the promise to the subscriber (what has got to it is a prefix of what was published, the rest is on its way or held back while the subscription is intact) if and only if, while the subscription is intact, it has been answered and nothing but the same update is held back |
| `SubscriptionElsewhere.AlwaysPromisedIff` | packages/server/src/server.ts:338-382 | a run with such updates keeps that promise in every state if and only if each of them comes like that |
| `SubscriptionElsewhere.DeliveredInTurn` | packages/server/src/server.ts:338-382 | over every such run the listener gets a prefix of everything published, nothing is lost while the subscription is intact, and nothing is undecodable |
| `SubscriptionElsewhere.ElsewhereOvertakes` | packages/server/src/server.ts:338-382 | a run in which one comes out of turn and is heard before an earlier update |
| `SubscriptionProof.Preserved` | packages/server/src/server.ts:311-404 | every event at either end, with any other traffic, keeps the books |
| `Subscription.SubscribeRequest.PublishUpdate` | packages/server/src/server.ts:338-344 | updates are held back until the drain is over |
| `Subscription.SubscribeRequest.SendServiceUpdate` | packages/server/src/server.ts:438-450 | an update is encoded and sent, or dropped without an encoder |
| `Subscription.SubscribeRequest.InvocationSettles` | packages/server/src/server.ts:350-374 | the encoder is installed together with the answer |
| `Subscription.SubscribeRequest.SendReturns` | packages/server/src/server.ts:375-382 | one turn of the drain |
| `Subscription.SubscribeRequest.DrainPending` | packages/server/src/server.ts:375-382 | the drain puts everything held back on the wire, in order, and opens the gate; what is published during its waits comes after that, in order |
| `Subscription.SubscribeRequest.Disconnect` | packages/server/src/server.ts:417-426 | no update is sent after disconnecting |
| `Subscription.ServiceListener.HandleMessage` | packages/client/src/client.ts:304-343 | what the client does with an answer or an update |
| `Subscription.ServiceListener.DecodeQueued` | packages/client/src/client.ts:200-202 | queued wire updates are decoded until one is out of step |
| `Subscription.ServiceListener.HydrateFrom` | packages/client/src/client.ts:197-204 | snapshot first, then what came before it; a bad one fails the connection |
| `Subscription.ServiceListener.RequestSettled` | packages/client/src/client.ts:206-210 | the subscription goes on only if it is still registered |
| `Subscription.ServiceListener.StartDelivery` | packages/client/src/client.ts:216-220 | queued updates go to the delivery chain in order, once |
| `Subscription.ServiceListener.Dispose` | packages/client/src/client.ts:221-224 | updates are ignored from here on |
| `Subscription.ServiceListener.CallListener` | packages/client/src/client.ts:417-421 | deliveries one at a time, in order |
| `RpcTheorems.NoUnmatchedResponse` | packages/client/src/client.ts:333-337 | no run with aborts, cancels and reconnects reaches the "no matching request" failure |
| `RpcTheorems.SettledByDisconnect` | packages/client/src/client.ts:345-351 | every request promise has settled once the client is disconnected |
| `RpcTheorems.OutcomeIsFinal` | packages/client/src/client.ts:271-287 | a request promise settles at most once: nothing later changes its outcome |
| `RpcTheorems.PendingIsInFlight` | packages/client/src/client.ts:361-377 | on an intact connection a pending request is in exactly one place: on its way, being worked on, or answered; nothing else is in flight |
| `RpcTheorems.AnsweredOnce` | packages/server/src/server.ts:307-404 | a request gets at most one response, and exactly one when the server is done with it and the connection is not lost |
| `RpcTheorems.OneResponsePerEnvelope` | packages/server/src/server.ts:307-316 | even a client that reuses active ids gets one response per envelope |
| `RpcOutcomes.ResolvedByItsHandler` | packages/client/src/client.ts:333-343 | a promise resolves with a value only if the handler of that very request, on the connection it was made on, had its call return that value |
| `RpcOutcomes.PromisesTellTheTruth` | packages/client/src/client.ts:333-377 | what a promise says has happened: its handler came to that value or that error, the result was unusable, the request could not be encoded, it was aborted, or its connection is gone |
| `RpcOutcomes.ResponseSettles` | packages/client/src/client.ts:333-343 | a response settles its promise as it says, with its value if the client can use it, unless the request was aborted before |
| `RpcOutcomes.AnswerComesHome` | packages/client/src/client.ts:333-343 | once the handler of a request on a sound connection has finished and its response is not on its way any more, the promise is what the handler came to, unless the request was aborted |
| `RpcOutcomes.FinishedForGood` | packages/server/src/server.ts:360-401 | what a call comes to stays what its response says; a call that throws after its signal was aborted is answered as cancelled |
| `RpcCancellation.ExecutedIffValid` | packages/server/src/server.ts:307-335 | of the calls of the modelled client that reach the server those that cannot be parsed are refused, and every other one is handed to its target: none is taken for a duplicate |
| `RpcCancellation.RequestGoesOut` | packages/client/src/client.ts:285-302 | a request that can be encoded goes out and waits, any other is rejected on the spot |
| `RpcCancellation.AbortReachesTheCall` | packages/server/src/server.ts:298-304 | the call of an aborted request has its signal aborted as well, unless the cancel is still on its way or was lost with the connection; and no other call has, unless the server has dropped the connection |
| `RpcEndings.DisposedIff` | packages/client/src/client.ts:345-360 | a client makes no connection and no request any more exactly once it was disposed of |
| `RpcEndings.DisconnectedSendsNothing` | packages/server/src/server.ts:417-472 | once a connection is gone nothing is sent to its client any more |
| `RpcProof.Preserved` | packages/server/src/server.ts:298-436 | every event at either end keeps requests, handlers, responses and pending map balanced |
| `Rpc.PendingRequests.Request` | packages/client/src/client.ts:238-302 | a request gets a new number and a pending entry, which it loses again if it cannot be encoded |
| `Rpc.PendingRequests.TakePendingRequest` | packages/client/src/client.ts:361-368 | an entry is taken at most once |
| `Rpc.PendingRequests.RejectPendingRequests` | packages/client/src/client.ts:370-377 | all pending promises are rejected and nothing else changes |
| `Rpc.PendingRequests.HandleResponse` | packages/client/src/client.ts:333-343 | a response settles its promise as it says: with its value, with its error, or, failing the connection first, as invalid if the result is unusable |
| `Rpc.PendingRequests.Disconnected` | packages/client/src/client.ts:345-351 | disconnecting rejects everything pending |
| `Rpc.ActiveRequests.Dispatch` | packages/server/src/server.ts:247-251 | requests become handlers, duplicates and malformed calls are answered at once, a cancel aborts the active handler of its id |
| `Rpc.ActiveRequests.SendResponse` | packages/server/src/server.ts:452-472 | nothing is sent on a lost connection |
| `Rpc.ActiveRequests.WorkFinished` | packages/server/src/server.ts:360-401 | one response when the work is done, that says how it ended |
| `Rpc.ActiveRequests.WorkReturned` | packages/server/src/server.ts:383-403 | the handler leaves the active map; a failure after the response closes the connection |
| `Rpc.ActiveRequests.Disconnect` | packages/server/src/server.ts:417-426 | every active call is aborted and the active map emptied |
| `AgentTheorems.TraceShape` | packages/agent/src/agent-loop.ts:156-273 | the trace is one `agent_start`, turns one after the other, one `agent_end` |
| `AgentTheorems.EndIsFinal` | packages/agent/src/agent-loop.ts:272-273 | `agent_end` carries the payloads of all `message_end` events and nothing follows it |
| `AgentTheorems.TranscriptIsPayloads` | packages/agent/src/agent.ts:544-591 | the recorded messages are the `message_end` payloads and the transcript grows by exactly those |
| `AgentTheorems.DrainedIsInjectedOrDue` | packages/agent/src/agent-loop.ts:200-209 | prompts and drained messages enter the transcript in order; what has not yet is still due |
| `AgentTheorems.DrainedBeforeReply` | packages/agent/src/agent-loop.ts:200-213 | whenever a reply is streamed, and when the run is over, everything drained so far is in the transcript |
| `AgentTheorems.OneDrainPerTurn` | packages/agent/src/agent-loop.ts:191-196 | no turn injects more than one drain |
| `AgentTheorems.TurnIsGivenWhatWasDrained` | packages/agent/src/agent-loop.ts:176-213 | when a reply is streamed, its turn has been given exactly what was drained since the turn before ended, in order, the first one the prompts before that; in one-at-a-time mode at most one queued message |
| `AgentTheorems.SteeringIsAskedFirst` | packages/agent/src/agent-loop.ts:257-266 | the follow-up queue is looked at, and a further turn started, only after the steering queue; twice if nothing is due |
| `AgentTheorems.SteeredBeforeReply` | packages/agent/src/agent-loop.ts:176-213 | no reply is streamed before the steering queue has been looked at since the turn before, the first one unless the run was to leave its first look out |
| `AgentTheorems.BatchAtTurnEnd` | packages/agent/src/agent-loop.ts:221-243 | at the end of a turn every started call has ended once and has one result, in the order of the reply; results cover all calls or, after an abort, a nonempty part from the front; another turn is wanted exactly if some call did not ask to stop |
| `AgentTheorems.ExecutedIffPrepared` | packages/agent/src/agent-loop.ts:520-561 | by the end of a turn a call was executed at most once, if and only if it was prepared (or, in a batch that runs side by side, not if the run was aborted before it began); a result that is no error is that of a call that was executed; nothing of a reply cut off by the token limit was |
| `AgentTheorems.AfterAnAbort` | packages/agent/src/agent-loop.ts:431-545 | once the run is aborted no call is prepared, none but the first of a batch is started unless the reply was cut off, and none begins to execute but in a batch that runs one by one, where a call starts only when every call before it has its result |
| `AgentTheorems.FirstTurnIsGiven` | packages/agent/src/agent.ts:361-388 | what the first turn was given when its reply is streamed: the prompts, then what was drained before it ended |
| `AgentTheorems.RunningIsPending` | packages/agent/src/agent.ts:559-571 | while the calls of a reply have distinct ids, the ids that count as pending are those of the calls that are running |
| `AgentTheorems.ShowsWhatStreams` | packages/agent/src/agent.ts:544-558 | while a message is under way the state shows it as it was last reported |
| `AgentTheorems.NothingPendingBetweenTurns` | packages/agent/src/agent.ts:559-571 | no tool call is pending at the end of a turn or of the run, even when ids repeat |
| `AgentTheorems.RunLeavesNothing` | packages/agent/src/agent.ts:529-535 | a finished run leaves nothing for `finishRun` to clean up |
| `AgentLoop.PendingMessageQueue.Enqueue` | packages/agent/src/agent.ts:133-135 | messages are queued in order |
| `AgentLoop.PendingMessageQueue.DrainQueue` | packages/agent/src/agent.ts:141-154 | a drain takes everything or the first one, and nothing is lost or reordered |
| `AgentLoop.PendingMessageQueue.Clear` | packages/agent/src/agent.ts:156-158 | clearing drops what is queued |
| `AgentLoop.Agent.ProcessEvents` | packages/agent/src/agent.ts:544-591 | an event is reduced into the state |
| `AgentLoop.Agent.Poll` | packages/agent/src/agent.ts:475-482 | a drain for the loop; the first steering poll can be skipped once, and the log says so |
| `AgentLoop.Agent.StreamAssistantResponse` | packages/agent/src/agent-loop.ts:279-370 | the context grows by just the reply if and only if the stream starts at most once |
| `AgentLoop.Agent.FailToolCalls` | packages/agent/src/agent-loop.ts:379-404 | calls of a truncated reply fail, all of them and unexecuted |
| `AgentLoop.Agent.ExecuteSequential` | packages/agent/src/agent-loop.ts:431-485 | calls run and report one by one until an abort |
| `AgentLoop.Agent.StartCalls` | packages/agent/src/agent-loop.ts:495-545 | parallel first pass |
| `AgentLoop.Agent.FinishCalls` | packages/agent/src/agent-loop.ts:547-549 | parallel second pass, any completion order |
| `AgentLoop.Agent.ReportCalls` | packages/agent/src/agent-loop.ts:550-555 | parallel third pass: results in the order of the calls |
| `AgentLoop.Agent.ExecuteParallel` | packages/agent/src/agent-loop.ts:487-561 | the whole parallel batch |
| `AgentLoop.Agent.ShouldTerminate` | packages/agent/src/agent-loop.ts:589-591 | a batch terminates if and only if it is not empty and every result asks for it |
| `AgentLoop.Agent.RunToolCalls` | packages/agent/src/agent-loop.ts:409-424 | the batch by whichever rule applies |
| `AgentLoop.Agent.Inject` | packages/agent/src/agent-loop.ts:200-209 | pending messages enter trace, context and records, in order |
| `AgentLoop.Agent.RunReply` | packages/agent/src/agent-loop.ts:211-243 | reply, calls and results up to `turn_end` |
| `AgentLoop.Agent.PrepareTurn` | packages/agent/src/agent-loop.ts:176-198 | the queue is looked at again only if nothing was pending |
| `AgentLoop.Agent.AfterTurn` | packages/agent/src/agent-loop.ts:245-257 | stop, or look at the steering queue |
| `AgentLoop.Agent.RunLoop` | packages/agent/src/agent-loop.ts:156-273 | the loop keeps to the automaton; when it is done the run has ended and the recorded messages are those emitted |
| `AgentLoop.Agent.RunAgentLoop` | packages/agent/src/agent-loop.ts:96-119 | start, prompts, loop |
| `AgentLoop.Agent.RunWithLifecycle` | packages/agent/src/agent.ts:486-509 | a finished run leaves the agent idle with its transcript longer by the run's messages |
| `AgentLoop.Agent.Prompt` | packages/agent/src/agent.ts:350-358 | the transcript grows by exactly the run's messages, which begin with the prompts; drained messages are those logged |
| `AgentLoop.Agent.ContinueRun` | packages/agent/src/agent.ts:361-388 | after an assistant message the queued messages become the prompts, steering first and by its mode, the first turn is given nothing else and only such a run leaves its first look at the steering queue out; the errors otherwise |
| `CatalogTheorems.MutationsNeverOverlap` | packages/ai/src/models.ts:343-370 | store operations of one provider are never under way together, over any mix of refreshes, replacements and deletions |
| `CatalogTheorems.MutationsFollowGenerations` | packages/ai/src/models.ts:325-334 | and take effect in the order of their generations |
| `CatalogTheorems.UpdatesAreCurrent` | packages/ai/src/models.ts:350-363 | an in-memory update runs only for the current, uncancelled generation, and with its own entry in the store |
| `CatalogTheorems.OneCurrentRefresh` | packages/ai/src/models.ts:336-341 | at most one refresh of a provider is neither superseded nor over |
| `CatalogTheorems.SupersededStaysSilent` | packages/ai/src/models.ts:352-362 | a superseded refresh never changes the memory again |
| `CatalogTheorems.FetchLeavesMemoryAsStored` | packages/ai/src/models.ts:830-838 | after a fetch is published memory and store agree |
| `CatalogHistory.SupersedingSilences` | packages/ai/src/models.ts:274-341 | after a provider was replaced, deleted or cleared, or another refresh of it begun, no refresh of it that was there before ever changes the memory again, and if one was under way it is aborted |
| `CatalogHistory.BegunIsCurrentIff` | packages/ai/src/models.ts:325-341 | a refresh is current exactly as long as nothing supersedes its provider and its caller does not give up |
| `CatalogHistory.CurrentIff` | packages/ai/src/models.ts:325-341 | and the same of a refresh in any reached state |
| `CatalogHistory.GenerationCounts` | packages/ai/src/models.ts:325-334 | a provider's generation is the number of times it was superseded |
| `CatalogHistory.EndedIsSpared` | packages/ai/src/models.ts:436-440 | a refresh that is over is never aborted any more: superseding reaches only what is under way |
| `CatalogHistory.RefusedForAReason` | packages/ai/src/models.ts:350-363 | a publication settles unpublished only if its refresh was stopped or its store operation failed |
| `CatalogHistory.PublishedIsWritten` | packages/ai/src/models.ts:350-363 | memory and store of a provider hold what its last update and its last store operation wrote; a publication that settled as published has made each exactly once, any other has made no update |
| `CatalogHistory.PublicationsAreQueued` | packages/ai/src/models.ts:343-349 | every publication asked for is queued, with what it is to store and to show, in the order asked |
| `CatalogHistory.NeverStuck` | packages/ai/src/models.ts:343-370 | the queue of a provider is never stuck: a publication that has not settled, or one it waits for, can take its next step |
| `CatalogHistory.ThereIff` | packages/ai/src/models.ts:274-289 | a provider is there if and only if it was set since it was last removed |
| `CatalogProof.Preserved` | packages/ai/src/models.ts:274-451 | every event keeps generations, controllers, chains, store and updates in order |
| `CatalogRefresh.Models.SupersedeProviderRefresh` | packages/ai/src/models.ts:325-334 | a new generation; the refresh that held the controller is aborted |
| `CatalogRefresh.Models.SetProvider` | packages/ai/src/models.ts:274-277 | replacing supersedes |
| `CatalogRefresh.Models.DeleteProvider` | packages/ai/src/models.ts:279-282 | deleting supersedes |
| `CatalogRefresh.Models.ClearProviders` | packages/ai/src/models.ts:284-289 | clearing supersedes everything known or being refreshed |
| `CatalogRefresh.Models.BeginProviderRefresh` | packages/ai/src/models.ts:336-341 | a refresh takes the new generation and the controller |
| `CatalogRefresh.Models.EndRefresh` | packages/ai/src/models.ts:436-440 | the controller goes unless it was replaced |
| `CatalogRefresh.Models.PublishProviderModels` | packages/ai/src/models.ts:343-369 | a publication queues behind the last one |
| `CatalogRefresh.Models.ProceedPublication` | packages/ai/src/models.ts:350-358 | first check, then the store or the update |
| `CatalogRefresh.Models.ConcludePublication` | packages/ai/src/models.ts:360-362 | second check and update |
| `CatalogRefresh.Models.ForgetTail` | packages/ai/src/models.ts:364-368 | the tail is forgotten only if it is still the last |
| `CatalogRefresh.CurrentModels` | packages/ai/src/models.ts:779-787 | the merged list is the overlay of the dynamic models on the baseline |
| `CatalogRefresh.OverlayFinds` | packages/ai/src/models.ts:321-323 | a lookup finds the latest dynamic model of an id, otherwise the baseline's |
| `CatalogRefresh.OverlayKeepsPlaces` | packages/ai/src/models.ts:780-786 | baseline models keep their places, no id twice, nothing from nowhere |
| `FramingSpec.FramesRoundTrip` | packages/protocol/src/framing.ts:28-39 | frames of payloads within the limit, cut into chunks in any way, decode to exactly the payloads and end at a boundary |
| `FramingSpec.ChunkingIsIrrelevant` | packages/protocol/src/framing.ts:59-130 | pushing chunks one by one gives the frames and state of pushing their concatenation |
| `FramingSpec.FramesInjective` | packages/protocol/src/framing.ts:28-39 | no two payload lists have the same frames |
| `FramingSpec.OversizedLengthFails` | packages/protocol/src/framing.ts:74-79 | a length beyond the limit fails the decoder whatever follows |
| `FramingSpec.FailureIsPermanent` | packages/protocol/src/framing.ts:59-61 | and it never recovers |
| `FramingInverse.BoundaryIff` | packages/protocol/src/framing.ts:59-139 | whatever bytes come: the decoder is at a boundary and has given out these payloads if and only if the bytes are the frames of just these payloads and all are within the limit |
| `FramingInverse.FailsIff` | packages/protocol/src/framing.ts:74-79 | it fails if and only if a length beyond the limit comes after frames that are within it |
| `FramingInverse.RunExplains` | packages/protocol/src/framing.ts:59-130 | and otherwise the bytes are the frames it has given out and what it holds of the next one |
| `FrameDecoding.EncodeFrame` | packages/protocol/src/framing.ts:28-39 | the bytes of a frame, or the error for a payload that is too long |
| `FrameDecoding.FrameDecoder.Create` | packages/protocol/src/framing.ts:19-25 | the limit must fit 32 bits |
| `FrameDecoding.FrameDecoder.Push` | packages/protocol/src/framing.ts:59-130 | in place, a push is the run of the abstract decoder over the chunk: same frames, same state, same errors |
| `FrameDecoding.FrameDecoder.AllocationIsBounded` | packages/protocol/src/framing.ts:93-100 | all blocks but the last have the full size and have been filled, and allocated bytes exceed neither the expected length nor the received payload plus 65535 |
| `FrameDecoding.FrameDecoder.FillBlock` | packages/protocol/src/framing.ts:101-108 | a stretch of the chunk is copied into the current block |
| `FrameDecoding.FrameDecoder.JoinBlocks` | packages/protocol/src/framing.ts:114-120 | blocks are joined in order |
| `FrameDecoding.FrameDecoder.TakePayload` | packages/protocol/src/framing.ts:110-127 | a complete payload is handed out and the buffers are released |
| `FrameDecoding.FrameDecoder.End` | packages/protocol/src/framing.ts:132-139 | ending succeeds exactly at a boundary |
| `FrameDecoding.FrameDecoder.Fail` | packages/protocol/src/framing.ts:141-150 | failing releases the blocks |
| `FrameDecoding.DecodeStream` | packages/protocol/src/framing.ts:59-139 | a whole stream through one decoder yields exactly the payloads and ends |
| `SearchIndex.AltScreenSearchIndex.Search` | packages/tui/src/alt-screen-search.ts:156-184 | whatever was searched before, the matches are those of a search from scratch over one span per character; `changed` says whether the lines as rendered or the normalised query differ |
| `SearchIndex.BuildSearchCorpus` | packages/tui/src/alt-screen-search.ts:34-106 | runs of ASCII stand for their characters: same text, same spans once taken apart |
| `SearchIndex.FindMatches` | packages/tui/src/alt-screen-search.ts:116-148 | the forward cursor finds what comparing every match with every span finds |
| `SearchIndex.MatchSegments` | packages/tui/src/alt-screen-search.ts:127-142 | the segments of one match, clipped and joined |
| `SearchIndex.RunsGiveTheSameSegments` | packages/tui/src/alt-screen-search.ts:127-142 | runs and single characters give the same segments for every match |
| `SearchIndex.RunsGiveTheSameMatches` | packages/tui/src/alt-screen-search.ts:116-148 | and so the same matches |
| `SearchIndex.CorpusBuilder.AddAsciiLine` | packages/tui/src/alt-screen-search.ts:51-78 | a line of printable ASCII |
| `SearchIndex.CorpusBuilder.AddOtherLine` | packages/tui/src/alt-screen-search.ts:79-101 | any other line |
| `SearchSpec.NormalizedIsNormal` | packages/tui/src/alt-screen-search.ts:108-110 | a normalised query has single blanks inside and none at its ends |
| `SearchSpec.NormalStays` | packages/tui/src/alt-screen-search.ts:108-110 | normalising a normal query changes nothing |
| `SearchMeaning.NormalizingKeepsWords` | packages/tui/src/alt-screen-search.ts:108-110 | a normalised query has the same words in the same order |
| `SearchMeaning.CorpusSpells` | packages/tui/src/alt-screen-search.ts:34-106 | the searched text is the visible cells of the transcript, row by row, neighbours one directly after the other and one blank between all others; every span is the place of its cell |
| `SearchMeaning.ListedIffVisible` | packages/tui/src/alt-screen-search.ts:34-106 | exactly the cells that are not white space are in the text, in reading order, each once |
| `SearchMeaning.SegmentsCover` | packages/tui/src/alt-screen-search.ts:127-142 | the segments of a match cover exactly the columns of the spans it touches, in reading order, and no two of them touch |
| `SearchMeaning.MatchLightsUp` | packages/tui/src/alt-screen-search.ts:116-148 | a match lights up a column of the screen if and only if the visible cell that stands there has part of its text in the match |
| `SearchMeaning.MatchesInOrder` | packages/tui/src/alt-screen-search.ts:116-148 | a search lists exactly the matches that touch something visible, in their order |
| `LatexLayout.JoinLayouts` | packages/tui/src/latex.ts:698-721 | the joined box is the one the geometry below speaks about |
| `LatexLayout.JoinPlacesBoxes` | packages/tui/src/latex.ts:702-721 | baselines are aligned and every row of every box is found, padded, at the sum of the widths before it, up to trailing white space |
| `LatexLayout.JoinLeavesRestBlank` | packages/tui/src/latex.ts:706-713 | above and below its rows a box leaves its columns blank |
| `LatexLayout.JoinIsGood` | packages/tui/src/latex.ts:698-721 | the baseline is a line of the result and no line is wider than it |
| `LatexLayout.JoinKeepsInk` | packages/tui/src/latex.ts:698-721 | joining neither loses nor adds anything visible |
| `LatexLayout.StackPlacesParts` | packages/tui/src/latex.ts:748-761 | the bar of a fraction is its baseline, all across but for a column at either end; every line of the parts stands whole in the middle of its row, blanks around it |
| `LatexLayout.LimitsPlaceParts` | packages/tui/src/latex.ts:762-780 | an operator and its limits each stand whole in the middle of their row, a blank column after them |
| `LatexLayout.StackKeepsInk` | packages/tui/src/latex.ts:748-761 | and draws nothing else but the bar |
| `LatexLayout.LimitsKeepInk` | packages/tui/src/latex.ts:762-780 | operators with limits draw exactly their texts |
| `LatexLayout.RenderLine` | packages/tui/src/latex.ts:727-798 | a line is its texts and nodes side by side, in their order |
| `LatexLayout.RenderNode` | packages/tui/src/latex.ts:748-788 | the box of a fraction, of an operator with limits, of a matrix |
| `LatexLayout.RenderLayout` | packages/tui/src/latex.ts:723-809 | rendering ends, whatever fractions are nested, in the layout of the lines one under the other |
| `LatexLayout.RenderIsGood` | packages/tui/src/latex.ts:723-809 | the baseline is in range and no line is wider than the result |
| `LatexLayout.RenderKeepsInk` | packages/tui/src/latex.ts:723-809 | every visible item, markers included, is drawn exactly as often as the source and the nodes it mentions contain it |
| `LatexLayout.NoMarkIsDrawnIff` | packages/tui/src/latex.ts:749-788 | no marker is drawn if and only if no operator and no matrix that is drawn holds one in its own text |
| `LatexLayout.MatrixInALimitLeaks` | packages/tui/src/latex.ts:762-780 | the marker of a matrix in the limit of an operator is drawn as it stands |
| `LatexGeometry.LinesOfText` | packages/tui/src/latex.ts:726-727 | the lines of a source hold no line break and make it up with breaks between them |
| `LatexGeometry.PartsInOrder` | packages/tui/src/latex.ts:729-794 | the words and nodes of a line are its text and its markers in their order; only white space differs |
| `LatexGeometry.BetweenTrims` | packages/tui/src/latex.ts:735-746 | before a node, text stands without the white space at its ends (at its start only after another node), but for one blank where there was some next to a matrix |
| `LatexGeometry.AfterTrims` | packages/tui/src/latex.ts:789-793 | after the last node the same at the left end alone |
| `LatexGeometry.RenderShowsParts` | packages/tui/src/latex.ts:723-809 | a formula shows every row of every part of every line: lines one under the other, parts in the columns that the widths before them give, on rows that make their baselines meet |
| `LatexGeometry.RenderBaseline` | packages/tui/src/latex.ts:796-808 | its baseline is the row where the baselines of the parts of its first line meet, and its width that of its longest row |
| `LatexGeometry.JoinIsTight` | packages/tui/src/latex.ts:698-721 | joined boxes have no row too many at either end, and no row has white space at its end |
| `LatexGeometry.NodePartsStand` | packages/tui/src/latex.ts:748-788 | in its box a numerator stands above the bar and the denominator below it, the upper limit above the operator and the lower one below it, the rows of a matrix from the top down |
| `LatexParsing.LatexParser.ParseFraction` | packages/tui/src/latex.ts:1017-1031 | in display mode, unless an enclosing argument forbids it or the command is `\tfrac`, a fraction is stacked: it is numbered after everything its parts mention and its marker is the result |
| `LatexParsing.LatexParser.ParseSequence` | packages/tui/src/latex.ts:833-919 | parsing moves forward up to the end of the source or past the closing character, unless the formula is given up, which is for good; nodes are added in order and never replaced, a matrix may get full stops; without display only matrices are added |
| `LatexParsing.LatexParser.ParseOperator` | packages/tui/src/latex.ts:1102-1158 | operators with scripts and `\limits`: as above, and only markers of nodes that exist |
| `LatexParsing.LatexParser.ParseOptionalArgument` | packages/tui/src/latex.ts:1188-1203 | an argument in brackets after blanks: parsed on its own, or the formula is given up for want of the closing bracket |
| `LatexParsing.LatexParser.ReadRawGroup` | packages/tui/src/latex.ts:1205-1233 | the name of an environment: what stands between braces after blanks, braces balanced inside and escapes skipped; without it the formula is given up |
| `LatexParsing.LatexParser.ParseEnvironment` | packages/tui/src/latex.ts:1239-1310 | environments by name: their body up to the end marker, cut into rows and cells |
| `LatexParsing.LatexParser.RenderMatrix` | packages/tui/src/latex.ts:1312-1355 | a matrix of several rows is numbered after everything its cells mention |
| `LatexParsing.SplitRows` | packages/tui/src/latex.ts:1235-1237 | a body is cut into rows at two backslashes and the distance that may follow them |
| `LatexParsing.RowsMakeUpBody` | packages/tui/src/latex.ts:1235-1237 | the rows and what ends them make up the body |
| `LatexParsing.RowsHoldNoBreak` | packages/tui/src/latex.ts:1235-1237 | and no row holds the end of one |
| `LatexParsing.SplitCells` | packages/tui/src/latex.ts:1314-1314 | the cells of a row make it up with `&` between each two and none inside |
| `LatexParsing.MatrixColumnsAlign` | packages/tui/src/latex.ts:1313-1326 | in every row of a matrix the cells of one column begin at the same place and are filled up to its width |
| `LatexParsing.IndexOf` | packages/tui/src/latex.ts:1194-1194 | the first place of a text from a given place on, or none |
| `LatexParsing.LatexParser.ParseRequiredArgument` | packages/tui/src/latex.ts:1160-1186 | arguments: forward, nodes in order, only markers of nodes that exist, the stacking mode restored |
| `LatexParsing.LatexParser.AppendToLastRow` | packages/tui/src/latex.ts:900-908 | a full stop joins the last row of a matrix |
| `LatexParsing.LatexParser.RenderNested` | packages/tui/src/latex.ts:1357-1364 | nested sources share the node list: nodes in order, only markers of nodes that exist |
| `LatexParsing.NodeList.Push` | packages/tui/src/latex.ts:1022-1028 | a pushed node keeps the list in order |
| `LatexParsing.PostorderIsNumbered` | packages/tui/src/latex.ts:730-752 | that order is what rendering needs to end |
| `LatexParsing.NoNodeMentionsItself` | packages/tui/src/latex.ts:749-750 | no chain of mentions comes back to where it started |
| `LatexParsing.RenderLatex` | packages/tui/src/latex.ts:1376-1394 | parsing and layout together always end, in no layout or in a good one that draws everything visible in the parsed text as often as it is there, and markers exactly if an operator or matrix that is drawn holds one; without display nothing is stacked but matrices |
| `ProxyStream.Proxy.Stream` | packages/agent/src/proxy.ts:183-260 | the lines processed are those of the whole text however it was cut, the unterminated last one included, and a terminal event is always pushed |
| `ProxyStream.Proxy.StreamUntilAbort` | packages/agent/src/proxy.ts:242-252 | an aborted or failed read has processed the complete lines so far and ends in an error event |
| `ProxyStream.Proxy.HandleEvent` | packages/agent/src/proxy.ts:266-402 | what one event does to the message |
| `ProxyStream.Proxy.HandleLines` | packages/agent/src/proxy.ts:188-214 | lines in order until one throws |
| `ProxyStream.NextChunk` | packages/agent/src/proxy.ts:208-210 | the buffer is what follows the last newline |
| `ProxyStream.BlockIsItsDeltas` | packages/agent/src/proxy.ts:274-364 | a block is the concatenation of its deltas since its latest start, whatever happens to other blocks |
| `ProxyStream.ThrowsIff` | packages/agent/src/proxy.ts:278-336 | an event throws if and only if it is a delta, or a text or thinking end, for a block not last started as that kind |
| `ProxyHistory.ReplyIsTold` | packages/agent/src/proxy.ts:188-252 | a reply read to its end: the consumer is told the events of its lines, each as it is, up to the first that throws, and an error follows if and only if one throws, a line cannot be read, or none of those told was the last of a reply |
| `ProxyHistory.ToldUntilFirstThrow` | packages/agent/src/proxy.ts:188-214 | over any events: exactly those before the first that throws are told, in order, but for ends of tool calls that were not started |
| `ProxyHistory.LinesAreEvents` | packages/agent/src/proxy.ts:188-200 | lines do what their events do one after the other, up to the first that cannot be read |
| `ProxyHistory.LinesOfAText` | packages/agent/src/proxy.ts:209-210 | no line holds a newline, and putting them back between the lines gives the text |
| `ProxyHistory.JsonAfterItsEnd` | packages/agent/src/proxy.ts:338-402 | once a tool call has ended its JSON is gone, and deltas that come nevertheless are added to the word for a missing value |
| `ClientConnection.Connection.Connect` | packages/client/src/connection.ts:67-91 | a new attempt only when disconnected |
| `ClientConnection.Connection.Fail` | packages/client/src/connection.ts:234-240 | the promise is rejected if pending, the listener told last |
| `ClientConnection.Connection.FailAndClose` | packages/client/src/connection.ts:227-232 | and the transport closed |
| `ClientConnection.Connection.TransportOpened` | packages/client/src/connection.ts:120-141 | a transport that comes too late is closed; callbacks of older attempts change nothing |
| `ClientConnection.Connection.TransportClosed` | packages/client/src/connection.ts:215-225 | a closing transport ends its own attempt only |
| `ClientConnection.Connection.HandleData` | packages/client/src/connection.ts:143-161 | data of older attempts changes nothing; unless a callback interferes the owner is given every payload, in order, up to the first message out of place, and the attempt ends if and only if there is one |
| `ClientConnection.Connection.Send` | packages/client/src/connection.ts:102-118 | a frame goes out on the transport in use, after the hello that each transport begins with; a failing one ends the attempt |
| `ClientConnection.Connection.HandleMessage` | packages/client/src/connection.ts:163-213 | messages before and after the handshake |
| `ClientConnection.Connection.Accept` | packages/client/src/connection.ts:186-206 | owner and listener are told before the promise resolves, and may disconnect instead |
| `ClientConnection.Connection.Announce` | packages/client/src/connection.ts:201-205 | the promise is resolved only after the listener was told and left the connection alone |
| `ClientConnection.Connection.SendFailed` | packages/client/src/connection.ts:112-117 | a failed send ends the attempt whose transport it was, and matters only while that is in use |
| `ClientConnection.Connection.Callback` | packages/client/src/connection.ts:79-79 | a listener that disconnects leaves everything in order |
| `ClientConnection.Connection.Run` | packages/client/src/connection.ts:67-240 | after any sequence of calls, transport callbacks, data and failures, with listeners that disconnect from inside any notification, what was settled and told stays so, and whenever the connection is down every attempt and transport is over |
| `ClientConnection.Life` | packages/client/src/connection.ts:67-240 | and so for the whole life of a new connection |
| `ClientConnection.Connection.DisconnectedIsFinal` | packages/client/src/connection.ts:227-240 | when disconnected, every promise has settled once, notifications were connecting, perhaps connected, then disconnected, and every transport is closed or has reported closing |
| `ServerConnectionHistory.EndedForAReason` | packages/server/src/server.ts:147-260 | a connection ends if and only if something ended it: a first message that is no hello of a supported version, a later hello, services that cannot be attached, its transport, the handshake timer, or the server; it then is disconnected or a close is still to return |
| `ServerConnectionHistory.ReadyIff` | packages/server/src/server.ts:287-295 | it becomes ready if and only if the hello goes out before anything has ended it, and stays so until something does |
| `ServerConnectionHistory.HandshakeIff` | packages/server/src/server.ts:262-295 | the handshake waits for the attach if and only if the first message has invited it, for the hello to go out if and only if services were accepted, and for unwanted services to be given back; nowhere else |
| `ServerConnectionHistory.ServicesHeldIff` | packages/server/src/server.ts:272-286 | services are held if and only if they were accepted and the connection is not disconnected; all others obtained have been given back |
| `ServerConnectionHistory.ReceivedIsWhatCame` | packages/server/src/server.ts:208-260 | what was received are the messages after the first, and none is dropped unless something ended the connection or hindered the handshake |
| `ServerConnectionHistory.UnhinderedIsServed` | packages/server/src/server.ts:208-295 | on a connection that nothing ends or hinders every message that came has been executed once those that waited for the handshake have been looked at, in their order if none came between |
| `ServerConnectionHistory.EndedDoesNothing` | packages/server/src/server.ts:208-220 | nothing is executed or attached for a connection that has ended |
| `ServerConnection.StageMovesForward` | packages/server/src/server.ts:208-296 | the stage only moves forward |
| `ServerConnection.NothingBeforeReady` | packages/server/src/server.ts:287-295 | nothing is executed unless the hello was sent and the stage became ready |
| `ServerConnection.AttachmentReleasedOnce` | packages/server/src/server.ts:272-286 | the attachment of a handshake is released exactly once by the time the connection is closed and the handshake is over |
| `ServerConnection.MessagesAccountedFor` | packages/server/src/server.ts:247-259 | messages received are executed, waiting, or dropped; none is dropped while ready |
| `ServerConnection.StepKeepsOrderIff` | packages/server/src/server.ts:244-259 | a step keeps the order of messages if and only if none overtakes one that came during the handshake and has not been dispatched yet |
| `ServerConnection.ExecutedInOrder` | packages/server/src/server.ts:208-259 | in a run without that, what was executed is a prefix of what was received, and the rest was dropped or waits, in order |
| `ServerConnection.LateMessageOvertakes` | packages/server/src/server.ts:244-259 | a run in which a message that comes just after the connection is ready is executed first |
| `ServerConnection.ConnectionState.Receive` | packages/server/src/server.ts:208-260 | dispatch by stage |
| `ServerConnection.ConnectionState.AttachReturned` | packages/server/src/server.ts:272-291 | services are kept or given back |
| `ServerConnection.ConnectionState.HelloReturns` | packages/server/src/server.ts:287-295 | ready only if the hello went out and nothing else happened |
| `ServerConnection.ConnectionState.HandshakeSettled` | packages/server/src/server.ts:255-259 | deferred messages look at the stage anew |
| `ServerConnection.ConnectionState.DisconnectNow` | packages/server/src/server.ts:417-435 | disconnecting gives the attachment back, once |
| `ServerConnection.ConnectionState.Fail` | packages/server/src/server.ts:474-477 | a failed protocol closes once |
| `ServerConnection.ConnectionState.End` | packages/server/src/server.ts:474-502 | the ways a connection ends |

## Left out

- Sockets, timers, fetch, the file system, child processes, clocks and random ids: only their outcomes appear, as events or free choices.
- CBOR and schema validation, the service and state codecs, authentication and credential stores: a codec is a pair of step counters, a parsed line an arbitrary function of the line.
- Heap identity of attachments, hosted sessions, publications and handlers: they are entries of tables, so aliasing between such objects is not modelled.
- Messages that arrive during the handshake wait in the upstream channel of the request model; how they are deferred is modelled in `ServerConnection` alone.
- Listeners that call `connect` again from inside a notification (`packages/client/src/connection.ts:157-160`): the message loop looks at the state again but not at the attempt.
- Runs of the agent whose callbacks throw, and the failure message they end in (`packages/agent/src/agent.ts:511-527`); clearing a queue while a run is under way, and `reset`.
- SessionRouterTheorems.NoLeaseIsLost: stops before shutdown completes, where the client map is cleared; what becomes of leases then is in `SessionRouterReleases`.
- AgentLoop.Agent.RunLoop: takes at most a given number of turns, because a run need not end; before the end it promises that the log is one the automaton accepts.
- Contents of prepared turns, thinking levels, usage and cost figures, error texts, timestamps and diagnostics.
- A store that applies part of an operation or applies it and still rejects: a store operation takes effect as a whole or, if it rejects, not at all.
- Credential resolution inside a refresh: when a refresh publishes, and what, is left to the provider.
- Unicode: one column per character in formulas, terminal sequences, graphemes and widths of the transcript as given by the segmenter, match intervals ascending and non-overlapping as given by the matcher.
- LatexParsing.Rework: the symbol tables, the final normalisation, and how scripts, roots, accents and inline fractions are written are any text that takes its markers from its input.
- LatexParsing.LatexParser.ParseSequence: says which markers its text may hold and not what the rest of the text is, because the text work of the commands is left open.
- LatexParsing.LatexParser.ParseOperator: likewise says nothing of its text but its markers.
- LatexParsing.LatexParser.ParseRequiredArgument: likewise says nothing of its text but its markers.
- LatexParsing.LatexParser.RenderNested: likewise says nothing of its text but its markers.
- LatexParsing.RenderLatex: the parsed text and the nodes are results of their own, tied to the layout and not to the characters of the source.
- LatexParsing.LatexParser.ParseEnvironment: likewise says nothing of its text but its markers.
- LatexParsing.LatexParser.ParseOptionalArgument: likewise says nothing of its text but its markers.
- LatexParsing.LatexParser.RenderMatrix: likewise says nothing of its text but its markers; how its rows are laid out is in MatrixColumnsAlign.
- Marker characters in the source of a formula: a fraction could then mention itself, and rendering would not end.
- The final indentation and trimming of a rendered formula (`packages/tui/src/latex.ts:1386-1393`).
- Components, key bindings, autocomplete, command line, migrations, package management and generated catalogs: plumbing and data without a general law.
