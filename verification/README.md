# Collaborative editor: a verified model

A Dafny model of a collaborative Markdown editor and proofs about it. The system has four parts: Go
websocket nodes that relay messages within rooms and between each other through Redis; a TypeScript
worker that follows each document and keeps its state; an Angular client that joins a session and
translates between CodeMirror and Yjs; and a Spring backend that guards documents with locks and
permissions.

`dafny verify dfyconfig.toml` checks everything.

| part | modules |
|---|---|
| rooms across nodes | `RoomMaps`, `HubRooms` (hub and client as objects), `RoomProtocol` (the atomic steps), `RoomUndisturbed` (the steps put together again), `RoomInvariants`, `RoomDelivery`, `RoomAnnouncements`, `RoomTheorems`, `RoomProgress`, `RoomScenarios`, `Forwarder` |
| worker and joining client | `Envelopes`, `WorkerRuntime`, `WorkerSession`, `WorkerTurns`, `WorkerRoster`, `JoinFlow`, `LateJoiner`, `WorkerContents`, `WorkerScenarios` |
| edit translation | `TextEdits`, `DeltaConverter`, `SessionEdits`, `EditorSync` |
| locks | `LockModel`, `LockService` (the tables as an object), `LockLaws`, `LockRuns` |
| sharing | `Sharing`, `SharingRuns`, `SharingLaws` |
| silent refresh | `SilentRefresh`, `SessionLaws` |

Code that changes things step by step is modelled as classes with mutable fields and loops. Each
method is proved to do what a function on values says, or states its new state outright, and the
theorems are about those functions and their runs. Where several goroutines interleave, the same
operations are taken apart into atomic steps (`RoomProtocol`), and the theorems hold for every
interleaving, any number of nodes, clients and documents.

## What turned out not to hold

- A message of another node reaches a client twice when the room that the client opened follows one whose
  subscription was still open when the message was published (`TwiceWhileDraining`). `OtherHubCopies`
  counts the copies; `OtherHubExactlyOnce` says when there is one.
- The list that the delta converter emits is in the coordinates of the text as edited so far, but
  CodeMirror reads it in the coordinates of the old text. `DispatchWorksExactly` says for which deltas
  that makes no difference; `TwoHunksFail` is the smallest case where it does.
- The update listener shifts changes by a running offset and the session shifts them again.
  `PipelineInStepExactly` says when that is harmless; `TwoInsertionsFallOut` is a case where it is not.
- A renewal that meets an expired collaborative lock recreates a collaborative one, where a renewal
  without any row would create an exclusive one (`RefreshInheritsExpiredType`).
- The failing retry of a request that led a refresh lowers the flag of whatever refresh is then on
  (`TwoRefreshesAtOnce`), and a profile request answered 401 parks behind its own refresh
  (`StuckForGood`, `ResumesAfterSuccess`). Giving up a request that leads a refresh leaves the flag up with
  no refresh on, and every later 401 parks (`StrandsExactly`, `StrandedForGood`).
- The worker closes a document with the last leave it reads, also when a joiner that it has answered is
  already registered (`ClosedUnderJoiner`). `LateJoinerCatchesUpExactly` says when joiner and worker
  agree; `CatchesUpAfterOwnJoin` that they do once the worker has read the joiner's arrival.
- Whether a last leave closes the document depends on how messages fall into turns of the worker's event
  loop (`OpenInOneTurn`); `TurnsAgreeExactly` says when that makes no difference.
- A user with two connections is struck off the worker's list of participants when one of them ends
  (`SecondConnectionStruck`).
- A request by someone who already has a permission row can be made but never approved
  (`ApprovalExactly`), so a level, once given, is for life (`LevelIsForLife`).
- The comment at the save guard (DocumentService.java:91-95) speaks of checking an optimistic version
  against the caller; the code compares nothing the caller sent, and the model follows the code.

## Model

| member | source | states |
|---|---|---|
| `RoomTheorems.ReachableInv` | ws-service/internal/hub/hub.go:39-213 | the whole room invariant holds in every state that any interleaving of any number of hubs, clients and room goroutines reaches |
| `RoomTheorems.StepKeepsInv` | ws-service/internal/hub/hub.go:39-213 | each of the fourteen atomic steps keeps it |
| `RoomInvariants.KeepsRooms` | ws-service/internal/hub/hub.go:40-55 | a mapped room is never empty, its subscription is open, and its members are exactly the registered clients of that hub and document |
| `RoomInvariants.KeepsSubs` | ws-service/internal/hub/hub.go:77-101 | an open subscription belongs to a mapped room or is owed a closing by exactly one departing client, also while a new room for the document is already open |
| `RoomInvariants.KeepsLog` | ws-service/internal/hub/hub.go:118-129 | what one sender hands over is published in that order, at most once, and a message is published, failed or still being worked on |
| `RoomInvariants.KeepsTasks` | ws-service/internal/hub/hub.go:186-213 | a broadcast targets only clients of its hub and document that were registered before the message was handed over |
| `RoomDelivery.KeepsItems` | ws-service/internal/hub/hub.go:166-213 | every queued item is due to its client, and items of one sender through one path stand in sending order |
| `RoomDelivery.KeepsDelivered` | ws-service/internal/hub/hub.go:186-213 | every due message is in the queue of its client, or its broadcast still has the client to do, or the client is closed |
| `RoomDelivery.QueuesGrow` | ws-service/internal/hub/client.go:64-74 | a step appends at most one item to a queue, only when there is space, and removes or reorders nothing |
| `RoomTheorems.OwnHubExactlyOnce` | ws-service/internal/hub/hub.go:105-118 | an open client has exactly one copy of each message handed to its own hub since it was registered, once that broadcast is over |
| `RoomTheorems.OtherHubCopies` | ws-service/internal/hub/hub.go:166-213 | of a message of another node, an open client registered before it was handed over has one copy from each subscription of its node and document that has handed it on, at most one more from each that is doing so, and no other; none of them had been closed when the message was published |
| `RoomTheorems.HearingIsOpenThen` | ws-service/internal/broker/redis.go:54-79 | the subscriptions through which such a message can come are exactly those of the node and document that were open in the state in which it was published |
| `RoomTheorems.OtherHubBounded` | ws-service/internal/hub/hub.go:39-101 | so there is at most one copy for each subscription open for the document on that node when the message was published, and at least one once the room's own has handed it on |
| `RoomTheorems.OtherHubExactlyOnce` | ws-service/internal/hub/hub.go:77-101 | exactly one copy when every other subscription of the node for the document had been closed by the time the message was published |
| `RoomScenarios.TwiceWhileDraining` | ws-service/internal/hub/hub.go:77-101 | a reachable session in which the old room's subscription was still open and a client has two copies |
| `RoomTheorems.NothingLost` | ws-service/internal/hub/hub.go:39-213 | when everything is drained an open registered client has a copy of every message handed to any hub for its document since it was registered, unless its publication failed |
| `RoomTheorems.SenderOrder` | ws-service/internal/hub/client_pumps.go:23-79 | messages of one sender stand in a queue in the order its read pump handled them, while they came through one subscription |
| `RoomTheorems.SubscriptionsAccounted` | ws-service/internal/hub/hub.go:73-101 | open subscriptions are as many as mapped rooms plus emptied rooms not yet closed |
| `RoomTheorems.ClosedOnceAndRoomFound` | ws-service/internal/hub/hub.go:77-101 | no subscription is closed twice, and a registered client always finds its room: the branch marked "should not happen" is dead |
| `RoomTheorems.BroadcastReachesAll` | ws-service/internal/hub/hub.go:199-212 | when a broadcast ends everyone in its snapshot has the message or is closed, and every queue is within its capacity |
| `RoomProgress.ClientMoves` | ws-service/internal/hub/hub.go:39-213 | no circular waiting: in every reachable state a client that has not completed its departure can take a step of its own |
| `RoomProgress.AnyoneArrives` | ws-service/internal/hub/hub.go:39-55 | a client with any buffer may arrive at any hub and document in any state |
| `RoomProgress.SubscriptionMoves` | ws-service/internal/hub/hub.go:166-213 | and so can a subscription that has not come to the end of what it hears, or is handing something on |
| `RoomProgress.WritesExactly` | ws-service/internal/hub/client_pumps.go:83-110 | the write pump sends the oldest item not yet sent, and neither it nor a broken socket touches anything else |
| `RoomAnnouncements.KeepsAnnounce` | ws-service/internal/hub/hub.go:64-96 | a client announces its arrival first, its departure last, each once, and says nothing outside them |
| `RoomUndisturbed.RelayUndisturbed` | ws-service/internal/hub/hub.go:105-130 | the atomic steps of a relay, when nothing interferes, serve every member of the room, close those without space, publish or lose the message, and change nothing else |
| `RoomUndisturbed.ConsumeUndisturbed` | ws-service/internal/hub/hub.go:166-183 | the same for a message read from the broker: the room is served and the cursor moves on by one |
| `RoomUndisturbed.RegisterUndisturbed` | ws-service/internal/hub/hub.go:39-69 | the steps of an arrival put the client into the room, opened if need be, and announce it, to itself as well |
| `RoomUndisturbed.UnregisterUndisturbed` | ws-service/internal/hub/hub.go:72-102 | the steps of a departure take the client out, tell the others, close it, and close the subscription exactly when the room is left empty |
| `HubRooms.Client.constructor` | ws-service/internal/hub/client.go:30-47 | a non-positive buffer size becomes 64; the client starts open, registered and with nothing queued |
| `HubRooms.Client.Close` | ws-service/internal/hub/client.go:49-54 | closing is idempotent |
| `HubRooms.Client.MarkUnregistered` | ws-service/internal/hub/client.go:56-62 | true for the first caller only |
| `HubRooms.Client.SendEnvelope` | ws-service/internal/hub/client.go:65-74 | appended when there is room, dropped otherwise, never waiting |
| `HubRooms.Hub.BroadcastLocal` | ws-service/internal/hub/hub.go:186-213 | every member of the room gets the message, except those whose buffer is full: they, and only they, are closed |
| `HubRooms.Hub.HandleClientEnvelope` | ws-service/internal/hub/hub.go:105-130 | the envelope carries the client's own document and user whatever it claimed, reaches the room, and is published under the node's id |
| `HubRooms.Hub.NotifyParticipantEvent` | ws-service/internal/hub/hub.go:132-163 | the same for a system event, sent as user 0 |
| `HubRooms.Hub.Register` | ws-service/internal/hub/hub.go:39-69 | the client joins the room, which is opened if it was not there; nothing changes when the subscription fails; the join reaches the room and the broker |
| `HubRooms.Hub.Unregister` | ws-service/internal/hub/hub.go:72-102 | only the first call acts: the client leaves the room and is closed, the others are told, and an emptied room's subscription is closed |
| `HubRooms.Hub.ConsumeMessage` | ws-service/internal/hub/hub.go:166-183 | a message of the hub's own node changes nothing, any other is broadcast |
| `Forwarder.RedisSubscription.Close` | ws-service/internal/broker/redis.go:54-60 | signals once and closes the Redis side |
| `Forwarder.RedisSubscription.Await` | ws-service/internal/broker/redis.go:66-74 | whatever ready case the outer select takes, what was delivered is taken in hand or the forwarder ends |
| `Forwarder.RedisSubscription.Put` | ws-service/internal/broker/redis.go:75-79 | the message in hand is appended while fewer than 256 wait, or given up after `Close` |
| `Forwarder.RedisSubscription.Take` | ws-service/internal/broker/redis.go:50-52 | the consumer has a prefix of what Redis delivered, in order and without repeats |
| `Forwarder.RedisSubscription.Return` | ws-service/internal/broker/redis.go:63-64 | the output channel is closed exactly once, when the forwarder ends |
| `WorkerRuntime.DocumentRuntime.ApplyEnvelope` | collaboration-state-worker/src/documentManager.ts:110-143 | one envelope changes exactly the part of the runtime it is about |
| `WorkerRuntime.DocumentRuntime.Shutdown` | collaboration-state-worker/src/documentRuntime.ts:131-139 | the final state is persisted once, however often it is called |
| `WorkerRuntime.DocumentManager.InitializeDocument` | collaboration-state-worker/src/documentManager.ts:24-48 | a fresh runtime holding the content given, with that one user and nothing said, is installed and subscribed, after shutting down an existing one; other documents are untouched |
| `WorkerRuntime.DocumentManager.SyncDocument` | collaboration-state-worker/src/documentManager.ts:51-55 | the present runtime, or nothing for an unknown document |
| `WorkerRuntime.DocumentManager.BeginMessage` | collaboration-state-worker/src/documentManager.ts:58-79 | a runtime that is there takes the envelope, and the handler goes on to wait with that runtime; without one the message is dropped |
| `WorkerRuntime.DocumentManager.EndMessage` | collaboration-state-worker/src/documentManager.ts:81-85 | after the await: if the runtime that took the envelope counts nobody by then, the document is closed and its final state persisted, otherwise nothing changes |
| `WorkerRuntime.DocumentManager.HandleRedisMessage` | collaboration-state-worker/src/documentManager.ts:58-85 | with nothing in between, the runtime held for the document becomes what `Handled` says: the envelope applied, or none once the count is zero, and then the final state has been persisted |
| `WorkerRuntime.DocumentManager.CloseDocument` | collaboration-state-worker/src/documentManager.ts:87-95 | the runtime is shut down, unsubscribed and removed, and no other is |
| `WorkerSession.WorkerCountExact` | collaboration-state-worker/src/documentManager.ts:57-95 | after any part of the log the document is closed if and only if the clients present have at some entry been none, and while it is open its user count is the number of clients whose join and not whose leave has been read |
| `WorkerSession.ClampNeverActs` | collaboration-state-worker/src/documentRuntime.ts:85-90 | a leave that an open document reads is that of a client counted and lowers a positive count by one, so the clamp at zero never acts; an entry closes the document if and only if it is the leave of the last client present |
| `WorkerTurns.TurnsCountExact` | collaboration-state-worker/src/index.ts:34-38 | however the messages fall into turns of the event loop, a document is closed if and only if the clients present have been none at the end of a turn, and while it is open its user count is their number |
| `WorkerTurns.TurnsAgreeExactly` | collaboration-state-worker/src/documentManager.ts:79-84 | the worker holds what it would hold handling each message alone if and only if a document that stood empty at some entry did so at a turn's end too |
| `WorkerScenarios.OpenInOneTurn` | collaboration-state-worker/src/documentManager.ts:79-84 | a reachable log whose last leave and next join, taken in one turn, leave the document open with the later edit, and closed when taken one by one |
| `WorkerSession.PresentStep` | collaboration-state-worker/src/documentManager.ts:114-123 | a join read is of a client not counted before, a leave of one that is |
| `WorkerSession.JoinedBeforeLeft` | ws-service/internal/hub/hub.go:64-92 | no leave is published before the same client's join, unless that join was lost |
| `WorkerSession.CountIsRegisteredClients` | collaboration-state-worker/src/documentManager.ts:79-84 | when all is drained and no announcement was lost an open document counts the registered clients, on all hubs together; it is open if and only if it never stood empty |
| `WorkerRoster.RosterKeptExactly` | collaboration-state-worker/src/documentRuntime.ts:93-111 | an open document lists exactly the users present after an entry if and only if the entry is not the leave of a client whose user has another connection open |
| `WorkerRoster.RosterIsRight` | collaboration-state-worker/src/documentRuntime.ts:93-111 | so the list is right over a whole session, while the document is open, in which that never happens |
| `WorkerScenarios.SecondConnectionStruck` | collaboration-state-worker/src/documentRuntime.ts:103-111 | a reachable session in which one user has two connections and one of them ends: the client that is left is counted, the user is listed not at all |
| `WorkerRoster.KeepsBodies` | ws-service/internal/hub/hub.go:138-144 | an announcement always names the user of the client that makes it |
| `JoinFlow.Workspace.Connected` | frontend/src/app/collaboration/collab-workspace.component.ts:271-276 | the joiner starts with an empty buffer that takes everything |
| `JoinFlow.Workspace.Inbound` | frontend/src/app/collaboration/collab-workspace.component.ts:367-411 | a message at any moment keeps the feeds complete: buffered before the worker's answer, routed after it |
| `JoinFlow.Workspace.JoinSynced` | frontend/src/app/collaboration/collab-workspace.component.ts:288-356 | the editor has got the snapshot followed by every well-formed change received since the socket opened, in order, once; the chat likewise |
| `JoinFlow.Workspace.DrainOne` | frontend/src/app/collaboration/collab-workspace.component.ts:311-348 | an envelope drained from the buffer adds to the feeds what the live routes would have added |
| `JoinFlow.Workspace.Route` | frontend/src/app/collaboration/collab-workspace.component.ts:367-411 | what the live routes forward |
| `JoinFlow.Workspace.ReplayChat` | frontend/src/app/collaboration/collab-workspace.component.ts:306-308 | the chat history goes out in order, in front of what was buffered |
| `JoinFlow.Workspace.Initialized` | frontend/src/app/collaboration/collab-workspace.component.ts:230-238 | the initialising client opens its feeds before it asks the worker |
| `JoinFlow.Workspace.InitSynced` | frontend/src/app/collaboration/collab-workspace.component.ts:247-256 | in the initialising flow the worker's state stands behind what the feeds had brought and before what follows |
| `JoinFlow.JoinFeedExactly` | frontend/src/app/collaboration/collab-workspace.component.ts:302-317 | place by place: first the worker's state, then one entry for each well-formed change received, in order |
| `JoinFlow.JoinChatExactly` | frontend/src/app/collaboration/collab-workspace.component.ts:306-346 | the chat is given the history first, then every message received but edits and acknowledgements, in order |
| `Envelopes.UpdatesInOrder` | frontend/src/app/collaboration/collab-workspace.component.ts:367-375 | the updates of a stream are those of its parts, in order |
| `JoinFlow.MergedSnapshotAndOnes` | frontend/src/app/collaboration/collab-workspace.component.ts:302-317 | merging a snapshot and later updates gives their union |
| `JoinFlow.JoinFeedSnoc` | frontend/src/app/collaboration/collab-workspace.component.ts:367-375 | receiving one more message extends the complete feed by what that message carries |
| `WorkerContents.OpenDocumentHolds` | collaboration-state-worker/src/documentRuntime.ts:33-80 | an open document keeps all the content it was opened with, has besides exactly the edits read, and its history is all that was said, in order |
| `WorkerContents.InitializedIsOpened` | collaboration-state-worker/src/documentManager.ts:34-46 | a document is opened on the stored content, for one user, with nothing said |
| `WorkerContents.JoinerHasContent` | collaboration-state-worker/src/documentRuntime.ts:119-128 | whoever joins an open document ends up with the content it was opened with |
| `LateJoiner.LateJoinerCatchesUp` | frontend/src/app/collaboration/collab-workspace.component.ts:271-353 | for every interleaving of hubs, worker and joiner: after drain, if the worker still has the document open, the joiner has merged exactly its updates |
| `LateJoiner.LateJoinerCatchesUpExactly` | collaboration-state-worker/src/documentManager.ts:81-95 | joiner and worker end up with the same document if and only if somebody has been present after every entry that the worker read |
| `LateJoiner.CatchesUpAfterOwnJoin` | frontend/src/app/collaboration/collab-workspace.component.ts:278-290 | so they do whenever the worker had read the joiner's own arrival before it answered |
| `WorkerScenarios.ClosedUnderJoiner` | collaboration-state-worker/src/documentManager.ts:81-95 | a reachable session in which the worker answers a joiner, then reads the leave of the last client before it and closes; the joiner's edit is never applied |
| `LateJoiner.WorkedUpdates` | collaboration-state-worker/src/documentRuntime.ts:63-74 | an open document is the initial one plus every edit of it in the part of the log read |
| `LateJoiner.WorkedIsReceived` | ws-service/internal/hub/hub.go:186-213 | whatever the worker has, it answered with or the joiner received |
| `LateJoiner.ReceivedIsWorked` | ws-service/internal/hub/hub.go:118-129 | whatever the joiner received, the worker has |
| `TextEdits.SweepIsRightToLeft` | frontend/src/app/markdown-editor/markdown-yjs-editor.component.ts:342-347 | the simultaneous reading of a change list agrees with applying it from its last change to its first |
| `DeltaConverter.Convert` | frontend/src/app/markdown-editor/markdown-yjs-editor.component.ts:314-335 | the loop emits the list `Converted` describes |
| `DeltaConverter.ConvertedIsSequential` | frontend/src/app/markdown-editor/markdown-yjs-editor.component.ts:314-335 | for every delta and text the emitted list, applied one change after another, gives the delta's result |
| `DeltaConverter.DispatchWorksExactly` | frontend/src/app/markdown-editor/markdown-yjs-editor.component.ts:314-347 | dispatched as one CodeMirror transaction it gives the delta's result on every text if and only if every hunk before the last edit deletes and then inserts equally much |
| `DeltaConverter.OneHunkWorks` | frontend/src/app/markdown-editor/markdown-yjs-editor.component.ts:314-347 | it does for every delta with one hunk |
| `DeltaConverter.TwoHunksFail` | frontend/src/app/markdown-editor/markdown-yjs-editor.component.ts:319-344 | a delta with two insertions for which it does not |
| `DeltaConverter.KeptPlace` | frontend/src/app/markdown-editor/markdown-yjs-editor.component.ts:319-335 | the sufficient half, from any point of the loop on |
| `DeltaConverter.Breaks` | frontend/src/app/markdown-editor/markdown-yjs-editor.component.ts:319-335 | the necessary half: a text on which the dispatch goes wrong |
| `SessionEdits.CollectLocalChanges` | frontend/src/app/markdown-editor/markdown-yjs-editor.component.ts:381-392 | the listener's loop moves each change by the growth of those before it |
| `SessionEdits.SharedText.ApplyLocalChanges` | frontend/src/app/markdown-editor/markdown-yjs-session.ts:108-131 | the loop's deletions and insertions in place amount to reading the list, moved by its running offset, one change after another, whenever no change leaves the text |
| `SessionEdits.SharedText.ReplaceAll` | frontend/src/app/markdown-editor/markdown-yjs-session.ts:82-92 | afterwards the text is the given one, whatever it was |
| `SessionEdits.RebasedIsSimultaneous` | frontend/src/app/markdown-editor/markdown-yjs-session.ts:113-129 | for every sorted, disjoint, in-range list in old coordinates one shifting by a running offset gives the same text as replacing all ranges at once |
| `SessionEdits.PipedWorks` | frontend/src/app/markdown-editor/markdown-yjs-editor.component.ts:381-395 | listener and session together are right when every change but the last keeps the length |
| `SessionEdits.PipelineInStepExactly` | frontend/src/app/markdown-editor/markdown-yjs-editor.component.ts:381-395 | after the whole transaction, on every text, the shared text is the view's if and only if every change but the last keeps the length |
| `SessionEdits.FallsOut` | frontend/src/app/markdown-editor/markdown-yjs-session.ts:113-129 | otherwise there is, for every length of text that the transaction fits, a text on which the two part |
| `SessionEdits.KilledUnit` | frontend/src/app/markdown-editor/markdown-yjs-session.ts:116-129 | a unit that the doubly shifted list deletes has no influence on its result |
| `SessionEdits.RightAt` | frontend/src/app/markdown-editor/markdown-yjs-editor.component.ts:381-392 | unit by unit, what the view shows at and behind the last change |
| `SessionEdits.TwoInsertionsFallOut` | frontend/src/app/markdown-editor/markdown-yjs-session.ts:113-129 | two insertions after which view and shared text differ |
| `EditorSync.NoEcho` | frontend/src/app/markdown-editor/markdown-yjs-editor.component.ts:291-348 | over any history of translatable events view and shared text agree after each, the guard is down, and exactly the local transactions have sent an update |
| `EditorSync.StaysInSync` | frontend/src/app/markdown-editor/markdown-yjs-editor.component.ts:291-396 | one event: both texts become what it means, and nothing received is sent on |
| `EditorSync.MarkdownYjsEditor.OnDelta` | frontend/src/app/markdown-editor/markdown-yjs-editor.component.ts:297-348 | a remote delta patches the view with the guard up for the dispatch only; a local one leaves the view alone |
| `EditorSync.MarkdownYjsEditor.OnDocUpdate` | frontend/src/app/markdown-editor/markdown-yjs-session.ts:29-35 | only an update of local origin goes out |
| `EditorSync.MarkdownYjsEditor.MustRelay` | frontend/src/app/markdown-editor/markdown-yjs-editor.component.ts:373-379 | the listener relays a change exactly when the guard is down |
| `EditorSync.MarkdownYjsEditor.Type` | frontend/src/app/markdown-editor/markdown-yjs-editor.component.ts:372-396 | every local transaction shows in the view and sends one update, and reaches the shared text through the doubly shifted list where that stays inside it |
| `EditorSync.MarkdownYjsEditor.Receive` | frontend/src/app/markdown-editor/markdown-yjs-session.ts:77-79 | a remote update reaches the view and sends none |
| `LockService.Backend.Create` | backend/src/main/java/com/somedomain/collab_editor/document/DocumentService.java:48-63 | the document and its OWNER row are written together |
| `LockService.Backend.AcquireLock` | backend/src/main/java/com/somedomain/collab_editor/lock/LockService.java:38-60 | acquire, expired rows replaced: state and reply are those of the lock model |
| `LockService.Backend.HandleLockRequest` | backend/src/main/java/com/somedomain/collab_editor/lock/LockService.java:182-204 | the table of requests against a live row: state and reply are those of the lock model |
| `LockService.Backend.CreateLock` | backend/src/main/java/com/somedomain/collab_editor/lock/LockService.java:206-222 | a new row names a holder exactly when it is exclusive |
| `LockService.Backend.SwitchExclusiveToCollaborative` | backend/src/main/java/com/somedomain/collab_editor/lock/LockService.java:63-91 | the switch, with its four refusals: state and reply are those of the lock model |
| `LockService.Backend.ReleaseLock` | backend/src/main/java/com/somedomain/collab_editor/lock/LockService.java:94-112 | release: state and reply are those of the lock model |
| `LockService.Backend.ReleaseCollaborativeLock` | backend/src/main/java/com/somedomain/collab_editor/lock/LockService.java:115-129 | the worker's release takes any row away |
| `LockService.Backend.RefreshLock` | backend/src/main/java/com/somedomain/collab_editor/lock/LockService.java:132-164 | renewal: state and reply are those of the lock model |
| `LockService.Backend.GetLock` | backend/src/main/java/com/somedomain/collab_editor/lock/LockService.java:167-180 | the look-up, which hides an expired row: state and reply are those of the lock model |
| `LockService.Backend.AcquireCollaborativeLock` | backend/src/main/java/com/somedomain/collab_editor/lock/LockService.java:230-269 | the worker's acquire: state and reply are those of the lock model |
| `LockService.Backend.CanUserEdit` | backend/src/main/java/com/somedomain/collab_editor/document/DocumentService.java:65-72 | the owner and holders of an EDITOR row, nobody else |
| `LockService.Backend.SaveDocument` | backend/src/main/java/com/somedomain/collab_editor/document/DocumentService.java:97-127 | the save guard and the write: state and reply are those of the lock model |
| `LockService.Backend.DeleteDocument` | backend/src/main/java/com/somedomain/collab_editor/document/DocumentService.java:130-143 | lock, permission rows and document go together: state and reply are those of the lock model |
| `LockService.Backend.UpdateContentAndRefreshLock` | backend/src/main/java/com/somedomain/collab_editor/internal/collaborationstateworker/WorkerDocumentSyncRepository.java:19-66 | content and lock row move in one step or not at all |
| `LockService.Backend.SyncDocument` | backend/src/main/java/com/somedomain/collab_editor/internal/collaborationstateworker/WorkerDocumentSyncService.java:39-71 | periodic and final synchronisation: state and reply are those of the lock model |
| `LockLaws.LookExactly` | backend/src/main/java/com/somedomain/collab_editor/lock/LockService.java:167-180 | a look-up answers nothing if and only if there is no row or its time lies before the present, and otherwise the row |
| `LockLaws.AcquireExactly` | backend/src/main/java/com/somedomain/collab_editor/lock/LockService.java:38-60 | a lock is granted if and only if no live lock is on, the user holds it, or a shared one is joined; the row names type, holder and time, and is all that changes; otherwise 423 and nothing changes |
| `LockLaws.RefreshExactly` | backend/src/main/java/com/somedomain/collab_editor/lock/LockService.java:132-164 | a renewal succeeds without a live lock, for the holder, and on a shared lock for anyone with a permission row, and keeps the type of the row met; otherwise 403 or 423 |
| `LockLaws.SwitchExactly` | backend/src/main/java/com/somedomain/collab_editor/lock/LockService.java:63-91 | only the holder of a live exclusive lock switches it; 409 for a live shared one, 423 otherwise |
| `LockLaws.ReleaseExactly` | backend/src/main/java/com/somedomain/collab_editor/lock/LockService.java:94-112 | after a release there is no row, unless a live one is met by somebody without a permission row: 403 |
| `LockLaws.WorkerAcquireExactly` | backend/src/main/java/com/somedomain/collab_editor/lock/LockService.java:230-269 | the worker has a shared lock for five minutes unless a live exclusive one is on: 409 |
| `LockLaws.SaveExactly` | backend/src/main/java/com/somedomain/collab_editor/document/DocumentService.java:97-127 | a save is accepted if and only if owner or EDITOR saves under a live lock that is shared or the saver's; then the content is the new one and nothing else changes; otherwise 403 or 423 |
| `LockLaws.SyncExactly` | backend/src/main/java/com/somedomain/collab_editor/internal/collaborationstateworker/WorkerDocumentSyncService.java:39-71 | a sync stores the content and keeps owner and rights; the lock row is the worker's for five minutes, or gone when it is the final one |
| `LockLaws.CreateExactly` | backend/src/main/java/com/somedomain/collab_editor/document/DocumentService.java:49-63 | a new document has its content, its owner and the OWNER row |
| `LockLaws.RemoveExactly` | backend/src/main/java/com/somedomain/collab_editor/document/DocumentService.java:130-143 | only the owner deletes, and exactly the document's own rows go |
| `LockLaws.UnknownDocument` | backend/src/main/java/com/somedomain/collab_editor/document/DocumentService.java:86-89 | for an unknown document nothing changes, and the reply is 404 but for the few cases that break a constraint or miss their content |
| `LockLaws.OthersUntouched` | backend/src/main/java/com/somedomain/collab_editor/lock/LockService.java:38-269 | no request touches the rows of another document |
| `LockLaws.ContentIsLastWritten` | backend/src/main/java/com/somedomain/collab_editor/document/DocumentService.java:118-122 | over every history a document's content is what the last accepted save, sync or creation carried |
| `LockLaws.LocksLapse` | backend/src/main/java/com/somedomain/collab_editor/lock/LockService.java:224-226 | over every history: once a lock's time is over and nobody has renewed it, anyone who asks is given the lock, and nobody saves without |
| `LockModel.ReachableConsistent` | backend/src/main/java/com/somedomain/collab_editor/lock/LockService.java:206-222 | in every reachable state a lock row is exclusive exactly when it names a holder, and rows belong to existing documents |
| `LockModel.ServeKeepsConsistent` | backend/src/main/java/com/somedomain/collab_editor/lock/LockService.java:38-269 | every request keeps that |
| `LockRuns.LazyIsEagerExactly` | backend/src/main/java/com/somedomain/collab_editor/lock/LockService.java:46-59 | a request is answered as by a machine that erases a lock the moment it expires, and leaves related tables, if and only if it is not a renewal that meets an expired collaborative row |
| `LockRuns.LazyRefinesEager` | backend/src/main/java/com/somedomain/collab_editor/lock/LockService.java:38-269 | the same over whole histories with a monotone clock, whether or not clean-up deletions survive rollback |
| `LockRuns.RefreshInheritsExpiredType` | backend/src/main/java/com/somedomain/collab_editor/lock/LockService.java:144-148 | the exception: the renewal takes over the expired row's type |
| `LockRuns.HoldKeptExactly` | backend/src/main/java/com/somedomain/collab_editor/lock/LockService.java:182-222 | one request before expiry leaves an exclusive lock with its holder if and only if it does not release, synchronise, delete, switch or shorten it |
| `LockRuns.ExclusiveEditing` | backend/src/main/java/com/somedomain/collab_editor/document/DocumentService.java:97-127 | along any history without these the lock stays, and every change of content is the holder's own save |
| `LockRuns.GrantedExclusiveHolds` | backend/src/main/java/com/somedomain/collab_editor/lock/LockService.java:38-60 | such a stretch begins with every lock request answered with an exclusive row |
| `LockRuns.OthersCannotSave` | backend/src/main/java/com/somedomain/collab_editor/document/DocumentService.java:104-119 | while it lasts everyone else's save is refused, with 423 or 403 |
| `SilentRefresh.SingleFlightKeptExactly` | frontend/src/app/core/jwt.interceptor.ts:51-106 | a step, unsubscribing included, leaves at most one refresh in flight, with the flag up while there is one, if and only if it is not the failing retry of an earlier leader while another refresh is on that does not wait for it |
| `SilentRefresh.AtMostOneRefresh` | frontend/src/app/core/jwt.interceptor.ts:51-106 | so at most one over every history without that |
| `SilentRefresh.TwoRefreshesAtOnce` | frontend/src/app/core/jwt.interceptor.ts:78-86 | a reachable state with two refreshes in flight |
| `SilentRefresh.KeepsSound` | frontend/src/app/core/jwt.interceptor.ts:48-106 | every step keeps: leaders and refreshes correspond, a refresh and its profile request point to each other, no token stands in the subject while a refresh is on |
| `SilentRefresh.AtMostOneRetry` | frontend/src/app/core/jwt.interceptor.ts:69-103 | no request, profile requests included, is ever sent a third time |
| `SilentRefresh.ParkedUntilSuccess` | frontend/src/app/core/jwt.interceptor.ts:87-102 | a parked request that nobody gives up stays parked, failed refreshes included, until one succeeds, and is then sent once with that refresh's token |
| `SilentRefresh.SuccessReleasesAll` | frontend/src/app/core/jwt.interceptor.ts:64-67 | a refresh that succeeds leaves nothing parked |
| `SilentRefresh.StuckReached` | frontend/src/app/core/jwt.interceptor.ts:57-63 | a reachable state in which the one refresh that is on waits for a profile request parked behind it |
| `SilentRefresh.StuckForGood` | frontend/src/app/core/jwt.interceptor.ts:63-102 | over every history: a refresh whose profile request is parked behind it stays on, and what is parked stays parked, until a retry lowers its flag or its leader is given up |
| `SilentRefresh.ResumesAfterSuccess` | frontend/src/app/core/jwt.interceptor.ts:64-102 | after that, the success of a later refresh sends the profile request out again, and its answer completes the first refresh with the token it had |
| `SilentRefresh.UnsubscribeExactly` | frontend/src/app/core/jwt.interceptor.ts:55-86 | unsubscribing from a request ends it, the refresh it leads, that refresh's profile request and so on, and changes nothing else: the flag, the subject and the session stay |
| `SilentRefresh.StrandsExactly` | frontend/src/app/core/jwt.interceptor.ts:52-86 | a step leaves the flag up with no refresh on if and only if it is the unsubscribing of a refresh's leader |
| `SilentRefresh.StrandedKeptExactly` | frontend/src/app/core/jwt.interceptor.ts:51-103 | a step ends that if and only if it is the failing retry of an earlier leader; a request answered 401 parks |
| `SilentRefresh.StrandedForGood` | frontend/src/app/core/jwt.interceptor.ts:87-102 | over every history without such a retry the flag stays up, no refresh starts, and what is parked stays parked unless given up itself |
| `SilentRefresh.StrandedByCancel` | frontend/src/app/core/jwt.interceptor.ts:52-57 | such a state is reached by one request sent, answered 401 and given up |
| `SessionLaws.SessionExactly` | frontend/src/app/core/jwt.interceptor.ts:51-86 | a refused token, a profile that does not come and a leader's failing retry log out, lower the flag and empty the subject; a profile that comes lowers the flag and emits the token; a token that comes is the session's; the first 401 raises the flag; nothing else touches any of the three |
| `SessionLaws.SessionIsLastToken` | frontend/src/app/core/jwt.interceptor.ts:57-86 | over every history: who is logged in has the last token that came, and nothing has failed since; who is not has seen a failure since every token |
| `SessionLaws.UnauthorizedExactly` | frontend/src/app/core/jwt.interceptor.ts:51-103 | a 401 leads a refresh if none is on and parks otherwise, and touches no other request; the retry at once is never taken |
| `SessionLaws.SendsExactly` | frontend/src/app/core/jwt.interceptor.ts:57-63 | requests and profile requests are sent as first attempts, and touch no other |
| `SessionLaws.EndsExactly` | frontend/src/app/core/jwt.interceptor.ts:48-49 | an answer to a request that loads no profile ends that request and nothing else |
| `SessionLaws.CompletesExactly` | frontend/src/app/core/jwt.interceptor.ts:63-75 | a profile that comes ends its request and the refresh, and sends exactly the leader and the parked once more with the new token |
| `SessionLaws.FailsExactly` | frontend/src/app/core/jwt.interceptor.ts:78-85 | a failure ends the request, the leader waiting for it and so on, with their refreshes, and nobody else |
| `SilentRefresh.Interceptor.OnUnauthorized` | frontend/src/app/core/jwt.interceptor.ts:51-103 | a first 401 starts a refresh, parks, or retries at once |
| `SilentRefresh.Interceptor.OnToken` | frontend/src/app/core/jwt.interceptor.ts:57-63 | the profile is asked for by a request like any other |
| `SilentRefresh.Interceptor.OnProfile` | frontend/src/app/core/jwt.interceptor.ts:64-74 | the flag goes down, parked requests go out, then the leader is retried |
| `SilentRefresh.Interceptor.NextToken` | frontend/src/app/core/jwt.interceptor.ts:67 | every parked request and no other is released |
| `SilentRefresh.Interceptor.OnEnd` | frontend/src/app/core/jwt.interceptor.ts:63-85 | the end of a profile request completes or fails the refresh that waits for it |
| `SilentRefresh.Interceptor.OnRefreshFailed` | frontend/src/app/core/jwt.interceptor.ts:78-85 | flag, subject and session are cleared, and the error goes on to whoever waits for the leader; parked requests stay |
| `SilentRefresh.Interceptor.OnUnsubscribe` | frontend/src/app/core/jwt.interceptor.ts:55-86 | what a request waits for is unsubscribed from with it, and no handler runs |
| `SilentRefresh.Interceptor.OnRetryAnswered` | frontend/src/app/core/jwt.interceptor.ts:74-85 | a failing retry of a leader runs the same error handler |
| `SharingRuns.PermissionProvenance` | backend/src/main/java/com/somedomain/collab_editor/sharing/SharingService.java:43-129 | in every reachable state of the whole backend the owner holds the one OWNER row of a document, and every other row goes back to the user's timely use of an invite the owner created, followed, unless the invite approves by itself, by the owner's approval at that level |
| `SharingRuns.SaversWereApproved` | backend/src/main/java/com/somedomain/collab_editor/document/DocumentService.java:100-102 | whoever saves is the owner or was approved as EDITOR by the owner in that way |
| `SharingRuns.LevelIsForLife` | backend/src/main/java/com/somedomain/collab_editor/sharing/SharingService.java:72-83 | a permission row never changes while its document exists: no later invite or approval lifts a VIEWER to EDITOR |
| `SharingRuns.ReachableTraced` | backend/src/main/java/com/somedomain/collab_editor/sharing/SharingService.java:43-129 | the induction behind these: every invite, pending request and permission row is traced to the calls that made it |
| `SharingLaws.CreateInviteExactly` | backend/src/main/java/com/somedomain/collab_editor/sharing/SharingService.java:43-57 | 404, 403 unless the owner asks; the invite lasts three hours or as long as asked |
| `SharingLaws.UseExactly` | backend/src/main/java/com/somedomain/collab_editor/sharing/SharingService.java:64-101 | 404 for an unknown invite, 400 for one that is over; an auto-approving one writes a VIEWER row for whoever has none and changes nothing for whoever has one; any other leaves exactly one pending request, the one answered |
| `SharingLaws.ProcessExactly` | backend/src/main/java/com/somedomain/collab_editor/sharing/SharingService.java:104-129 | 404, 403 unless the owner decides; a rejection only takes the request away; an approval writes EDITOR or VIEWER as asked, and is rolled back if there is a row |
| `SharingLaws.ViewerUnlessAsked` | backend/src/main/java/com/somedomain/collab_editor/sharing/SharingService.java:113-120 | an approval writes the level it names, and VIEWER when it names none |
| `SharingLaws.ApiExactly` | backend/src/main/java/com/somedomain/collab_editor/document/DocumentService.java:130-143 | other requests leave invites and access requests alone, but that exactly a deleted document's go with it |
| `SharingLaws.AutoApprovalLasts` | backend/src/main/java/com/somedomain/collab_editor/sharing/SharingService.java:73-84 | over every run: whoever used an auto-approving invite in time has a row as long as the document is there, VIEWER if there was none before |
| `SharingLaws.ApprovedEditorsCanSave` | backend/src/main/java/com/somedomain/collab_editor/sharing/SharingService.java:113-120 | over every run: whoever was approved as EDITOR can save as long as the document is there, under any live lock that is shared or the saver's |
| `Sharing.ServeKeepsSound` | backend/src/main/java/com/somedomain/collab_editor/sharing/SharingService.java:86-91 | every call keeps: one OWNER row per document, the owner's; invites are the owner's and expire; at most one pending request per document and user |
| `Sharing.ApprovalExactly` | backend/src/main/java/com/somedomain/collab_editor/sharing/SharingService.java:104-129 | an approval succeeds if and only if the document's owner gives it and the requester has no permission row; otherwise nothing changes, and the request stays |
| `Sharing.DeletionLeavesNothing` | backend/src/main/java/com/somedomain/collab_editor/document/DocumentService.java:130-143 | deletion leaves no row of any kind |
| `Sharing.EveryCallIsOneRequest` | backend/src/main/java/com/somedomain/collab_editor/sharing/SharingService.java:73-84 | to the lock model a sharing call is one grant or nothing, so its theorems cover the sharing workflow as well |
| `Sharing.SharingService.CreateInvite` | backend/src/main/java/com/somedomain/collab_editor/sharing/SharingService.java:43-57 | only the owner creates an invite; without an expiry it lasts three hours |
| `Sharing.SharingService.UseInvite` | backend/src/main/java/com/somedomain/collab_editor/sharing/SharingService.java:64-101 | 404 unknown, 400 expired; an auto-approving invite grants VIEWER once; another returns the pending request or creates one |
| `Sharing.SharingService.ProcessRequest` | backend/src/main/java/com/somedomain/collab_editor/sharing/SharingService.java:104-129 | 404, 403, or the request is granted or rejected and removed; a duplicate permission row rolls everything back |
| `Sharing.SharingService.DeleteDocument` | backend/src/main/java/com/somedomain/collab_editor/document/DocumentService.java:130-143 | a deleted document takes invites and requests along |
| `LockService.Backend.SavePermission` | backend/src/main/java/com/somedomain/collab_editor/sharing/SharingService.java:115-120 | a new permission row is refused when document and user have one |

## Left out

- Yjs and CodeMirror themselves: a Yjs document is the set of updates merged into it, an update is an opaque number, a text is a sequence of UTF-16 units, and CodeMirror's reading of a change list is the `Sweep` defined in `TextEdits`. How CodeMirror treats ranges that overlap is not in this repository; for such lists `Sweep` is the reading assumed in `DispatchWorksExactly`.
- Redis, go-redis, the websocket transport, deadlines, pings, JSON and base64: the broker delivers in publishing order to every open subscription, and a publication works or fails as a parameter says. Chat trimming, length limits and malformed payloads are answered with an error envelope in the code and are not told apart here.
- `HubRooms` states what one operation does undisturbed, `RoomUndisturbed` that the atomic steps of `RoomProtocol` then amount to the same; the two statements share `RoomMaps` and otherwise speak of different representations of a client (object and record), which are not linked by a proof.
- The forwarder's 256-message buffer is verified in `Forwarder`; in `RoomProtocol` a subscription is a cursor into the log, so backpressure there is only delay, where a closed subscription may stop anywhere before the end the log had when it was closed, as a closing forwarder does.
- RoomTheorems.NothingLost: assumes the publication of a message for another node did not fail; a failed one is recorded as lost, as the code only logs or reports it.
- RoomTheorems.SenderOrder: speaks of copies that came through one subscription; two rooms of one document on one node may interleave.
- WorkerSession.WorkerCountExact: assumes what the start-up sequence aims at, namely that the worker subscribes after the first client's join and before that of every other client not already gone, and that no join was lost. A document opened again after closing is another session, with a start and a first client of its own. The log is read there one message after another; `WorkerTurns` covers several handlers that have passed into the await between applying and testing. The awaits inside `closeDocument` are outside the model: messages applied, and a document initialised anew, while a close is waiting for Redis or the backend.
- The client's own `userCount` and `usernames`, and exactly-once chat on joining: snapshot and buffer overlap in the code, so no such claim is made. The initialising client receives nothing from the time before its feeds open.
- JoinFlow.Workspace.JoinSynced: messages are counted from the moment `connect` has resolved and the buffer's subscription exists, which the code does in one callback.
- SessionEdits.PipelineInStepExactly: what Yjs does with an edit outside the text is not in this repository. A list that leaves the text is counted as going wrong; SharedText then allows any text to come of it, and the contracts of `ApplyLocalChanges` and `Type` say nothing about the shared text.
- EditorSync.NoEcho: covers the events both translators handle rightly on every text; for the others the two exact conditions above say what happens. Undo history, read-only mode and the plain-text snapshot input are not modelled.
- A request to the backend is one transaction at one instant: `Instant.now()` is read once, and a failing transaction leaves the tables as they were, except that a clean-up deletion before the failure may survive. The order in which JPA flushes a deletion and an insertion under one key is not modelled. `lockedAt`, titles, timestamps and the version column are left out.
- Ids and invite tokens are drawn outside the model; one that is already taken is refused, where the database would draw another.
- Sharing.ServeKeepsSound: the controller's reading of the level name is a boolean; case folding is not modelled.
- SilentRefresh.ParkedUntilSuccess: assumes the refresh leaves a token to read; with none, parked requests would stay parked. Requests to the authentication endpoints, which the interceptor passes through, are left out.
- Choosing a worker by hash, websocket tickets, authentication, password hashing, configuration and the user interface: thin wrappers or foreign calls with easy claims.
