# Verified models of the Motyga client, analytics and daemon protocols

This project models the stateful cores of the Motyga command line tools and proves properties of whole
runs of them. Each protocol is a state machine or a fold over its inputs, written as functions; where the
original code updates state in place or loops, a class or a method with the same branches is proved
against those functions.

- **In-process event forwarding** (`EventForwarding`, `EventAccounting`, `InProcessWorker`): one worker, a bounded queue, lag
  markers, lossless and best-effort events, a consumer that may drain or close between any two steps.
- **Remote JSON-RPC worker** (`RemoteWorker`, `RemoteAnswers`, `RemoteStream`, `RemoteFrames`, `RemoteClient`): requests matched to waiters by id (section 5
  of the JSON-RPC 2.0 Specification), unknown server requests rejected with code -32601 (section 5.1), the
  drain of waiters on exit, and the event stream across the initialize handshake.
- **Analytics reducer** (`AnalyticsFacts`, `ReducerModel`, `Reducer`, and the modules about it): seven maps
  that join facts arriving in any order into turn, tool, review and steer events. `FactReading` says, without
  the maps, which events a history of facts calls for; the reducer is proved to put out exactly those.
- **Daemon lifecycle** (`DaemonLifecycle`, `DaemonHistory`, `DaemonScripts`, `DaemonOutcomes`, `DaemonEffects`): many processes running start, stop, restart, bootstrap,
  set-remote-control and updater restarts over a lock file, a settings file and a backend, in every
  interleaving, with crashes.
- **Unified-diff summariser** (`AcceptedLines`, `GitDiff`, `DiffBoundary`): the line parser, proved exact
  against a printer of structured git diffs.
- **Usage deduplication, event batching and argument rebuilding** (`UsageDedupe`, `EventBatches`,
  `WrapperArgs`).

Every run is a sequence of actions or facts; an action that is not enabled leaves the state alone, so the
theorems hold for every interleaving. Fields marked as history in a state record what happened and never
influence a step; where a main result names one, it is tied to the actions or facts of the run.

## What is proved

| protocol | main results |
|---|---|
| event forwarding | `AcceptedAreSettled`, `LagConservation`, `LosslessTier`, `RequestAccounting`, `FullQueue`, `NoLagWithoutPressure`, `ConsumerReadsInOrder` |
| remote worker | `ExactlyOnce`, `RequestIsAnswered`, `DuplicateIsRefused`, `RoutedToFirstAnswer`, `OutcomeIsFinal`, `ConnectionEnds`, `CommandGetsReceipt`, `EventStreamShape` |
| reducer | `EventsAreRead`, `StreamIsRead`, `OneTurnEvent`, `EventCarriesLastFacts`, `AnyOrder`, `OrdersAgree`, `TurnsDoNotInterfere`, `SummaryIsFold`, `FreshBetweenEvents`, `TurnEventCounts`, `ThreadLookup`, `SteersSpentOnce`, `UserReviewsSpentOnce`, `ToolStartsSpentOnce`; `Valid` carries them over to the class |
| daemon | `LockAndStartSafety`, `CallsAreGuarded`, `ChangesNeedTheLock`, `LaunchFlagAgrees`, `UnmanagedServerBlocks`, `EveryProcessFollowsItsScript`, `SuccessAccomplishes`, `StopLeavesNothingRunning`, `SuccessLeavesTheSetting` |
| diffs | `SummarizeIsExact`, `CompositionIff`, `NormalizedWords`, `NormalizeIsIdempotent` |
| small loops | `DedupeBound`, `BatchingIsUnique`, `RebuildIsFixpoint`, `RebuiltList` |

Four expectations turn out to hold only under a condition, and the condition is proved exact:

- Rebuilding arguments is a fixpoint if and only if the manifest path is not `--` or the user gave one
  (`RebuildIsFixpoint`).
- Summarising one diff followed by another is the sum of both, for every second diff, if and only if the
  first one ends its last line, or its unfinished last line starts a section, or the lines before that leave
  no path and no hunk open and it starts neither a hunk nor names a file (`CompositionIff`).
  `CompositionNeedsLineBoundary` is a first diff that fails.
- Two lists of facts about a turn that tell the same one of every kind last have the same outcome if and only
  if they settle on the same thread (`OrdersAgree`). Rearranged facts that all name one thread do
  (`AnyOrder`); `ThreadOrderMatters` is a run of the reducer in which the order matters.
- The context lookup of a turn event can meet a connection that was never initialised, but only through the
  turn's own connection (`TurnLookup`, `UninitializedTurn`). The lookup of thread-scoped events cannot.

## Model

| member | source | states |
|---|---|---|
| EventForwarding.NextPreserves | motyga-rs/app-server-client/src/lib.rs:196-262 | every micro-step of the worker and every move of the consumer keeps the accounting invariant of queue, markers, counter and fates |
| EventForwarding.RunInvariant | motyga-rs/app-server-client/src/lib.rs:484-593 | the invariant holds in every state a started worker can reach |
| EventAccounting.LagConservation | motyga-rs/app-server-client/src/lib.rs:196-262 | the events taken, apart from auth refreshes, are those that entered the queue + announced by markers + still counted + in hand + forgotten by a saturated counter (none below 2^64 taken); one may be missing only after closing or abort; the queue never exceeds its capacity |
| EventForwarding.CapacityIsFixed | motyga-rs/app-server-client/src/lib.rs:484-489 | the queue's capacity is the configured one, at least one, throughout |
| EventAccounting.LosslessTier | motyga-rs/app-server-client/src/lib.rs:139-262 | the lossless events are named one by one: completed turns and items, thread settings updates, completed imports, and the deltas of agent messages, plans and the two kinds of reasoning; while the queue is open, those taken are exactly those the consumer has read or can read, in order and once each, plus one in hand; entries are taken events in order; the markers before an entry announce exactly the events dropped before it |
| EventAccounting.OnlyBestEffortIsDropped | motyga-rs/app-server-client/src/lib.rs:139-176 | what is dropped is never one of the lossless events, and what is rejected as unsupported is always an auth refresh |
| EventAccounting.FullQueue | motyga-rs/app-server-client/src/lib.rs:219-262 | on a full open queue a lossless event waits; any other is given up at once, counted up to 2^64 - 1 and, if it is a request, rejected with code -32001 |
| EventAccounting.RoomInQueue | motyga-rs/app-server-client/src/lib.rs:196-262 | with room in an open queue the event in hand goes in, after a marker that tells how many were dropped |
| EventForwarding.ConsumerReadsInOrder | motyga-rs/app-server-client/src/lib.rs:747-753 | what the consumer reads is a prefix of what entered the queue, and nothing goes missing while it listens |
| EventAccounting.RequestAccounting | motyga-rs/app-server-client/src/lib.rs:543-590 | of the taken requests, the auth refreshes are rejected with code -32000 and never enqueued, every other one enters the queue or is rejected with code -32001, never both; only one in hand, or lost at closing, is neither |
| EventAccounting.AcceptedAreSettled | motyga-rs/app-server-client/src/lib.rs:543-590 | nothing taken is swallowed: in order, every taken event is settled or the one in hand |
| EventAccounting.LossNeedsClosing | motyga-rs/app-server-client/src/lib.rs:210-248 | an event is lost, and the stream turned off, only after the queue was closed or the worker aborted |
| EventAccounting.NoLagWithoutPressure | motyga-rs/app-server-client/src/lib.rs:250-262 | while the queue has room nothing is dropped, announced or counted |
| InProcessWorker.Worker.constructor | motyga-rs/app-server-client/src/lib.rs:484-493 | a worker starts in the machine's initial state with the capacity clamped to one |
| InProcessWorker.Worker.FlushBlocking | motyga-rs/app-server-client/src/lib.rs:205-218 | the blocking flush before a lossless event is a run of the machine, whatever the consumer does while it waits |
| InProcessWorker.Worker.FlushOrDrop | motyga-rs/app-server-client/src/lib.rs:219-238 | the flush before a best-effort event sends the marker or drops the event, as the machine does |
| InProcessWorker.Worker.DeliverBlocking | motyga-rs/app-server-client/src/lib.rs:241-248 | delivery of a lossless event is a run of the machine |
| InProcessWorker.Worker.DeliverOrDrop | motyga-rs/app-server-client/src/lib.rs:250-262 | delivery of a best-effort event is a step of the machine, with the drop counted and a dropped request rejected |
| InProcessWorker.Worker.Forward | motyga-rs/app-server-client/src/lib.rs:196-262 | flush and delivery together are a run of the machine |
| InProcessWorker.Worker.HandleEvent | motyga-rs/app-server-client/src/lib.rs:543-590 | one event of the worker loop is a run of the machine that keeps the invariant; auth refreshes leave the queue alone |
| RemoteWorker.WaitersPreserved | motyga-rs/app-server-client/src/remote.rs:216-474 | every step keeps each accepted command queued, pending or answered, exactly one of these, and the pending map precise |
| RemoteWorker.StreamPreserved | motyga-rs/app-server-client/src/remote.rs:319-463 | every step keeps the event stream equal to the decoded wire plus at most one farewell |
| RemoteWorker.RulingIsOutcome | motyga-rs/app-server-client/src/remote.rs:236-474 | one step gives a registered waiter the answer carrying its id, or the exit error, or leaves it pending |
| RemoteWorker.RoutedToFirstAnswer | motyga-rs/app-server-client/src/remote.rs:323-332 | the holder of a pending id receives exactly the first response or error with that id, or the exit error if the worker ends first |
| RemoteWorker.OutcomeIsFinal | motyga-rs/app-server-client/src/remote.rs:323-332 | an outcome, once given, is never changed or repeated |
| RemoteWorker.ExitAnswers | motyga-rs/app-server-client/src/remote.rs:466-474 | on exit every remaining waiter gets one failure and settled ones keep theirs |
| RemoteWorker.StopsExactly | motyga-rs/app-server-client/src/remote.rs:219-464 | a worker stops for a failed request write, a shutdown, a closed command channel, a frame that is invalid, closes, fails or ends the stream, an unwritable rejection or an undeliverable event, named one by one, and for nothing else |
| RemoteAnswers.ExactlyOnce | motyga-rs/app-server-client/src/remote.rs:216-474 | numbering the accepted commands: none is answered twice and after the stop each has one outcome; the pending map is precisely the submitted requests, under their own ids and waiters, that have left the queue unanswered |
| RemoteAnswers.RequestIsAnswered | motyga-rs/app-server-client/src/remote.rs:227-332 | for a request submitted at any point of any run, its waiter gets exactly one of: the duplicate error, the write error, the first response or error with its id after registration, the exit error, as the rest of the run decides |
| RemoteAnswers.DuplicateIsRefused | motyga-rs/app-server-client/src/remote.rs:227-235 | at any point of any run a duplicate keeps its error for good, and the waiter that holds the id still gets exactly the first ruling of what follows |
| RemoteStream.EventStreamShape | motyga-rs/app-server-client/src/remote.rs:319-463 | what `next_event` has yielded is a prefix of the decodable events of the frames read, the handshake's first and in wire order, then at most one disconnect after the worker stopped; the unread ones complete it; unknown requests are rejected once each in wire order |
| RemoteStream.DecodedAreNotFarewells | motyga-rs/app-server-client/src/remote.rs:938-943 | no event decoded from the wire is a disconnect, so the farewell is the only one and comes last |
| RemoteFrames.ConnectionEnds | motyga-rs/app-server-client/src/remote.rs:397-462 | an invalid frame, a close with or without a reason, a transport error and the end of the stream each stop a running worker: a listening consumer is told the reason last, and every remaining waiter fails with that reason and the error kind of that frame |
| RemoteFrames.MeaninglessIsIgnored | motyga-rs/app-server-client/src/remote.rs:319-462 | a control frame, an unknown notification and an answer nobody waits on change nothing but what was read |
| RemoteFrames.EventIsDelivered | motyga-rs/app-server-client/src/remote.rs:333-393 | a known notification or request reaches a listening consumer as it is, after those unread; without a consumer the worker stops and every pending waiter learns that the channel is closed |
| RemoteFrames.UnknownIsRejected | motyga-rs/app-server-client/src/remote.rs:353-393 | an unknown request is rejected under its id; if that cannot be written the consumer is told, the worker stops and every pending waiter fails with the write error |
| RemoteFrames.CommandGetsReceipt | motyga-rs/app-server-client/src/remote.rs:261-317 | a message write or shutdown submitted at any point of any run to a running worker with room gets one outcome: written or the write error when it comes off the queue, or that its reply channel is gone if the worker ends before |
| RemoteClient.InitializeRemoteConnection | motyga-rs/app-server-client/src/remote.rs:794-936 | the handshake succeeds exactly on the first deciding frame being the initialize response with both writes done; the events set aside are those of the frames read, in order; a refusal names its cause: the first write, the deciding frame, the last write, or the timeout |
| RemoteClient.HandleInitializeMessage | motyga-rs/app-server-client/src/remote.rs:830-905 | one message of the handshake ends it, sets an event aside, rejects an unknown request or is passed over |
| RemoteClient.HandleInitializeFrame | motyga-rs/app-server-client/src/remote.rs:820-936 | one frame of the handshake ends it or is read on |
| RemoteClient.Client.constructor | motyga-rs/app-server-client/src/remote.rs:205-218 | a connected client starts with the handshake's events and nothing pending |
| RemoteClient.Client.FailPending | motyga-rs/app-server-client/src/remote.rs:472-474 | the loop over the pending map answers each remaining waiter once and empties it |
| RemoteClient.Client.LeaveDisconnected | motyga-rs/app-server-client/src/remote.rs:410-474 | the consumer is told, then every remaining waiter is failed with the same reason |
| RemoteClient.Client.HandleRequest | motyga-rs/app-server-client/src/remote.rs:227-260 | registering, refusing a duplicate and undoing a failed write do what the machine's request step does |
| RemoteClient.Client.Dispatch | motyga-rs/app-server-client/src/remote.rs:226-317 | one command off the queue does what the machine's command step does |
| RemoteClient.Client.HandleCommand | motyga-rs/app-server-client/src/remote.rs:221-318 | one command of the select loop is one step of the machine and keeps the invariant |
| RemoteClient.Client.Route | motyga-rs/app-server-client/src/remote.rs:323-332 | an answer goes to the waiter registered under its id, and to nobody otherwise |
| RemoteClient.Client.HandleMessage | motyga-rs/app-server-client/src/remote.rs:321-393 | one decoded message does what the machine's message step does |
| RemoteClient.Client.HandleRead | motyga-rs/app-server-client/src/remote.rs:395-462 | the branches on the kind of frame do what the machine's frame step does |
| RemoteClient.Client.HandleFrame | motyga-rs/app-server-client/src/remote.rs:319-462 | one frame is one step of the machine and keeps the invariant; the worker goes on exactly if the frame is none of those that end it |
| RemoteClient.Client.NextEvent | motyga-rs/app-server-client/src/remote.rs:593-598 | events set aside during the handshake come before those of the channel |
| Reducer.AnalyticsReducer.constructor | motyga-rs/analytics/src/reducer.rs:148-157 | a fresh reducer is the run of no facts |
| Reducer.AnalyticsReducer.ThreadContextOrWarn | motyga-rs/analytics/src/reducer.rs:1666-1703 | between two facts the lookup succeeds exactly for a thread known with a connection and never misses a connection or metadata |
| Reducer.AnalyticsReducer.MaybeEmitTurnEvent | motyga-rs/analytics/src/reducer.rs:1606-1664 | a turn with all parts and context is reported and forgotten, any other is left alone; the event carries the turn's state field by field, and a second one the model and the added and deleted lines of the diff, if there are any |
| Reducer.AnalyticsReducer.IngestTurnFact | motyga-rs/analytics/src/reducer.rs:668-715 | the object stays the run of its facts and puts out exactly the events the history calls for; they start with the event of this turn, which is then forgotten |
| Reducer.AnalyticsReducer.WriteTurnFact | motyga-rs/analytics/src/reducer.rs:668-715 | facts about a turn are written into its state and, where the source does, followed by an attempt to report it |
| Reducer.AnalyticsReducer.IngestClientRequest | motyga-rs/analytics/src/reducer.rs:637-666 | the object stays the run of its facts, nothing is put out, and a start or steer is pending |
| Reducer.AnalyticsReducer.EmitThreadInitialized | motyga-rs/analytics/src/reducer.rs:1337-1387 | a thread opened on a known connection gets that connection and its metadata, and is reported |
| Reducer.AnalyticsReducer.EmitTurnSteerEvent | motyga-rs/analytics/src/reducer.rs:1498-1537 | between two facts a steer is reported exactly when its connection and thread are known |
| Reducer.AnalyticsReducer.IngestTurnStartResponse | motyga-rs/analytics/src/reducer.rs:930-945 | the pending start is spent and its connection, thread and images go into the turn |
| Reducer.AnalyticsReducer.IngestTurnSteerResponse | motyga-rs/analytics/src/reducer.rs:1473-1496 | the pending steer is spent, counted for a turn that has state, and reported |
| Reducer.AnalyticsReducer.IngestClientResponse | motyga-rs/analytics/src/reducer.rs:892-954 | the object stays the run of its facts and puts out exactly the events the history calls for; an answered request is no longer pending, and answering it again does nothing |
| Reducer.AnalyticsReducer.IngestErrorResponse | motyga-rs/analytics/src/reducer.rs:1157-1205 | the object stays the run of its facts and puts out exactly the events the history calls for; a failed request is no longer pending, and failing it again does nothing |
| Reducer.AnalyticsReducer.SpendRequest | motyga-rs/analytics/src/reducer.rs:1157-1205 | an error spends the pending request and reports a rejected steer |
| Reducer.AnalyticsReducer.IngestSubAgentThreadStarted | motyga-rs/analytics/src/reducer.rs:583-612 | the object stays the run of its facts and puts out exactly the sub-agent's event; its thread is known with metadata |
| Reducer.AnalyticsReducer.RecordItemReviewSummary | motyga-rs/analytics/src/reducer.rs:1587-1604 | one review is added to the item's summary |
| Reducer.AnalyticsReducer.EmitReviewEvent | motyga-rs/analytics/src/reducer.rs:1539-1585 | the summary is recorded first, then the event is put out if its context is known |
| Reducer.AnalyticsReducer.IngestServerAnswer | motyga-rs/analytics/src/reducer.rs:1072-1155 | the object stays the run of its facts and puts out exactly the review event the history calls for, with the status and resolution read off the answer by its constructor; an answered approval is no longer pending, and answering it again does nothing |
| Reducer.AnalyticsReducer.IngestGuardianReviewCompleted | motyga-rs/analytics/src/reducer.rs:1431-1471 | the object stays the run of its facts and puts out exactly the review event the history calls for; a permission or network review leaves the summaries alone |
| Reducer.AnalyticsReducer.IngestItemStart | motyga-rs/analytics/src/reducer.rs:1213-1229 | the object stays the run of its facts and nothing is put out |
| Reducer.AnalyticsReducer.IngestItemEnd | motyga-rs/analytics/src/reducer.rs:1230-1293 | the object stays the run of its facts and puts out exactly the tool event the history calls for, with the fold of the item's reviews; the item's start is spent |
| Reducer.AnalyticsReducer.ItemEnd | motyga-rs/analytics/src/reducer.rs:1230-1293 | a completion is counted for a turn with state, spends the item's start, and ends its summary when the event has its context |
| Reducer.AnalyticsReducer.IngestInitialize | motyga-rs/analytics/src/reducer.rs:558-581 | the object stays the run of its facts and the connection is known |
| Reducer.AnalyticsReducer.IngestServerRequest | motyga-rs/analytics/src/reducer.rs:956-1070 | the object stays the run of its facts and the approval is pending under its own name |
| Reducer.AnalyticsReducer.IngestScopedFact | motyga-rs/analytics/src/reducer.rs:1389-1429 | the object stays the run of its facts; the event is put out exactly for a thread known with a connection, and is the one the history calls for |
| Reducer.AnalyticsReducer.IngestFact | motyga-rs/analytics/src/reducer.rs:423-556 | the object stays the run of its facts and puts out exactly the events the history calls for; steer and user review events never outnumber their requests |
| Reducer.AnalyticsReducer.IngestAll | motyga-rs/analytics/src/client.rs:127-134 | the receive loop makes the object the run of all facts, and all it has put out is what is read off the whole history |
| Reducer.EventsAreFaithful | motyga-rs/analytics/src/reducer.rs:1230-1293 | every tool event carries the fold of its item's reviews and every turn event the counts since the last one |
| ReducerReads.EventsAreRead | motyga-rs/analytics/src/reducer.rs:423-556 | after any history of facts, the next fact makes the reducer put out exactly the events that the history calls for, none missing and none added, every field from the fact it comes from |
| ReducerReads.StreamIsRead | motyga-rs/analytics/src/reducer.rs:423-556 | the whole stream of events is the one read off the whole history |
| ReducerReads.OpenReads | motyga-rs/analytics/src/reducer.rs:1337-1387 | a thread opened on an introduced connection is reported with that connection's client and runtime, the thread's last originator as product, and its metadata |
| ReducerReads.SteerReads | motyga-rs/analytics/src/reducer.rs:1498-1537 | a steer event names the steer that waited under the request, the turn of the answer that accepted it or the reason of the error that rejected it |
| ReducerReads.TurnReads | motyga-rs/analytics/src/reducer.rs:1606-1664 | a turn is reported by a configuration, profile, token count, completion or start answer once its notes since the last report have all five parts and its context is known; the event carries the last note of each kind and the counts of steers and items |
| ReducerReads.AnswerReads | motyga-rs/analytics/src/reducer.rs:1072-1155 | a user review event: declines, empty permissions and network denials are denied, cancels and aborts aborted, the rest approved; session acceptances and amendments are its resolution; subject, trigger and permissions are those asked for |
| ReducerReads.GuardianReads | motyga-rs/analytics/src/reducer.rs:1431-1471 | a guardian review event: its status by the guardian's, its subject, trigger and permissions by the action; none while in progress |
| ReducerReads.ToolReads | motyga-rs/analytics/src/reducer.rs:1230-1293 | a tool event: the item and how it ended, its last start, its duration if not negative, the fold of its reviews |
| FactAgreement.GreetedAgrees | motyga-rs/analytics/src/reducer.rs:558-581 | the connection map holds what each connection last said of itself |
| FactAgreement.ThreadsAgree | motyga-rs/analytics/src/reducer.rs:583-612 | the thread map holds the connection and metadata a thread was last opened with and the last originator given, or those of its first sub-agent |
| FactAgreement.WantedAgrees | motyga-rs/analytics/src/reducer.rs:637-666 | the request map holds exactly the start and steer requests that wait for an answer |
| FactAgreement.TurnsAgree | motyga-rs/analytics/src/reducer.rs:668-715 | the turn map holds, for each turn, the last note of each kind since its last report |
| FactAgreement.AskedAgrees | motyga-rs/analytics/src/reducer.rs:956-1070 | the pending-review map holds exactly the approvals the facts leave open, each with the subject, trigger and permissions it asks for |
| FactAgreement.StartsAgree | motyga-rs/analytics/src/reducer.rs:1213-1269 | the start map holds the last start of each item that has not been completed since |
| ReducerFrames.FactEmits | motyga-rs/analytics/src/reducer.rs:423-556 | which facts can put out which events: turn reports only by facts about that turn, steers only by answers and errors, user reviews only by answers, tool events only by that item's completion |
| ReducerFrames.ThreadsFrame | motyga-rs/analytics/src/reducer.rs:558-612 | only initialisation and thread and sub-agent starts change threads or connections |
| ReducerContext.LinkedAlways | motyga-rs/analytics/src/reducer.rs:558-612 | in every reachable state a known thread has metadata and its connection, if any, is initialised |
| ReducerContext.ThreadLookup | motyga-rs/analytics/src/reducer.rs:1666-1703 | in every reachable state the lookup succeeds exactly for a thread known with a connection; its missing-connection and missing-metadata branches are never taken |
| ReducerContext.TurnLookup | motyga-rs/analytics/src/reducer.rs:1622-1645 | exactly when a turn's lookup succeeds; its missing branches need the turn's own connection |
| ReducerContext.SteerLookup | motyga-rs/analytics/src/reducer.rs:1507-1518 | a steer's lookup succeeds exactly when connection and thread are known |
| ReducerContext.UninitializedTurn | motyga-rs/analytics/src/reducer.rs:1606-1637 | the missing-connection branch of a turn event is reached: a turn with all its parts, on a connection that was never initialised, is not reported and kept |
| PendingSpent.SteersSpentOnce | motyga-rs/analytics/src/reducer.rs:637-666 | steer events plus pending steers never exceed steer requests |
| PendingSpent.SettledOnce | motyga-rs/analytics/src/reducer.rs:1157-1168 | once a client request is answered or failed, further answers do nothing until it is made again |
| PendingSpent.UserReviewsSpentOnce | motyga-rs/analytics/src/reducer.rs:1072-1155 | user review events plus open approvals never exceed approval requests |
| PendingSpent.AnsweredOnce | motyga-rs/analytics/src/reducer.rs:1083-1085 | once an approval is answered or aborted, further answers do nothing until it is asked for again |
| PendingSpent.ToolStartsSpentOnce | motyga-rs/analytics/src/reducer.rs:1213-1269 | for every item, tool events plus a waiting start never exceed the starts |
| ReviewFold.AnswerIsRead | motyga-rs/analytics/src/reducer.rs:2193-2250 | the status and resolution of every answer, and the outcome they come to: denied by declines, network denials and empty permissions, aborted by cancels and aborts, approved for the session by session acceptances |
| ReviewFold.VerdictIsRead | motyga-rs/analytics/src/reducer.rs:2252-2270 | the status and outcome of every guardian status: a timed-out review comes to aborted |
| ReviewFold.GuardianIsRead | motyga-rs/analytics/src/reducer.rs:2272-2358 | the subject, name, trigger and permissions of every guardian action |
| ReviewFold.SummaryIsFold | motyga-rs/analytics/src/reducer.rs:1539-1604 | for every item the stored summary is the fold of the reviews resolved on it since the last completion that ended it, emitted or not, where the reviews and what they come to are read off the facts alone |
| ReviewFold.ToolEventCarriesFold | motyga-rs/analytics/src/reducer.rs:1279-1292 | a tool event is put out only by a completion that ends the item, carries exactly that fold, and user plus guardian reviews make the total |
| ReviewFold.PermissionReviewsDoNotCount | motyga-rs/analytics/src/reducer.rs:1752-1763 | permission and network reviews, by the user or the guardian, change no summary |
| TurnView.IngestSteps | motyga-rs/analytics/src/reducer.rs:1606-1664 | what any fact does to any one turn, and the events it puts out about it |
| TurnIsolation.BothStep | motyga-rs/analytics/src/reducer.rs:423-556 | states that look the same from a turn still do after any fact, with the same events about it |
| TurnIsolation.TurnsDoNotInterfere | motyga-rs/analytics/src/reducer.rs:423-556 | leaving out of a run every fact that names another turn changes nothing in the sequence of a turn's events |
| TurnFreshness.FreshBetweenEvents | motyga-rs/analytics/src/reducer.rs:1606-1664 | between two events of one turn there are a new configuration, a new profile and a new completion |
| TurnFreshness.EmitsAtMeans | motyga-rs/analytics/src/reducer.rs:1646-1663 | the positions spoken of are exactly those where a turn event is put out |
| TurnFreshness.ToolsAreCounted | motyga-rs/analytics/src/reducer.rs:1230-1255 | a turn's tool counts are those of the completions received while it had state since its last event |
| TurnFreshness.TurnEventCounts | motyga-rs/analytics/src/reducer.rs:395-420 | a turn event's counts are those completions by category, and the total is the sum of the seven |
| TurnConfluence.WrittenIsMerged | motyga-rs/analytics/src/reducer.rs:668-715 | writing the facts one by one leaves, for each kind, the last one told |
| TurnConfluence.OneTurnEvent | motyga-rs/analytics/src/reducer.rs:1606-1664 | any order of one configuration, one profile and one completion, other facts before the last of them, puts out nothing until that one and then exactly the report of the merged state, after which only the turn is forgotten |
| TurnConfluence.EventCarriesLastFacts | motyga-rs/analytics/src/reducer.rs:2576-2703 | that event carries, field by field, the last fact of each kind, or what the turn had before; the accepted-lines event carries the configuration's model and the lines the last diff adds and deletes |
| TurnConfluence.AmongOtherTurns | motyga-rs/analytics/src/reducer.rs:423-556 | the same with facts that name other turns in between: nothing about the turn before the last of its facts, then exactly its report |
| TurnConfluence.ReportShape | motyga-rs/analytics/src/reducer.rs:2546-2574 | the report is one turn event that carries the turn's state field by field, followed by an accepted-lines event with the thread, model and line counts exactly when the latest diff adds or deletes a line |
| TurnConfluence.OrdersAgree | motyga-rs/analytics/src/reducer.rs:668-715 | two lists of facts that tell the same one of every kind last have the same outcome if and only if they settle on the same thread |
| TurnConfluence.OneThread | motyga-rs/analytics/src/reducer.rs:668-715 | facts that all name one thread settle on it in every order |
| TurnConfluence.AnyOrder | motyga-rs/analytics/src/reducer.rs:1606-1664 | facts about one thread, rearranged across kinds, have the same outcome |
| TurnConfluence.ThreadOrderMatters | motyga-rs/analytics/src/reducer.rs:668-693 | in a reachable state that knows two threads, the reducer's outcome depends on the order of a configuration for one and token usage for the other |
| DaemonLifecycle.MatchesKept | motyga-rs/app-server-daemon/src/lib.rs:533-632 | in a critical section the settings in hand are those on file, and a cleared way stays clear |
| DaemonLifecycle.NextPreserves | motyga-rs/app-server-daemon/src/lib.rs:284-441 | every step of every process, every crash and every change of the surroundings keeps the invariant |
| DaemonLifecycle.LockAndStartSafety | motyga-rs/app-server-daemon/src/lib.rs:284-441 | saves, stops and starts are only attempted with the lock held, by one process at a time; a start only after the same section saw no managed backend or stopped it, with none running |
| DaemonLifecycle.UnmanagedServerBlocks | motyga-rs/app-server-daemon/src/lib.rs:340-441 | while an unmanaged server is up, an operation begun then attempts no save, stop or start, is over after at most five calls, and fails, except that `start` can succeed and the updater can find the lock taken |
| DaemonLifecycle.NeverStuck | motyga-rs/app-server-daemon/src/lib.rs:340-441 | in such an operation the next call can always return |
| DaemonHistory.HistoryTells | motyga-rs/app-server-daemon/src/lib.rs:284-441 | the history fields say what the process has done in the run: saved and not launched since, or seen no backend or stopped it and not launched since |
| DaemonHistory.CallsAreGuarded | motyga-rs/app-server-daemon/src/lib.rs:284-441 | a process about to save, stop or start holds the lock; about to launch, it has last seen no managed backend or stopped it, and none is running |
| DaemonHistory.ChangesNeedTheLock | motyga-rs/app-server-daemon/src/lib.rs:284-441 | settings and backend change only by a save, a stop or a launch of the lock holder, a launch only when none is running; apart from that the backend can die |
| DaemonHistory.UpdaterNeedsTheLock | motyga-rs/app-server-daemon/src/lib.rs:592-632 | the updater starts and stops only by calls of the lock holder; apart from that it can die |
| DaemonHistory.CallsTakeEffect | motyga-rs/app-server-daemon/src/lib.rs:284-441 | over all runs a call that returns success does what it says: the wanted setting on file, a backend launched with the settings in hand or stopped, the updater started or stopped |
| DaemonHistory.StaleMeans | motyga-rs/app-server-daemon/src/lib.rs:533-632 | the stale mark says exactly that a set or bootstrap broke off between its save and its launch, with no launch since |
| DaemonHistory.BrokenOffMeans | motyga-rs/app-server-daemon/src/lib.rs:533-632 | that is so if and only if there are positions of the save, of the failure after it and of no launch in between or since |
| DaemonHistory.LaunchFlagAgrees | motyga-rs/app-server-daemon/src/lib.rs:533-632 | between critical sections the running backend's launch flag differs from the saved setting only if, at some earlier position of the run, a set or bootstrap failed or crashed after its save returned and before its launch did, and no launch has succeeded since |
| DaemonLifecycle.StartLaunches | motyga-rs/app-server-daemon/src/lib.rs:302-338 | left alone, `start` succeeds and launches a backend with the saved setting |
| DaemonLifecycle.RestartRelaunches | motyga-rs/app-server-daemon/src/lib.rs:340-365 | left alone, `restart` replaces the running backend by one with the saved setting, whatever the old one was launched with |
| DaemonLifecycle.FailedSetIsStale | motyga-rs/app-server-daemon/src/lib.rs:533-590 | the exception in the launch-flag result occurs: a set that fails after its save |
| DaemonScripts.AdvanceFollows | motyga-rs/app-server-daemon/src/lib.rs:302-632 | one call of the machine takes it where the operation's nested script goes on, for every reply |
| DaemonOutcomes.EveryProcessFollowsItsScript | motyga-rs/app-server-daemon/src/lib.rs:284-632 | in every run a process makes exactly the calls its operation's script asks for, succeeds exactly when the script does, and fails only by the script, by a crash or waiting for the lock |
| DaemonOutcomes.UpdaterAccomplishes | motyga-rs/app-server-daemon/src/lib.rs:368-411 | the updater's decision on every path: it replaces a found backend always, or only if that answered with another version, and executes itself anew exactly if it replaced the backend and was asked to |
| DaemonOutcomes.SuccessAccomplishes | motyga-rs/app-server-daemon/src/lib.rs:284-632 | over all runs, a process that succeeded has accomplished its operation: a start was answered, or found a backend or launched one that got ready; a restart or bootstrap had its own launch return and got ready, having stopped what it found; a stop stopped the backend or saw none; a set restarted a running backend with what it saved; the updater met its decision |
| DaemonOutcomes.RestartHasLaunched | motyga-rs/app-server-daemon/src/lib.rs:340-365 | a restart or bootstrap that succeeded has its own launch returning at some position of the run |
| DaemonEffects.StopClears | motyga-rs/app-server-daemon/src/lib.rs:413-441 | a stop that succeeded last saw no managed backend, or stopped it |
| DaemonEffects.StopLeavesNothingRunning | motyga-rs/app-server-daemon/src/lib.rs:413-441 | at the moment a stop succeeds no managed backend is running |
| DaemonEffects.SuccessLeavesTheSetting | motyga-rs/app-server-daemon/src/lib.rs:499-632 | at the moment a set, a bootstrap or an ensure-started succeeds, the setting it was to leave is on file, whatever the other processes did |
| AcceptedLines.ScanLine | motyga-rs/analytics/src/accepted_lines.rs:39-76 | the loop body moves the scan as the model's step |
| AcceptedLines.AcceptedLineFingerprintsFromUnifiedDiff | motyga-rs/analytics/src/accepted_lines.rs:30-83 | the parsing loop computes the summary of the lines |
| AcceptedLines.NormalizeIsIdempotent | motyga-rs/analytics/src/accepted_lines.rs:157-169 | normalising a normalised line returns it unchanged |
| AcceptedLines.NormalizedWords | motyga-rs/analytics/src/accepted_lines.rs:157-169 | a line of words, whatever the white space, counts as these words with one blank between two, if and only if that takes more than three bytes and has an alphanumeric character or an underscore |
| AcceptedLines.NormalizedLine | motyga-rs/analytics/src/accepted_lines.rs:157-169 | every line is such a line |
| AcceptedLines.DiffPathMeans | motyga-rs/analytics/src/accepted_lines.rs:143-155 | a header's path loses the white space around it and one git prefix; `/dev/null` is no path |
| AcceptedLines.CountsIgnoreAlnum | motyga-rs/analytics/src/accepted_lines.rs:59-75 | the line counts do not depend on which characters are alphanumeric |
| AcceptedLines.SummarizeIsCompositional | motyga-rs/analytics/src/accepted_lines.rs:30-83 | a diff that ends its last line, followed by one that starts a section, is summarised as the sum of both |
| AcceptedLines.CompositionNeedsLineBoundary | motyga-rs/analytics/src/accepted_lines.rs:39-76 | without the line ending the sum can be wrong |
| DiffBoundary.CompositionIff | motyga-rs/analytics/src/accepted_lines.rs:39-76 | the sum is right for every second diff if and only if the first is separable, a condition on its last line and the scan before it |
| DiffBoundary.Necessary | motyga-rs/analytics/src/accepted_lines.rs:39-76 | a second diff that shows the failure otherwise |
| GitDiff.HunkLineExact | motyga-rs/analytics/src/accepted_lines.rs:59-75 | in a hunk, every printed line is counted for what it is, also one that looks like a file header |
| GitDiff.NewNameExact | motyga-rs/analytics/src/accepted_lines.rs:143-155 | the printed file header sets the path, or none for a deleted file |
| GitDiff.SummarizeIsExact | motyga-rs/analytics/src/accepted_lines.rs:30-83 | summarising a printed structured diff returns its true counts and its ordered path and line fingerprints |
| UsageDedupe.AnalyticsEventsQueue.constructor | motyga-rs/analytics/src/client.rs:135-139 | both sets start empty |
| UsageDedupe.AnalyticsEventsQueue.ShouldEnqueueAppUsed | motyga-rs/analytics/src/client.rs:149-166 | calls without an id pass and change nothing; others pass exactly when their key is not in the trimmed set, and enter it |
| UsageDedupe.AnalyticsEventsQueue.ShouldEnqueuePluginUsed | motyga-rs/analytics/src/client.rs:168-188 | the same for plugins, where a call without an id still empties a full set |
| UsageDedupe.EpochInvariant | motyga-rs/analytics/src/client.rs:149-188 | the set is emptied after exactly 4096 further passes and holds exactly what passed since |
| UsageDedupe.BlocksAreDistinct | motyga-rs/analytics/src/client.rs:149-188 | no aligned block of 4096 passes repeats a key |
| UsageDedupe.DedupeBound | motyga-rs/analytics/src/client.rs:149-188 | the set never exceeds 4096 keys, and one key passes at most 1 + K / 4096 times among K keyed passes |
| UsageDedupe.SuppressedOnlyIfPassedBefore | motyga-rs/analytics/src/client.rs:149-188 | a call is stopped only if the same key passed before |
| EventBatches.TrackEventRequestBatches | motyga-rs/analytics/src/client.rs:569-590 | the batches hold the events in order, isolated ones alone, the others in runs that do not touch |
| EventBatches.BatchingIsUnique | motyga-rs/analytics/src/client.rs:569-590 | no other batching meets that description |
| WrapperArgs.NoteLintArg | tools/argument-comment-lint/wrapper_common.py:75-102 | one lint argument sets its flags and says whether the next one is its value |
| WrapperArgs.ParseWrapperArgs | tools/argument-comment-lint/wrapper_common.py:55-104 | the single pass splits at the first separator and scans both sides |
| WrapperArgs.BuildFinalArgs | tools/argument-comment-lint/wrapper_common.py:107-122 | the rebuilt list is the added prefix, the user's arguments and the completed cargo arguments |
| WrapperArgs.ParseOfBuild | tools/argument-comment-lint/wrapper_common.py:55-122 | what a rebuilt list parses back to |
| WrapperArgs.BuildIsComplete | tools/argument-comment-lint/wrapper_common.py:107-122 | a rebuilt list names a manifest, skips dependencies, selects targets unless fixing, and keeps the user's arguments in order |
| WrapperArgs.FlagsAreGiven | tools/argument-comment-lint/wrapper_common.py:75-102 | the flags, argument by argument: which ones the user gave, apart or together with a value; a value sets what was announced, whatever it looks like, and an announcement without a value sets nothing |
| WrapperArgs.RebuiltList | tools/argument-comment-lint/wrapper_common.py:55-122 | the rebuilt list for what the user passed: a manifest path, the workspace, `--no-deps` and all targets are added exactly when none of the flags that stand for them was given, each named |
| WrapperArgs.RebuildIsFixpoint | tools/argument-comment-lint/wrapper_common.py:55-122 | rebuilding twice is rebuilding once, if and only if the inserted path is not the separator |

## Left out

- WebSocket, TLS, Unix-socket, HTTP and file operations, and time: whether a call succeeds and when a wait times out are part of the action.
- Wording of error messages and log output: errors are values.
- The request, notify, resolve and reject commands of the in-process client, which only pass through to the runtime.
- Reducer facts that only wrap their input into an event (skills, apps, hooks, plugins, imports): single-branch copies.
- The field-by-field copying of configuration, profile and usage into event payloads: the records are carried whole.
- The clock readings and the repository hash in steer and accepted-lines events.
- The hashing of fingerprints: a fingerprint is kept as the pair of path and normalised line.
- The detail counts inside tool events (command actions, file changes, content items).
- Overflow of the reducer's 64-bit counters; the drop counter of the forwarder does saturate at 2^64 - 1 in the model.
- The daemon's `version` command, which takes no lock, and the polling loops for readiness and the lock: each poll is a step whose outcome is part of the action.
- The daemon's backend, settings and update-loop modules: a save is taken to be atomic (the source writes the file in place), a successful stop to leave no managed backend running, a failed launch to leave none either (the source terminates what it spawned, as far as that succeeds), `is_starting_or_running` to be truthful, and a live unmanaged server to answer probes.
- LaunchFlagAgrees: counts a crash between save and launch as a failure, because the source leaves the same state behind.
- SummarizeIsExact: a path that ends in white space is recorded without it, because the parser trims it; names git prints in quotes are not printed, because the parser keeps quotes and prefix.
- The agent graph store, the agent identity crate, packaging scripts and terminal rendering.
