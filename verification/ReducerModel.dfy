/**
 The analytics reducer (motyga-rs/analytics/src/reducer.rs) as functions on its seven maps: what one
 fact does to the state, and the events it puts out. The class in Reducer.dfy is proved against these.

 The clock readings and the repository hash in two events are left out, and so are the facts that only
 wrap their input into an event.
 */
module ReducerModel {
  import opened Options
  import opened AnalyticsFacts
  import AcceptedLines

  datatype ThreadState = ThreadState(connection: Option<ConnectionId>, metadata: Option<ThreadMetadata>, originator: Option<string>)

  datatype TurnState = TurnState(
    connection: Option<ConnectionId>,
    thread: Option<ThreadId>,
    images: Option<nat>,
    config: Option<Config>,
    startedAt: Option<nat>,
    tokens: Option<string>,
    profile: Option<string>,
    completion: Option<Completion>,
    error: Option<string>,
    diff: Option<string>,
    steers: nat,
    tools: ToolCounts)

  datatype PendingRequest =
    | PendingStart(thread: ThreadId, images: nat)
    | PendingSteer(steer: Steer)

  datatype State = State(
    requests: map<RequestKey, PendingRequest>,
    turns: map<TurnId, TurnState>,
    connections: map<ConnectionId, Connection>,
    threads: map<ThreadId, ThreadState>,
    started: map<ItemKey, nat>,
    reviews: map<RequestId, ReviewRecord>,
    summaries: map<ItemKey, ReviewSummary>)

  const EMPTY := State(map[], map[], map[], map[], map[], map[], map[])

  const NO_TOOLS := ToolCounts(0, 0, 0, 0, 0, 0, 0, 0)

  const NEW_TURN := TurnState(None, None, None, None, None, None, None, None, None, None, 0, NO_TOOLS)

  const NEW_THREAD := ThreadState(None, None, None)

  const NO_REVIEWS := ReviewSummary(0, 0, 0, None, false, false)

  /** A new state and the events put out on the way to it. */
  datatype Outcome = Outcome(state: State, events: seq<Event>)

  function Quiet(s: State): Outcome {
    Outcome(s, [])
  }

  function Unsigned(value: Option<int>): Option<nat> {
    if value.Some? && value.value >= 0 then Some(value.value) else None
  }

  function TurnOf(s: State, turn: TurnId): TurnState {
    if turn in s.turns then s.turns[turn] else NEW_TURN
  }

  function ThreadOf(s: State, thread: ThreadId): ThreadState {
    if thread in s.threads then s.threads[thread] else NEW_THREAD
  }

  function SummaryOf(s: State, key: ItemKey): ReviewSummary {
    if key in s.summaries then s.summaries[key] else NO_REVIEWS
  }

  // ---------------------------------------------------------------- context lookup

  /** How a lookup of connection, thread and metadata ends. */
  datatype Lookup =
    | Found(context: Context)
    | MissingThreadConnection
    | MissingConnection(connection: ConnectionId)
    | MissingMetadata

  /** The thread's originator takes the place of the connection's product. */
  function ContextOf(connection: Connection, originator: Option<string>, metadata: ThreadMetadata): Context {
    var client := if originator.Some? then connection.client.(product := originator.value) else connection.client;
    Context(client, connection.runtime, metadata)
  }

  function ThreadContext(s: State, thread: ThreadId): Lookup {
    var found := ThreadOf(s, thread);
    if thread !in s.threads || found.connection.None? then MissingThreadConnection
    else if found.connection.value !in s.connections then MissingConnection(found.connection.value)
    else if found.metadata.None? then MissingMetadata
    else Found(ContextOf(s.connections[found.connection.value], found.originator, found.metadata.value))
  }

  /** The lookup for a turn event, where the turn's own connection comes first. */
  function TurnContext(s: State, turn: TurnState, thread: ThreadId): Lookup {
    var found := ThreadOf(s, thread);
    var connection := if turn.connection.Some? then turn.connection else found.connection;
    if connection.None? then MissingThreadConnection
    else if connection.value !in s.connections then MissingConnection(connection.value)
    else if thread !in s.threads || found.metadata.None? then MissingMetadata
    else Found(ContextOf(s.connections[connection.value], found.originator, found.metadata.value))
  }

  /** The lookup for a steer event, made on the connection that answers. */
  function SteerContext(s: State, connection: ConnectionId, thread: ThreadId): Lookup {
    var found := ThreadOf(s, thread);
    if connection !in s.connections then MissingConnection(connection)
    else if thread !in s.threads || found.metadata.None? then MissingMetadata
    else Found(ContextOf(s.connections[connection], found.originator, found.metadata.value))
  }

  // ---------------------------------------------------------------- turn events

  predicate Complete(turn: TurnState) {
    turn.thread.Some? && turn.images.Some? && turn.config.Some? && turn.profile.Some? && turn.completion.Some?
  }

  function RecordOf(turn: TurnState): TurnRecord
    requires Complete(turn)
  {
    TurnRecord(turn.thread.value, turn.images.value, turn.config.value, turn.profile.value, turn.completion.value,
               turn.startedAt, turn.tokens, turn.error, turn.steers, turn.tools)
  }

  function AcceptedLinesOf(turnId: TurnId, turn: TurnState): seq<Event>
    requires Complete(turn)
  {
    if turn.diff.None? then []
    else
      var changed := AcceptedLines.Changed(turn.diff.value);
      if changed.added == 0 && changed.deleted == 0 then []
      else [AcceptedLinesEvent(turnId, turn.thread.value, turn.config.value.model, changed.added, changed.deleted)]
  }

  function MaybeEmitTurn(s: State, turnId: TurnId): Outcome {
    if turnId !in s.turns || !Complete(s.turns[turnId]) then Quiet(s)
    else
      var turn := s.turns[turnId];
      var context := TurnContext(s, turn, turn.thread.value);
      if !context.Found? then Quiet(s)
      else
        Outcome(s.(turns := s.turns - {turnId}),
                [TurnEvent(turnId, RecordOf(turn), context.context)] + AcceptedLinesOf(turnId, turn))
  }

  /** What a turn fact writes into the turn's state. */
  function Updated(turn: TurnState, fact: TurnFact): TurnState {
    match fact
    case TurnStarted(at) => turn.(startedAt := Unsigned(at))
    case TurnDiff(thread, diff) => turn.(thread := Some(thread), diff := Some(diff))
    case TurnCompleted(completion) => turn.(completion := Some(completion))
    case TurnConfig(config) => turn.(thread := Some(config.thread), images := Some(config.images), config := Some(config))
    case TurnTokens(thread, usage) => turn.(thread := Some(thread), tokens := Some(usage))
    case TurnProfile(profile) => turn.(profile := Some(profile))
    case TurnError(thread, error) =>
      turn.(thread := if turn.thread.Some? then turn.thread else Some(thread), error := Some(error))
  }

  /** The turn facts after which the reducer tries to emit the turn's event. */
  predicate Attempts(fact: TurnFact) {
    fact.TurnCompleted? || fact.TurnConfig? || fact.TurnTokens? || fact.TurnProfile?
  }

  function IngestTurn(s: State, turnId: TurnId, fact: TurnFact): Outcome {
    var next := s.(turns := s.turns[turnId := Updated(TurnOf(s, turnId), fact)]);
    if Attempts(fact) then MaybeEmitTurn(next, turnId) else Quiet(next)
  }

  // ---------------------------------------------------------------- clients and threads

  function IngestRequest(s: State, key: RequestKey, request: ClientRequest): Outcome {
    match request
    case StartTurn(thread, images) => Quiet(s.(requests := s.requests[key := PendingStart(thread, images)]))
    case SteerTurn(thread, turn, images) => Quiet(s.(requests := s.requests[key := PendingSteer(Steer(thread, turn, images))]))
    case OtherRequest => Quiet(s)
  }

  function OpenThread(s: State, connection: ConnectionId, thread: ThreadId, metadata: ThreadMetadata, details: string,
                      originator: Option<string>): Outcome {
    if connection !in s.connections then Quiet(s)
    else
      var known := ThreadOf(s, thread);
      var product := if originator.Some? then originator else known.originator;
      Outcome(s.(threads := s.threads[thread := ThreadState(Some(connection), Some(metadata), product)]),
              [ThreadEvent(thread, ContextOf(s.connections[connection], product, metadata), details)])
  }

  function AnswerStart(s: State, key: RequestKey, turnId: TurnId): Outcome {
    var freed := s.(requests := s.requests - {key});
    if key !in s.requests || !s.requests[key].PendingStart? then Quiet(freed)
    else
      var pending := s.requests[key];
      var turn := TurnOf(s, turnId).(connection := Some(key.connection), thread := Some(pending.thread), images := Some(pending.images));
      MaybeEmitTurn(freed.(turns := freed.turns[turnId := turn]), turnId)
  }

  /** The steer event, when its context is known. */
  function SteerEvents(s: State, connection: ConnectionId, steer: Steer, accepted: Option<TurnId>, reason: Option<string>): seq<Event> {
    var context := SteerContext(s, connection, steer.thread);
    if context.Found? then [SteerEvent(steer, accepted, reason, context.context)] else []
  }

  function AnswerSteer(s: State, key: RequestKey, turnId: TurnId): Outcome {
    var freed := s.(requests := s.requests - {key});
    if key !in s.requests || !s.requests[key].PendingSteer? then Quiet(freed)
    else
      var counted :=
        if turnId in s.turns then freed.(turns := s.turns[turnId := s.turns[turnId].(steers := s.turns[turnId].steers + 1)])
        else freed;
      Outcome(counted, SteerEvents(s, key.connection, s.requests[key].steer, Some(turnId), None))
  }

  function IngestResponse(s: State, key: RequestKey, response: ClientResponse, originator: Option<string>): Outcome {
    match response
    case ThreadOpened(thread, metadata, details) => OpenThread(s, key.connection, thread, metadata, details, originator)
    case TurnStartAnswer(turn) => AnswerStart(s, key, turn)
    case TurnSteerAnswer(turn) => AnswerSteer(s, key, turn)
    case OtherResponse => Quiet(s)
  }

  function IngestError(s: State, key: RequestKey, reason: Option<string>): Outcome {
    var freed := s.(requests := s.requests - {key});
    if key !in s.requests || !s.requests[key].PendingSteer? then Quiet(freed)
    else Outcome(freed, SteerEvents(s, key.connection, s.requests[key].steer, None, reason))
  }

  function IngestSubAgent(s: State, subagent: SubAgent): Outcome {
    var parent := if subagent.parent.Some? then ThreadOf(s, subagent.parent.value).connection else None;
    var known := ThreadOf(s, subagent.thread);
    var metadata := ThreadMetadata(subagent.session, Some("subagent"), New, Some(subagent.source), subagent.parent);
    var next := ThreadState(
      if known.connection.Some? then known.connection else parent,
      if known.metadata.Some? then known.metadata else Some(metadata),
      if known.originator.Some? then known.originator else Some(subagent.product));
    Outcome(s.(threads := s.threads[subagent.thread := next]), [SubAgentEvent(subagent)])
  }

  function IngestScoped(s: State, kind: ScopedKind, thread: ThreadId, details: string): Outcome {
    var context := ThreadContext(s, thread);
    Outcome(s, if context.Found? then [ScopedEvent(kind, thread, context.context, details)] else [])
  }

  // ---------------------------------------------------------------- reviews

  function CommandRecord(id: RequestId, item: ItemKey, startedAt: nat, ask: Ask): ReviewRecord
    requires ask.CommandAsk?
  {
    var network := ask.networkContext || ask.amendments || ask.additional == Some(true);
    ReviewRecord(
      item.thread, item.turn, Some(item.item), UserReview(id),
      if ask.networkContext then NetworkSubject else CommandSubject,
      if ask.networkContext then "network_access" else "command_execution",
      if ask.approvalId then ExecveIntercept
      else if network then NetworkPolicyDenial
      else if ask.additional.Some? then SandboxDenial
      else Initial,
      startedAt, ask.additional.Some?, network)
  }

  function FileRecord(id: RequestId, item: ItemKey, startedAt: nat, ask: Ask): ReviewRecord
    requires ask.FileAsk?
  {
    ReviewRecord(
      item.thread, item.turn, Some(item.item), UserReview(id), FileSubject, "apply_patch",
      if ask.grantRoot then SandboxDenial else Initial,
      startedAt, ask.grantRoot, false)
  }

  function PermissionsRecord(id: RequestId, item: ItemKey, startedAt: nat, ask: Ask): ReviewRecord
    requires ask.PermissionsAsk?
  {
    var additional := ask.network || ask.fileSystem;
    ReviewRecord(
      item.thread, item.turn, Some(item.item), UserReview(id), PermissionsSubject, "permissions",
      if ask.network then NetworkPolicyDenial else if additional then SandboxDenial else Initial,
      startedAt, additional, ask.network)
  }

  function AskRecord(id: RequestId, item: ItemKey, startedAt: nat, ask: Ask): ReviewRecord {
    if ask.CommandAsk? then CommandRecord(id, item, startedAt, ask)
    else if ask.FileAsk? then FileRecord(id, item, startedAt, ask)
    else PermissionsRecord(id, item, startedAt, ask)
  }

  function IngestApproval(s: State, id: RequestId, item: ItemKey, startedAt: int, ask: Ask): Outcome {
    if startedAt < 0 then Quiet(s) else Quiet(s.(reviews := s.reviews[id := AskRecord(id, item, startedAt, ask)]))
  }

  /** Status and resolution of a user's answer. */
  function ResultOf(answer: Answer): (ReviewStatus, Resolution) {
    match answer
    case CommandAnswer(Accept) => (Approved, Plain)
    case CommandAnswer(AcceptForSession) => (Approved, SessionApproval)
    case CommandAnswer(AmendExecPolicy) => (Approved, ExecPolicyAmendment)
    case CommandAnswer(AllowNetwork) => (Approved, NetworkPolicyAmendment)
    case CommandAnswer(DenyNetwork) => (Denied, NetworkPolicyAmendment)
    case CommandAnswer(Decline) => (Denied, Plain)
    case CommandAnswer(Cancel) => (Aborted, Plain)
    case FileAnswer(FileAccept) => (Approved, Plain)
    case FileAnswer(FileAcceptForSession) => (Approved, SessionApproval)
    case FileAnswer(FileDecline) => (Denied, Plain)
    case FileAnswer(FileCancel) => (Aborted, Plain)
    case PermissionsAnswer(empty, session) =>
      if empty then (Denied, Plain) else if session then (Approved, SessionApproval) else (Approved, Plain)
    case RequestAborted => (Aborted, Plain)
  }

  /** Status of a guardian's review, once it is over. */
  function GuardianResult(status: GuardianStatus): Option<ReviewStatus> {
    match status
    case ReviewInProgress => None
    case ReviewApproved => Some(Approved)
    case ReviewDenied => Some(Denied)
    case ReviewTimedOut => Some(TimedOut)
    case ReviewAborted => Some(Aborted)
  }

  function GuardianSubject(action: GuardianAction): (SubjectKind, string, Trigger) {
    match action
    case CommandAction => (CommandSubject, "command_execution", Initial)
    case ExecveAction => (CommandSubject, "command_execution", ExecveIntercept)
    case PatchAction => (FileSubject, "apply_patch", SandboxDenial)
    case NetworkAction => (NetworkSubject, "network_access", NetworkPolicyDenial)
    case PermissionsAction(network, fileSystem) =>
      (PermissionsSubject, "permissions", if network then NetworkPolicyDenial else if fileSystem then SandboxDenial else Initial)
    case McpAction(tool) => (McpSubject, tool, Initial)
  }

  predicate GuardianAdditional(action: GuardianAction) {
    match action
    case PatchAction => true
    case NetworkAction => true
    case PermissionsAction(network, fileSystem) => network || fileSystem
    case _ => false
  }

  predicate GuardianNetwork(action: GuardianAction) {
    action.NetworkAction? || (action.PermissionsAction? && action.network)
  }

  function GuardianRecord(thread: ThreadId, turn: TurnId, target: Option<string>, review: string, action: GuardianAction, from: nat): ReviewRecord {
    var subject := GuardianSubject(action);
    ReviewRecord(thread, turn, target, AnalyticsFacts.GuardianReview(review), subject.0, subject.1, subject.2, from,
                 GuardianAdditional(action), GuardianNetwork(action))
  }

  /** The item whose summary a review goes into: none for permission and network reviews. */
  function SummaryKey(review: ReviewRecord): Option<ItemKey> {
    if review.subject.PermissionsSubject? || review.subject.NetworkSubject? || review.item.None? then None
    else Some(ItemKey(review.thread, review.turn, review.item.value))
  }

  function FinalOutcome(reviewer: Reviewer, status: ReviewStatus, resolution: Resolution): ApprovalOutcome {
    match reviewer
    case Guardian => if status.Approved? then GuardianApproved else if status.Denied? then GuardianDenied else GuardianAborted
    case User =>
      if status.Approved? then (if resolution.SessionApproval? then UserApprovedForSession else UserApproved)
      else if status.Denied? then UserDenied
      else UserAborted
  }

  function Record(summary: ReviewSummary, reviewer: Reviewer, outcome: ApprovalOutcome, review: ReviewRecord): ReviewSummary {
    ReviewSummary(
      summary.reviews + 1,
      summary.guardian + (if reviewer.Guardian? then 1 else 0),
      summary.user + (if reviewer.User? then 1 else 0),
      Some(outcome),
      summary.additional || review.additional,
      summary.network || review.network)
  }

  /** The summary is kept whether or not the event can be put out. */
  function EmitReview(s: State, review: ReviewRecord, reviewer: Reviewer, status: ReviewStatus, resolution: Resolution, completedAt: nat): Outcome {
    var key := SummaryKey(review);
    var next :=
      if key.None? then s
      else
        var summary := Record(SummaryOf(s, key.value), reviewer, FinalOutcome(reviewer, status, resolution), review);
        s.(summaries := s.summaries[key.value := summary]);
    var context := ThreadContext(s, review.thread);
    Outcome(next, if context.Found? then [ReviewEvent(review, reviewer, status, resolution, completedAt, context.context)] else [])
  }

  function IngestAnswer(s: State, id: RequestId, completedAt: nat, answer: Answer): Outcome {
    if id !in s.reviews then Quiet(s)
    else
      var result := ResultOf(answer);
      EmitReview(s.(reviews := s.reviews - {id}), s.reviews[id], User, result.0, result.1, completedAt)
  }

  function IngestGuardian(s: State, thread: ThreadId, turn: TurnId, target: Option<string>, review: string,
                          status: GuardianStatus, action: GuardianAction, from: int, till: int): Outcome {
    var result := GuardianResult(status);
    if result.None? || from < 0 || till < 0 then Quiet(s)
    else EmitReview(s, GuardianRecord(thread, turn, target, review, action, from), Guardian, result.value, Plain, till)
  }

  // ---------------------------------------------------------------- items

  /** The items that have start times and tool events. */
  predicate Tracked(item: Item) {
    !item.kind.SubAgentActivity? && !item.kind.OtherItem?
  }

  function Tally(tools: ToolCounts, kind: ItemKind): ToolCounts {
    var counted := tools.(total := tools.total + 1);
    match kind
    case CommandExecution => counted.(shellCommand := tools.shellCommand + 1)
    case FileChange => counted.(fileChange := tools.fileChange + 1)
    case McpToolCall => counted.(mcpToolCall := tools.mcpToolCall + 1)
    case DynamicToolCall => counted.(dynamicToolCall := tools.dynamicToolCall + 1)
    case CollabAgentToolCall => counted.(subagentToolCall := tools.subagentToolCall + 1)
    case SubAgentActivity => counted.(subagentToolCall := tools.subagentToolCall + 1)
    case WebSearch => counted.(webSearch := tools.webSearch + 1)
    case ImageGeneration => counted.(imageGeneration := tools.imageGeneration + 1)
    case OtherItem => tools
  }

  function IngestItemStarted(s: State, thread: ThreadId, turn: TurnId, item: Item, at: int): Outcome {
    if !Tracked(item) || at < 0 then Quiet(s)
    else Quiet(s.(started := s.started[ItemKey(thread, turn, item.id) := at]))
  }

  /** How the item ended; none while it is still in progress. */
  function TerminalOf(item: Item): Option<TerminalStatus> {
    match item.kind
    case WebSearch => Some(ItemDone)
    case ImageGeneration => Some(if item.status.Failed? then ItemFailed else ItemDone)
    case _ =>
      match item.status
      case InProgress => None
      case Completed => Some(ItemDone)
      case Failed => Some(ItemFailed)
      case Declined => Some(ItemRejected)
  }

  function Duration(startedAt: nat, completedAt: nat): Option<nat> {
    if startedAt <= completedAt then Some(completedAt - startedAt) else None
  }

  /** The part of an item's completion that happens once its start is known: the event and the end of
      the item's review summary. */
  function FinishItem(s: State, key: ItemKey, item: Item, startedAt: nat, at: int): Outcome {
    var context := ThreadContext(s, key.thread);
    if at < 0 || !context.Found? then Quiet(s)
    else
      var terminal := TerminalOf(item);
      Outcome(s.(summaries := s.summaries - {key}),
              if terminal.None? then []
              else [ToolEvent(key, item, terminal.value, startedAt, at, Duration(startedAt, at), SummaryOf(s, key), context.context)])
  }

  function IngestItemCompleted(s: State, thread: ThreadId, turn: TurnId, item: Item, at: int): Outcome {
    if item.kind.OtherItem? || turn !in s.turns then Quiet(s)
    else
      var counted := s.(turns := s.turns[turn := s.turns[turn].(tools := Tally(s.turns[turn].tools, item.kind))]);
      var key := ItemKey(thread, turn, item.id);
      if !Tracked(item) || key !in s.started then Quiet(counted)
      else FinishItem(counted.(started := s.started - {key}), key, item, s.started[key], at)
  }

  // ---------------------------------------------------------------- one fact, and a run of facts

  function Ingest(s: State, fact: Fact): Outcome {
    match fact
    case Initialize(connection, client, runtime) =>
      Quiet(s.(connections := s.connections[connection := Connection(client, runtime)]))
    case Requested(key, request) => IngestRequest(s, key, request)
    case Responded(key, response, originator) => IngestResponse(s, key, response, originator)
    case Errored(key, reason) => IngestError(s, key, reason)
    case ApprovalRequested(id, item, startedAt, ask) => IngestApproval(s, id, item, startedAt, ask)
    case Answered(id, completedAt, answer) => IngestAnswer(s, id, completedAt, answer)
    case ItemStarted(thread, turn, item, at) => IngestItemStarted(s, thread, turn, item, at)
    case ItemCompleted(thread, turn, item, at) => IngestItemCompleted(s, thread, turn, item, at)
    case GuardianCompleted(thread, turn, target, review, status, action, from, till) =>
      IngestGuardian(s, thread, turn, target, review, status, action, from, till)
    case AboutTurn(turn, turnFact) => IngestTurn(s, turn, turnFact)
    case SubAgentStarted(subagent) => IngestSubAgent(s, subagent)
    case Scoped(kind, thread, _, details) => IngestScoped(s, kind, thread, details)
    case Ignored => Quiet(s)
  }

  function Run(s: State, facts: seq<Fact>): Outcome {
    if facts == [] then Quiet(s)
    else
      var before := Run(s, facts[..|facts| - 1]);
      var last := Ingest(before.state, facts[|facts| - 1]);
      Outcome(last.state, before.events + last.events)
  }

  /** The state a fresh reducer is in after `facts`. */
  function After(facts: seq<Fact>): State {
    Run(EMPTY, facts).state
  }

  lemma RunSnoc(s: State, facts: seq<Fact>, fact: Fact)
    ensures
      var before := Run(s, facts);
      var last := Ingest(before.state, fact);
      Run(s, facts + [fact]) == Outcome(last.state, before.events + last.events)
  {
    assert (facts + [fact])[..|facts|] == facts;
  }

  lemma {:induction false} RunAppend(s: State, one: seq<Fact>, two: seq<Fact>)
    ensures
      var first := Run(s, one);
      var second := Run(first.state, two);
      Run(s, one + two) == Outcome(second.state, first.events + second.events)
    decreases two
  {
    if two == [] {
      assert one + two == one;
      assert Run(s, one).events + [] == Run(s, one).events;
    } else {
      var n := |two| - 1;
      RunAppend(s, one, two[..n]);
      RunSnoc(s, one + two[..n], two[n]);
      assert one + two == (one + two[..n]) + [two[n]];
      Associative(Run(s, one).events, Run(Run(s, one).state, two[..n]).events,
                  Ingest(Run(Run(s, one).state, two[..n]).state, two[n]).events);
    }
  }

  lemma Associative<T>(a: seq<T>, b: seq<T>, c: seq<T>)
    ensures (a + b) + c == a + (b + c)
  {
  }
}
