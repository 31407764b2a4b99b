/**
 The facts the analytics reducer takes in and the events it puts out
 (motyga-rs/analytics/src/facts.rs and events.rs, as far as reducer.rs reads them).

 A value the reducer passes on without reading is one string; timestamps arrive as signed integers
 and a negative one is rejected where the source converts it to an unsigned one.
 */
module AnalyticsFacts {
  import opened Options

  type ConnectionId = nat
  type ThreadId = string
  type TurnId = string

  datatype RequestId = Number(number: int) | Text(text: string)

  datatype RequestKey = RequestKey(connection: ConnectionId, request: RequestId)

  datatype ItemKey = ItemKey(thread: ThreadId, turn: TurnId, item: string)

  // ---------------------------------------------------------------- context

  /** Client metadata; `details` is the name, version, transport and capability flag. */
  datatype Client = Client(product: string, details: string)

  datatype Connection = Connection(client: Client, runtime: string)

  datatype InitializationMode = New | Forked | Resumed

  datatype ThreadMetadata = ThreadMetadata(
    session: string,
    source: Option<string>,
    mode: InitializationMode,
    subagent: Option<string>,
    parent: Option<ThreadId>)

  /** What a thread-scoped event says about where it comes from. */
  datatype Context = Context(client: Client, runtime: string, metadata: ThreadMetadata)

  // ---------------------------------------------------------------- items and reviews

  datatype ItemKind =
    | CommandExecution | FileChange | McpToolCall | DynamicToolCall | CollabAgentToolCall
    | SubAgentActivity | WebSearch | ImageGeneration
    | OtherItem

  datatype ItemStatus = InProgress | Completed | Failed | Declined

  datatype Item = Item(kind: ItemKind, id: string, status: ItemStatus, details: string)

  datatype SubjectKind = CommandSubject | FileSubject | McpSubject | PermissionsSubject | NetworkSubject

  datatype Trigger = Initial | SandboxDenial | NetworkPolicyDenial | ExecveIntercept

  datatype Reviewer = Guardian | User

  datatype ReviewStatus = Approved | Denied | Aborted | TimedOut

  datatype Resolution = Plain | SessionApproval | ExecPolicyAmendment | NetworkPolicyAmendment

  datatype ApprovalOutcome =
    | GuardianApproved | GuardianDenied | GuardianAborted
    | UserApproved | UserApprovedForSession | UserDenied | UserAborted
    | Unknown

  /** A user review is named after the request that asked for it. */
  datatype ReviewId = UserReview(request: RequestId) | GuardianReview(id: string)

  // ---------------------------------------------------------------- facts

  datatype ClientRequest =
    | StartTurn(thread: ThreadId, images: nat)
    | SteerTurn(thread: ThreadId, turn: TurnId, images: nat)
    | OtherRequest

  datatype ClientResponse =
    | ThreadOpened(thread: ThreadId, metadata: ThreadMetadata, details: string)
    | TurnStartAnswer(turn: TurnId)
    | TurnSteerAnswer(turn: TurnId)
    | OtherResponse

  /** What an approval request asks for; `additional` tells whether extra permissions include the network. */
  datatype Ask =
    | CommandAsk(approvalId: bool, networkContext: bool, amendments: bool, additional: Option<bool>)
    | FileAsk(grantRoot: bool)
    | PermissionsAsk(network: bool, fileSystem: bool)

  datatype Decision = Accept | AcceptForSession | AmendExecPolicy | AllowNetwork | DenyNetwork | Decline | Cancel

  datatype FileDecision = FileAccept | FileAcceptForSession | FileDecline | FileCancel

  datatype Answer =
    | CommandAnswer(decision: Decision)
    | FileAnswer(fileDecision: FileDecision)
    | PermissionsAnswer(empty: bool, session: bool)
    | RequestAborted

  datatype GuardianStatus = ReviewInProgress | ReviewApproved | ReviewDenied | ReviewTimedOut | ReviewAborted

  datatype GuardianAction =
    | CommandAction | ExecveAction | PatchAction | NetworkAction
    | PermissionsAction(network: bool, fileSystem: bool)
    | McpAction(tool: string)

  datatype Completion = Completion(status: Option<string>, error: Option<string>, completedAt: nat, duration: Option<nat>)

  /** A resolved turn configuration; `details` is passed on unread. */
  datatype Config = Config(thread: ThreadId, images: nat, model: string, details: string)

  datatype TurnFact =
    | TurnStarted(at: Option<int>)
    | TurnDiff(thread: ThreadId, diff: string)
    | TurnCompleted(completion: Completion)
    | TurnConfig(config: Config)
    | TurnTokens(thread: ThreadId, usage: string)
    | TurnProfile(profile: string)
    | TurnError(thread: ThreadId, error: string)

  datatype SubAgent = SubAgent(thread: ThreadId, parent: Option<ThreadId>, product: string, session: string, source: string, details: string)

  datatype ScopedKind = Compaction | Goal | GuardianSession

  datatype Fact =
    | Initialize(connection: ConnectionId, client: Client, runtime: string)
    | Requested(key: RequestKey, request: ClientRequest)
    | Responded(key: RequestKey, response: ClientResponse, originator: Option<string>)
    | Errored(key: RequestKey, reason: Option<string>)
    | ApprovalRequested(id: RequestId, item: ItemKey, startedAt: int, ask: Ask)
    | Answered(id: RequestId, completedAt: nat, answer: Answer)
    | ItemStarted(thread: ThreadId, turn: TurnId, started: Item, at: int)
    | ItemCompleted(thread: ThreadId, turn: TurnId, completed: Item, at: int)
    | GuardianCompleted(thread: ThreadId, turn: TurnId, target: Option<string>, review: string,
                        status: GuardianStatus, action: GuardianAction, from: int, till: int)
    | AboutTurn(turn: TurnId, fact: TurnFact)
    | SubAgentStarted(subagent: SubAgent)
    | Scoped(kind: ScopedKind, thread: ThreadId, named: Option<TurnId>, details: string)
    | Ignored

  // ---------------------------------------------------------------- events

  datatype ToolCounts = ToolCounts(
    total: nat,
    shellCommand: nat,
    fileChange: nat,
    mcpToolCall: nat,
    dynamicToolCall: nat,
    subagentToolCall: nat,
    webSearch: nat,
    imageGeneration: nat)

  datatype ReviewSummary = ReviewSummary(
    reviews: nat,
    guardian: nat,
    user: nat,
    outcome: Option<ApprovalOutcome>,
    additional: bool,
    network: bool)

  datatype TerminalStatus = ItemDone | ItemFailed | ItemRejected

  datatype Steer = Steer(thread: ThreadId, turn: TurnId, images: nat)

  datatype TurnRecord = TurnRecord(
    thread: ThreadId,
    images: nat,
    config: Config,
    profile: string,
    completion: Completion,
    startedAt: Option<nat>,
    tokens: Option<string>,
    error: Option<string>,
    steers: nat,
    tools: ToolCounts)

  datatype ReviewRecord = ReviewRecord(
    thread: ThreadId,
    turn: TurnId,
    item: Option<string>,
    id: ReviewId,
    subject: SubjectKind,
    subjectName: string,
    trigger: Trigger,
    startedAt: nat,
    additional: bool,
    network: bool)

  datatype Event =
    | ThreadEvent(thread: ThreadId, context: Context, details: string)
    | SubAgentEvent(subagent: SubAgent)
    | ScopedEvent(kind: ScopedKind, thread: ThreadId, context: Context, details: string)
    | SteerEvent(steer: Steer, accepted: Option<TurnId>, reason: Option<string>, context: Context)
    | ReviewEvent(review: ReviewRecord, reviewer: Reviewer, status: ReviewStatus, resolution: Resolution,
                  completedAt: nat, context: Context)
    | ToolEvent(key: ItemKey, item: Item, terminal: TerminalStatus, startedAt: nat, completedAt: nat,
                duration: Option<nat>, summary: ReviewSummary, context: Context)
    | TurnEvent(turn: TurnId, record: TurnRecord, context: Context)
    | AcceptedLinesEvent(turn: TurnId, thread: ThreadId, model: string, added: nat, deleted: nat)
}
