/**
 The analytics events read off the history of facts, without any of the reducer's maps: for each thing an
 event carries, which earlier fact it comes from. The reducer (`ReducerModel`, `Reducer`) is proved to put
 out exactly these events.
 */
module FactReading {
  import opened Options
  import opened AnalyticsFacts
  import opened Counting
  import AcceptedLines

  // ---------------------------------------------------------------- connections and threads

  /** What the connection last said of itself. */
  function Greeted(facts: seq<Fact>, connection: ConnectionId): Option<Connection> {
    if facts == [] then None
    else
      var before, fact := facts[..|facts| - 1], facts[|facts| - 1];
      if fact.Initialize? && fact.connection == connection then Some(Connection(fact.client, fact.runtime))
      else Greeted(before, connection)
  }

  /** `fact` opens the thread, on a connection that has introduced itself. */
  predicate OpensThread(before: seq<Fact>, fact: Fact, thread: ThreadId) {
    && fact.Responded? && fact.response.ThreadOpened? && fact.response.thread == thread
    && Greeted(before, fact.key.connection).Some?
  }

  predicate SpawnsThread(fact: Fact, thread: ThreadId) {
    fact.SubAgentStarted? && fact.subagent.thread == thread
  }

  /** The connection the thread was last opened on; a sub-agent's thread that was never opened has its
      parent's. */
  function Home(facts: seq<Fact>, thread: ThreadId): Option<ConnectionId>
    decreases |facts|
  {
    if facts == [] then None
    else
      var before, fact := facts[..|facts| - 1], facts[|facts| - 1];
      if OpensThread(before, fact, thread) then Some(fact.key.connection)
      else if SpawnsThread(fact, thread) && Home(before, thread).None? && fact.subagent.parent.Some?
      then Home(before, fact.subagent.parent.value)
      else Home(before, thread)
  }

  /** The metadata the thread was last opened with, or else the first sub-agent's. */
  function Described(facts: seq<Fact>, thread: ThreadId): Option<ThreadMetadata> {
    if facts == [] then None
    else
      var before, fact := facts[..|facts| - 1], facts[|facts| - 1];
      if OpensThread(before, fact, thread) then Some(fact.response.metadata)
      else if SpawnsThread(fact, thread) && Described(before, thread).None?
      then Some(ThreadMetadata(fact.subagent.session, Some("subagent"), New, Some(fact.subagent.source), fact.subagent.parent))
      else Described(before, thread)
  }

  /** The last originator given for the thread when it was opened, or else the first sub-agent's product. */
  function Branded(facts: seq<Fact>, thread: ThreadId): Option<string> {
    if facts == [] then None
    else
      var before, fact := facts[..|facts| - 1], facts[|facts| - 1];
      if OpensThread(before, fact, thread) && fact.originator.Some? then fact.originator
      else if SpawnsThread(fact, thread) && Branded(before, thread).None? then Some(fact.subagent.product)
      else Branded(before, thread)
  }

  /** What an event says about where it comes from: the connection's client and runtime, with the thread's
      originator in the place of the product, and the thread's metadata. */
  function Seen(facts: seq<Fact>, connection: Option<ConnectionId>, thread: ThreadId): Option<Context> {
    if connection.None? then None
    else
      var greeted, described, branded := Greeted(facts, connection.value), Described(facts, thread), Branded(facts, thread);
      if greeted.None? || described.None? then None
      else
        var product := if branded.Some? then branded.value else greeted.value.client.product;
        Some(Context(Client(product, greeted.value.client.details), greeted.value.runtime, described.value))
  }

  /** The context of an event that is about a thread as such. */
  function SeenAtHome(facts: seq<Fact>, thread: ThreadId): Option<Context> {
    Seen(facts, Home(facts, thread), thread)
  }

  // ---------------------------------------------------------------- client requests

  predicate SettlesRequest(fact: Fact, key: RequestKey) {
    || (fact.Responded? && fact.key == key && (fact.response.TurnStartAnswer? || fact.response.TurnSteerAnswer?))
    || (fact.Errored? && fact.key == key)
  }

  /** The start or steer request that waits under `key`. */
  function Wanted(facts: seq<Fact>, key: RequestKey): Option<ClientRequest> {
    if facts == [] then None
    else
      var before, fact := facts[..|facts| - 1], facts[|facts| - 1];
      if fact.Requested? && fact.key == key && !fact.request.OtherRequest? then Some(fact.request)
      else if SettlesRequest(fact, key) then None
      else Wanted(before, key)
  }

  /** The steer event that settles the steer waiting under `key`: accepted by a turn, or rejected for a
      reason. */
  function SteerRead(facts: seq<Fact>, key: RequestKey, accepted: Option<TurnId>, reason: Option<string>): seq<Event> {
    var wanted := Wanted(facts, key);
    if wanted.None? || !wanted.value.SteerTurn? then []
    else
      var context := Seen(facts, Some(key.connection), wanted.value.thread);
      if context.None? then []
      else [SteerEvent(Steer(wanted.value.thread, wanted.value.turn, wanted.value.images), accepted, reason, context.value)]
  }

  // ---------------------------------------------------------------- turns

  /** What is noted about a turn. */
  datatype Note =
    | Told(fact: TurnFact)
    | Began(connection: ConnectionId, thread: ThreadId, images: nat)
    | Steered
    | Ran(kind: ItemKind)

  /** What `fact` adds to the notes on `t`; steers and items are noted only for a turn with notes. */
  function Noted(before: seq<Fact>, fact: Fact, t: TurnId, known: bool): seq<Note> {
    match fact
    case AboutTurn(turn, told) => if turn == t then [Told(told)] else []
    case Responded(key, TurnStartAnswer(turn), _) =>
      var wanted := Wanted(before, key);
      if turn == t && wanted.Some? && wanted.value.StartTurn? then [Began(key.connection, wanted.value.thread, wanted.value.images)] else []
    case Responded(key, TurnSteerAnswer(turn), _) =>
      var wanted := Wanted(before, key);
      if turn == t && known && wanted.Some? && wanted.value.SteerTurn? then [Steered] else []
    case ItemCompleted(_, turn, item, _) => if turn == t && known && !item.kind.OtherItem? then [Ran(item.kind)] else []
    case _ => []
  }

  /** The last of the notes that say something to the question. */
  function Latest<A>(read: Note -> Option<A>, notes: seq<Note>): Option<A> {
    if notes == [] then None
    else if read(notes[|notes| - 1]).Some? then read(notes[|notes| - 1])
    else Latest(read, notes[..|notes| - 1])
  }

  function First<A>(read: Note -> Option<A>, notes: seq<Note>): Option<A> {
    if notes == [] then None
    else
      var earlier := First(read, notes[..|notes| - 1]);
      if earlier.Some? then earlier else read(notes[|notes| - 1])
  }

  function ConnectionNoted(note: Note): Option<ConnectionId> {
    match note
    case Began(connection, _, _) => Some(connection)
    case _ => None
  }

  function ThreadNoted(note: Note): Option<ThreadId> {
    match note
    case Began(_, thread, _) => Some(thread)
    case Told(TurnConfig(config)) => Some(config.thread)
    case Told(TurnDiff(thread, _)) => Some(thread)
    case Told(TurnTokens(thread, _)) => Some(thread)
    case _ => None
  }

  function ImagesNoted(note: Note): Option<nat> {
    match note
    case Began(_, _, images) => Some(images)
    case Told(TurnConfig(config)) => Some(config.images)
    case _ => None
  }

  function ConfigNoted(note: Note): Option<Config> {
    match note
    case Told(TurnConfig(config)) => Some(config)
    case _ => None
  }

  function ProfileNoted(note: Note): Option<string> {
    match note
    case Told(TurnProfile(profile)) => Some(profile)
    case _ => None
  }

  function CompletionNoted(note: Note): Option<Completion> {
    match note
    case Told(TurnCompleted(completion)) => Some(completion)
    case _ => None
  }

  function StartNoted(note: Note): Option<Option<int>> {
    match note
    case Told(TurnStarted(at)) => Some(at)
    case _ => None
  }

  function TokensNoted(note: Note): Option<string> {
    match note
    case Told(TurnTokens(_, usage)) => Some(usage)
    case _ => None
  }

  function ErrorNoted(note: Note): Option<string> {
    match note
    case Told(TurnError(_, error)) => Some(error)
    case _ => None
  }

  function ErrorThreadNoted(note: Note): Option<ThreadId> {
    match note
    case Told(TurnError(thread, _)) => Some(thread)
    case _ => None
  }

  function DiffNoted(note: Note): Option<string> {
    match note
    case Told(TurnDiff(_, diff)) => Some(diff)
    case _ => None
  }

  /** The thread last named; an error's thread counts only if nothing else has named one. */
  function ThreadRead(notes: seq<Note>): Option<ThreadId> {
    var named := Latest(ThreadNoted, notes);
    if named.Some? then named else First(ErrorThreadNoted, notes)
  }

  /** When the turn last said it started, unless that is before the epoch. */
  function StartRead(notes: seq<Note>): Option<nat> {
    var start := Latest(StartNoted, notes);
    if start.Some? && start.value.Some? && start.value.value >= 0 then Some(start.value.value) else None
  }

  predicate IsSteered(note: Note) {
    note.Steered?
  }

  /** How many items of each category the turn has run; an agent's activity counts as a call of it. */
  function ToolsRead(notes: seq<Note>): ToolCounts {
    ToolCounts(
      Count((n: Note) => n.Ran?, notes),
      Count((n: Note) => n == Ran(CommandExecution), notes),
      Count((n: Note) => n == Ran(FileChange), notes),
      Count((n: Note) => n == Ran(McpToolCall), notes),
      Count((n: Note) => n == Ran(DynamicToolCall), notes),
      Count((n: Note) => n == Ran(CollabAgentToolCall) || n == Ran(SubAgentActivity), notes),
      Count((n: Note) => n == Ran(WebSearch), notes),
      Count((n: Note) => n == Ran(ImageGeneration), notes))
  }

  /** The accepted-lines event, when the latest diff adds or deletes a line. */
  function LinesRead(t: TurnId, thread: ThreadId, model: string, diff: Option<string>): seq<Event> {
    if diff.None? then []
    else
      var lines := AcceptedLines.Changed(diff.value);
      if lines.added + lines.deleted == 0 then []
      else [AcceptedLinesEvent(t, thread, model, lines.added, lines.deleted)]
  }

  /** The report on a turn, once its notes have a thread, images, a configuration, a profile and a completion
      and its context is known. */
  function ReportRead(facts: seq<Fact>, t: TurnId, notes: seq<Note>): seq<Event> {
    var thread, images, config := ThreadRead(notes), Latest(ImagesNoted, notes), Latest(ConfigNoted, notes);
    var profile, completion := Latest(ProfileNoted, notes), Latest(CompletionNoted, notes);
    if thread.None? || images.None? || config.None? || profile.None? || completion.None? then []
    else
      var began := Latest(ConnectionNoted, notes);
      var context := Seen(facts, if began.Some? then began else Home(facts, thread.value), thread.value);
      if context.None? then []
      else
        var record := TurnRecord(
          thread.value, images.value, config.value, profile.value, completion.value,
          StartRead(notes), Latest(TokensNoted, notes), Latest(ErrorNoted, notes),
          Count(IsSteered, notes), ToolsRead(notes));
        [TurnEvent(t, record, context.value)] + LinesRead(t, thread.value, config.value.model, Latest(DiffNoted, notes))
  }

  /** The notes that prompt a report: not a start time, a diff, an error, a steer or an item. */
  predicate Prompts(note: Note) {
    match note
    case Began(_, _, _) => true
    case Told(TurnConfig(_)) => true
    case Told(TurnProfile(_)) => true
    case Told(TurnTokens(_, _)) => true
    case Told(TurnCompleted(_)) => true
    case _ => false
  }

  /** The notes on `t` since it was last reported. */
  function NotesOn(facts: seq<Fact>, t: TurnId): seq<Note>
    decreases |facts|, 0
  {
    if facts == [] then []
    else
      var before, fact := facts[..|facts| - 1], facts[|facts| - 1];
      var earlier := NotesOn(before, t);
      if TurnRead(before, fact, t) != [] then [] else earlier + Noted(before, fact, t, earlier != [])
  }

  /** The events that `fact` prompts about `t`. */
  function TurnRead(before: seq<Fact>, fact: Fact, t: TurnId): seq<Event>
    decreases |before|, 1
  {
    var earlier := NotesOn(before, t);
    var noted := Noted(before, fact, t, earlier != []);
    if noted == [] || !Prompts(noted[0]) then [] else ReportRead(before, t, earlier + noted)
  }

  // ---------------------------------------------------------------- reviews

  /** The approval request `id` that is still open. */
  function Asked(facts: seq<Fact>, id: RequestId): (asked: Option<Fact>)
    ensures asked.Some? ==> asked.value.ApprovalRequested? && asked.value.id == id && asked.value.startedAt >= 0
  {
    if facts == [] then None
    else
      var before, fact := facts[..|facts| - 1], facts[|facts| - 1];
      if fact.ApprovalRequested? && fact.id == id && fact.startedAt >= 0 then Some(fact)
      else if fact.Answered? && fact.id == id then None
      else Asked(before, id)
  }

  predicate Declines(answer: Answer) {
    || answer == CommandAnswer(Decline) || answer == CommandAnswer(DenyNetwork) || answer == FileAnswer(FileDecline)
    || (answer.PermissionsAnswer? && answer.empty)
  }

  predicate Cancels(answer: Answer) {
    answer == CommandAnswer(Cancel) || answer == FileAnswer(FileCancel) || answer == RequestAborted
  }

  predicate AcceptsForSession(answer: Answer) {
    || answer == CommandAnswer(AcceptForSession) || answer == FileAnswer(FileAcceptForSession)
    || (answer.PermissionsAnswer? && !answer.empty && answer.session)
  }

  function StatusRead(answer: Answer): ReviewStatus {
    if Declines(answer) then Denied else if Cancels(answer) then Aborted else Approved
  }

  function ResolutionRead(answer: Answer): Resolution {
    if AcceptsForSession(answer) then SessionApproval
    else if answer == CommandAnswer(AllowNetwork) || answer == CommandAnswer(DenyNetwork) then NetworkPolicyAmendment
    else if answer == CommandAnswer(AmendExecPolicy) then ExecPolicyAmendment
    else Plain
  }

  function UserVerdict(answer: Answer): ApprovalOutcome {
    if Declines(answer) then UserDenied
    else if Cancels(answer) then UserAborted
    else if AcceptsForSession(answer) then UserApprovedForSession
    else UserApproved
  }

  function GuardianVerdict(status: GuardianStatus): Option<(ReviewStatus, ApprovalOutcome)> {
    match status
    case ReviewInProgress => None
    case ReviewApproved => Some((Approved, GuardianApproved))
    case ReviewDenied => Some((Denied, GuardianDenied))
    case ReviewTimedOut => Some((TimedOut, GuardianAborted))
    case ReviewAborted => Some((Aborted, GuardianAborted))
  }

  /** What a review is about: the subject and its name, whether it is about more permissions, about the
      network, and whether it was caught on the way to executing a program. */
  datatype Matter = Matter(subject: SubjectKind, name: string, more: bool, network: bool, intercepted: bool)

  function MatterAsked(ask: Ask): Matter {
    match ask
    case CommandAsk(approvalId, networkContext, amendments, additional) =>
      var network := networkContext || amendments || additional == Some(true);
      if networkContext then Matter(NetworkSubject, "network_access", additional.Some?, network, approvalId)
      else Matter(CommandSubject, "command_execution", additional.Some?, network, approvalId)
    case FileAsk(grantRoot) => Matter(FileSubject, "apply_patch", grantRoot, false, false)
    case PermissionsAsk(network, fileSystem) => Matter(PermissionsSubject, "permissions", network || fileSystem, network, false)
  }

  function MatterOf(action: GuardianAction): Matter {
    match action
    case CommandAction => Matter(CommandSubject, "command_execution", false, false, false)
    case ExecveAction => Matter(CommandSubject, "command_execution", false, false, true)
    case PatchAction => Matter(FileSubject, "apply_patch", true, false, false)
    case NetworkAction => Matter(NetworkSubject, "network_access", true, true, false)
    case PermissionsAction(network, fileSystem) => Matter(PermissionsSubject, "permissions", network || fileSystem, network, false)
    case McpAction(tool) => Matter(McpSubject, tool, false, false, false)
  }

  /** Why there is a review. */
  function TriggerRead(matter: Matter): Trigger {
    if matter.intercepted then ExecveIntercept
    else if matter.network then NetworkPolicyDenial
    else if matter.more then SandboxDenial
    else Initial
  }

  function ReviewRead(thread: ThreadId, turn: TurnId, item: Option<string>, id: ReviewId, matter: Matter, startedAt: nat): ReviewRecord {
    ReviewRecord(thread, turn, item, id, matter.subject, matter.name, TriggerRead(matter), startedAt, matter.more, matter.network)
  }

  function AnswerRead(facts: seq<Fact>, id: RequestId, completedAt: nat, answer: Answer): seq<Event> {
    var asked := Asked(facts, id);
    if asked.None? then []
    else
      var item := asked.value.item;
      var context := SeenAtHome(facts, item.thread);
      if context.None? then []
      else
        var review := ReviewRead(item.thread, item.turn, Some(item.item), UserReview(id), MatterAsked(asked.value.ask), asked.value.startedAt);
        [ReviewEvent(review, User, StatusRead(answer), ResolutionRead(answer), completedAt, context.value)]
  }

  function GuardianRead(facts: seq<Fact>, fact: Fact): seq<Event>
    requires fact.GuardianCompleted?
  {
    var verdict, context := GuardianVerdict(fact.status), SeenAtHome(facts, fact.thread);
    if verdict.None? || fact.from < 0 || fact.till < 0 || context.None? then []
    else
      var review := ReviewRead(fact.thread, fact.turn, fact.target, GuardianReview(fact.review), MatterOf(fact.action), fact.from);
      [ReviewEvent(review, Guardian, verdict.value.0, Plain, fact.till, context.value)]
  }

  // ---------------------------------------------------------------- items and their reviews

  datatype Resolved = Resolved(reviewer: Reviewer, outcome: ApprovalOutcome, additional: bool, network: bool)

  /** The reviews that count for an item: not those of permissions or of the network. */
  predicate Counts(matter: Matter) {
    matter.subject.CommandSubject? || matter.subject.FileSubject? || matter.subject.McpSubject?
  }

  /** The reviews that `fact`, coming after `before`, resolves on the item. */
  function ResolvedBy(before: seq<Fact>, fact: Fact, key: ItemKey): seq<Resolved> {
    match fact
    case Answered(id, _, answer) =>
      var asked := Asked(before, id);
      if asked.None? || asked.value.item != key || !Counts(MatterAsked(asked.value.ask)) then []
      else
        var matter := MatterAsked(asked.value.ask);
        [Resolved(User, UserVerdict(answer), matter.more, matter.network)]
    case GuardianCompleted(thread, turn, target, _, status, action, from, till) =>
      var verdict, matter := GuardianVerdict(status), MatterOf(action);
      if verdict.None? || from < 0 || till < 0 || target.None? || ItemKey(thread, turn, target.value) != key || !Counts(matter) then []
      else [Resolved(Guardian, verdict.value.1, matter.more, matter.network)]
    case _ => []
  }

  /** The kinds of items that have start times and tool events. */
  predicate IsTool(kind: ItemKind) {
    kind.CommandExecution? || kind.FileChange? || kind.McpToolCall? || kind.DynamicToolCall?
    || kind.CollabAgentToolCall? || kind.WebSearch? || kind.ImageGeneration?
  }

  /** `fact` completes the tool item, for a turn with notes. */
  predicate CompletesItem(before: seq<Fact>, fact: Fact, key: ItemKey) {
    && fact.ItemCompleted? && IsTool(fact.completed.kind) && key == ItemKey(fact.thread, fact.turn, fact.completed.id)
    && NotesOn(before, fact.turn) != []
  }

  /** When the item last started, unless it has been completed since. */
  function StartOf(facts: seq<Fact>, key: ItemKey): Option<nat> {
    if facts == [] then None
    else
      var before, fact := facts[..|facts| - 1], facts[|facts| - 1];
      if fact.ItemStarted? && IsTool(fact.started.kind) && fact.at >= 0 && key == ItemKey(fact.thread, fact.turn, fact.started.id)
      then Some(fact.at)
      else if CompletesItem(before, fact, key) then None
      else StartOf(before, key)
  }

  /** `fact` completes the item and everything its event needs is there. */
  predicate EndsItem(before: seq<Fact>, fact: Fact, key: ItemKey) {
    CompletesItem(before, fact, key) && fact.at >= 0 && StartOf(before, key).Some? && SeenAtHome(before, key.thread).Some?
  }

  /** The reviews resolved on the item since it last ended. */
  function ReviewsOn(facts: seq<Fact>, key: ItemKey): seq<Resolved> {
    if facts == [] then []
    else
      var before, fact := facts[..|facts| - 1], facts[|facts| - 1];
      if EndsItem(before, fact, key) then [] else ReviewsOn(before, key) + ResolvedBy(before, fact, key)
  }

  predicate ByGuardian(r: Resolved) {
    r.reviewer.Guardian?
  }

  predicate ByUser(r: Resolved) {
    r.reviewer.User?
  }

  /** Counts by reviewer, flags set by any review, the outcome of the last one. */
  function Fold(reviews: seq<Resolved>): ReviewSummary {
    ReviewSummary(
      |reviews|,
      Count(ByGuardian, reviews),
      Count(ByUser, reviews),
      if reviews == [] then None else Some(reviews[|reviews| - 1].outcome),
      exists i :: 0 <= i < |reviews| && reviews[i].additional,
      exists i :: 0 <= i < |reviews| && reviews[i].network)
  }

  /** How an item ended: a web search is done whatever its status, a generated image unless it failed. */
  function EndRead(item: Item): Option<TerminalStatus> {
    if item.kind.WebSearch? then Some(ItemDone)
    else if item.status.Failed? then Some(ItemFailed)
    else if item.kind.ImageGeneration? || item.status.Completed? then Some(ItemDone)
    else if item.status.Declined? then Some(ItemRejected)
    else None
  }

  function ToolRead(facts: seq<Fact>, fact: Fact): seq<Event>
    requires fact.ItemCompleted?
  {
    var key, end := ItemKey(fact.thread, fact.turn, fact.completed.id), EndRead(fact.completed);
    if !EndsItem(facts, fact, key) || end.None? then []
    else
      var start := StartOf(facts, key).value;
      [ToolEvent(key, fact.completed, end.value, start, fact.at, if start <= fact.at then Some(fact.at - start) else None,
                 Fold(ReviewsOn(facts, key)), SeenAtHome(facts, key.thread).value)]
  }

  // ---------------------------------------------------------------- everything

  /** The events that `fact` calls for, after the facts `before`. */
  function EventsRead(before: seq<Fact>, fact: Fact): seq<Event> {
    match fact
    case Responded(key, ThreadOpened(thread, _, details), _) =>
      var context := Seen(before + [fact], Some(key.connection), thread);
      if context.None? then [] else [ThreadEvent(thread, context.value, details)]
    case Responded(_, TurnStartAnswer(turn), _) => TurnRead(before, fact, turn)
    case Responded(key, TurnSteerAnswer(turn), _) => SteerRead(before, key, Some(turn), None)
    case Errored(key, reason) => SteerRead(before, key, None, reason)
    case Answered(id, completedAt, answer) => AnswerRead(before, id, completedAt, answer)
    case ItemCompleted(_, _, _, _) => ToolRead(before, fact)
    case GuardianCompleted(_, _, _, _, _, _, _, _) => GuardianRead(before, fact)
    case AboutTurn(turn, _) => TurnRead(before, fact, turn)
    case SubAgentStarted(subagent) => [SubAgentEvent(subagent)]
    case Scoped(kind, thread, _, details) =>
      var context := SeenAtHome(before, thread);
      if context.None? then [] else [ScopedEvent(kind, thread, context.value, details)]
    case _ => []
  }

  /** The events of a whole history. */
  function HistoryRead(facts: seq<Fact>): seq<Event> {
    if facts == [] then []
    else HistoryRead(facts[..|facts| - 1]) + EventsRead(facts[..|facts| - 1], facts[|facts| - 1])
  }
}
