/**
 The reducer's maps hold what the history of facts says: connections, threads, requests, turns, approvals and
 item starts, each against its reading in `FactReading`.
 */
module FactAgreement {
  import opened Options
  import opened AnalyticsFacts
  import opened Counting
  import opened ReducerModel
  import opened ReducerFrames
  import opened TurnView
  import opened FactReading

  function Get<K, V>(m: map<K, V>, k: K): Option<V> {
    if k in m then Some(m[k]) else None
  }

  // ---------------------------------------------------------------- connections and threads

  lemma ConnectionsKept(s: State, fact: Fact)
    requires !fact.Initialize?
    ensures Ingest(s, fact).state.connections == s.connections
  {
    if OnRequests(fact) {
      OnRequestsFrame(s, fact);
    } else if OnItems(fact) {
      OnItemsFrame(s, fact);
    } else {
      ElsewhereFrame(s, fact);
    }
  }

  lemma {:induction false} GreetedAgrees(facts: seq<Fact>, connection: ConnectionId)
    ensures Greeted(facts, connection) == Get(After(facts).connections, connection)
  {
    if facts != [] {
      var n := |facts| - 1;
      GreetedAgrees(facts[..n], connection);
      if !facts[n].Initialize? {
        ConnectionsKept(After(facts[..n]), facts[n]);
      }
    }
  }

  function ThreadReading(facts: seq<Fact>, thread: ThreadId): ThreadState {
    ThreadState(Home(facts, thread), Described(facts, thread), Branded(facts, thread))
  }

  /** The thread map agrees with the history on one thread. */
  predicate ThreadAgrees(facts: seq<Fact>, s: State, thread: ThreadId) {
    ThreadOf(s, thread) == ThreadReading(facts, thread) && (thread in s.threads <==> Described(facts, thread).Some?)
  }

  lemma {:induction false} ThreadsAgree(facts: seq<Fact>, thread: ThreadId)
    ensures ThreadAgrees(facts, After(facts), thread)
  {
    if facts != [] {
      var n := |facts| - 1;
      var before, fact := facts[..n], facts[n];
      ThreadsAgree(before, thread);
      if !Opens(fact) {
        ThreadsFrame(After(before), fact);
      } else if fact.SubAgentStarted? {
        if fact.subagent.parent.Some? {
          ThreadsAgree(before, fact.subagent.parent.value);
        }
        SpawnAgrees(facts, thread);
      } else if fact.Responded? {
        GreetedAgrees(before, fact.key.connection);
        OpenAgrees(facts, thread);
      }
    }
  }

  lemma OpenAgrees(facts: seq<Fact>, thread: ThreadId)
    requires facts != []
    requires
      var before, fact := facts[..|facts| - 1], facts[|facts| - 1];
      && fact.Responded? && fact.response.ThreadOpened? && ThreadAgrees(before, After(before), thread)
      && Greeted(before, fact.key.connection) == Get(After(before).connections, fact.key.connection)
    ensures ThreadAgrees(facts, After(facts), thread)
  {
  }

  lemma SpawnAgrees(facts: seq<Fact>, thread: ThreadId)
    requires facts != []
    requires
      var before, fact := facts[..|facts| - 1], facts[|facts| - 1];
      && fact.SubAgentStarted? && ThreadAgrees(before, After(before), thread)
      && (fact.subagent.parent.Some? ==> ThreadAgrees(before, After(before), fact.subagent.parent.value))
    ensures ThreadAgrees(facts, After(facts), thread)
  {
  }

  // ---------------------------------------------------------------- contexts

  function ContextIn(found: Lookup): Option<Context> {
    if found.Found? then Some(found.context) else None
  }

  lemma ThreadContextAgrees(facts: seq<Fact>, thread: ThreadId)
    ensures ContextIn(ThreadContext(After(facts), thread)) == SeenAtHome(facts, thread)
  {
    ThreadsAgree(facts, thread);
    var home := Home(facts, thread);
    if home.Some? {
      GreetedAgrees(facts, home.value);
    }
  }

  lemma TurnContextAgrees(facts: seq<Fact>, turn: TurnState, thread: ThreadId)
    ensures
      var connection := if turn.connection.Some? then turn.connection else Home(facts, thread);
      ContextIn(TurnContext(After(facts), turn, thread)) == Seen(facts, connection, thread)
  {
    ThreadsAgree(facts, thread);
    var connection := if turn.connection.Some? then turn.connection else Home(facts, thread);
    if connection.Some? {
      GreetedAgrees(facts, connection.value);
    }
  }

  lemma SteerContextAgrees(facts: seq<Fact>, connection: ConnectionId, thread: ThreadId)
    ensures ContextIn(SteerContext(After(facts), connection, thread)) == Seen(facts, Some(connection), thread)
  {
    ThreadsAgree(facts, thread);
    GreetedAgrees(facts, connection);
  }

  // ---------------------------------------------------------------- client requests

  function Waits(request: ClientRequest): PendingRequest
    requires !request.OtherRequest?
  {
    match request
    case StartTurn(thread, images) => PendingStart(thread, images)
    case SteerTurn(thread, turn, images) => PendingSteer(Steer(thread, turn, images))
  }

  /** What waits under `key` after one more fact. */
  predicate WaitsNext(s: State, fact: Fact, key: RequestKey, after: State) {
    Get(after.requests, key) ==
    if fact.Requested? && fact.key == key && !fact.request.OtherRequest? then Some(Waits(fact.request))
    else if SettlesRequest(fact, key) then None
    else Get(s.requests, key)
  }

  lemma ResponseWaits(s: State, fact: Fact, key: RequestKey)
    requires fact.Responded?
    ensures WaitsNext(s, fact, key, IngestResponse(s, fact.key, fact.response, fact.originator).state)
  {
    match fact.response {
      case TurnStartAnswer(turn) => AnswerStartFrame(s, fact.key, turn);
      case TurnSteerAnswer(turn) => AnswerSteerFrame(s, fact.key, turn);
      case _ =>
    }
  }

  lemma RequestWaits(s: State, fact: Fact, key: RequestKey)
    requires fact.Requested?
    ensures WaitsNext(s, fact, key, IngestRequest(s, fact.key, fact.request).state)
  {
  }

  lemma FactWaits(s: State, fact: Fact, key: RequestKey)
    ensures WaitsNext(s, fact, key, Ingest(s, fact).state)
  {
    match fact {
      case Requested(_, _) => RequestWaits(s, fact, key);
      case Responded(_, _, _) => ResponseWaits(s, fact, key);
      case Errored(other, reason) => ErrorFrame(s, other, reason);
      case _ => RequestsKept(s, fact);
    }
  }

  lemma {:induction false} WantedAgrees(facts: seq<Fact>, key: RequestKey)
    ensures Wanted(facts, key).Some? ==> !Wanted(facts, key).value.OtherRequest?
    ensures
      var wanted := Wanted(facts, key);
      Get(After(facts).requests, key) == if wanted.Some? then Some(Waits(wanted.value)) else None
  {
    if facts != [] {
      var n := |facts| - 1;
      WantedAgrees(facts[..n], key);
      FactWaits(After(facts[..n]), facts[n], key);
    }
  }

  // ---------------------------------------------------------------- turns

  /** The turn's state, from its notes. */
  function Kept(notes: seq<Note>): TurnState {
    TurnState(
      Latest(ConnectionNoted, notes), ThreadRead(notes), Latest(ImagesNoted, notes), Latest(ConfigNoted, notes),
      StartRead(notes), Latest(TokensNoted, notes), Latest(ProfileNoted, notes), Latest(CompletionNoted, notes),
      Latest(ErrorNoted, notes), Latest(DiffNoted, notes), Count(IsSteered, notes), ToolsRead(notes))
  }

  lemma KeptNone()
    ensures Kept([]) == NEW_TURN
  {
  }

  lemma LatestSnoc<A>(read: Note -> Option<A>, notes: seq<Note>, note: Note)
    ensures Latest(read, notes + [note]) == if read(note).Some? then read(note) else Latest(read, notes)
  {
    assert (notes + [note])[..|notes|] == notes;
  }

  lemma FirstSnoc<A>(read: Note -> Option<A>, notes: seq<Note>, note: Note)
    ensures First(read, notes + [note]) == if First(read, notes).Some? then First(read, notes) else read(note)
  {
    assert (notes + [note])[..|notes|] == notes;
  }

  lemma CountSnoc<T>(p: T -> bool, s: seq<T>, x: T)
    ensures Count(p, s + [x]) == Count(p, s) + if p(x) then 1 else 0
  {
    assert (s + [x])[..|s|] == s;
  }

  lemma ToolsSnoc(notes: seq<Note>, note: Note)
    ensures
      ToolsRead(notes + [note]) ==
      if note.Ran? && !note.kind.OtherItem? then Tally(ToolsRead(notes), note.kind)
      else if note.Ran? then ToolsRead(notes).(total := ToolsRead(notes).total + 1)
      else ToolsRead(notes)
  {
    assert (notes + [note])[..|notes|] == notes;
  }

  /** The turn's state with one more note. */
  function KeptNext(turn: TurnState, note: Note): TurnState
    requires note.Ran? ==> !note.kind.OtherItem?
  {
    match note
    case Told(fact) => Updated(turn, fact)
    case Began(connection, thread, images) => turn.(connection := Some(connection), thread := Some(thread), images := Some(images))
    case Steered => turn.(steers := turn.steers + 1)
    case Ran(kind) => turn.(tools := Tally(turn.tools, kind))
  }

  lemma KeptSnoc(notes: seq<Note>, note: Note)
    requires note.Ran? ==> !note.kind.OtherItem?
    ensures Kept(notes + [note]) == KeptNext(Kept(notes), note)
  {
    LatestSnoc(ConnectionNoted, notes, note);
    LatestSnoc(ThreadNoted, notes, note);
    LatestSnoc(ImagesNoted, notes, note);
    LatestSnoc(ConfigNoted, notes, note);
    LatestSnoc(StartNoted, notes, note);
    LatestSnoc(TokensNoted, notes, note);
    LatestSnoc(ProfileNoted, notes, note);
    LatestSnoc(CompletionNoted, notes, note);
    LatestSnoc(ErrorNoted, notes, note);
    LatestSnoc(DiffNoted, notes, note);
    FirstSnoc(ErrorThreadNoted, notes, note);
    CountSnoc(IsSteered, notes, note);
    ToolsSnoc(notes, note);
  }

  /** The turn map agrees with the history on one turn. */
  predicate TurnAgrees(facts: seq<Fact>, s: State, t: TurnId) {
    var notes := NotesOn(facts, t);
    TurnIn(s, t) == if notes == [] then None else Some(Kept(notes))
  }

  lemma TurnOfNotes(facts: seq<Fact>, s: State, t: TurnId)
    requires TurnAgrees(facts, s, t)
    ensures TurnOf(s, t) == Kept(NotesOn(facts, t)) && (t in s.turns <==> NotesOn(facts, t) != [])
  {
    KeptNone();
  }

  /** What `fact` writes into the turn's state. */
  predicate Writes(s: State, t: TurnId, fact: Fact, noted: seq<Note>) {
    if noted == [] then Stage(s, t, fact) == TurnIn(s, t)
    else
      && |noted| == 1 && (noted[0].Ran? ==> !noted[0].kind.OtherItem?)
      && Stage(s, t, fact) == Some(KeptNext(TurnOf(s, t), noted[0]))
  }

  lemma ResponseWrites(before: seq<Fact>, fact: Fact, t: TurnId)
    requires fact.Responded?
    ensures Writes(After(before), t, fact, Noted(before, fact, t, t in After(before).turns))
  {
    WantedAgrees(before, fact.key);
  }

  lemma FactWrites(before: seq<Fact>, fact: Fact, t: TurnId)
    ensures Writes(After(before), t, fact, Noted(before, fact, t, t in After(before).turns))
  {
    if fact.Responded? {
      ResponseWrites(before, fact, t);
    }
  }

  /** What a fact writes into the turn's state is what it adds to the notes. */
  lemma StageIsNoted(before: seq<Fact>, fact: Fact, t: TurnId)
    requires TurnAgrees(before, After(before), t)
    ensures
      var earlier := NotesOn(before, t);
      var notes := earlier + Noted(before, fact, t, earlier != []);
      Stage(After(before), t, fact) == if notes == [] then None else Some(Kept(notes))
  {
    var s, earlier := After(before), NotesOn(before, t);
    var noted := Noted(before, fact, t, earlier != []);
    TurnOfNotes(before, s, t);
    FactWrites(before, fact, t);
    if noted == [] {
      assert earlier + noted == earlier;
    } else {
      assert noted == [noted[0]];
      KeptSnoc(earlier, noted[0]);
    }
  }

  lemma TriesIsPrompted(before: seq<Fact>, fact: Fact, t: TurnId, known: bool)
    ensures
      var noted := Noted(before, fact, t, known);
      Tries(After(before), t, fact) <==> noted != [] && Prompts(noted[0])
  {
    if fact.Responded? {
      WantedAgrees(before, fact.key);
    }
  }

  lemma ReportAgrees(before: seq<Fact>, t: TurnId, notes: seq<Note>)
    ensures Ready(After(before), Kept(notes)) <==> ReportRead(before, t, notes) != []
    ensures Ready(After(before), Kept(notes)) ==> Report(After(before), t, Kept(notes)) == ReportRead(before, t, notes)
  {
    var turn := Kept(notes);
    if Complete(turn) {
      TurnContextAgrees(before, turn, turn.thread.value);
    }
  }

  lemma TurnReadAgrees(before: seq<Fact>, fact: Fact, t: TurnId)
    requires TurnAgrees(before, After(before), t)
    ensures
      var s := After(before);
      TurnRead(before, fact, t) == if Emits(s, t, fact) then Report(s, t, Stage(s, t, fact).value) else []
    ensures Emits(After(before), t, fact) <==> TurnRead(before, fact, t) != []
  {
    var earlier := NotesOn(before, t);
    StageIsNoted(before, fact, t);
    TriesIsPrompted(before, fact, t, earlier != []);
    ReportAgrees(before, t, earlier + Noted(before, fact, t, earlier != []));
  }

  lemma {:induction false} TurnsAgree(facts: seq<Fact>, t: TurnId)
    ensures TurnAgrees(facts, After(facts), t)
  {
    if facts != [] {
      var n := |facts| - 1;
      TurnsAgree(facts[..n], t);
      IngestSteps(After(facts[..n]), t, facts[n]);
      StageIsNoted(facts[..n], facts[n], t);
      TurnReadAgrees(facts[..n], facts[n], t);
    }
  }

  // ---------------------------------------------------------------- approvals and item starts

  /** The review that a pending approval asks for. */
  function ReviewAsked(asked: Fact): ReviewRecord
    requires asked.ApprovalRequested? && asked.startedAt >= 0
  {
    ReviewRead(asked.item.thread, asked.item.turn, Some(asked.item.item), UserReview(asked.id), MatterAsked(asked.ask), asked.startedAt)
  }

  lemma AskIsRead(asked: Fact)
    requires asked.ApprovalRequested? && asked.startedAt >= 0
    ensures AskRecord(asked.id, asked.item, asked.startedAt, asked.ask) == ReviewAsked(asked)
  {
  }

  lemma {:induction false} AskedAgrees(facts: seq<Fact>, id: RequestId)
    ensures
      var asked := Asked(facts, id);
      Get(After(facts).reviews, id) == if asked.Some? then Some(ReviewAsked(asked.value)) else None
  {
    if facts != [] {
      var n := |facts| - 1;
      var s, fact := After(facts[..n]), facts[n];
      AskedAgrees(facts[..n], id);
      match fact {
        case ApprovalRequested(_, _, startedAt, _) =>
          if startedAt >= 0 {
            AskIsRead(fact);
          }
        case Answered(other, at, answer) => AnswerFrame(s, other, at, answer);
        case _ => ReviewsKept(s, fact);
      }
    }
  }

  lemma CompletionStarted(s: State, fact: Fact)
    requires fact.ItemCompleted?
    ensures
      var key := ItemKey(fact.thread, fact.turn, fact.completed.id);
      Ingest(s, fact).state.started ==
      if Tracked(fact.completed) && fact.turn in s.turns then s.started - {key} else s.started
  {
    var key := ItemKey(fact.thread, fact.turn, fact.completed.id);
    if key !in s.started {
      assert s.started - {key} == s.started;
    }
  }

  /** When the item started, after one more fact. */
  predicate StartNext(s: State, fact: Fact, key: ItemKey, after: State) {
    Get(after.started, key) ==
    if fact.ItemStarted? && IsTool(fact.started.kind) && fact.at >= 0 && key == ItemKey(fact.thread, fact.turn, fact.started.id)
    then Some(fact.at)
    else if fact.ItemCompleted? && IsTool(fact.completed.kind) && key == ItemKey(fact.thread, fact.turn, fact.completed.id)
            && fact.turn in s.turns
    then None
    else Get(s.started, key)
  }

  lemma FactStarts(s: State, fact: Fact, key: ItemKey)
    ensures StartNext(s, fact, key, Ingest(s, fact).state)
  {
    match fact {
      case ItemStarted(_, _, _, _) =>
      case ItemCompleted(_, _, _, _) => CompletionStarted(s, fact);
      case _ => StartedKept(s, fact);
    }
  }

  lemma {:induction false} StartsAgree(facts: seq<Fact>, key: ItemKey)
    ensures StartOf(facts, key) == Get(After(facts).started, key)
  {
    if facts != [] {
      var n := |facts| - 1;
      var before, fact := facts[..n], facts[n];
      StartsAgree(before, key);
      FactStarts(After(before), fact, key);
      if fact.ItemCompleted? {
        TurnsAgree(before, fact.turn);
        TurnOfNotes(before, After(before), fact.turn);
      }
    }
  }
}
