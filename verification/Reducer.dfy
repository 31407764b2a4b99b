/**
 `AnalyticsReducer` (motyga-rs/analytics/src/reducer.rs) with its seven maps as fields. `Valid` says that
 the object is what a fresh reducer becomes by the facts it has been given, and that it has put out what
 such a reducer puts out; every ingest method keeps it, so the results about runs are results about the
 object, and the contracts say what they come to.
 */
module Reducer {
  import opened Options
  import opened AnalyticsFacts
  import opened ReducerModel
  import opened Counting
  import AcceptedLines
  import FactReading
  import PendingSpent
  import ReducerContext
  import ReducerReads
  import ReviewFold
  import TurnFreshness

  /** A fresh reducer, given `facts`, gets into state `s` and puts out `emitted`. */
  ghost predicate IsRun(facts: seq<Fact>, s: State, emitted: seq<Event>) {
    Outcome(s, emitted) == Run(EMPTY, facts)
  }

  /** The run of a reducer, continued by one fact. */
  lemma Extends(facts: seq<Fact>, s: State, emitted: seq<Event>, fact: Fact, after: State, out: seq<Event>)
    requires IsRun(facts, s, emitted) && Outcome(after, out) == Ingest(s, fact)
    ensures IsRun(facts + [fact], after, emitted + out)
    ensures out == FactReading.EventsRead(facts, fact)
    ensures forall e :: e in out ==> Faithful(facts, e)
  {
    RunSnoc(EMPTY, facts, fact);
    ReducerReads.EventsAreRead(facts, fact);
    EventsAreFaithful(facts, fact);
  }

  /** What a reader of the events can rely on, given the facts before: a tool event carries the fold of the
      reviews of its item, a turn event the counts of the completions since the last one. */
  predicate Faithful(facts: seq<Fact>, event: Event) {
    && (event.ToolEvent? ==>
          && event.summary == FactReading.Fold(FactReading.ReviewsOn(facts, event.key))
          && event.summary.guardian + event.summary.user == event.summary.reviews)
    && (event.TurnEvent? ==>
          && event.record.tools == TurnFreshness.CountsOf(TurnFreshness.Counted(facts, event.turn))
          && event.record.tools.total == TurnFreshness.Categories(event.record.tools))
  }

  lemma EventsAreFaithful(facts: seq<Fact>, fact: Fact)
    ensures forall e :: e in Ingest(After(facts), fact).events ==> Faithful(facts, e)
  {
    forall e | e in Ingest(After(facts), fact).events
      ensures Faithful(facts, e)
    {
      if e.ToolEvent? {
        ReviewFold.ToolEventCarriesFold(facts, fact, e);
      } else if e.TurnEvent? {
        TurnFreshness.TurnEventCounts(facts, fact, e);
      }
    }
  }

  lemma TurnReports(s: State, t: TurnId, fact: TurnFact)
    ensures
      var o := IngestTurn(s, t, fact);
      o.events != [] ==> o.events[0].TurnEvent? && o.events[0].turn == t && t !in o.state.turns
  {
  }

  predicate ChangesLines(diff: string) {
    AcceptedLines.Changed(diff).added + AcceptedLines.Changed(diff).deleted > 0
  }

  /** A report on a turn: its event carries the turn's state field by field, and a second event counts the
      lines of its diff if there are any. */
  predicate Reports(turn: TurnState, turnId: TurnId, out: seq<Event>) {
    && 1 <= |out| <= 2 && out[0].TurnEvent? && out[0].turn == turnId
    && (var record := out[0].record;
        && turn.thread == Some(record.thread) && turn.images == Some(record.images) && turn.config == Some(record.config)
        && turn.profile == Some(record.profile) && turn.completion == Some(record.completion)
        && turn.startedAt == record.startedAt && turn.tokens == record.tokens && turn.error == record.error
        && turn.steers == record.steers && turn.tools == record.tools
        && (|out| == 2 <==> turn.diff.Some? && ChangesLines(turn.diff.value))
        && (|out| == 2 ==>
              var lines := AcceptedLines.Changed(turn.diff.value);
              out[1] == AcceptedLinesEvent(turnId, record.thread, record.config.model, lines.added, lines.deleted)))
  }

  /** Answers never outnumber what they answer. */
  predicate Spent(facts: seq<Fact>, emitted: seq<Event>) {
    && Count(PendingSpent.IsSteer, emitted) <= Count(PendingSpent.AsksSteer, facts)
    && Count(PendingSpent.IsUserReview, emitted) <= Count(PendingSpent.AsksApproval, facts)
  }

  lemma RunsAreSpent(facts: seq<Fact>, s: State, emitted: seq<Event>)
    requires IsRun(facts, s, emitted)
    ensures Spent(facts, emitted)
  {
    PendingSpent.SteersSpentOnce(facts);
    PendingSpent.UserReviewsSpentOnce(facts);
  }

  class AnalyticsReducer {
    var requests: map<RequestKey, PendingRequest>
    var turns: map<TurnId, TurnState>
    var connections: map<ConnectionId, Connection>
    var threads: map<ThreadId, ThreadState>
    var started: map<ItemKey, nat>
    var reviews: map<RequestId, ReviewRecord>
    var summaries: map<ItemKey, ReviewSummary>
    ghost var facts: seq<Fact>
    ghost var emitted: seq<Event>

    ghost function View(): State
      reads this
    {
      State(requests, turns, connections, threads, started, reviews, summaries)
    }

    ghost predicate Valid()
      reads this
    {
      IsRun(facts, View(), emitted)
    }

    constructor ()
      ensures Valid() && facts == [] && emitted == []
    {
      requests, turns, connections, threads, started, reviews, summaries := map[], map[], map[], map[], map[], map[], map[];
      facts, emitted := [], [];
    }

    /** Notes that `fact` has been ingested and `out` put out. */
    ghost method Note(fact: Fact, out: seq<Event>, s: State)
      requires IsRun(facts, s, emitted) && Outcome(View(), out) == Ingest(s, fact)
      modifies `facts, `emitted
      ensures Valid() && facts == old(facts) + [fact] && emitted == old(emitted) + out
      ensures out == FactReading.EventsRead(old(facts), fact)
      ensures forall e :: e in out ==> Faithful(old(facts), e)
    {
      Extends(facts, s, emitted, fact, View(), out);
      facts, emitted := facts + [fact], emitted + out;
    }

    // -------------------------------------------------------------- context

    /** For a reducer between two facts the lookup fails only for a thread without a connection. */
    method ThreadContextOrWarn(thread: ThreadId) returns (found: Lookup)
      ensures found == ThreadContext(View(), thread)
      ensures Valid() ==> (found.Found? <==> thread in threads && threads[thread].connection.Some?)
      ensures Valid() ==> !found.MissingConnection? && !found.MissingMetadata?
    {
      if IsRun(facts, View(), emitted) {
        ReducerContext.ThreadLookup(facts, thread);
      }
      if thread !in threads || threads[thread].connection.None? {
        return MissingThreadConnection;
      }
      var connection := threads[thread].connection.value;
      if connection !in connections {
        return MissingConnection(connection);
      }
      if threads[thread].metadata.None? {
        return MissingMetadata;
      }
      return Found(ContextOf(connections[connection], threads[thread].originator, threads[thread].metadata.value));
    }

    // -------------------------------------------------------------- turns

    method MaybeEmitTurnEvent(turnId: TurnId) returns (out: seq<Event>)
      modifies `turns
      ensures Outcome(View(), out) == MaybeEmitTurn(old(View()), turnId)
      ensures out != [] ==> turnId in old(turns) && Reports(old(turns)[turnId], turnId, out)
    {
      out := [];
      if turnId !in turns || !Complete(turns[turnId]) {
        return;
      }
      var turn := turns[turnId];
      var thread := turn.thread.value;
      var connection := turn.connection;
      if connection.None? && thread in threads {
        connection := threads[thread].connection;
      }
      if connection.None? || connection.value !in connections || thread !in threads || threads[thread].metadata.None? {
        return;
      }
      var context := ContextOf(connections[connection.value], threads[thread].originator, threads[thread].metadata.value);
      var record := TurnRecord(thread, turn.images.value, turn.config.value, turn.profile.value, turn.completion.value,
                               turn.startedAt, turn.tokens, turn.error, turn.steers, turn.tools);
      out := [TurnEvent(turnId, record, context)];
      if turn.diff.Some? {
        var changed := AcceptedLines.AcceptedLineFingerprintsFromUnifiedDiff(c => false, turn.diff.value);
        if changed.added != 0 || changed.deleted != 0 {
          out := out + [AcceptedLinesEvent(turnId, thread, turn.config.value.model, changed.added, changed.deleted)];
        }
      }
      assert out == [TurnEvent(turnId, record, context)] + AcceptedLinesOf(turnId, turn);
      turns := turns - {turnId};
    }

    method WriteTurnFact(turnId: TurnId, fact: TurnFact) returns (out: seq<Event>)
      modifies `turns
      ensures Outcome(View(), out) == IngestTurn(old(View()), turnId, fact)
    {
      var turn := if turnId in turns then turns[turnId] else NEW_TURN;
      out := [];
      match fact {
        case TurnStarted(at) =>
          turn := turn.(startedAt := Unsigned(at));
        case TurnDiff(thread, diff) =>
          turn := turn.(thread := Some(thread), diff := Some(diff));
        case TurnCompleted(completion) =>
          turn := turn.(completion := Some(completion));
        case TurnConfig(config) =>
          turn := turn.(thread := Some(config.thread), images := Some(config.images), config := Some(config));
        case TurnTokens(thread, usage) =>
          turn := turn.(thread := Some(thread), tokens := Some(usage));
        case TurnProfile(profile) =>
          turn := turn.(profile := Some(profile));
        case TurnError(thread, error) =>
          if turn.thread.None? {
            turn := turn.(thread := Some(thread));
          }
          turn := turn.(error := Some(error));
      }
      turns := turns[turnId := turn];
      if Attempts(fact) {
        out := MaybeEmitTurnEvent(turnId);
      }
    }

    /** The facts and notifications about one turn. What is put out starts with the event of this turn, which
        is then forgotten. */
    method IngestTurnFact(turnId: TurnId, fact: TurnFact) returns (out: seq<Event>)
      requires Valid()
      modifies `turns, `facts, `emitted
      ensures Valid() && facts == old(facts) + [AboutTurn(turnId, fact)] && emitted == old(emitted) + out
      ensures out == FactReading.EventsRead(old(facts), AboutTurn(turnId, fact))
      ensures forall e :: e in out ==> Faithful(old(facts), e)
      ensures out != [] ==> out[0].TurnEvent? && out[0].turn == turnId && turnId !in turns
    {
      ghost var before := View();
      out := WriteTurnFact(turnId, fact);
      TurnReports(before, turnId, fact);
      Note(AboutTurn(turnId, fact), out, before);
    }

    // -------------------------------------------------------------- clients and threads

    method IngestClientRequest(key: RequestKey, request: ClientRequest)
      requires Valid()
      modifies `requests, `facts, `emitted
      ensures Valid() && facts == old(facts) + [Requested(key, request)] && emitted == old(emitted)
      ensures !request.OtherRequest? ==> key in requests
    {
      ghost var before := View();
      match request {
        case StartTurn(thread, images) => requests := requests[key := PendingStart(thread, images)];
        case SteerTurn(thread, turn, images) => requests := requests[key := PendingSteer(Steer(thread, turn, images))];
        case OtherRequest =>
      }
      Note(Requested(key, request), [], before);
    }

    method EmitThreadInitialized(connection: ConnectionId, thread: ThreadId, metadata: ThreadMetadata, details: string, originator: Option<string>)
      returns (out: seq<Event>)
      modifies `threads
      ensures Outcome(View(), out) == OpenThread(old(View()), connection, thread, metadata, details, originator)
    {
      if connection !in connections {
        return [];
      }
      var state := if thread in threads then threads[thread] else NEW_THREAD;
      if originator.Some? {
        state := state.(originator := originator);
      }
      state := state.(connection := Some(connection), metadata := Some(metadata));
      threads := threads[thread := state];
      return [ThreadEvent(thread, ContextOf(connections[connection], state.originator, metadata), details)];
    }

    method EmitTurnSteerEvent(connection: ConnectionId, steer: Steer, accepted: Option<TurnId>, reason: Option<string>) returns (out: seq<Event>)
      ensures out == SteerEvents(View(), connection, steer, accepted, reason)
      ensures Valid() ==> (out != [] <==> connection in connections && steer.thread in threads)
    {
      if IsRun(facts, View(), emitted) {
        ReducerContext.SteerLookup(facts, connection, steer.thread);
      }
      if connection !in connections || steer.thread !in threads || threads[steer.thread].metadata.None? {
        return [];
      }
      var thread := threads[steer.thread];
      return [SteerEvent(steer, accepted, reason, ContextOf(connections[connection], thread.originator, thread.metadata.value))];
    }

    method IngestTurnStartResponse(key: RequestKey, turnId: TurnId) returns (out: seq<Event>)
      modifies `requests, `turns
      ensures Outcome(View(), out) == AnswerStart(old(View()), key, turnId)
    {
      out := [];
      if key !in requests {
        assert requests - {key} == requests;
        return;
      }
      var pending := requests[key];
      requests := requests - {key};
      if !pending.PendingStart? {
        return;
      }
      var turn := if turnId in turns then turns[turnId] else NEW_TURN;
      turns := turns[turnId := turn.(connection := Some(key.connection), thread := Some(pending.thread), images := Some(pending.images))];
      out := MaybeEmitTurnEvent(turnId);
    }

    method IngestTurnSteerResponse(key: RequestKey, turnId: TurnId) returns (out: seq<Event>)
      modifies `requests, `turns
      ensures Outcome(View(), out) == AnswerSteer(old(View()), key, turnId)
    {
      if key !in requests {
        assert requests - {key} == requests;
        return [];
      }
      var pending := requests[key];
      requests := requests - {key};
      if !pending.PendingSteer? {
        return [];
      }
      if turnId in turns {
        turns := turns[turnId := turns[turnId].(steers := turns[turnId].steers + 1)];
      }
      out := EmitTurnSteerEvent(key.connection, pending.steer, Some(turnId), None);
    }

    /** An answered request is no longer pending, and answering it again does nothing. */
    method IngestClientResponse(key: RequestKey, response: ClientResponse, originator: Option<string>) returns (out: seq<Event>)
      requires Valid()
      modifies `requests, `turns, `threads, `facts, `emitted
      ensures Valid() && facts == old(facts) + [Responded(key, response, originator)] && emitted == old(emitted) + out
      ensures out == FactReading.EventsRead(old(facts), Responded(key, response, originator))
      ensures forall e :: e in out ==> Faithful(old(facts), e)
      ensures response.TurnStartAnswer? || response.TurnSteerAnswer? ==> key !in requests
      ensures (response.TurnStartAnswer? || response.TurnSteerAnswer?) && key !in old(requests) ==> out == [] && View() == old(View())
    {
      ghost var before, fact := View(), Responded(key, response, originator);
      match response {
        case ThreadOpened(thread, metadata, details) =>
          out := EmitThreadInitialized(key.connection, thread, metadata, details, originator);
        case TurnStartAnswer(turn) => out := IngestTurnStartResponse(key, turn);
        case TurnSteerAnswer(turn) => out := IngestTurnSteerResponse(key, turn);
        case OtherResponse => out := [];
      }
      if response.TurnStartAnswer? || response.TurnSteerAnswer? {
        PendingSpent.SettledIsGone(before, fact, key);
      }
      Note(fact, out, before);
    }

    method SpendRequest(key: RequestKey, reason: Option<string>) returns (out: seq<Event>)
      modifies `requests
      ensures Outcome(View(), out) == IngestError(old(View()), key, reason)
    {
      out := [];
      if key in requests {
        var pending := requests[key];
        requests := requests - {key};
        if pending.PendingSteer? {
          out := EmitTurnSteerEvent(key.connection, pending.steer, None, reason);
        }
      } else {
        assert requests - {key} == requests;
      }
    }

    /** A failed request is no longer pending, and failing it again does nothing. */
    method IngestErrorResponse(key: RequestKey, reason: Option<string>) returns (out: seq<Event>)
      requires Valid()
      modifies `requests, `facts, `emitted
      ensures Valid() && facts == old(facts) + [Errored(key, reason)] && emitted == old(emitted) + out
      ensures out == FactReading.EventsRead(old(facts), Errored(key, reason))
      ensures forall e :: e in out ==> Faithful(old(facts), e)
      ensures key !in requests && (key !in old(requests) ==> out == [] && View() == old(View()))
    {
      ghost var before := View();
      out := SpendRequest(key, reason);
      PendingSpent.SettledIsGone(before, Errored(key, reason), key);
      Note(Errored(key, reason), out, before);
    }

    /** A sub-agent's thread is known with metadata from then on. */
    method IngestSubAgentThreadStarted(subagent: SubAgent) returns (out: seq<Event>)
      requires Valid()
      modifies `threads, `facts, `emitted
      ensures Valid() && facts == old(facts) + [SubAgentStarted(subagent)] && emitted == old(emitted) + out
      ensures out == FactReading.EventsRead(old(facts), SubAgentStarted(subagent))
      ensures forall e :: e in out ==> Faithful(old(facts), e)
      ensures subagent.thread in threads && threads[subagent.thread].metadata.Some?
    {
      ghost var before := View();
      var parent := None;
      if subagent.parent.Some? && subagent.parent.value in threads {
        parent := threads[subagent.parent.value].connection;
      }
      var state := if subagent.thread in threads then threads[subagent.thread] else NEW_THREAD;
      if state.originator.None? {
        state := state.(originator := Some(subagent.product));
      }
      if state.metadata.None? {
        state := state.(metadata := Some(
          ThreadMetadata(subagent.session, Some("subagent"), New, Some(subagent.source), subagent.parent)));
      }
      if state.connection.None? {
        state := state.(connection := parent);
      }
      threads := threads[subagent.thread := state];
      out := [SubAgentEvent(subagent)];
      Note(SubAgentStarted(subagent), out, before);
    }

    // -------------------------------------------------------------- reviews

    method RecordItemReviewSummary(key: ItemKey, reviewer: Reviewer, outcome: ApprovalOutcome, review: ReviewRecord)
      modifies `summaries
      ensures summaries == old(summaries)[key := Record(SummaryOf(old(View()), key), reviewer, outcome, review)]
    {
      var summary := if key in summaries then summaries[key] else NO_REVIEWS;
      summary := summary.(reviews := summary.reviews + 1);
      if reviewer.Guardian? {
        summary := summary.(guardian := summary.guardian + 1);
      } else {
        summary := summary.(user := summary.user + 1);
      }
      summary := summary.(outcome := Some(outcome));
      summary := summary.(additional := summary.additional || review.additional, network := summary.network || review.network);
      summaries := summaries[key := summary];
    }

    method EmitReviewEvent(review: ReviewRecord, reviewer: Reviewer, status: ReviewStatus, resolution: Resolution, completedAt: nat)
      returns (out: seq<Event>)
      modifies `summaries
      ensures Outcome(View(), out) == EmitReview(old(View()), review, reviewer, status, resolution, completedAt)
    {
      var key := SummaryKey(review);
      if key.Some? {
        RecordItemReviewSummary(key.value, reviewer, FinalOutcome(reviewer, status, resolution), review);
      }
      var context := ThreadContextOrWarn(review.thread);
      if !context.Found? {
        return [];
      }
      return [ReviewEvent(review, reviewer, status, resolution, completedAt, context.context)];
    }

    /** Command and file answers, effective permissions and aborts: an answered approval is no longer pending,
        and answering it again does nothing. */
    method IngestServerAnswer(id: RequestId, completedAt: nat, answer: Answer) returns (out: seq<Event>)
      requires Valid()
      modifies `reviews, `summaries, `facts, `emitted
      ensures Valid() && facts == old(facts) + [Answered(id, completedAt, answer)] && emitted == old(emitted) + out
      ensures out == FactReading.EventsRead(old(facts), Answered(id, completedAt, answer))
      ensures forall e :: e in out ==> Faithful(old(facts), e)
      ensures id !in reviews && (id !in old(reviews) ==> out == [] && View() == old(View()))
    {
      ghost var before := View();
      out := [];
      if id in reviews {
        var pending := reviews[id];
        reviews := reviews - {id};
        var result := ResultOf(answer);
        out := EmitReviewEvent(pending, User, result.0, result.1, completedAt);
      }
      Note(Answered(id, completedAt, answer), out, before);
    }

    /** A guardian's review leaves everything but the summaries alone, and those too if it is about
        permissions or the network. */
    method IngestGuardianReviewCompleted(thread: ThreadId, turn: TurnId, target: Option<string>, review: string,
                                         status: GuardianStatus, action: GuardianAction, from: int, till: int)
      returns (out: seq<Event>)
      requires Valid()
      modifies `summaries, `facts, `emitted
      ensures Valid() && emitted == old(emitted) + out
      ensures forall e :: e in out ==> Faithful(old(facts), e)
      ensures facts == old(facts) + [GuardianCompleted(thread, turn, target, review, status, action, from, till)]
      ensures out == FactReading.EventsRead(old(facts), GuardianCompleted(thread, turn, target, review, status, action, from, till))
      ensures action.NetworkAction? || action.PermissionsAction? ==> summaries == old(summaries)
    {
      ghost var before, fact := View(), GuardianCompleted(thread, turn, target, review, status, action, from, till);
      out := [];
      var result := GuardianResult(status);
      if result.Some? && from >= 0 && till >= 0 {
        out := EmitReviewEvent(GuardianRecord(thread, turn, target, review, action, from), Guardian, result.value, Plain, till);
      }
      Note(fact, out, before);
    }

    // -------------------------------------------------------------- items

    method IngestItemStart(thread: ThreadId, turn: TurnId, item: Item, at: int)
      requires Valid()
      modifies `started, `facts, `emitted
      ensures Valid() && facts == old(facts) + [ItemStarted(thread, turn, item, at)] && emitted == old(emitted)
    {
      ghost var before := View();
      if Tracked(item) && at >= 0 {
        started := started[ItemKey(thread, turn, item.id) := at];
      }
      Note(ItemStarted(thread, turn, item, at), [], before);
    }

    /** A completion of a tracked item of a turn with state spends the item's start, and its tool event
        carries the fold of the item's reviews. */
    method IngestItemEnd(thread: ThreadId, turn: TurnId, item: Item, at: int) returns (out: seq<Event>)
      requires Valid()
      modifies `turns, `started, `summaries, `facts, `emitted
      ensures Valid() && facts == old(facts) + [ItemCompleted(thread, turn, item, at)] && emitted == old(emitted) + out
      ensures out == FactReading.EventsRead(old(facts), ItemCompleted(thread, turn, item, at))
      ensures forall e :: e in out ==> Faithful(old(facts), e)
      ensures Tracked(item) && turn in old(turns) ==> ItemKey(thread, turn, item.id) !in started
    {
      ghost var before := View();
      out := ItemEnd(thread, turn, item, at);
      Note(ItemCompleted(thread, turn, item, at), out, before);
    }

    method ItemEnd(thread: ThreadId, turn: TurnId, item: Item, at: int) returns (out: seq<Event>)
      modifies `turns, `started, `summaries
      ensures Outcome(View(), out) == IngestItemCompleted(old(View()), thread, turn, item, at)
      ensures Tracked(item) && turn in old(turns) ==> ItemKey(thread, turn, item.id) !in started
    {
      if item.kind.OtherItem? || turn !in turns {
        return [];
      }
      turns := turns[turn := turns[turn].(tools := Tally(turns[turn].tools, item.kind))];
      var key := ItemKey(thread, turn, item.id);
      if item.kind.SubAgentActivity? || key !in started {
        return [];
      }
      var startedAt := started[key];
      started := started - {key};
      if at < 0 {
        return [];
      }
      var context := ThreadContextOrWarn(thread);
      if !context.Found? {
        return [];
      }
      out := [];
      var terminal := TerminalOf(item);
      if terminal.Some? {
        var summary := if key in summaries then summaries[key] else NO_REVIEWS;
        out := [ToolEvent(key, item, terminal.value, startedAt, at, Duration(startedAt, at), summary, context.context)];
      }
      summaries := summaries - {key};
    }

    // -------------------------------------------------------------- dispatch

    method IngestInitialize(connection: ConnectionId, client: Client, runtime: string)
      requires Valid()
      modifies `connections, `facts, `emitted
      ensures Valid() && facts == old(facts) + [Initialize(connection, client, runtime)] && emitted == old(emitted)
      ensures connection in connections
    {
      ghost var before := View();
      connections := connections[connection := Connection(client, runtime)];
      Note(Initialize(connection, client, runtime), [], before);
    }

    method IngestServerRequest(id: RequestId, item: ItemKey, startedAt: int, ask: Ask)
      requires Valid()
      modifies `reviews, `facts, `emitted
      ensures Valid() && facts == old(facts) + [ApprovalRequested(id, item, startedAt, ask)] && emitted == old(emitted)
      ensures startedAt >= 0 ==> id in reviews && reviews[id].id == UserReview(id)
    {
      ghost var before := View();
      if startedAt >= 0 {
        reviews := reviews[id := AskRecord(id, item, startedAt, ask)];
      }
      Note(ApprovalRequested(id, item, startedAt, ask), [], before);
    }

    /** Compactions, goals and guardian sessions are reported exactly for threads known with a connection. */
    method IngestScopedFact(kind: ScopedKind, thread: ThreadId, named: Option<TurnId>, details: string) returns (out: seq<Event>)
      requires Valid()
      modifies `facts, `emitted
      ensures Valid() && facts == old(facts) + [Scoped(kind, thread, named, details)] && emitted == old(emitted) + out
      ensures out == FactReading.EventsRead(old(facts), Scoped(kind, thread, named, details))
      ensures forall e :: e in out ==> Faithful(old(facts), e)
      ensures out != [] <==> thread in threads && threads[thread].connection.Some?
    {
      ghost var before := View();
      out := [];
      var context := ThreadContextOrWarn(thread);
      if context.Found? {
        out := [ScopedEvent(kind, thread, context.context, details)];
      }
      Note(Scoped(kind, thread, named, details), out, before);
    }

    /** One fact: the object stays the run of its facts. Tool events carry the fold of their reviews, turn
        events the completions counted since the last one, and answers never outnumber what they answer. */
    method IngestFact(fact: Fact) returns (out: seq<Event>)
      requires Valid()
      modifies this
      ensures Valid() && facts == old(facts) + [fact] && emitted == old(emitted) + out
      ensures out == FactReading.EventsRead(old(facts), fact)
      ensures forall e :: e in out ==> Faithful(old(facts), e)
      ensures Spent(facts, emitted)
    {
      out := [];
      match fact {
        case Initialize(connection, client, runtime) => IngestInitialize(connection, client, runtime);
        case Requested(key, request) => IngestClientRequest(key, request);
        case Responded(key, response, originator) => out := IngestClientResponse(key, response, originator);
        case Errored(key, reason) => out := IngestErrorResponse(key, reason);
        case ApprovalRequested(id, item, startedAt, ask) => IngestServerRequest(id, item, startedAt, ask);
        case Answered(id, completedAt, answer) => out := IngestServerAnswer(id, completedAt, answer);
        case ItemStarted(thread, turn, item, at) => IngestItemStart(thread, turn, item, at);
        case ItemCompleted(thread, turn, item, at) => out := IngestItemEnd(thread, turn, item, at);
        case GuardianCompleted(thread, turn, target, review, status, action, from, till) =>
          out := IngestGuardianReviewCompleted(thread, turn, target, review, status, action, from, till);
        case AboutTurn(turn, turnFact) => out := IngestTurnFact(turn, turnFact);
        case SubAgentStarted(subagent) => out := IngestSubAgentThreadStarted(subagent);
        case Scoped(kind, thread, named, details) => out := IngestScopedFact(kind, thread, named, details);
        case Ignored => Note(Ignored, [], View());
      }
      RunsAreSpent(facts, View(), emitted);
    }

    /** The queue's receive loop: every fact is ingested in order and its events are sent on. */
    method IngestAll(input: seq<Fact>) returns (out: seq<Event>)
      requires Valid()
      modifies this
      ensures Valid() && facts == old(facts) + input && emitted == old(emitted) + out
      ensures emitted == FactReading.HistoryRead(facts) && Spent(facts, emitted)
    {
      out := [];
      assert old(facts) + [] == old(facts) && old(emitted) + [] == old(emitted);
      for i := 0 to |input|
        invariant Valid()
        invariant facts == old(facts) + input[..i]
        invariant emitted == old(emitted) + out
      {
        assert input[..i + 1] == input[..i] + [input[i]];
        Associative(old(facts), input[..i], [input[i]]);
        var events := IngestFact(input[i]);
        Associative(old(emitted), out, events);
        out := out + events;
      }
      assert input[..|input|] == input;
      ReducerReads.StreamIsRead(facts);
      RunsAreSpent(facts, View(), emitted);
    }
  }
}
