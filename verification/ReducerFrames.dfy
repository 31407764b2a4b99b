/** Which of the reducer's maps each fact can change. */
module ReducerFrames {
  import opened Options
  import opened AnalyticsFacts
  import opened ReducerModel

  lemma MaybeEmitFrame(s: State, turn: TurnId)
    ensures
      var after := MaybeEmitTurn(s, turn).state;
      after == s.(turns := after.turns)
  {
  }

  lemma TurnFrame(s: State, turn: TurnId, fact: TurnFact)
    ensures
      var after := IngestTurn(s, turn, fact).state;
      after == s.(turns := after.turns)
  {
    var next := s.(turns := s.turns[turn := Updated(TurnOf(s, turn), fact)]);
    MaybeEmitFrame(next, turn);
  }

  lemma AnswerStartFrame(s: State, key: RequestKey, turn: TurnId)
    ensures
      var after := AnswerStart(s, key, turn).state;
      after == s.(requests := s.requests - {key}, turns := after.turns)
  {
    if key in s.requests && s.requests[key].PendingStart? {
      var pending := s.requests[key];
      var next := TurnOf(s, turn).(connection := Some(key.connection), thread := Some(pending.thread), images := Some(pending.images));
      MaybeEmitFrame(s.(requests := s.requests - {key}, turns := s.turns[turn := next]), turn);
    }
  }

  lemma AnswerSteerFrame(s: State, key: RequestKey, turn: TurnId)
    ensures
      var after := AnswerSteer(s, key, turn).state;
      after == s.(requests := s.requests - {key}, turns := after.turns)
  {
  }

  lemma EmitReviewFrame(s: State, review: ReviewRecord, reviewer: Reviewer, status: ReviewStatus, resolution: Resolution, at: nat)
    ensures
      var after := EmitReview(s, review, reviewer, status, resolution, at).state;
      after == s.(summaries := after.summaries)
  {
  }

  lemma AnswerFrame(s: State, id: RequestId, at: nat, answer: Answer)
    ensures
      var after := IngestAnswer(s, id, at, answer).state;
      after == s.(reviews := s.reviews - {id}, summaries := after.summaries)
  {
    if id in s.reviews {
      var result := ResultOf(answer);
      EmitReviewFrame(s.(reviews := s.reviews - {id}), s.reviews[id], User, result.0, result.1, at);
    } else {
      assert s.reviews - {id} == s.reviews;
    }
  }

  lemma ItemCompletedFrame(s: State, thread: ThreadId, turn: TurnId, item: Item, at: int)
    ensures
      var after := IngestItemCompleted(s, thread, turn, item, at).state;
      after == s.(turns := after.turns, started := after.started, summaries := after.summaries)
  {
  }

  lemma RequestFrame(s: State, key: RequestKey, request: ClientRequest)
    ensures
      var after := IngestRequest(s, key, request).state;
      after == s.(requests := after.requests)
  {
  }

  lemma ErrorFrame(s: State, key: RequestKey, reason: Option<string>)
    ensures IngestError(s, key, reason).state == s.(requests := s.requests - {key})
  {
  }

  lemma GuardianFrame(s: State, thread: ThreadId, turn: TurnId, target: Option<string>, review: string,
                      status: GuardianStatus, action: GuardianAction, from: int, till: int)
    ensures
      var after := IngestGuardian(s, thread, turn, target, review, status, action, from, till).state;
      after == s.(summaries := after.summaries)
  {
    var result := GuardianResult(status);
    if result.Some? && from >= 0 && till >= 0 {
      EmitReviewFrame(s, GuardianRecord(thread, turn, target, review, action, from), Guardian, result.value, Plain, till);
    }
  }

  lemma ResponseFrame(s: State, key: RequestKey, response: ClientResponse, originator: Option<string>)
    ensures
      var after := IngestResponse(s, key, response, originator).state;
      && after == s.(requests := after.requests, turns := after.turns, threads := after.threads)
      && (!response.ThreadOpened? ==> after.threads == s.threads)
  {
    match response {
      case TurnStartAnswer(turn) => AnswerStartFrame(s, key, turn);
      case TurnSteerAnswer(turn) => AnswerSteerFrame(s, key, turn);
      case _ =>
    }
  }

  // ---------------------------------------------------------------- by kind of fact

  /** Facts that open or close client requests. */
  predicate OnRequests(fact: Fact) {
    fact.Requested? || fact.Responded? || fact.Errored?
  }

  /** Facts about items, reviews and approvals. */
  predicate OnItems(fact: Fact) {
    fact.ApprovalRequested? || fact.Answered? || fact.ItemStarted? || fact.ItemCompleted? || fact.GuardianCompleted?
  }

  /** Nothing changes but requests, turns and threads. */
  predicate OnlyRequests(s: State, after: State) {
    after.connections == s.connections && after.started == s.started && after.reviews == s.reviews && after.summaries == s.summaries
  }

  lemma OnRequestsFrame(s: State, fact: Fact)
    requires OnRequests(fact)
    ensures
      var after := Ingest(s, fact).state;
      && OnlyRequests(s, after)
      && (!fact.Responded? ==> after.turns == s.turns)
      && (!(fact.Responded? && fact.response.ThreadOpened?) ==> after.threads == s.threads)
  {
    match fact {
      case Requested(key, request) => RequestFrame(s, key, request);
      case Responded(key, response, originator) => ResponseFrame(s, key, response, originator);
      case Errored(key, reason) => ErrorFrame(s, key, reason);
    }
  }

  /** What facts about items leave alone. */
  predicate OnlyItems(s: State, fact: Fact, after: State) {
    && after.requests == s.requests && after.connections == s.connections && after.threads == s.threads
    && (!fact.ItemCompleted? ==> after.turns == s.turns)
    && (!fact.ItemStarted? && !fact.ItemCompleted? ==> after.started == s.started)
    && (!fact.ApprovalRequested? && !fact.Answered? ==> after.reviews == s.reviews)
    && (fact.ApprovalRequested? || fact.ItemStarted? ==> after.summaries == s.summaries)
  }

  lemma OnItemsFrame(s: State, fact: Fact)
    requires OnItems(fact)
    ensures OnlyItems(s, fact, Ingest(s, fact).state)
  {
    match fact {
      case ApprovalRequested(id, item, startedAt, ask) =>
        assert Ingest(s, fact).state == s.(reviews := IngestApproval(s, id, item, startedAt, ask).state.reviews);
      case Answered(id, at, answer) => AnswerFrame(s, id, at, answer);
      case ItemStarted(thread, turn, item, at) =>
        assert Ingest(s, fact).state == s.(started := IngestItemStarted(s, thread, turn, item, at).state.started);
      case ItemCompleted(thread, turn, item, at) => ItemCompletedFrame(s, thread, turn, item, at);
      case GuardianCompleted(thread, turn, target, review, status, action, from, till) =>
        GuardianFrame(s, thread, turn, target, review, status, action, from, till);
    }
  }

  lemma ElsewhereFrame(s: State, fact: Fact)
    requires !OnRequests(fact) && !OnItems(fact)
    ensures
      var after := Ingest(s, fact).state;
      && after.requests == s.requests && after.started == s.started && after.reviews == s.reviews && after.summaries == s.summaries
      && (!fact.AboutTurn? ==> after.turns == s.turns)
      && (!fact.Initialize? ==> after.connections == s.connections)
      && (!fact.SubAgentStarted? ==> after.threads == s.threads)
  {
    if fact.AboutTurn? {
      TurnFrame(s, fact.turn, fact.fact);
    }
  }

  /** Facts that can change threads or connections. */
  predicate Opens(fact: Fact) {
    fact.Initialize? || fact.SubAgentStarted? || (fact.Responded? && fact.response.ThreadOpened?)
  }

  lemma ThreadsFrame(s: State, fact: Fact)
    requires !Opens(fact)
    ensures
      var after := Ingest(s, fact).state;
      after.threads == s.threads && after.connections == s.connections
  {
    if OnRequests(fact) {
      OnRequestsFrame(s, fact);
    } else if OnItems(fact) {
      OnItemsFrame(s, fact);
    } else {
      ElsewhereFrame(s, fact);
    }
  }

  lemma RequestsKept(s: State, fact: Fact)
    requires !OnRequests(fact)
    ensures Ingest(s, fact).state.requests == s.requests
  {
    if OnItems(fact) {
      OnItemsFrame(s, fact);
    } else {
      ElsewhereFrame(s, fact);
    }
  }

  lemma ReviewsKept(s: State, fact: Fact)
    requires !fact.ApprovalRequested? && !fact.Answered?
    ensures Ingest(s, fact).state.reviews == s.reviews
  {
    if OnItems(fact) {
      OnItemsFrame(s, fact);
    } else if OnRequests(fact) {
      OnRequestsFrame(s, fact);
    } else {
      ElsewhereFrame(s, fact);
    }
  }

  lemma StartedKept(s: State, fact: Fact)
    requires !fact.ItemStarted? && !fact.ItemCompleted?
    ensures Ingest(s, fact).state.started == s.started
  {
    if OnItems(fact) {
      OnItemsFrame(s, fact);
    } else if OnRequests(fact) {
      OnRequestsFrame(s, fact);
    } else {
      ElsewhereFrame(s, fact);
    }
  }

  lemma SummariesKept(s: State, fact: Fact)
    requires !fact.Answered? && !fact.GuardianCompleted? && !fact.ItemCompleted?
    ensures Ingest(s, fact).state.summaries == s.summaries
  {
    if OnItems(fact) {
      OnItemsFrame(s, fact);
    } else if OnRequests(fact) {
      OnRequestsFrame(s, fact);
    } else {
      ElsewhereFrame(s, fact);
    }
  }

  lemma TurnsKept(s: State, fact: Fact)
    requires !fact.Responded? && !fact.ItemCompleted? && !fact.AboutTurn?
    ensures Ingest(s, fact).state.turns == s.turns
  {
    if OnItems(fact) {
      OnItemsFrame(s, fact);
    } else if OnRequests(fact) {
      OnRequestsFrame(s, fact);
    } else {
      ElsewhereFrame(s, fact);
    }
  }

  // ---------------------------------------------------------------- which events a fact puts out

  /** `fact` is about `turn` in a way that can complete it. */
  predicate Touches(fact: Fact, turn: TurnId) {
    || (fact.AboutTurn? && fact.turn == turn)
    || (fact.Responded? && fact.response.TurnStartAnswer? && fact.response.turn == turn)
  }

  predicate EmittedBy(fact: Fact, event: Event) {
    match event
    case TurnEvent(turn, _, _) => Touches(fact, turn)
    case AcceptedLinesEvent(turn, _, _, _, _) => Touches(fact, turn)
    case SteerEvent(_, _, _, _) => fact.Errored? || (fact.Responded? && fact.response.TurnSteerAnswer?)
    case ReviewEvent(_, reviewer, _, _, _, _) => if reviewer.User? then fact.Answered? else fact.GuardianCompleted?
    case ToolEvent(key, _, _, _, _, _, _, _) =>
      fact.ItemCompleted? && key == ItemKey(fact.thread, fact.turn, fact.completed.id)
    case _ => true
  }

  lemma TurnEmits(s: State, turn: TurnId, fact: Fact)
    requires Touches(fact, turn)
    ensures forall e :: e in MaybeEmitTurn(s, turn).events ==> EmittedBy(fact, e)
  {
  }

  lemma ResponseEmits(s: State, fact: Fact)
    requires fact.Responded?
    ensures forall e :: e in IngestResponse(s, fact.key, fact.response, fact.originator).events ==> EmittedBy(fact, e)
  {
    var key := fact.key;
    if fact.response.TurnStartAnswer? && key in s.requests && s.requests[key].PendingStart? {
      var pending, turn := s.requests[key], fact.response.turn;
      var next := TurnOf(s, turn).(connection := Some(key.connection), thread := Some(pending.thread), images := Some(pending.images));
      TurnEmits(s.(requests := s.requests - {key}, turns := s.turns[turn := next]), turn, fact);
    }
  }

  lemma FactEmits(s: State, fact: Fact)
    ensures forall e :: e in Ingest(s, fact).events ==> EmittedBy(fact, e)
  {
    match fact {
      case AboutTurn(turn, turnFact) =>
        TurnEmits(s.(turns := s.turns[turn := Updated(TurnOf(s, turn), turnFact)]), turn, fact);
      case Responded(_, _, _) => ResponseEmits(s, fact);
      case ItemCompleted(thread, turn, item, at) =>
        assert forall e :: e in IngestItemCompleted(s, thread, turn, item, at).events ==> EmittedBy(fact, e);
      case Answered(id, at, answer) =>
        assert forall e :: e in IngestAnswer(s, id, at, answer).events ==> EmittedBy(fact, e);
      case _ =>
    }
  }
}
