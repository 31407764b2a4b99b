/**
 The main result about the analytics reducer: after any history of facts, the next fact makes it put out
 exactly the events that the history calls for.
 */
module ReducerReads {
  import opened Options
  import opened AnalyticsFacts
  import opened Counting
  import opened ReducerModel
  import opened ReducerFrames
  import opened TurnView
  import opened FactReading
  import opened FactAgreement
  import opened ReviewFold

  lemma OpenReads(before: seq<Fact>, fact: Fact)
    requires fact.Responded? && fact.response.ThreadOpened?
    ensures Ingest(After(before), fact).events == EventsRead(before, fact)
  {
    var all, thread := before + [fact], fact.response.thread;
    assert all[..|before|] == before;
    GreetedAgrees(before, fact.key.connection);
    ThreadsAgree(before, thread);
    assert Greeted(all, fact.key.connection) == Greeted(before, fact.key.connection);
  }

  lemma SteerReads(facts: seq<Fact>, key: RequestKey, accepted: Option<TurnId>, reason: Option<string>)
    ensures
      var s := After(facts);
      SteerRead(facts, key, accepted, reason) ==
      if key in s.requests && s.requests[key].PendingSteer? then SteerEvents(s, key.connection, s.requests[key].steer, accepted, reason)
      else []
  {
    WantedAgrees(facts, key);
    var wanted := Wanted(facts, key);
    if wanted.Some? && wanted.value.SteerTurn? {
      SteerContextAgrees(facts, key.connection, wanted.value.thread);
    }
  }

  lemma TurnEventsAre(s: State, t: TurnId, fact: Fact)
    requires Touches(fact, t)
    ensures
      Ingest(s, fact).events == if Emits(s, t, fact) then Report(s, t, Stage(s, t, fact).value) else []
  {
    IngestSteps(s, t, fact);
    FactEmits(s, fact);
    OnlyTurnEvents(s, t, fact);
    OfTurnAll(t, Ingest(s, fact).events);
  }

  lemma OnlyTurnEvents(s: State, t: TurnId, fact: Fact)
    requires Touches(fact, t)
    ensures forall e :: e in Ingest(s, fact).events ==> About(t, e)
  {
  }

  lemma TurnReads(before: seq<Fact>, fact: Fact, t: TurnId)
    requires Touches(fact, t)
    ensures Ingest(After(before), fact).events == TurnRead(before, fact, t)
  {
    TurnsAgree(before, t);
    TurnReadAgrees(before, fact, t);
    TurnEventsAre(After(before), t, fact);
  }

  lemma ReviewReads(facts: seq<Fact>, s: State, review: ReviewRecord, reviewer: Reviewer, status: ReviewStatus, resolution: Resolution, at: nat)
    requires s.threads == After(facts).threads && s.connections == After(facts).connections
    ensures
      var context := SeenAtHome(facts, review.thread);
      EmitReview(s, review, reviewer, status, resolution, at).events ==
      if context.None? then [] else [ReviewEvent(review, reviewer, status, resolution, at, context.value)]
  {
    ThreadContextAgrees(facts, review.thread);
    assert ThreadContext(s, review.thread) == ThreadContext(After(facts), review.thread);
  }

  lemma AnswerReads(before: seq<Fact>, fact: Fact)
    requires fact.Answered?
    ensures Ingest(After(before), fact).events == AnswerRead(before, fact.id, fact.completedAt, fact.answer)
  {
    var s := After(before);
    AskedAgrees(before, fact.id);
    if fact.id in s.reviews {
      AnswerIsRead(fact.answer);
      var result := ResultOf(fact.answer);
      ReviewReads(before, s.(reviews := s.reviews - {fact.id}), s.reviews[fact.id], User, result.0, result.1, fact.completedAt);
    }
  }

  lemma GuardianReads(before: seq<Fact>, fact: Fact)
    requires fact.GuardianCompleted?
    ensures Ingest(After(before), fact).events == GuardianRead(before, fact)
  {
    var s, verdict := After(before), GuardianVerdict(fact.status);
    GuardianEmits(s, fact);
    if verdict.Some? && fact.from >= 0 && fact.till >= 0 {
      ReviewReads(before, s, ReviewMade(fact), Guardian, verdict.value.0, Plain, fact.till);
    }
  }

  lemma EndIsRead(item: Item)
    ensures TerminalOf(item) == EndRead(item)
  {
  }

  lemma ToolEventsAre(s: State, fact: Fact)
    requires fact.ItemCompleted?
    ensures
      var key := ItemKey(fact.thread, fact.turn, fact.completed.id);
      var end := EndRead(fact.completed);
      Ingest(s, fact).events ==
      if Ends(s, fact, key) && end.Some? then
        [ToolEvent(key, fact.completed, end.value, s.started[key], fact.at, Duration(s.started[key], fact.at), SummaryOf(s, key),
                   ThreadContext(s, key.thread).context)]
      else []
  {
    EndIsRead(fact.completed);
    if fact.turn in s.turns {
      var key := ItemKey(fact.thread, fact.turn, fact.completed.id);
      var counted :=
        s.(turns := s.turns[fact.turn := s.turns[fact.turn].(tools := Tally(s.turns[fact.turn].tools, fact.completed.kind))]);
      assert ThreadContext(counted.(started := s.started - {key}), fact.thread) == ThreadContext(s, fact.thread);
    }
  }

  lemma ToolReads(before: seq<Fact>, fact: Fact)
    requires fact.ItemCompleted?
    ensures Ingest(After(before), fact).events == ToolRead(before, fact)
  {
    var s, key := After(before), ItemKey(fact.thread, fact.turn, fact.completed.id);
    ToolEventsAre(s, fact);
    EndsAgrees(before, fact, key);
    if Ends(s, fact, key) {
      StartsAgree(before, key);
      SummaryIsFold(before, key);
      ThreadContextAgrees(before, key.thread);
    }
  }

  lemma ResponseReads(before: seq<Fact>, fact: Fact)
    requires fact.Responded?
    ensures Ingest(After(before), fact).events == EventsRead(before, fact)
  {
    match fact.response {
      case ThreadOpened(_, _, _) => OpenReads(before, fact);
      case TurnStartAnswer(turn) => TurnReads(before, fact, turn);
      case TurnSteerAnswer(turn) => SteerReads(before, fact.key, Some(turn), None);
      case OtherResponse =>
    }
  }

  /** After any history, the next fact makes the reducer put out exactly the events the history calls for:
      none missing, none added, every field from the fact it comes from. */
  lemma EventsAreRead(before: seq<Fact>, fact: Fact)
    ensures Ingest(After(before), fact).events == EventsRead(before, fact)
  {
    match fact {
      case Responded(_, _, _) => ResponseReads(before, fact);
      case Errored(key, reason) => SteerReads(before, key, None, reason);
      case Answered(_, _, _) => AnswerReads(before, fact);
      case ItemCompleted(_, _, _, _) => ToolReads(before, fact);
      case GuardianCompleted(_, _, _, _, _, _, _, _) => GuardianReads(before, fact);
      case AboutTurn(turn, _) => TurnReads(before, fact, turn);
      case Scoped(_, thread, _, _) => ThreadContextAgrees(before, thread);
      case _ =>
    }
  }

  /** The whole stream of events is the one read off the whole history. */
  lemma {:induction false} StreamIsRead(facts: seq<Fact>)
    ensures Run(EMPTY, facts).events == HistoryRead(facts)
  {
    if facts != [] {
      StreamIsRead(facts[..|facts| - 1]);
      EventsAreRead(facts[..|facts| - 1], facts[|facts| - 1]);
    }
  }
}
