/**
 What the reducer's context lookups can meet: in every reachable state a known thread has metadata and
 its connection, if any, is an initialised one.
 */
module ReducerContext {
  import opened Options
  import opened AnalyticsFacts
  import opened ReducerModel
  import opened ReducerFrames

  predicate ThreadOk(connections: map<ConnectionId, Connection>, thread: ThreadState) {
    thread.metadata.Some? && (thread.connection.Some? ==> thread.connection.value in connections)
  }

  predicate Linked(s: State) {
    forall t :: t in s.threads ==> ThreadOk(s.connections, s.threads[t])
  }

  lemma OpenThreadLinks(s: State, connection: ConnectionId, thread: ThreadId, metadata: ThreadMetadata, details: string, originator: Option<string>)
    requires Linked(s)
    ensures Linked(OpenThread(s, connection, thread, metadata, details, originator).state)
  {
  }

  lemma SubAgentLinks(s: State, subagent: SubAgent)
    requires Linked(s)
    ensures Linked(IngestSubAgent(s, subagent).state)
  {
    var after := IngestSubAgent(s, subagent).state;
    if subagent.parent.Some? && subagent.parent.value in s.threads {
      assert ThreadOk(s.connections, s.threads[subagent.parent.value]);
    }
    assert ThreadOk(after.connections, after.threads[subagent.thread]);
  }

  lemma LinkedKept(s: State, fact: Fact)
    requires Linked(s)
    ensures Linked(Ingest(s, fact).state)
  {
    if !Opens(fact) {
      ThreadsFrame(s, fact);
    } else if fact.SubAgentStarted? {
      SubAgentLinks(s, fact.subagent);
    } else if fact.Responded? {
      var opening := fact.response;
      OpenThreadLinks(s, fact.key.connection, opening.thread, opening.metadata, opening.details, fact.originator);
    } else {
      var after := Ingest(s, fact).state;
      assert after.threads == s.threads;
      forall t | t in after.threads
        ensures ThreadOk(after.connections, after.threads[t])
      {
        assert ThreadOk(s.connections, s.threads[t]);
      }
    }
  }

  lemma {:induction false} LinkedAlways(facts: seq<Fact>)
    ensures Linked(After(facts))
  {
    if facts != [] {
      var n := |facts| - 1;
      LinkedAlways(facts[..n]);
      LinkedKept(After(facts[..n]), facts[n]);
    }
  }

  lemma LinkedLookup(s: State, thread: ThreadId)
    ensures Linked(s) ==>
      var found := ThreadContext(s, thread);
      && (found.Found? <==> thread in s.threads && s.threads[thread].connection.Some?)
      && (found.Found? || found.MissingThreadConnection?)
  {
    if Linked(s) && thread in s.threads {
      assert ThreadOk(s.connections, s.threads[thread]);
    }
  }

  /** In every reachable state a thread-scoped lookup succeeds exactly when the thread is known with a
      connection; its missing-connection and missing-metadata branches are never taken. */
  lemma ThreadLookup(facts: seq<Fact>, thread: ThreadId)
    ensures
      var s := After(facts);
      var found := ThreadContext(s, thread);
      && (found.Found? <==> thread in s.threads && s.threads[thread].connection.Some?)
      && (found.Found? || found.MissingThreadConnection?)
  {
    LinkedAlways(facts);
    LinkedLookup(After(facts), thread);
  }

  /** For turn events the turn's own connection may never have been initialised; apart from that the
      lookup fails only for an unknown thread or one without a connection. */
  lemma TurnLookup(facts: seq<Fact>, turn: TurnState, thread: ThreadId)
    ensures
      var s := After(facts);
      var found := TurnContext(s, turn, thread);
      && (found.MissingConnection? ==> turn.connection.Some? && turn.connection.value !in s.connections)
      && (found.MissingMetadata? ==> turn.connection.Some? && thread !in s.threads)
      && (found.Found? <==>
            thread in s.threads &&
            if turn.connection.Some? then turn.connection.value in s.connections else s.threads[thread].connection.Some?)
  {
    LinkedAlways(facts);
    var s := After(facts);
    if thread in s.threads {
      assert ThreadOk(s.connections, s.threads[thread]);
    }
  }

  /** A steer event lacks context exactly when its connection or its thread is unknown. */
  lemma SteerLookup(facts: seq<Fact>, connection: ConnectionId, thread: ThreadId)
    ensures
      var s := After(facts);
      SteerContext(s, connection, thread).Found? <==> connection in s.connections && thread in s.threads
  {
    LinkedAlways(facts);
    var s := After(facts);
    if thread in s.threads {
      assert ThreadOk(s.connections, s.threads[thread]);
    }
  }

  // ---------------------------------------------------------------- a turn on an unknown connection

  /** A turn is started on a connection that never said hello, on a thread nobody has named. */
  function Unheard(key: RequestKey, thread: ThreadId, turn: TurnId): seq<Fact> {
    [Requested(key, StartTurn(thread, 0)), Responded(key, TurnStartAnswer(turn), None)]
  }

  lemma UnheardState(key: RequestKey, thread: ThreadId, turn: TurnId)
    ensures Run(EMPTY, Unheard(key, thread, turn))
         == Quiet(EMPTY.(turns := map[turn := NEW_TURN.(connection := Some(key.connection), thread := Some(thread), images := Some(0))]))
  {
    var asked, answered := Requested(key, StartTurn(thread, 0)), Responded(key, TurnStartAnswer(turn), None);
    var waiting := EMPTY.(requests := map[key := PendingStart(thread, 0)]);
    AskedUnheard(key, thread, waiting);
    RunSnoc(EMPTY, [asked], answered);
    assert [asked] + [answered] == Unheard(key, thread, turn);
    AnsweredUnheard(key, thread, turn, waiting);
  }

  lemma AskedUnheard(key: RequestKey, thread: ThreadId, waiting: State)
    requires waiting == EMPTY.(requests := map[key := PendingStart(thread, 0)])
    ensures Run(EMPTY, [Requested(key, StartTurn(thread, 0))]) == Quiet(waiting)
  {
    var asked := Requested(key, StartTurn(thread, 0));
    RunSnoc(EMPTY, [], asked);
    assert [] + [asked] == [asked];
    assert EMPTY.requests[key := PendingStart(thread, 0)] == waiting.requests;
  }

  lemma AnsweredUnheard(key: RequestKey, thread: ThreadId, turn: TurnId, waiting: State)
    requires waiting == EMPTY.(requests := map[key := PendingStart(thread, 0)])
    ensures AnswerStart(waiting, key, turn)
         == Quiet(EMPTY.(turns := map[turn := NEW_TURN.(connection := Some(key.connection), thread := Some(thread), images := Some(0))]))
  {
    assert waiting.requests - {key} == map[];
    assert waiting.turns[turn := NEW_TURN.(connection := Some(key.connection), thread := Some(thread), images := Some(0))]
        == map[turn := NEW_TURN.(connection := Some(key.connection), thread := Some(thread), images := Some(0))];
  }

  /** The turn's state, while none of its parts has got it reported. */
  lemma WrittenUnheard(s: State, turn: TurnId, fact: TurnFact)
    requires turn in s.turns && s.turns[turn].connection.Some? && s.turns[turn].connection.value !in s.connections
    ensures Ingest(s, AboutTurn(turn, fact)) == Quiet(s.(turns := s.turns[turn := Updated(s.turns[turn], fact)]))
  {
    var next := s.(turns := s.turns[turn := Updated(s.turns[turn], fact)]);
    assert next.turns[turn].connection == s.turns[turn].connection;
  }

  /** The missing-connection branch of a turn event is reached: with a configuration, a profile and a
      completion the turn has all its parts, the lookup is made and fails for its connection, nothing is
      put out and the turn is kept. */
  lemma UninitializedTurn(key: RequestKey, config: Config, turn: TurnId, profile: string, completion: Completion)
    ensures
      var parts := [AboutTurn(turn, TurnConfig(config)), AboutTurn(turn, TurnProfile(profile)), AboutTurn(turn, TurnCompleted(completion))];
      var o := Run(EMPTY, Unheard(key, config.thread, turn) + parts);
      && o.events == [] && turn in o.state.turns && Complete(o.state.turns[turn])
      && TurnContext(o.state, o.state.turns[turn], config.thread) == MissingConnection(key.connection)
  {
    var start := Unheard(key, config.thread, turn);
    var a, b, c := AboutTurn(turn, TurnConfig(config)), AboutTurn(turn, TurnProfile(profile)), AboutTurn(turn, TurnCompleted(completion));
    UnheardState(key, config.thread, turn);
    var s := Run(EMPTY, start).state;
    WrittenUnheard(s, turn, TurnConfig(config));
    RunSnoc(EMPTY, start, a);
    var s1 := Ingest(s, a).state;
    WrittenUnheard(s1, turn, TurnProfile(profile));
    RunSnoc(EMPTY, start + [a], b);
    var s2 := Ingest(s1, b).state;
    WrittenUnheard(s2, turn, TurnCompleted(completion));
    RunSnoc(EMPTY, start + [a] + [b], c);
    assert start + [a, b, c] == start + [a] + [b] + [c];
  }
}
