/**
 The reducer as one turn sees it: what a fact writes into the turn's state (`Stage`), when that puts the
 turn's event out (`Emits`), and that a step of the reducer does just that to the turn.
 */
module TurnView {
  import opened Options
  import opened AnalyticsFacts
  import opened ReducerModel
  import opened ReducerFrames

  function TurnIn(s: State, t: TurnId): Option<TurnState> {
    if t in s.turns then Some(s.turns[t]) else None
  }

  predicate StartsTurn(s: State, t: TurnId, fact: Fact) {
    && fact.Responded? && fact.response.TurnStartAnswer? && fact.response.turn == t
    && fact.key in s.requests && s.requests[fact.key].PendingStart?
  }

  predicate SteersTurn(s: State, t: TurnId, fact: Fact) {
    && fact.Responded? && fact.response.TurnSteerAnswer? && fact.response.turn == t && t in s.turns
    && fact.key in s.requests && s.requests[fact.key].PendingSteer?
  }

  /** An item completion that is counted for `t`: it arrives while the turn has state. */
  predicate CountsFor(s: State, t: TurnId, fact: Fact) {
    fact.ItemCompleted? && fact.turn == t && !fact.completed.kind.OtherItem? && t in s.turns
  }

  /** The state of `t` once `fact` is written into it. */
  function Stage(s: State, t: TurnId, fact: Fact): Option<TurnState> {
    if fact.AboutTurn? && fact.turn == t then Some(Updated(TurnOf(s, t), fact.fact))
    else if StartsTurn(s, t, fact) then
      var pending := s.requests[fact.key];
      Some(TurnOf(s, t).(connection := Some(fact.key.connection), thread := Some(pending.thread), images := Some(pending.images)))
    else if SteersTurn(s, t, fact) then Some(s.turns[t].(steers := s.turns[t].steers + 1))
    else if CountsFor(s, t, fact) then Some(s.turns[t].(tools := Tally(s.turns[t].tools, fact.completed.kind)))
    else TurnIn(s, t)
  }

  /** `fact` makes the reducer try to emit the event of `t`. */
  predicate Tries(s: State, t: TurnId, fact: Fact) {
    (fact.AboutTurn? && fact.turn == t && Attempts(fact.fact)) || StartsTurn(s, t, fact)
  }

  /** All the parts are there, and so is their context. */
  predicate Ready(s: State, turn: TurnState) {
    Complete(turn) && TurnContext(s, turn, turn.thread.value).Found?
  }

  predicate Emits(s: State, t: TurnId, fact: Fact)
    ensures Emits(s, t, fact) ==> Stage(s, t, fact).Some? && Ready(s, Stage(s, t, fact).value)
  {
    Tries(s, t, fact) && Ready(s, Stage(s, t, fact).value)
  }

  /** The events a turn that is ready puts out. */
  function Report(s: State, t: TurnId, turn: TurnState): seq<Event>
    requires Ready(s, turn)
  {
    [TurnEvent(t, RecordOf(turn), TurnContext(s, turn, turn.thread.value).context)] + AcceptedLinesOf(t, turn)
  }

  predicate About(t: TurnId, event: Event) {
    (event.TurnEvent? || event.AcceptedLinesEvent?) && event.turn == t
  }

  /** The events that report on turn `t`. */
  function OfTurn(t: TurnId, events: seq<Event>): seq<Event> {
    if events == [] then []
    else
      var last := events[|events| - 1];
      OfTurn(t, events[..|events| - 1]) + (if About(t, last) then [last] else [])
  }

  lemma {:induction false} OfTurnAppend(t: TurnId, one: seq<Event>, two: seq<Event>)
    ensures OfTurn(t, one + two) == OfTurn(t, one) + OfTurn(t, two)
    decreases two
  {
    if two == [] {
      assert one + two == one;
    } else {
      var n := |two| - 1;
      assert (one + two)[..|one| + n] == one + two[..n];
      OfTurnAppend(t, one, two[..n]);
    }
  }

  lemma {:induction false} OfTurnNone(t: TurnId, events: seq<Event>)
    requires forall e :: e in events ==> !About(t, e)
    ensures OfTurn(t, events) == []
  {
    if events != [] {
      OfTurnNone(t, events[..|events| - 1]);
    }
  }

  lemma {:induction false} OfTurnAll(t: TurnId, events: seq<Event>)
    requires forall e :: e in events ==> About(t, e)
    ensures OfTurn(t, events) == events
  {
    if events != [] {
      OfTurnAll(t, events[..|events| - 1]);
    }
  }

  // ---------------------------------------------------------------- a step of the reducer

  /** `MaybeEmitTurn` on a state where `t` holds `turn`. */
  lemma EmitView(s: State, t: TurnId, turn: TurnState)
    requires t in s.turns && s.turns[t] == turn
    ensures
      var o := MaybeEmitTurn(s, t);
      && TurnIn(o.state, t) == (if Ready(s, turn) then None else Some(turn))
      && o.events == (if Ready(s, turn) then Report(s, t, turn) else [])
  {
  }

  lemma EmitElsewhere(s: State, t: TurnId, other: TurnId)
    requires other != t
    ensures TurnIn(MaybeEmitTurn(s, other).state, t) == TurnIn(s, t)
  {
  }

  /** What one fact does to turn `t` and to its events. */
  predicate Steps(s: State, t: TurnId, fact: Fact, o: Outcome) {
    && TurnIn(o.state, t) == (if Emits(s, t, fact) then None else Stage(s, t, fact))
    && OfTurn(t, o.events) == (if Emits(s, t, fact) then Report(s, t, Stage(s, t, fact).value) else [])
  }

  lemma TurnFactSteps(s: State, t: TurnId, fact: Fact)
    requires fact.AboutTurn? && fact.turn == t
    ensures Steps(s, t, fact, IngestTurn(s, t, fact.fact))
  {
    var turn := Updated(TurnOf(s, t), fact.fact);
    var next := s.(turns := s.turns[t := turn]);
    if Attempts(fact.fact) {
      EmitView(next, t, turn);
      assert Ready(next, turn) == Ready(s, turn);
      if Ready(s, turn) {
        OfTurnAll(t, Report(s, t, turn));
      }
    }
  }

  lemma OtherTurnFactSteps(s: State, t: TurnId, fact: Fact)
    requires fact.AboutTurn? && fact.turn != t
    ensures Steps(s, t, fact, IngestTurn(s, fact.turn, fact.fact))
  {
    var next := s.(turns := s.turns[fact.turn := Updated(TurnOf(s, fact.turn), fact.fact)]);
    EmitElsewhere(next, t, fact.turn);
    TurnEmits(next, fact.turn, fact);
    OfTurnNone(t, IngestTurn(s, fact.turn, fact.fact).events);
  }

  lemma StartSteps(s: State, t: TurnId, fact: Fact)
    requires fact.Responded? && fact.response.TurnStartAnswer?
    ensures Steps(s, t, fact, AnswerStart(s, fact.key, fact.response.turn))
  {
    var key, other := fact.key, fact.response.turn;
    if key in s.requests && s.requests[key].PendingStart? {
      var pending := s.requests[key];
      var turn := TurnOf(s, other).(connection := Some(key.connection), thread := Some(pending.thread), images := Some(pending.images));
      var next := s.(requests := s.requests - {key}, turns := s.turns[other := turn]);
      assert AnswerStart(s, key, other) == MaybeEmitTurn(next, other);
      StartedSteps(s, t, fact, next, turn);
    }
  }

  lemma StartedSteps(s: State, t: TurnId, fact: Fact, next: State, turn: TurnState)
    requires fact.Responded? && fact.response.TurnStartAnswer?
    requires StartsTurn(s, fact.response.turn, fact) && Stage(s, fact.response.turn, fact) == Some(turn)
    requires next == s.(requests := s.requests - {fact.key}, turns := s.turns[fact.response.turn := turn])
    ensures Steps(s, t, fact, MaybeEmitTurn(next, fact.response.turn))
  {
    var other := fact.response.turn;
    if other == t {
      EmitView(next, t, turn);
      assert Ready(next, turn) == Ready(s, turn);
      if Ready(s, turn) {
        OfTurnAll(t, Report(s, t, turn));
      }
    } else {
      EmitElsewhere(next, t, other);
      TurnEmits(next, other, fact);
      OfTurnNone(t, MaybeEmitTurn(next, other).events);
    }
  }

  lemma ResponseSteps(s: State, t: TurnId, fact: Fact)
    requires fact.Responded?
    ensures Steps(s, t, fact, IngestResponse(s, fact.key, fact.response, fact.originator))
  {
    ResponseEmits(s, fact);
    match fact.response {
      case TurnStartAnswer(turn) => StartSteps(s, t, fact);
      case TurnSteerAnswer(turn) =>
        OfTurnNone(t, AnswerSteer(s, fact.key, turn).events);
        SteerSteps(s, t, fact);
      case _ => OfTurnNone(t, IngestResponse(s, fact.key, fact.response, fact.originator).events);
    }
  }

  lemma SteerSteps(s: State, t: TurnId, fact: Fact)
    requires fact.Responded? && fact.response.TurnSteerAnswer?
    ensures TurnIn(AnswerSteer(s, fact.key, fact.response.turn).state, t) == Stage(s, t, fact)
  {
  }

  lemma CompletionSteps(s: State, t: TurnId, fact: Fact)
    requires fact.ItemCompleted?
    ensures
      TurnIn(IngestItemCompleted(s, fact.thread, fact.turn, fact.completed, fact.at).state, t) == Stage(s, t, fact)
  {
  }

  /** A step of the reducer does to each turn what `Stage` and `Emits` say. */
  lemma IngestSteps(s: State, t: TurnId, fact: Fact)
    ensures Steps(s, t, fact, Ingest(s, fact))
  {
    match fact {
      case AboutTurn(turn, turnFact) =>
        if turn == t {
          TurnFactSteps(s, t, fact);
        } else {
          OtherTurnFactSteps(s, t, fact);
        }
      case Responded(_, _, _) => ResponseSteps(s, t, fact);
      case ItemCompleted(_, _, _, _) =>
        FactEmits(s, fact);
        OfTurnNone(t, Ingest(s, fact).events);
        CompletionSteps(s, t, fact);
      case _ => QuietSteps(s, t, fact);
    }
  }

  lemma QuietSteps(s: State, t: TurnId, fact: Fact)
    requires !fact.Responded? && !fact.ItemCompleted? && !fact.AboutTurn?
    ensures TurnIn(Ingest(s, fact).state, t) == TurnIn(s, t) && OfTurn(t, Ingest(s, fact).events) == []
  {
    FactEmits(s, fact);
    OfTurnNone(t, Ingest(s, fact).events);
    TurnsKept(s, fact);
  }
}
