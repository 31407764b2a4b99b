/** Turns do not interfere: what is reported about one turn does not depend on the facts about others. */
module TurnIsolation {
  import opened Options
  import opened AnalyticsFacts
  import opened ReducerModel
  import opened ReducerFrames
  import opened TurnView

  /** `fact` names a turn other than `t`. Initialisation, thread and sub-agent starts, and client requests,
      responses and errors are never counted as such, whatever they name. */
  predicate NamesOther(t: TurnId, fact: Fact) {
    match fact
    case AboutTurn(turn, _) => turn != t
    case ItemStarted(_, turn, _, _) => turn != t
    case ItemCompleted(_, turn, _, _) => turn != t
    case GuardianCompleted(_, turn, _, _, _, _, _, _) => turn != t
    case ApprovalRequested(_, item, _, _) => item.turn != t
    case Scoped(_, _, named, _) => named.Some? && named.value != t
    case _ => false
  }

  function Without(t: TurnId, facts: seq<Fact>): seq<Fact> {
    if facts == [] then []
    else
      var kept := Without(t, facts[..|facts| - 1]);
      if NamesOther(t, facts[|facts| - 1]) then kept else kept + [facts[|facts| - 1]]
  }

  /** Two states that look the same from turn `t`. */
  predicate Agree(t: TurnId, a: State, b: State) {
    SameClients(a, b) && TurnIn(a, t) == TurnIn(b, t)
  }

  predicate SameClients(a: State, b: State) {
    a.requests == b.requests && a.connections == b.connections && a.threads == b.threads
  }

  lemma SameStage(t: TurnId, a: State, b: State, fact: Fact)
    requires Agree(t, a, b)
    ensures Stage(a, t, fact) == Stage(b, t, fact)
  {
    assert t in a.turns <==> t in b.turns;
    assert TurnOf(a, t) == TurnOf(b, t);
  }

  lemma SameReady(a: State, b: State, turn: TurnState)
    requires SameClients(a, b)
    ensures Ready(a, turn) == Ready(b, turn)
    ensures Ready(a, turn) ==> forall t :: Report(a, t, turn) == Report(b, t, turn)
  {
  }

  lemma SameTries(t: TurnId, a: State, b: State, fact: Fact)
    requires SameClients(a, b)
    ensures Tries(a, t, fact) == Tries(b, t, fact)
  {
  }

  lemma SameRequest(a: State, b: State, key: RequestKey, request: ClientRequest)
    requires SameClients(a, b)
    ensures SameClients(IngestRequest(a, key, request).state, IngestRequest(b, key, request).state)
  {
  }

  lemma SameResponse(a: State, b: State, key: RequestKey, response: ClientResponse, originator: Option<string>)
    requires SameClients(a, b)
    ensures SameClients(IngestResponse(a, key, response, originator).state, IngestResponse(b, key, response, originator).state)
  {
    match response {
      case TurnStartAnswer(turn) =>
        AnswerStartFrame(a, key, turn);
        AnswerStartFrame(b, key, turn);
      case TurnSteerAnswer(turn) =>
        AnswerSteerFrame(a, key, turn);
        AnswerSteerFrame(b, key, turn);
      case _ =>
    }
  }

  lemma SameSubAgent(a: State, b: State, subagent: SubAgent)
    requires SameClients(a, b)
    ensures SameClients(IngestSubAgent(a, subagent).state, IngestSubAgent(b, subagent).state)
  {
  }

  lemma ClientsKept(s: State, fact: Fact)
    requires !OnRequests(fact) && !Opens(fact)
    ensures SameClients(Ingest(s, fact).state, s)
  {
    ThreadsFrame(s, fact);
    RequestsKept(s, fact);
  }

  lemma SameClientsAfter(a: State, b: State, fact: Fact)
    requires SameClients(a, b)
    ensures SameClients(Ingest(a, fact).state, Ingest(b, fact).state)
  {
    match fact {
      case Initialize(_, _, _) =>
      case Requested(key, request) => SameRequest(a, b, key, request);
      case Responded(key, response, originator) => SameResponse(a, b, key, response, originator);
      case Errored(key, reason) =>
        ErrorFrame(a, key, reason);
        ErrorFrame(b, key, reason);
      case SubAgentStarted(subagent) => SameSubAgent(a, b, subagent);
      case _ =>
        ClientsKept(a, fact);
        ClientsKept(b, fact);
    }
  }

  /** A fact that both runs take. */
  lemma BothStep(t: TurnId, a: State, b: State, fact: Fact)
    requires Agree(t, a, b)
    ensures Agree(t, Ingest(a, fact).state, Ingest(b, fact).state)
    ensures OfTurn(t, Ingest(a, fact).events) == OfTurn(t, Ingest(b, fact).events)
  {
    IngestSteps(a, t, fact);
    IngestSteps(b, t, fact);
    SameClientsAfter(a, b, fact);
    SameStage(t, a, b, fact);
    SameTries(t, a, b, fact);
    if Stage(a, t, fact).Some? {
      SameReady(a, b, Stage(a, t, fact).value);
    }
  }

  /** A fact about another turn, which only one run takes. */
  lemma OneStep(t: TurnId, a: State, b: State, fact: Fact)
    requires Agree(t, a, b) && NamesOther(t, fact)
    ensures Agree(t, Ingest(a, fact).state, b) && OfTurn(t, Ingest(a, fact).events) == []
  {
    IngestSteps(a, t, fact);
    ClientsKept(a, fact);
    assert !Tries(a, t, fact) && Stage(a, t, fact) == TurnIn(a, t);
  }

  lemma {:induction false} RunsAgree(s: State, t: TurnId, facts: seq<Fact>)
    ensures Agree(t, Run(s, facts).state, Run(s, Without(t, facts)).state)
    ensures OfTurn(t, Run(s, facts).events) == OfTurn(t, Run(s, Without(t, facts)).events)
  {
    if facts != [] {
      var n := |facts| - 1;
      var fact := facts[n];
      var full, part := Run(s, facts[..n]), Run(s, Without(t, facts[..n]));
      RunsAgree(s, t, facts[..n]);
      OfTurnAppend(t, full.events, Ingest(full.state, fact).events);
      if NamesOther(t, fact) {
        OneStep(t, full.state, part.state, fact);
      } else {
        BothStep(t, full.state, part.state, fact);
        RunSnoc(s, Without(t, facts[..n]), fact);
        OfTurnAppend(t, part.events, Ingest(part.state, fact).events);
      }
    }
  }

  /** Noninterference: leaving out of a run every fact that names another turn changes nothing in the
      sequence of turn and accepted-lines events of `t`. */
  lemma TurnsDoNotInterfere(t: TurnId, facts: seq<Fact>)
    ensures OfTurn(t, Run(EMPTY, facts).events) == OfTurn(t, Run(EMPTY, Without(t, facts)).events)
  {
    RunsAgree(EMPTY, t, facts);
  }
}
