/**
 Pending entries of the reducer are spent at most once: events that answer a request, an approval or an
 item start never outnumber the requests, approvals and starts, and a settled one stays settled.
 */
module PendingSpent {
  import opened Options
  import opened AnalyticsFacts
  import opened ReducerModel
  import opened ReducerFrames
  import opened Counting

  // ---------------------------------------------------------------- steers

  predicate IsSteer(event: Event) {
    event.SteerEvent?
  }

  predicate AsksSteer(fact: Fact) {
    fact.Requested? && fact.request.SteerTurn?
  }

  function Steers(requests: map<RequestKey, PendingRequest>): set<RequestKey> {
    set k | k in requests && requests[k].PendingSteer?
  }

  lemma SteersShrink(requests: map<RequestKey, PendingRequest>, key: RequestKey)
    ensures |Steers(requests - {key})| == |Steers(requests)| - (if key in requests && requests[key].PendingSteer? then 1 else 0)
  {
    assert Steers(requests - {key}) == Steers(requests) - {key};
  }

  lemma SteersGrow(requests: map<RequestKey, PendingRequest>, key: RequestKey, pending: PendingRequest)
    ensures |Steers(requests[key := pending])| <= |Steers(requests)| + (if pending.PendingSteer? then 1 else 0)
  {
    var was, grown := Steers(requests), Steers(requests[key := pending]);
    if pending.PendingSteer? {
      assert grown == was + {key};
    } else {
      assert grown == was - {key};
    }
  }

  lemma SteerStep(s: State, fact: Fact)
    ensures
      var o := Ingest(s, fact);
      Count(IsSteer, o.events) + |Steers(o.state.requests)| <= |Steers(s.requests)| + (if AsksSteer(fact) then 1 else 0)
  {
    FactEmits(s, fact);
    match fact {
      case Requested(key, request) => SteerAsked(s, key, request);
      case Responded(key, response, originator) => SteerAnswered(s, key, response, originator);
      case Errored(key, _) => SteersShrink(s.requests, key);
      case _ =>
        CountNone(IsSteer, Ingest(s, fact).events);
        RequestsKept(s, fact);
    }
  }

  lemma SteerAsked(s: State, key: RequestKey, request: ClientRequest)
    ensures
      var o := IngestRequest(s, key, request);
      Count(IsSteer, o.events) + |Steers(o.state.requests)| <= |Steers(s.requests)| + (if request.SteerTurn? then 1 else 0)
  {
    match request {
      case StartTurn(thread, images) => SteersGrow(s.requests, key, PendingStart(thread, images));
      case SteerTurn(thread, turn, images) => SteersGrow(s.requests, key, PendingSteer(Steer(thread, turn, images)));
      case OtherRequest =>
    }
  }

  lemma SteerAnswered(s: State, key: RequestKey, response: ClientResponse, originator: Option<string>)
    ensures
      var o := IngestResponse(s, key, response, originator);
      Count(IsSteer, o.events) + |Steers(o.state.requests)| <= |Steers(s.requests)|
  {
    match response {
      case TurnStartAnswer(turn) =>
        SteersShrink(s.requests, key);
        AnswerStartFrame(s, key, turn);
        var fact := Responded(key, response, originator);
        ResponseEmits(s, fact);
        CountNone(IsSteer, AnswerStart(s, key, turn).events);
      case TurnSteerAnswer(turn) => SteersShrink(s.requests, key);
      case _ =>
    }
  }

  /** Steer events plus steers still pending never exceed steer requests. */
  lemma {:induction false} SteersSpentOnce(facts: seq<Fact>)
    ensures
      var o := Run(EMPTY, facts);
      Count(IsSteer, o.events) + |Steers(o.state.requests)| <= Count(AsksSteer, facts)
  {
    if facts == [] {
      assert Steers(EMPTY.requests) == {};
    } else {
      var n := |facts| - 1;
      var before := Run(EMPTY, facts[..n]);
      SteersSpentOnce(facts[..n]);
      SteerStep(before.state, facts[n]);
      CountAppend(IsSteer, before.events, Ingest(before.state, facts[n]).events);
    }
  }

  /** `fact` settles the client request `key`. */
  predicate Settles(fact: Fact, key: RequestKey) {
    || (fact.Responded? && fact.key == key && (fact.response.TurnStartAnswer? || fact.response.TurnSteerAnswer?))
    || (fact.Errored? && fact.key == key)
  }

  lemma SettledIsGone(s: State, fact: Fact, key: RequestKey)
    requires Settles(fact, key)
    ensures Ingest(s, fact).state.requests == s.requests - {key}
    ensures key !in s.requests ==> Ingest(s, fact) == Quiet(s)
  {
    assert key !in s.requests ==> s.requests - {key} == s.requests;
    if fact.Responded? && fact.response.TurnStartAnswer? {
      AnswerStartFrame(s, key, fact.response.turn);
    } else if fact.Responded? {
      AnswerSteerFrame(s, key, fact.response.turn);
    }
  }

  lemma RequestInserts(s: State, key: RequestKey, request: ClientRequest)
    ensures IngestRequest(s, key, request).state.requests.Keys <= s.requests.Keys + {key}
  {
  }

  lemma ResponseRemoves(s: State, key: RequestKey, response: ClientResponse, originator: Option<string>)
    ensures IngestResponse(s, key, response, originator).state.requests.Keys <= s.requests.Keys
  {
    match response {
      case TurnStartAnswer(turn) => AnswerStartFrame(s, key, turn);
      case TurnSteerAnswer(turn) => AnswerSteerFrame(s, key, turn);
      case _ =>
    }
  }

  lemma StaysSettled(s: State, fact: Fact, key: RequestKey)
    requires key !in s.requests && !(fact.Requested? && fact.key == key)
    ensures key !in Ingest(s, fact).state.requests
  {
    match fact {
      case Requested(other, request) => RequestInserts(s, other, request);
      case Responded(other, response, originator) => ResponseRemoves(s, other, response, originator);
      case Errored(other, reason) => ErrorFrame(s, other, reason);
      case _ => RequestsKept(s, fact);
    }
  }

  lemma {:induction false} StaysSettledRun(s: State, between: seq<Fact>, key: RequestKey)
    requires key !in s.requests
    requires forall f :: f in between ==> !(f.Requested? && f.key == key)
    ensures key !in Run(s, between).state.requests
  {
    if between != [] {
      var n := |between| - 1;
      StaysSettledRun(s, between[..n], key);
      StaysSettled(Run(s, between[..n]).state, between[n], key);
    }
  }

  /** Once a client request is answered or has failed, further answers do nothing until it is made again. */
  lemma SettledOnce(s: State, key: RequestKey, first: Fact, between: seq<Fact>, second: Fact)
    requires Settles(first, key) && Settles(second, key)
    requires forall f :: f in between ==> !(f.Requested? && f.key == key)
    ensures
      var later := Run(Ingest(s, first).state, between).state;
      Ingest(later, second) == Quiet(later)
  {
    SettledIsGone(s, first, key);
    StaysSettledRun(Ingest(s, first).state, between, key);
    SettledIsGone(Run(Ingest(s, first).state, between).state, second, key);
  }

  // ---------------------------------------------------------------- user reviews

  predicate IsUserReview(event: Event) {
    event.ReviewEvent? && event.reviewer.User?
  }

  predicate AsksApproval(fact: Fact) {
    fact.ApprovalRequested? && fact.startedAt >= 0
  }

  lemma ReviewStep(s: State, fact: Fact)
    ensures
      var o := Ingest(s, fact);
      Count(IsUserReview, o.events) + |o.state.reviews| <= |s.reviews| + (if AsksApproval(fact) then 1 else 0)
  {
    FactEmits(s, fact);
    match fact {
      case ApprovalRequested(id, item, startedAt, ask) => ApprovalAsked(s, id, item, startedAt, ask);
      case Answered(id, at, answer) => ApprovalAnswered(s, id, at, answer);
      case _ =>
        CountNone(IsUserReview, Ingest(s, fact).events);
        ReviewsKept(s, fact);
    }
  }

  lemma ApprovalAsked(s: State, id: RequestId, item: ItemKey, startedAt: int, ask: Ask)
    ensures
      var o := IngestApproval(s, id, item, startedAt, ask);
      o.events == [] && |o.state.reviews| <= |s.reviews| + (if startedAt >= 0 then 1 else 0)
  {
    if startedAt >= 0 {
      var grown := s.reviews[id := AskRecord(id, item, startedAt, ask)];
      assert grown.Keys == s.reviews.Keys + {id};
    }
  }

  lemma ApprovalAnswered(s: State, id: RequestId, at: nat, answer: Answer)
    ensures
      var o := IngestAnswer(s, id, at, answer);
      Count(IsUserReview, o.events) + |o.state.reviews| <= |s.reviews|
  {
    AnswerFrame(s, id, at, answer);
    if id in s.reviews {
      assert (s.reviews - {id}).Keys == s.reviews.Keys - {id};
      var result := ResultOf(answer);
      assert |IngestAnswer(s, id, at, answer).events| <= 1;
    }
  }

  /** User review events plus approvals still pending never exceed approval requests. */
  lemma {:induction false} UserReviewsSpentOnce(facts: seq<Fact>)
    ensures
      var o := Run(EMPTY, facts);
      Count(IsUserReview, o.events) + |o.state.reviews| <= Count(AsksApproval, facts)
  {
    if facts != [] {
      var n := |facts| - 1;
      var before := Run(EMPTY, facts[..n]);
      UserReviewsSpentOnce(facts[..n]);
      ReviewStep(before.state, facts[n]);
      CountAppend(IsUserReview, before.events, Ingest(before.state, facts[n]).events);
    }
  }

  lemma {:induction false} StaysAnswered(s: State, between: seq<Fact>, id: RequestId)
    requires id !in s.reviews
    requires forall f :: f in between ==> !(f.ApprovalRequested? && f.id == id)
    ensures id !in Run(s, between).state.reviews
  {
    if between != [] {
      var n := |between| - 1;
      var before := Run(s, between[..n]).state;
      StaysAnswered(s, between[..n], id);
      match between[n] {
        case ApprovalRequested(_, _, _, _) =>
        case Answered(other, at, answer) => AnswerFrame(before, other, at, answer);
        case _ => ReviewsKept(before, between[n]);
      }
    }
  }

  /** Once an approval is answered or aborted, further answers do nothing until it is asked for again. */
  lemma AnsweredOnce(s: State, id: RequestId, first: Fact, between: seq<Fact>, second: Fact)
    requires first.Answered? && first.id == id && second.Answered? && second.id == id
    requires forall f :: f in between ==> !(f.ApprovalRequested? && f.id == id)
    ensures
      var later := Run(Ingest(s, first).state, between).state;
      Ingest(later, second) == Quiet(later)
  {
    AnswerFrame(s, id, first.completedAt, first.answer);
    StaysAnswered(Ingest(s, first).state, between, id);
  }

  // ---------------------------------------------------------------- tool items

  predicate IsToolOf(key: ItemKey, event: Event) {
    event.ToolEvent? && event.key == key
  }

  predicate StartsItem(key: ItemKey, fact: Fact) {
    fact.ItemStarted? && Tracked(fact.started) && fact.at >= 0 && key == ItemKey(fact.thread, fact.turn, fact.started.id)
  }

  function Waiting(s: State, key: ItemKey): nat {
    if key in s.started then 1 else 0
  }

  lemma ToolStep(s: State, fact: Fact, key: ItemKey)
    ensures
      var o := Ingest(s, fact);
      Count((e: Event) => IsToolOf(key, e), o.events) + Waiting(o.state, key) <= Waiting(s, key) + (if StartsItem(key, fact) then 1 else 0)
  {
    FactEmits(s, fact);
    match fact {
      case ItemStarted(_, _, _, _) =>
      case ItemCompleted(thread, turn, item, at) => CompletionSpends(s, thread, turn, item, at, key);
      case _ =>
        CountNone((e: Event) => IsToolOf(key, e), Ingest(s, fact).events);
        StartedKept(s, fact);
    }
  }

  lemma CompletionSpends(s: State, thread: ThreadId, turn: TurnId, item: Item, at: int, key: ItemKey)
    ensures
      var o := IngestItemCompleted(s, thread, turn, item, at);
      Count((e: Event) => IsToolOf(key, e), o.events) + Waiting(o.state, key) <= Waiting(s, key)
  {
  }

  /** For every item, tool events plus a start still waiting never exceed the starts. */
  lemma {:induction false} ToolStartsSpentOnce(facts: seq<Fact>, key: ItemKey)
    ensures
      var o := Run(EMPTY, facts);
      Count((e: Event) => IsToolOf(key, e), o.events) + Waiting(o.state, key) <= Count((f: Fact) => StartsItem(key, f), facts)
  {
    if facts != [] {
      var n := |facts| - 1;
      var before := Run(EMPTY, facts[..n]);
      ToolStartsSpentOnce(facts[..n], key);
      ToolStep(before.state, facts[n], key);
      CountAppend((e: Event) => IsToolOf(key, e), before.events, Ingest(before.state, facts[n]).events);
    }
  }
}
