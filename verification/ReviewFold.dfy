/**
 The review summary the reducer keeps per item, against the reading of the facts alone: the fold of the
 reviews resolved on the item since the last completion that ended it.
 */
module ReviewFold {
  import opened Options
  import opened AnalyticsFacts
  import opened Counting
  import opened ReducerModel
  import opened ReducerFrames
  import opened FactReading
  import opened FactAgreement

  lemma FoldSnoc(reviews: seq<Resolved>, r: Resolved, review: ReviewRecord)
    requires review.additional == r.additional && review.network == r.network
    ensures Fold(reviews + [r]) == Record(Fold(reviews), r.reviewer, r.outcome, review)
  {
    var all := reviews + [r];
    assert all[..|reviews|] == reviews;
    assert forall i :: 0 <= i < |reviews| ==> all[i] == reviews[i];
    assert all[|reviews|] == r;
  }

  lemma {:induction false} ReviewersPartition(reviews: seq<Resolved>)
    ensures Count(ByGuardian, reviews) + Count(ByUser, reviews) == |reviews|
  {
    if reviews != [] {
      ReviewersPartition(reviews[..|reviews| - 1]);
    }
  }

  // ---------------------------------------------------------------- the state agrees

  /** The stored summary of `key` is what the reviews add up to. */
  predicate Holds(s: State, key: ItemKey, reviews: seq<Resolved>) {
    (key in s.summaries <==> reviews != []) && SummaryOf(s, key) == Fold(reviews)
  }

  /** What a review that ends books on `key`. */
  function Booked(key: ItemKey, review: ReviewRecord, reviewer: Reviewer, status: ReviewStatus, resolution: Resolution): seq<Resolved> {
    if SummaryKey(review) == Some(key)
    then [Resolved(reviewer, FinalOutcome(reviewer, status, resolution), review.additional, review.network)]
    else []
  }

  lemma EmitHolds(s: State, key: ItemKey, reviews: seq<Resolved>, review: ReviewRecord, reviewer: Reviewer, status: ReviewStatus,
                  resolution: Resolution, at: nat)
    requires Holds(s, key, reviews)
    ensures
      var after := EmitReview(s, review, reviewer, status, resolution, at).state;
      Holds(after, key, reviews + Booked(key, review, reviewer, status, resolution))
  {
    if SummaryKey(review) == Some(key) {
      FoldSnoc(reviews, Resolved(reviewer, FinalOutcome(reviewer, status, resolution), review.additional, review.network), review);
    } else {
      assert reviews + [] == reviews;
    }
  }

  /** The status and resolution of an answer, and what it comes to. */
  lemma AnswerIsRead(answer: Answer)
    ensures ResultOf(answer) == (StatusRead(answer), ResolutionRead(answer))
    ensures FinalOutcome(User, StatusRead(answer), ResolutionRead(answer)) == UserVerdict(answer)
  {
  }

  lemma AnswerBooked(before: seq<Fact>, fact: Fact, key: ItemKey)
    requires fact.Answered? && Asked(before, fact.id).Some?
    ensures
      var review := ReviewAsked(Asked(before, fact.id).value);
      Booked(key, review, User, StatusRead(fact.answer), ResolutionRead(fact.answer)) == ResolvedBy(before, fact, key)
  {
    AnswerIsRead(fact.answer);
  }

  lemma AnswerHolds(key: ItemKey, reviews: seq<Resolved>, before: seq<Fact>, fact: Fact)
    requires fact.Answered? && Holds(After(before), key, reviews)
    ensures Holds(IngestAnswer(After(before), fact.id, fact.completedAt, fact.answer).state, key, reviews + ResolvedBy(before, fact, key))
  {
    var s := After(before);
    AskedAgrees(before, fact.id);
    if fact.id in s.reviews {
      var result := ResultOf(fact.answer);
      AnswerIsRead(fact.answer);
      AnswerBooked(before, fact, key);
      EmitHolds(s.(reviews := s.reviews - {fact.id}), key, reviews, s.reviews[fact.id], User, result.0, result.1, fact.completedAt);
    } else {
      assert reviews + [] == reviews;
    }
  }

  /** The review a guardian has made. */
  function ReviewMade(fact: Fact): ReviewRecord
    requires fact.GuardianCompleted? && fact.from >= 0
  {
    ReviewRead(fact.thread, fact.turn, fact.target, GuardianReview(fact.review), MatterOf(fact.action), fact.from)
  }

  lemma GuardianIsRead(fact: Fact)
    requires fact.GuardianCompleted? && fact.from >= 0
    ensures GuardianRecord(fact.thread, fact.turn, fact.target, fact.review, fact.action, fact.from) == ReviewMade(fact)
  {
  }

  lemma VerdictIsRead(status: GuardianStatus)
    ensures
      var verdict := GuardianVerdict(status);
      && GuardianResult(status) == (if verdict.Some? then Some(verdict.value.0) else None)
      && (verdict.Some? ==> FinalOutcome(Guardian, verdict.value.0, Plain) == verdict.value.1)
  {
  }

  /** The reducer's step on a guardian's review, read off the fact. */
  lemma GuardianEmits(s: State, fact: Fact)
    requires fact.GuardianCompleted?
    ensures
      var verdict := GuardianVerdict(fact.status);
      Ingest(s, fact) ==
      if verdict.None? || fact.from < 0 || fact.till < 0 then Quiet(s)
      else EmitReview(s, ReviewMade(fact), Guardian, verdict.value.0, Plain, fact.till)
  {
    VerdictIsRead(fact.status);
    if fact.from >= 0 {
      GuardianIsRead(fact);
    }
  }

  lemma GuardianBooked(before: seq<Fact>, fact: Fact, key: ItemKey)
    requires fact.GuardianCompleted? && fact.from >= 0 && fact.till >= 0 && GuardianVerdict(fact.status).Some?
    ensures
      Booked(key, ReviewMade(fact), Guardian, GuardianVerdict(fact.status).value.0, Plain) == ResolvedBy(before, fact, key)
  {
    VerdictIsRead(fact.status);
  }

  lemma GuardianHolds(key: ItemKey, reviews: seq<Resolved>, before: seq<Fact>, fact: Fact)
    requires fact.GuardianCompleted? && Holds(After(before), key, reviews)
    ensures Holds(Ingest(After(before), fact).state, key, reviews + ResolvedBy(before, fact, key))
  {
    var s, verdict := After(before), GuardianVerdict(fact.status);
    GuardianEmits(s, fact);
    if verdict.Some? && fact.from >= 0 && fact.till >= 0 {
      GuardianBooked(before, fact, key);
      EmitHolds(s, key, reviews, ReviewMade(fact), Guardian, verdict.value.0, Plain, fact.till);
    } else {
      assert reviews + [] == reviews;
    }
  }

  /** `fact` completes the item, seen from the reducer's state. */
  predicate Ends(s: State, fact: Fact, key: ItemKey) {
    && fact.ItemCompleted? && fact.at >= 0 && Tracked(fact.completed)
    && key == ItemKey(fact.thread, fact.turn, fact.completed.id)
    && fact.turn in s.turns && key in s.started && ThreadContext(s, fact.thread).Found?
  }

  lemma EndsAgrees(before: seq<Fact>, fact: Fact, key: ItemKey)
    ensures Ends(After(before), fact, key) <==> EndsItem(before, fact, key)
  {
    if fact.ItemCompleted? && key == ItemKey(fact.thread, fact.turn, fact.completed.id) {
      TurnsAgree(before, fact.turn);
      TurnOfNotes(before, After(before), fact.turn);
      StartsAgree(before, key);
      ThreadContextAgrees(before, key.thread);
    }
  }

  lemma CompletionHolds(s: State, key: ItemKey, reviews: seq<Resolved>, fact: Fact)
    requires fact.ItemCompleted? && Holds(s, key, reviews)
    ensures
      var after := IngestItemCompleted(s, fact.thread, fact.turn, fact.completed, fact.at).state;
      Holds(after, key, if Ends(s, fact, key) then [] else reviews)
  {
    assert Fold([]) == NO_REVIEWS;
    var after := IngestItemCompleted(s, fact.thread, fact.turn, fact.completed, fact.at).state;
    CompletionSummaries(s, fact);
    if Ends(s, fact, key) {
      assert key !in after.summaries;
    }
  }

  lemma CompletionSummaries(s: State, fact: Fact)
    requires fact.ItemCompleted?
    ensures
      var key := ItemKey(fact.thread, fact.turn, fact.completed.id);
      IngestItemCompleted(s, fact.thread, fact.turn, fact.completed, fact.at).state.summaries ==
      if Ends(s, fact, key) then s.summaries - {key} else s.summaries
  {
    if fact.turn in s.turns {
      var turn := fact.turn;
      var counted := s.(turns := s.turns[turn := s.turns[turn].(tools := Tally(s.turns[turn].tools, fact.completed.kind))]);
      var key := ItemKey(fact.thread, fact.turn, fact.completed.id);
      assert ThreadContext(counted.(started := s.started - {key}), fact.thread) == ThreadContext(s, fact.thread);
    }
  }

  /** For every item and every run, the stored summary is the fold of the reviews resolved on it since the
      last completion that ended it, whether or not their events could be put out. */
  lemma {:induction false} SummaryIsFold(facts: seq<Fact>, key: ItemKey)
    ensures Holds(After(facts), key, ReviewsOn(facts, key))
  {
    if facts == [] {
      assert Fold([]) == NO_REVIEWS;
    } else {
      var n := |facts| - 1;
      var before, fact, reviews := facts[..n], facts[n], ReviewsOn(facts[..n], key);
      SummaryIsFold(before, key);
      EndsAgrees(before, fact, key);
      match fact {
        case Answered(_, _, _) => AnswerHolds(key, reviews, before, fact);
        case GuardianCompleted(_, _, _, _, _, _, _, _) => GuardianHolds(key, reviews, before, fact);
        case ItemCompleted(_, _, _, _) =>
          CompletionHolds(After(before), key, reviews, fact);
          assert reviews + [] == reviews;
        case _ =>
          SummariesKept(After(before), fact);
          assert reviews + [] == reviews;
      }
    }
  }

  /** A tool event carries exactly that fold, and its two review counts add up. */
  lemma ToolEventCarriesFold(facts: seq<Fact>, fact: Fact, event: Event)
    requires event in Ingest(After(facts), fact).events && event.ToolEvent?
    ensures EndsItem(facts, fact, event.key)
    ensures event.summary == Fold(ReviewsOn(facts, event.key))
    ensures event.summary.guardian + event.summary.user == event.summary.reviews
  {
    var s := After(facts);
    FactEmits(s, fact);
    SummaryIsFold(facts, event.key);
    ReviewersPartition(ReviewsOn(facts, event.key));
    ToolEventSummary(s, fact, event);
    EndsAgrees(facts, fact, event.key);
  }

  lemma ToolEventSummary(s: State, fact: Fact, event: Event)
    requires fact.ItemCompleted? && event in IngestItemCompleted(s, fact.thread, fact.turn, fact.completed, fact.at).events
    requires event.ToolEvent? && event.key == ItemKey(fact.thread, fact.turn, fact.completed.id)
    ensures Ends(s, fact, event.key) && event.summary == SummaryOf(s, event.key)
  {
    if fact.turn in s.turns {
      var turn := fact.turn;
      var counted := s.(turns := s.turns[turn := s.turns[turn].(tools := Tally(s.turns[turn].tools, fact.completed.kind))]);
      assert ThreadContext(counted.(started := s.started - {event.key}), fact.thread) == ThreadContext(s, fact.thread);
    }
  }

  /** `fact`, coming after `facts`, resolves a permission or network review: the answer to such an approval,
      or a guardian's review of such an action. */
  predicate ResolvesPermission(facts: seq<Fact>, fact: Fact) {
    || (fact.Answered? && Asked(facts, fact.id).Some? && AsksPermission(Asked(facts, fact.id).value.ask))
    || (fact.GuardianCompleted? && (fact.action.NetworkAction? || fact.action.PermissionsAction?))
  }

  predicate AsksPermission(ask: Ask) {
    ask.PermissionsAsk? || (ask.CommandAsk? && ask.networkContext)
  }

  /** Permission and network reviews change no summary, whoever makes them. */
  lemma PermissionReviewsDoNotCount(facts: seq<Fact>, fact: Fact)
    requires ResolvesPermission(facts, fact)
    ensures Ingest(After(facts), fact).state.summaries == After(facts).summaries
  {
    if fact.Answered? {
      AskedAgrees(facts, fact.id);
    }
  }
}
