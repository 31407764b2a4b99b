/**
 The order in which the facts about a turn arrive does not matter: one configuration, one profile and one
 completion, with any other facts about the turn before the last of the three, make exactly one turn
 event, when the last of the three comes in.
 */
module TurnConfluence {
  import opened Options
  import opened AnalyticsFacts
  import opened ReducerModel
  import opened TurnView
  import opened TurnIsolation
  import opened Counting
  import AcceptedLines

  predicate IsStarted(fact: TurnFact) { fact.TurnStarted? }
  predicate IsDiff(fact: TurnFact) { fact.TurnDiff? }
  predicate IsCompletion(fact: TurnFact) { fact.TurnCompleted? }
  predicate IsConfig(fact: TurnFact) { fact.TurnConfig? }
  predicate IsTokens(fact: TurnFact) { fact.TurnTokens? }
  predicate IsProfile(fact: TurnFact) { fact.TurnProfile? }
  predicate IsError(fact: TurnFact) { fact.TurnError? }

  /** The facts that decide the turn's thread. */
  predicate NamesThread(fact: TurnFact) {
    fact.TurnDiff? || fact.TurnConfig? || fact.TurnTokens?
  }

  function ThreadNamed(fact: TurnFact): ThreadId
    requires NamesThread(fact)
  {
    if fact.TurnConfig? then fact.config.thread else fact.thread
  }

  function Last(p: TurnFact -> bool, facts: seq<TurnFact>): (last: Option<TurnFact>)
    ensures last.Some? ==> p(last.value) && last.value in facts
    ensures last.None? ==> Count(p, facts) == 0
  {
    if facts == [] then None
    else if p(facts[|facts| - 1]) then Some(facts[|facts| - 1])
    else Last(p, facts[..|facts| - 1])
  }

  /** The turn facts as facts about turn `t`. */
  function Told(t: TurnId, facts: seq<TurnFact>): seq<Fact> {
    seq(|facts|, i requires 0 <= i < |facts| => AboutTurn(t, facts[i]))
  }

  /** One configuration, one profile and one completion, the last of which ends the list. */
  predicate Arrangement(facts: seq<TurnFact>) {
    && Count(IsConfig, facts) == 1 && Count(IsProfile, facts) == 1 && Count(IsCompletion, facts) == 1
    && (IsConfig(facts[|facts| - 1]) || IsProfile(facts[|facts| - 1]) || IsCompletion(facts[|facts| - 1]))
  }

  /** The three parts are still missing. */
  predicate Awaits(turn: TurnState) {
    turn.config.None? && turn.profile.None? && turn.completion.None?
  }

  lemma ArrangementHas(facts: seq<TurnFact>)
    requires Arrangement(facts)
    ensures Last(IsConfig, facts).Some? && Last(IsProfile, facts).Some? && Last(IsCompletion, facts).Some?
    ensures Last(NamesThread, facts).Some?
  {
    var config := Last(IsConfig, facts).value;
    LastOfMore(facts, config);
  }

  lemma {:induction false} LastOfMore(facts: seq<TurnFact>, fact: TurnFact)
    requires fact in facts && NamesThread(fact)
    ensures Last(NamesThread, facts).Some?
  {
    if fact != facts[|facts| - 1] {
      LastOfMore(facts[..|facts| - 1], fact);
    }
  }

  /** The turn's state once all the facts are in: for each kind, the last one told. */
  function Merged(base: TurnState, facts: seq<TurnFact>): TurnState
    requires Arrangement(facts)
  {
    ArrangementHas(facts);
    var started, tokens := Last(IsStarted, facts), Last(IsTokens, facts);
    var diff, error := Last(IsDiff, facts), Last(IsError, facts);
    var config := Last(IsConfig, facts).value.config;
    TurnState(
      base.connection,
      Some(ThreadNamed(Last(NamesThread, facts).value)),
      Some(config.images),
      Some(config),
      if started.Some? then Unsigned(started.value.at) else base.startedAt,
      if tokens.Some? then Some(tokens.value.usage) else base.tokens,
      Some(Last(IsProfile, facts).value.profile),
      Some(Last(IsCompletion, facts).value.completion),
      if error.Some? then Some(error.value.error) else base.error,
      if diff.Some? then Some(diff.value.diff) else base.diff,
      base.steers,
      base.tools)
  }

  // ---------------------------------------------------------------- what the facts write

  function Written(base: TurnState, facts: seq<TurnFact>): TurnState {
    if facts == [] then base else Updated(Written(base, facts[..|facts| - 1]), facts[|facts| - 1])
  }

  predicate BaseKept(turn: TurnState, base: TurnState) {
    turn.connection == base.connection && turn.steers == base.steers && turn.tools == base.tools
  }

  predicate ConfigReflects(turn: TurnState, base: TurnState, facts: seq<TurnFact>) {
    var config := Last(IsConfig, facts);
    && turn.config == (if config.Some? then Some(config.value.config) else base.config)
    && turn.images == (if config.Some? then Some(config.value.config.images) else base.images)
  }

  predicate PartsReflect(turn: TurnState, base: TurnState, facts: seq<TurnFact>) {
    && (var profile := Last(IsProfile, facts);
        turn.profile == if profile.Some? then Some(profile.value.profile) else base.profile)
    && (var completion := Last(IsCompletion, facts);
        turn.completion == if completion.Some? then Some(completion.value.completion) else base.completion)
  }

  predicate ThreadReflects(turn: TurnState, base: TurnState, facts: seq<TurnFact>) {
    && (var thread := Last(NamesThread, facts);
        thread.Some? ==> turn.thread == Some(ThreadNamed(thread.value)))
    && (var started := Last(IsStarted, facts);
        turn.startedAt == if started.Some? then Unsigned(started.value.at) else base.startedAt)
  }

  predicate TextsReflect(turn: TurnState, base: TurnState, facts: seq<TurnFact>) {
    && (var tokens := Last(IsTokens, facts);
        turn.tokens == if tokens.Some? then Some(tokens.value.usage) else base.tokens)
    && (var diff := Last(IsDiff, facts);
        turn.diff == if diff.Some? then Some(diff.value.diff) else base.diff)
  }

  predicate ErrorReflects(turn: TurnState, base: TurnState, facts: seq<TurnFact>) {
    var error := Last(IsError, facts);
    turn.error == if error.Some? then Some(error.value.error) else base.error
  }

  lemma {:induction false} WrittenReflects(base: TurnState, facts: seq<TurnFact>)
    ensures BaseKept(Written(base, facts), base) && ConfigReflects(Written(base, facts), base, facts)
    ensures PartsReflect(Written(base, facts), base, facts)
    ensures ThreadReflects(Written(base, facts), base, facts)
    ensures TextsReflect(Written(base, facts), base, facts)
    ensures ErrorReflects(Written(base, facts), base, facts)
  {
    if facts != [] {
      WrittenReflects(base, facts[..|facts| - 1]);
      BaseStep(Written(base, facts[..|facts| - 1]), facts[|facts| - 1]);
      ConfigStep(base, facts);
      PartsStep(base, facts);
      ThreadStep(base, facts);
      TextsStep(base, facts);
      ErrorStep(base, facts);
    }
  }

  lemma BaseStep(turn: TurnState, fact: TurnFact)
    ensures BaseKept(Updated(turn, fact), turn)
  {
  }

  /** The fields a configuration, a profile or a completion is kept in change by such a fact only. */
  lemma UpdatedParts(turn: TurnState, fact: TurnFact)
    ensures
      var next := Updated(turn, fact);
      && (!fact.TurnConfig? ==> next.config == turn.config && next.images == turn.images)
      && (!fact.TurnProfile? ==> next.profile == turn.profile)
      && (!fact.TurnCompleted? ==> next.completion == turn.completion)
  {
  }

  lemma LastStep(p: TurnFact -> bool, facts: seq<TurnFact>)
    requires facts != []
    ensures Last(p, facts) == if p(facts[|facts| - 1]) then Some(facts[|facts| - 1]) else Last(p, facts[..|facts| - 1])
  {
  }

  lemma ConfigStep(base: TurnState, facts: seq<TurnFact>)
    requires facts != [] && ConfigReflects(Written(base, facts[..|facts| - 1]), base, facts[..|facts| - 1])
    ensures ConfigReflects(Written(base, facts), base, facts)
  {
    UpdatedParts(Written(base, facts[..|facts| - 1]), facts[|facts| - 1]);
    LastStep(IsConfig, facts);
  }

  lemma PartsStep(base: TurnState, facts: seq<TurnFact>)
    requires facts != [] && PartsReflect(Written(base, facts[..|facts| - 1]), base, facts[..|facts| - 1])
    ensures PartsReflect(Written(base, facts), base, facts)
  {
    UpdatedParts(Written(base, facts[..|facts| - 1]), facts[|facts| - 1]);
    LastStep(IsProfile, facts);
    LastStep(IsCompletion, facts);
  }

  lemma ThreadStep(base: TurnState, facts: seq<TurnFact>)
    requires facts != [] && ThreadReflects(Written(base, facts[..|facts| - 1]), base, facts[..|facts| - 1])
    ensures ThreadReflects(Written(base, facts), base, facts)
  {
  }

  lemma TextsStep(base: TurnState, facts: seq<TurnFact>)
    requires facts != [] && TextsReflect(Written(base, facts[..|facts| - 1]), base, facts[..|facts| - 1])
    ensures TextsReflect(Written(base, facts), base, facts)
  {
  }

  lemma ErrorStep(base: TurnState, facts: seq<TurnFact>)
    requires facts != [] && ErrorReflects(Written(base, facts[..|facts| - 1]), base, facts[..|facts| - 1])
    ensures ErrorReflects(Written(base, facts), base, facts)
  {
  }

  lemma WrittenIsMerged(base: TurnState, facts: seq<TurnFact>)
    requires Arrangement(facts)
    ensures Written(base, facts) == Merged(base, facts)
  {
    ArrangementHas(facts);
    WrittenReflects(base, facts);
  }

  // ---------------------------------------------------------------- what the reducer does

  /** `after` is `s` with `turn` as the state of `t`. */
  predicate OnlyTurn(s: State, t: TurnId, after: State, turn: TurnState) {
    TurnOf(after, t) == turn && after.(turns := after.turns - {t}) == s.(turns := s.turns - {t})
  }

  lemma WriteOnly(s: State, t: TurnId, fact: TurnFact, turn: TurnState, base: State)
    requires OnlyTurn(base, t, s, turn) && !(Complete(Updated(turn, fact)) && Attempts(fact))
    ensures
      var o := IngestTurn(s, t, fact);
      o.events == [] && OnlyTurn(base, t, o.state, Updated(turn, fact))
  {
    var next := s.(turns := s.turns[t := Updated(turn, fact)]);
    assert next.turns - {t} == s.turns - {t};
  }

  lemma ToldSnoc(t: TurnId, facts: seq<TurnFact>)
    requires facts != []
    ensures Told(t, facts) == Told(t, facts[..|facts| - 1]) + [AboutTurn(t, facts[|facts| - 1])]
  {
  }

  /** Until the last of the three parts comes in, facts are only written down. */
  lemma {:induction false} OnlyWritten(s: State, t: TurnId, facts: seq<TurnFact>)
    requires Awaits(TurnOf(s, t))
    requires Count(IsConfig, facts) == 0 || Count(IsProfile, facts) == 0 || Count(IsCompletion, facts) == 0
    ensures Run(s, Told(t, facts)).events == []
    ensures OnlyTurn(s, t, Run(s, Told(t, facts)).state, Written(TurnOf(s, t), facts))
  {
    if facts != [] {
      var n := |facts| - 1;
      var before := Run(s, Told(t, facts[..n])).state;
      OnlyWritten(s, t, facts[..n]);
      ToldSnoc(t, facts);
      RunSnoc(s, Told(t, facts[..n]), AboutTurn(t, facts[n]));
      Incomplete(TurnOf(s, t), facts);
      WriteOnly(before, t, facts[n], Written(TurnOf(s, t), facts[..n]), s);
    }
  }

  lemma Incomplete(base: TurnState, facts: seq<TurnFact>)
    requires Awaits(base)
    requires Count(IsConfig, facts) == 0 || Count(IsProfile, facts) == 0 || Count(IsCompletion, facts) == 0
    ensures !Complete(Written(base, facts))
  {
    WrittenReflects(base, facts);
    if Count(IsConfig, facts) == 0 {
      LastNone(IsConfig, facts);
    } else if Count(IsProfile, facts) == 0 {
      LastNone(IsProfile, facts);
    } else {
      LastNone(IsCompletion, facts);
    }
  }

  lemma {:induction false} LastNone(p: TurnFact -> bool, facts: seq<TurnFact>)
    requires Count(p, facts) == 0
    ensures Last(p, facts).None?
  {
    if facts != [] {
      LastNone(p, facts[..|facts| - 1]);
    }
  }

  /** Confluence, with the payload spelt out: nothing is put out before the last fact, and then exactly
      the report of the merged state, after which the reducer has forgotten the turn and nothing else. */
  lemma OneTurnEvent(s: State, t: TurnId, facts: seq<TurnFact>)
    requires Awaits(TurnOf(s, t)) && Arrangement(facts) && Ready(s, Merged(TurnOf(s, t), facts))
    ensures Run(s, Told(t, facts[..|facts| - 1])).events == []
    ensures Run(s, Told(t, facts)) == Outcome(s.(turns := s.turns - {t}), Report(s, t, Merged(TurnOf(s, t), facts)))
  {
    var n := |facts| - 1;
    var base, before := TurnOf(s, t), Run(s, Told(t, facts[..n])).state;
    OnlyWritten(s, t, facts[..n]);
    WrittenIsMerged(base, facts);
    ToldSnoc(t, facts);
    RunSnoc(s, Told(t, facts[..n]), AboutTurn(t, facts[n]));
    LastPart(s, before, t, facts[n], Written(base, facts[..n]));
  }

  lemma LastPart(s: State, before: State, t: TurnId, fact: TurnFact, turn: TurnState)
    requires OnlyTurn(s, t, before, turn) && Attempts(fact) && Ready(s, Updated(turn, fact))
    ensures IngestTurn(before, t, fact) == Outcome(s.(turns := s.turns - {t}), Report(s, t, Updated(turn, fact)))
  {
    var next := before.(turns := before.turns[t := Updated(turn, fact)]);
    assert next.turns - {t} == before.turns - {t};
    assert next.threads == s.threads && next.connections == s.connections;
    assert Ready(next, Updated(turn, fact));
  }

  /** Facts that name other turns may come in between: what is reported about `t` stays the same, and
      nothing is as long as the last of its own facts has not come. */
  lemma AmongOtherTurns(s: State, t: TurnId, mixed: seq<Fact>, facts: seq<TurnFact>)
    requires Awaits(TurnOf(s, t)) && Arrangement(facts) && Ready(s, Merged(TurnOf(s, t), facts))
    requires Without(t, mixed) == Told(t, facts)
    ensures OfTurn(t, Run(s, mixed).events) == Report(s, t, Merged(TurnOf(s, t), facts))
    ensures forall k :: 0 <= k <= |mixed| && |Without(t, mixed[..k])| < |facts| ==> OfTurn(t, Run(s, mixed[..k]).events) == []
  {
    EventsOfTurn(s, t, facts);
    RunsAgree(s, t, mixed);
    forall k | 0 <= k <= |mixed| && |Without(t, mixed[..k])| < |facts|
      ensures OfTurn(t, Run(s, mixed[..k]).events) == []
    {
      NothingYet(s, t, mixed, facts, k);
    }
  }

  lemma NothingYet(s: State, t: TurnId, mixed: seq<Fact>, facts: seq<TurnFact>, k: nat)
    requires Awaits(TurnOf(s, t)) && Arrangement(facts) && Without(t, mixed) == Told(t, facts)
    requires k <= |mixed| && |Without(t, mixed[..k])| < |facts|
    ensures OfTurn(t, Run(s, mixed[..k]).events) == []
  {
    var m := |Without(t, mixed[..k])|;
    WithoutPrefix(t, mixed, k);
    assert Without(t, mixed[..k]) == Told(t, facts)[..m] == Told(t, facts[..m]);
    RunsAgree(s, t, mixed[..k]);
    StillMissing(facts, m);
    OnlyWritten(s, t, facts[..m]);
  }

  lemma {:induction false} WithoutPrefix(t: TurnId, mixed: seq<Fact>, k: nat)
    requires k <= |mixed|
    ensures Without(t, mixed[..k]) <= Without(t, mixed)
  {
    if k == |mixed| {
      assert mixed[..k] == mixed;
    } else {
      var n := |mixed| - 1;
      assert mixed[..n][..k] == mixed[..k];
      WithoutPrefix(t, mixed[..n], k);
    }
  }

  lemma {:induction false} CountPrefix(p: TurnFact -> bool, facts: seq<TurnFact>, m: nat)
    requires m <= |facts|
    ensures Count(p, facts[..m]) <= Count(p, facts)
  {
    if m == |facts| {
      assert facts[..m] == facts;
    } else {
      var n := |facts| - 1;
      assert facts[..n][..m] == facts[..m];
      CountPrefix(p, facts[..n], m);
    }
  }

  /** Before its end, an arrangement lacks one of the three parts. */
  lemma StillMissing(facts: seq<TurnFact>, m: nat)
    requires Arrangement(facts) && m < |facts|
    ensures Count(IsConfig, facts[..m]) == 0 || Count(IsProfile, facts[..m]) == 0 || Count(IsCompletion, facts[..m]) == 0
  {
    var n := |facts| - 1;
    assert facts[..n][..m] == facts[..m];
    CountPrefix(IsConfig, facts[..n], m);
    CountPrefix(IsProfile, facts[..n], m);
    CountPrefix(IsCompletion, facts[..n], m);
  }

  lemma EventsOfTurn(s: State, t: TurnId, facts: seq<TurnFact>)
    requires Awaits(TurnOf(s, t)) && Arrangement(facts) && Ready(s, Merged(TurnOf(s, t), facts))
    ensures OfTurn(t, Run(s, Told(t, facts)).events) == Report(s, t, Merged(TurnOf(s, t), facts))
  {
    OneTurnEvent(s, t, facts);
    ReportIsOfTurn(s, t, Merged(TurnOf(s, t), facts));
  }

  lemma ReportIsOfTurn(s: State, t: TurnId, turn: TurnState)
    requires Ready(s, turn)
    ensures OfTurn(t, Report(s, t, turn)) == Report(s, t, turn)
  {
    OfTurnAll(t, Report(s, t, turn));
  }

  /** The turn event of `t` carries the state `turn`, field by field. */
  predicate Carries(event: Event, t: TurnId, turn: TurnState) {
    && event.TurnEvent? && event.turn == t
    && turn.thread == Some(event.record.thread) && turn.images == Some(event.record.images)
    && turn.config == Some(event.record.config) && turn.profile == Some(event.record.profile)
    && turn.completion == Some(event.record.completion)
    && turn.startedAt == event.record.startedAt && turn.tokens == event.record.tokens && turn.error == event.record.error
    && turn.steers == event.record.steers && turn.tools == event.record.tools
  }

  /** The events after the turn event: one that counts the lines of the diff, if it adds or deletes any. */
  predicate CountsLines(rest: seq<Event>, t: TurnId, thread: ThreadId, model: string, diff: Option<string>) {
    if diff.Some? && AcceptedLines.Changed(diff.value).added + AcceptedLines.Changed(diff.value).deleted > 0
    then rest == [AcceptedLinesEvent(t, thread, model, AcceptedLines.Changed(diff.value).added, AcceptedLines.Changed(diff.value).deleted)]
    else rest == []
  }

  /** The report is one turn event, followed by an accepted-lines event exactly when the latest diff adds or
      deletes a line. */
  lemma ReportShape(s: State, t: TurnId, turn: TurnState)
    requires Ready(s, turn)
    ensures
      var report := Report(s, t, turn);
      && Carries(report[0], t, turn) && report[0].context == TurnContext(s, turn, turn.thread.value).context
      && CountsLines(report[1..], t, turn.thread.value, turn.config.value.model, turn.diff)
  {
  }

  /** The one turn event carries, field by field, the last fact of each kind, and what the turn had before
      where there is none; the accepted-lines event carries the model of the configuration and the lines of
      the last diff. */
  lemma EventCarriesLastFacts(s: State, t: TurnId, facts: seq<TurnFact>)
    requires Awaits(TurnOf(s, t)) && Arrangement(facts) && Ready(s, Merged(TurnOf(s, t), facts))
    ensures Last(IsConfig, facts).Some? && Last(IsProfile, facts).Some? && Last(IsCompletion, facts).Some? && Last(NamesThread, facts).Some?
    ensures
      var base, events := TurnOf(s, t), Run(s, Told(t, facts)).events;
      var config, thread := Last(IsConfig, facts).value.config, ThreadNamed(Last(NamesThread, facts).value);
      var started, tokens := Last(IsStarted, facts), Last(IsTokens, facts);
      var error, diff := Last(IsError, facts), Last(IsDiff, facts);
      && events != [] && events[0].TurnEvent? && events[0].turn == t
      && (var record := events[0].record;
          && record.thread == thread && record.images == config.images && record.config == config
          && record.profile == Last(IsProfile, facts).value.profile && record.completion == Last(IsCompletion, facts).value.completion
          && record.startedAt == (if started.None? then base.startedAt
                                  else if started.value.at.Some? && started.value.at.value >= 0 then Some(started.value.at.value)
                                  else None)
          && record.tokens == (if tokens.Some? then Some(tokens.value.usage) else base.tokens)
          && record.error == (if error.Some? then Some(error.value.error) else base.error)
          && record.steers == base.steers && record.tools == base.tools)
      && CountsLines(events[1..], t, thread, config.model, if diff.Some? then Some(diff.value.diff) else base.diff)
  {
    var merged := Merged(TurnOf(s, t), facts);
    ArrangementHas(facts);
    OneTurnEvent(s, t, facts);
    ReportShape(s, t, merged);
  }

  // ---------------------------------------------------------------- two orders

  /** For every kind of fact, both tell the same one last. */
  predicate SameLast(one: seq<TurnFact>, two: seq<TurnFact>) {
    && Last(IsConfig, one) == Last(IsConfig, two)
    && Last(IsProfile, one) == Last(IsProfile, two)
    && Last(IsCompletion, one) == Last(IsCompletion, two)
    && Last(IsStarted, one) == Last(IsStarted, two)
    && Last(IsDiff, one) == Last(IsDiff, two)
    && Last(IsTokens, one) == Last(IsTokens, two)
    && Last(IsError, one) == Last(IsError, two)
  }

  /** The thread the facts settle on. */
  function FinalThread(facts: seq<TurnFact>): ThreadId
    requires Arrangement(facts)
  {
    ArrangementHas(facts);
    ThreadNamed(Last(NamesThread, facts).value)
  }

  /** The facts of one kind, in order. */
  function Only(p: TurnFact -> bool, facts: seq<TurnFact>): seq<TurnFact> {
    if facts == [] then []
    else Only(p, facts[..|facts| - 1]) + (if p(facts[|facts| - 1]) then [facts[|facts| - 1]] else [])
  }

  lemma {:induction false} LastOfOnly(p: TurnFact -> bool, facts: seq<TurnFact>)
    ensures Last(p, facts) == if Only(p, facts) == [] then None else Some(Only(p, facts)[|Only(p, facts)| - 1])
  {
    if facts != [] {
      LastOfOnly(p, facts[..|facts| - 1]);
    }
  }

  /** The same facts in another order, where only facts of different kinds have changed places. */
  predicate Rearranged(one: seq<TurnFact>, two: seq<TurnFact>) {
    && Only(IsConfig, one) == Only(IsConfig, two)
    && Only(IsProfile, one) == Only(IsProfile, two)
    && Only(IsCompletion, one) == Only(IsCompletion, two)
    && Only(IsStarted, one) == Only(IsStarted, two)
    && Only(IsDiff, one) == Only(IsDiff, two)
    && Only(IsTokens, one) == Only(IsTokens, two)
    && Only(IsError, one) == Only(IsError, two)
  }

  lemma SameLastOf(p: TurnFact -> bool, one: seq<TurnFact>, two: seq<TurnFact>)
    requires Only(p, one) == Only(p, two)
    ensures Last(p, one) == Last(p, two)
  {
    LastOfOnly(p, one);
    LastOfOnly(p, two);
  }

  lemma RearrangedSameLast(one: seq<TurnFact>, two: seq<TurnFact>)
    requires Rearranged(one, two)
    ensures SameLast(one, two)
  {
    SameLastOf(IsConfig, one, two);
    SameLastOf(IsProfile, one, two);
    SameLastOf(IsCompletion, one, two);
    SameLastOf(IsStarted, one, two);
    SameLastOf(IsDiff, one, two);
    SameLastOf(IsTokens, one, two);
    SameLastOf(IsError, one, two);
  }

  /** Two lists of facts that tell the same one of every kind last have the same outcome if and only if they
      settle on the same thread. */
  lemma OrdersAgree(s: State, t: TurnId, one: seq<TurnFact>, two: seq<TurnFact>)
    requires Awaits(TurnOf(s, t)) && Arrangement(one) && Arrangement(two) && SameLast(one, two)
    requires Ready(s, Merged(TurnOf(s, t), one)) && Ready(s, Merged(TurnOf(s, t), two))
    ensures Run(s, Told(t, one)) == Run(s, Told(t, two)) <==> FinalThread(one) == FinalThread(two)
  {
    OneTurnEvent(s, t, one);
    OneTurnEvent(s, t, two);
    ReportShape(s, t, Merged(TurnOf(s, t), one));
    ReportShape(s, t, Merged(TurnOf(s, t), two));
    var first, second := Merged(TurnOf(s, t), one), Merged(TurnOf(s, t), two);
    if FinalThread(one) == FinalThread(two) {
      assert first == second;
    } else {
      assert Report(s, t, first)[0].record.thread != Report(s, t, second)[0].record.thread;
    }
  }

  /** Facts that all name the thread of the turn settle on it, in whatever order. */
  lemma OneThread(facts: seq<TurnFact>, thread: ThreadId)
    requires Arrangement(facts)
    requires forall fact :: fact in facts && NamesThread(fact) ==> ThreadNamed(fact) == thread
    ensures FinalThread(facts) == thread
  {
    ArrangementHas(facts);
    assert Last(NamesThread, facts).value in facts;
  }

  /** Confluence as promised: facts about one thread, rearranged, have the same outcome. */
  lemma AnyOrder(s: State, t: TurnId, thread: ThreadId, one: seq<TurnFact>, two: seq<TurnFact>)
    requires Awaits(TurnOf(s, t)) && Arrangement(one) && Arrangement(two) && Rearranged(one, two)
    requires forall fact :: fact in one + two && NamesThread(fact) ==> ThreadNamed(fact) == thread
    requires Ready(s, Merged(TurnOf(s, t), one))
    ensures Run(s, Told(t, one)) == Run(s, Told(t, two))
  {
    RearrangedSameLast(one, two);
    OneThread(one, thread);
    OneThread(two, thread);
    assert Merged(TurnOf(s, t), one) == Merged(TurnOf(s, t), two);
    OrdersAgree(s, t, one, two);
  }

  lemma LastSnoc(p: TurnFact -> bool, facts: seq<TurnFact>, fact: TurnFact)
    ensures Last(p, facts + [fact]) == if p(fact) then Some(fact) else Last(p, facts)
    ensures Count(p, facts + [fact]) == Count(p, facts) + (if p(fact) then 1 else 0)
  {
    assert (facts + [fact])[..|facts|] == facts;
  }

  /** A connection that has opened two threads. */
  function TwoThreads(key: RequestKey, client: Client, metadata: ThreadMetadata, one: ThreadId, two: ThreadId): seq<Fact> {
    [Initialize(key.connection, client, "runtime"), Responded(key, ThreadOpened(one, metadata, ""), None),
     Responded(key, ThreadOpened(two, metadata, ""), None)]
  }

  lemma TwoThreadsKnown(key: RequestKey, client: Client, metadata: ThreadMetadata, one: ThreadId, two: ThreadId)
    ensures
      var s := After(TwoThreads(key, client, metadata, one, two));
      && s.turns == map[] && key.connection in s.connections
      && one in s.threads && s.threads[one].connection == Some(key.connection) && s.threads[one].metadata == Some(metadata)
      && two in s.threads && s.threads[two].connection == Some(key.connection) && s.threads[two].metadata == Some(metadata)
  {
    var a := Initialize(key.connection, client, "runtime");
    var b, c := Responded(key, ThreadOpened(one, metadata, ""), None), Responded(key, ThreadOpened(two, metadata, ""), None);
    RunSnoc(EMPTY, [], a);
    assert [] + [a] == [a];
    RunSnoc(EMPTY, [a], b);
    assert [a] + [b] == [a, b];
    RunSnoc(EMPTY, [a, b], c);
    assert [a, b] + [c] == TwoThreads(key, client, metadata, one, two);
  }

  /** Naming different threads does make a difference: from a state in which both threads are known, a
      configuration for one and token usage for the other have an outcome that depends on their order. */
  lemma ThreadOrderMatters(key: RequestKey, client: Client, metadata: ThreadMetadata, t: TurnId, config: Config, thread: ThreadId,
                           usage: string, profile: string, completion: Completion)
    requires config.thread != thread
    ensures
      var s := After(TwoThreads(key, client, metadata, config.thread, thread));
      var ending := [TurnProfile(profile), TurnCompleted(completion)];
      var one, two := [TurnConfig(config), TurnTokens(thread, usage)] + ending, [TurnTokens(thread, usage), TurnConfig(config)] + ending;
      Run(s, Told(t, one)) != Run(s, Told(t, two))
  {
    var s := After(TwoThreads(key, client, metadata, config.thread, thread));
    TwoThreadsKnown(key, client, metadata, config.thread, thread);
    PairFacts(TurnConfig(config), TurnTokens(thread, usage), profile, completion);
    PairFacts(TurnTokens(thread, usage), TurnConfig(config), profile, completion);
    var ending := [TurnProfile(profile), TurnCompleted(completion)];
    var one, two := [TurnConfig(config), TurnTokens(thread, usage)] + ending, [TurnTokens(thread, usage), TurnConfig(config)] + ending;
    KnownIsReady(s, Merged(NEW_TURN, one));
    KnownIsReady(s, Merged(NEW_TURN, two));
    OrdersAgree(s, t, one, two);
  }

  lemma KnownIsReady(s: State, turn: TurnState)
    requires Complete(turn) && turn.connection.None? && turn.thread.value in s.threads
    requires
      var thread := s.threads[turn.thread.value];
      thread.metadata.Some? && thread.connection.Some? && thread.connection.value in s.connections
    ensures Ready(s, turn)
  {
  }

  lemma PairFacts(a: TurnFact, b: TurnFact, profile: string, completion: Completion)
    requires (a.TurnConfig? && b.TurnTokens?) || (a.TurnTokens? && b.TurnConfig?)
    ensures
      var facts := [a, b] + [TurnProfile(profile), TurnCompleted(completion)];
      && Arrangement(facts) && Last(NamesThread, facts) == Some(b)
      && Last(IsConfig, facts) == Some(if a.TurnConfig? then a else b)
      && Last(IsTokens, facts) == Some(if a.TurnTokens? then a else b)
      && Last(IsProfile, facts) == Some(TurnProfile(profile)) && Last(IsCompletion, facts) == Some(TurnCompleted(completion))
      && Last(IsStarted, facts).None? && Last(IsDiff, facts).None? && Last(IsError, facts).None?
  {
    var facts := [a, b] + [TurnProfile(profile), TurnCompleted(completion)];
    FourFacts(IsConfig, a, b, TurnProfile(profile), TurnCompleted(completion));
    FourFacts(IsProfile, a, b, TurnProfile(profile), TurnCompleted(completion));
    FourFacts(IsCompletion, a, b, TurnProfile(profile), TurnCompleted(completion));
    FourFacts(IsTokens, a, b, TurnProfile(profile), TurnCompleted(completion));
    FourFacts(IsStarted, a, b, TurnProfile(profile), TurnCompleted(completion));
    FourFacts(IsDiff, a, b, TurnProfile(profile), TurnCompleted(completion));
    FourFacts(IsError, a, b, TurnProfile(profile), TurnCompleted(completion));
    FourFacts(NamesThread, a, b, TurnProfile(profile), TurnCompleted(completion));
  }

  lemma FourFacts(p: TurnFact -> bool, a: TurnFact, b: TurnFact, c: TurnFact, d: TurnFact)
    ensures
      var facts := [a, b] + [c, d];
      && Last(p, facts) == (if p(d) then Some(d) else if p(c) then Some(c) else if p(b) then Some(b) else if p(a) then Some(a) else None)
      && Count(p, facts) == (if p(a) then 1 else 0) + (if p(b) then 1 else 0) + (if p(c) then 1 else 0) + (if p(d) then 1 else 0)
  {
    TwoFacts(p, a, b);
    LastSnoc(p, [a, b], c);
    LastSnoc(p, [a, b] + [c], d);
    assert ([a, b] + [c]) + [d] == [a, b] + [c, d];
  }

  lemma TwoFacts(p: TurnFact -> bool, a: TurnFact, b: TurnFact)
    ensures Last(p, [a, b]) == if p(b) then Some(b) else if p(a) then Some(a) else None
    ensures Count(p, [a, b]) == (if p(a) then 1 else 0) + (if p(b) then 1 else 0)
  {
    LastSnoc(p, [], a);
    assert [] + [a] == [a];
    LastSnoc(p, [a], b);
    assert [a] + [b] == [a, b];
  }
}
