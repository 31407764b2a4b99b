/** Each turn event is made of parts that came after the previous one, and its tool counts are the item
    completions counted since then. */
module TurnFreshness {
  import opened Options
  import opened AnalyticsFacts
  import opened ReducerModel
  import opened TurnView
  import opened Counting

  // ---------------------------------------------------------------- fresh parts

  datatype Part = ConfigPart | ProfilePart | CompletionPart

  predicate Gives(part: Part, t: TurnId, fact: Fact) {
    fact.AboutTurn? && fact.turn == t &&
    match part
    case ConfigPart => fact.fact.TurnConfig?
    case ProfilePart => fact.fact.TurnProfile?
    case CompletionPart => fact.fact.TurnCompleted?
  }

  predicate HasPart(part: Part, turn: TurnState) {
    match part
    case ConfigPart => turn.config.Some?
    case ProfilePart => turn.profile.Some?
    case CompletionPart => turn.completion.Some?
  }

  lemma PartComesFrom(s: State, t: TurnId, fact: Fact, part: Part)
    requires Stage(s, t, fact).Some? && HasPart(part, Stage(s, t, fact).value)
    ensures Gives(part, t, fact) || (t in s.turns && HasPart(part, s.turns[t]))
  {
  }

  /** In a run that starts without state for `t`, a part in the turn's state was given by one of the facts. */
  lemma {:induction false} PartWasGiven(s: State, t: TurnId, facts: seq<Fact>, part: Part)
    requires t !in s.turns
    requires t in Run(s, facts).state.turns && HasPart(part, Run(s, facts).state.turns[t])
    ensures exists k :: 0 <= k < |facts| && Gives(part, t, facts[k])
  {
    if facts != [] {
      var n := |facts| - 1;
      var before := Run(s, facts[..n]).state;
      IngestSteps(before, t, facts[n]);
      PartComesFrom(before, t, facts[n], part);
      if !Gives(part, t, facts[n]) {
        PartWasGiven(s, t, facts[..n], part);
        var k :| 0 <= k < n && Gives(part, t, facts[..n][k]);
        assert Gives(part, t, facts[k]);
      }
    }
  }

  /** The event of `t` is put out at position `i`. */
  predicate EmitsAt(facts: seq<Fact>, i: nat, t: TurnId)
    requires i < |facts|
  {
    Emits(After(facts[..i]), t, facts[i])
  }

  lemma EmitsAtMeans(facts: seq<Fact>, i: nat, t: TurnId)
    requires i < |facts|
    ensures EmitsAt(facts, i, t) <==> exists e :: e in Ingest(After(facts[..i]), facts[i]).events && e.TurnEvent? && e.turn == t
  {
    var s := After(facts[..i]);
    var events := Ingest(s, facts[i]).events;
    IngestSteps(s, t, facts[i]);
    if EmitsAt(facts, i, t) {
      var report := Report(s, t, Stage(s, t, facts[i]).value);
      assert report[0] in OfTurn(t, events);
      OfTurnFrom(t, events, report[0]);
    }
    forall e | e in events && e.TurnEvent? && e.turn == t
      ensures EmitsAt(facts, i, t)
    {
      OfTurnHas(t, events, e);
    }
  }

  lemma {:induction false} OfTurnFrom(t: TurnId, events: seq<Event>, e: Event)
    requires e in OfTurn(t, events)
    ensures e in events
  {
    if events != [] && e in OfTurn(t, events[..|events| - 1]) {
      OfTurnFrom(t, events[..|events| - 1], e);
    }
  }

  lemma {:induction false} OfTurnHas(t: TurnId, events: seq<Event>, e: Event)
    requires e in events && About(t, e)
    ensures e in OfTurn(t, events)
  {
    if e != events[|events| - 1] {
      OfTurnHas(t, events[..|events| - 1], e);
    }
  }

  lemma {:induction false} AfterSplit(facts: seq<Fact>, i: nat)
    requires i <= |facts|
    ensures After(facts) == Run(After(facts[..i]), facts[i..]).state
  {
    assert facts == facts[..i] + facts[i..];
    RunAppend(EMPTY, facts[..i], facts[i..]);
  }

  lemma GoneAfterEvent(facts: seq<Fact>, i: nat, t: TurnId)
    requires i < |facts| && EmitsAt(facts, i, t)
    ensures t !in After(facts[..i + 1]).turns
  {
    GoneAfter(After(facts[..i]), t, facts[i]);
    assert facts[..i + 1] == facts[..i] + [facts[i]];
    RunSnoc(EMPTY, facts[..i], facts[i]);
  }

  lemma GoneAfter(s: State, t: TurnId, fact: Fact)
    requires Emits(s, t, fact)
    ensures t !in Ingest(s, fact).state.turns
  {
    IngestSteps(s, t, fact);
  }

  lemma EventNeedsPart(s: State, t: TurnId, fact: Fact, part: Part)
    requires Emits(s, t, fact)
    ensures Gives(part, t, fact) || (t in s.turns && HasPart(part, s.turns[t]))
  {
    assert HasPart(part, Stage(s, t, fact).value);
    PartComesFrom(s, t, fact, part);
  }

  /** Between two events of one turn there are a new configuration, a new profile and a new completion. */
  lemma FreshBetweenEvents(facts: seq<Fact>, i: nat, j: nat, t: TurnId, part: Part)
    requires i < j < |facts| && EmitsAt(facts, i, t) && EmitsAt(facts, j, t)
    ensures exists k :: i < k <= j && Gives(part, t, facts[k])
  {
    EventNeedsPart(After(facts[..j]), t, facts[j], part);
    if !Gives(part, t, facts[j]) {
      GoneAfterEvent(facts, i, t);
      var between := facts[..j][i + 1..];
      AfterSplit(facts[..j], i + 1);
      assert facts[..j][..i + 1] == facts[..i + 1];
      PartWasGiven(After(facts[..i + 1]), t, between, part);
      var k :| 0 <= k < |between| && Gives(part, t, between[k]);
      assert between[k] == facts[i + 1 + k];
    }
  }

  // ---------------------------------------------------------------- tool counts

  /** The kinds of the items counted for `t` since its last event. */
  function Counted(facts: seq<Fact>, t: TurnId): seq<ItemKind> {
    if facts == [] then []
    else
      var before, fact := facts[..|facts| - 1], facts[|facts| - 1];
      if Emits(After(before), t, fact) then []
      else if CountsFor(After(before), t, fact) then Counted(before, t) + [fact.completed.kind]
      else Counted(before, t)
  }

  /** The counts of a list of kinds, category by category. */
  function CountsOf(kinds: seq<ItemKind>): ToolCounts {
    ToolCounts(
      |kinds|,
      Count((k: ItemKind) => k.CommandExecution?, kinds),
      Count((k: ItemKind) => k.FileChange?, kinds),
      Count((k: ItemKind) => k.McpToolCall?, kinds),
      Count((k: ItemKind) => k.DynamicToolCall?, kinds),
      Count((k: ItemKind) => k.CollabAgentToolCall? || k.SubAgentActivity?, kinds),
      Count((k: ItemKind) => k.WebSearch?, kinds),
      Count((k: ItemKind) => k.ImageGeneration?, kinds))
  }

  lemma CountsSnoc(kinds: seq<ItemKind>, kind: ItemKind)
    requires !kind.OtherItem?
    ensures CountsOf(kinds + [kind]) == Tally(CountsOf(kinds), kind)
  {
    assert (kinds + [kind])[..|kinds|] == kinds;
  }

  function Categories(tools: ToolCounts): nat {
    tools.shellCommand + tools.fileChange + tools.mcpToolCall + tools.dynamicToolCall + tools.subagentToolCall
    + tools.webSearch + tools.imageGeneration
  }

  lemma TallyAddsOne(tools: ToolCounts, kind: ItemKind)
    requires !kind.OtherItem?
    ensures Tally(tools, kind).total == tools.total + 1 && Categories(Tally(tools, kind)) == Categories(tools) + 1
  {
  }

  lemma {:induction false} CountsAddUp(kinds: seq<ItemKind>)
    requires forall i :: 0 <= i < |kinds| ==> !kinds[i].OtherItem?
    ensures CountsOf(kinds).total == Categories(CountsOf(kinds))
  {
    if kinds != [] {
      var n := |kinds| - 1;
      CountsAddUp(kinds[..n]);
      assert kinds == kinds[..n] + [kinds[n]];
      CountsSnoc(kinds[..n], kinds[n]);
      TallyAddsOne(CountsOf(kinds[..n]), kinds[n]);
    }
  }

  predicate ToolsAre(turn: Option<TurnState>, kinds: seq<ItemKind>) {
    if turn.None? then kinds == [] else turn.value.tools == CountsOf(kinds)
  }

  lemma StageTools(s: State, t: TurnId, fact: Fact, kinds: seq<ItemKind>)
    requires ToolsAre(TurnIn(s, t), kinds)
    ensures ToolsAre(Stage(s, t, fact), if CountsFor(s, t, fact) then kinds + [fact.completed.kind] else kinds)
  {
    assert CountsOf([]) == NO_TOOLS;
    if CountsFor(s, t, fact) {
      CountsSnoc(kinds, fact.completed.kind);
    }
  }

  /** The tool counts in a turn's state are those of the completions counted since its last event. */
  lemma {:induction false} ToolsAreCounted(facts: seq<Fact>, t: TurnId)
    ensures ToolsAre(TurnIn(After(facts), t), Counted(facts, t))
    ensures forall i :: 0 <= i < |Counted(facts, t)| ==> !Counted(facts, t)[i].OtherItem?
  {
    if facts != [] {
      var n := |facts| - 1;
      var s := After(facts[..n]);
      ToolsAreCounted(facts[..n], t);
      IngestSteps(s, t, facts[n]);
      StageTools(s, t, facts[n], Counted(facts[..n], t));
    }
  }

  /** A turn event's tool counts are exactly the completions counted for the turn since its previous event,
      and the total is the sum of the seven categories. */
  lemma TurnEventCounts(facts: seq<Fact>, fact: Fact, event: Event)
    requires event in Ingest(After(facts), fact).events && event.TurnEvent?
    ensures event.record.tools == CountsOf(Counted(facts, event.turn))
    ensures event.record.tools.total == |Counted(facts, event.turn)| == Categories(event.record.tools)
  {
    var s, t := After(facts), event.turn;
    EventIsReport(s, fact, event);
    StagedTools(facts, fact, t);
    ToolsAreCounted(facts, t);
    CountsAddUp(Counted(facts, t));
  }

  lemma StagedTools(facts: seq<Fact>, fact: Fact, t: TurnId)
    requires Emits(After(facts), t, fact)
    ensures Stage(After(facts), t, fact).value.tools == CountsOf(Counted(facts, t))
  {
    ToolsAreCounted(facts, t);
    assert !CountsFor(After(facts), t, fact);
    StageTools(After(facts), t, fact, Counted(facts, t));
  }

  /** A turn event records the turn's state as the fact that put it out left it. */
  lemma EventIsReport(s: State, fact: Fact, event: Event)
    requires event in Ingest(s, fact).events && event.TurnEvent?
    ensures Emits(s, event.turn, fact) && event.record == RecordOf(Stage(s, event.turn, fact).value)
  {
    var t := event.turn;
    IngestSteps(s, t, fact);
    OfTurnHas(t, Ingest(s, fact).events, event);
    assert event == Report(s, t, Stage(s, t, fact).value)[0];
  }
}
