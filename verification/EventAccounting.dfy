/**
 What the forwarder promises of the events it takes from the server: nothing is duplicated, reordered or
 silently swallowed. `Accepted` reads the taken events off the actions of a run, and the results compare
 them with what entered the queue, what the consumer has read and what was rejected.
 */
module EventAccounting {
  import opened EventForwarding

  /** The event an action hands to the worker: taken only between two events and while the stream is on. */
  function Takes(s: State, action: Action): seq<Event> {
    if action.Take? && s.pc.Idle? && s.enabled then [action.event] else []
  }

  /** The events taken in a run, in order. */
  function Accepted(s: State, actions: seq<Action>): seq<Event> {
    if actions == [] then []
    else
      var n := |actions| - 1;
      Accepted(s, actions[..n]) + Takes(Run(s, actions[..n]), actions[n])
  }

  /** The event the worker is busy with. */
  function InHand(s: State): seq<Event> {
    if s.pc.Flushing? || s.pc.Sending? then [s.pc.event] else []
  }

  /** Kind by kind, the events that must not be dropped: what a turn, an item, a plan or a reasoning step
      streams, and the notifications that something is over or has changed for good. */
  predicate IsLossless(event: Event) {
    match event
    case Notification(TurnCompleted(_)) => true
    case Notification(ThreadSettingsUpdated(_)) => true
    case Notification(ItemCompleted(_)) => true
    case Notification(ExternalAgentConfigImportCompleted(_)) => true
    case Notification(AgentMessageDelta(_)) => true
    case Notification(PlanDelta(_)) => true
    case Notification(ReasoningSummaryTextDelta(_)) => true
    case Notification(ReasoningTextDelta(_)) => true
    case Notification(OtherNotification(_, _)) => false
    case Request(_) => false
    case Lagged(_) => false
  }

  /** The one request that in-process clients never see. */
  predicate IsAuth(event: Event) {
    match event
    case Request(ChatgptAuthTokensRefresh(_)) => true
    case _ => false
  }

  function LosslessOf(events: seq<Event>): seq<Event> {
    if events == [] then []
    else
      var last := events[|events| - 1];
      LosslessOf(events[..|events| - 1]) + (if IsLossless(last) then [last] else [])
  }

  function AuthCount(events: seq<Event>): nat {
    if events == [] then 0
    else AuthCount(events[..|events| - 1]) + (if IsAuth(events[|events| - 1]) then 1 else 0)
  }

  // ---------------------------------------------------------------- every taken event is settled or in hand

  function EventsOf(settled: seq<Settled>): seq<Event> {
    if settled == [] then [] else EventsOf(settled[..|settled| - 1]) + [settled[|settled| - 1].event]
  }

  lemma EventsSnoc(settled: seq<Settled>, x: Settled)
    ensures EventsOf(settled + [x]) == EventsOf(settled) + [x.event]
  {
    assert (settled + [x])[..|settled|] == settled;
  }

  lemma {:induction false} EventsAt(settled: seq<Settled>)
    ensures |EventsOf(settled)| == |settled|
    ensures forall i :: 0 <= i < |settled| ==> EventsOf(settled)[i] == settled[i].event
  {
    if settled != [] {
      EventsAt(settled[..|settled| - 1]);
    }
  }

  lemma AcceptedStep(s: State, action: Action)
    ensures
      var after := Next(s, action);
      EventsOf(after.settled) + InHand(after) == EventsOf(s.settled) + InHand(s) + Takes(s, action)
  {
    match action {
      case Take(event) => TakeAccepts(s, event);
      case Advance =>
        AdvanceAccepts(s);
        Padded(EventsOf(s.settled) + InHand(s));
      case Abort =>
        if InHand(s) != [] {
          EventsSnoc(s.settled, Settled(s.pc.event, Lost));
        }
      case _ => Padded(EventsOf(s.settled) + InHand(s));
    }
  }

  lemma TakeAccepts(s: State, event: Event)
    ensures EventsOf(TakeStep(s, event).settled) + InHand(TakeStep(s, event)) == EventsOf(s.settled) + InHand(s) + Takes(s, Take(event))
  {
    if s.pc.Idle? && s.enabled {
      assert InHand(s) == [] && Takes(s, Take(event)) == [event];
      EventsSnoc(s.settled, Settled(event, AuthRejected));
      Kinds(event);
    }
  }

  /** The worker's classifiers agree with the list of kinds. */
  lemma Kinds(event: Event)
    ensures IsLossless(event) <==> RequiresDelivery(event)
    ensures IsAuth(event) <==> IsAuthRefresh(event)
  {
  }

  /** An advance keeps the event in hand or settles it. */
  lemma AdvanceSettles(s: State)
    ensures
      var after := AdvanceStep(s);
      || (after.settled == s.settled && InHand(after) == InHand(s))
      || (InHand(s) != [] && InHand(after) == []
          && exists fate :: after.settled == s.settled + [Settled(s.pc.event, fate)])
  {
    var after := AdvanceStep(s);
    if after.settled != s.settled {
      assert after.settled == s.settled + [Settled(s.pc.event, after.settled[|s.settled|].fate)];
    }
  }

  lemma AdvanceAccepts(s: State)
    ensures EventsOf(AdvanceStep(s).settled) + InHand(AdvanceStep(s)) == EventsOf(s.settled) + InHand(s)
  {
    AdvanceSettles(s);
    var after := AdvanceStep(s);
    if after.settled != s.settled || InHand(after) != InHand(s) {
      var fate :| after.settled == s.settled + [Settled(s.pc.event, fate)];
      EventsSnoc(s.settled, Settled(s.pc.event, fate));
    }
  }

  /** Nothing taken is swallowed: in order, every taken event is settled or the one in hand. */
  lemma {:induction false} AcceptedAreSettled(channelCapacity: nat, actions: seq<Action>)
    ensures
      var s := Run(Initial(channelCapacity), actions);
      Accepted(Initial(channelCapacity), actions) == EventsOf(s.settled) + InHand(s)
  {
    if actions != [] {
      var n := |actions| - 1;
      AcceptedAreSettled(channelCapacity, actions[..n]);
      AcceptedStep(Run(Initial(channelCapacity), actions[..n]), actions[n]);
    }
  }

  // ---------------------------------------------------------------- when an event can be lost

  function LostCount(settled: seq<Settled>): nat {
    if settled != [] && settled[|settled| - 1].fate.Lost? then 1 else 0
  }

  /** The stream is turned off only by a closed queue, and an event is lost only to that or to an abort. */
  predicate LossOk(s: State, aborted: bool) {
    && (!s.enabled ==> !s.open)
    && (LostCount(s.settled) > 0 ==> !s.open || aborted)
  }

  lemma LossStep(s: State, action: Action, aborted: bool)
    requires LossOk(s, aborted)
    ensures LossOk(Next(s, action), aborted || action.Abort?)
  {
  }

  lemma {:induction false} LossNeedsClosing(channelCapacity: nat, actions: seq<Action>)
    ensures LossOk(Run(Initial(channelCapacity), actions), Abort in actions)
  {
    if actions != [] {
      var n := |actions| - 1;
      LossNeedsClosing(channelCapacity, actions[..n]);
      LossStep(Run(Initial(channelCapacity), actions[..n]), actions[n], Abort in actions[..n]);
      assert Abort in actions <==> Abort in actions[..n] || actions[n].Abort?;
    }
  }

  // ---------------------------------------------------------------- which events can be dropped

  /** In every run, what is dropped is best effort: an upstream lag notice, a request or a notification of no
      lasting effect, and never an auth refresh. What is rejected as unsupported is an auth refresh. */
  lemma OnlyBestEffortIsDropped(channelCapacity: nat, actions: seq<Action>, i: nat)
    requires i < |Run(Initial(channelCapacity), actions).settled|
    ensures
      var x := Run(Initial(channelCapacity), actions).settled[i];
      && (x.fate.Dropped? ==>
            || x.event.Lagged?
            || (x.event.Request? && x.event.request.OtherRequest?)
            || (x.event.Notification? && x.event.notification.OtherNotification?))
      && (x.fate.AuthRejected? <==> x.event.Request? && x.event.request.ChatgptAuthTokensRefresh?)
  {
    RunInvariant(channelCapacity, actions);
    assert FateOk(Run(Initial(channelCapacity), actions).settled[i]);
  }

  /** On a full open queue, at any point of any run, a lossless event waits and nothing changes; any other is
      given up at once, counted and, if it is a request, rejected. */
  lemma FullQueue(channelCapacity: nat, actions: seq<Action>, event: Event)
    requires
      var s := Run(Initial(channelCapacity), actions);
      s.open && |s.queue| == s.capacity && InHand(s) == [event]
    ensures
      var s := Run(Initial(channelCapacity), actions);
      var after := Next(s, Advance);
      if IsLossless(event) then after == s
      else
        && after.queue == s.queue && after.sent == s.sent && after.pc.Idle? && after.enabled == s.enabled
        && after.settled == s.settled + [Settled(event, Dropped)]
        && after.skipped == (if s.skipped < 0xFFFF_FFFF_FFFF_FFFF then s.skipped + 1 else s.skipped)
        && after.rejected == s.rejected + (if event.Request? then [Rejection(event.request, -32001)] else [])
  {
    RunInvariant(channelCapacity, actions);
  }

  /** With room in an open queue the event in hand goes in, after a marker that tells how many were dropped. */
  lemma RoomInQueue(channelCapacity: nat, actions: seq<Action>, event: Event)
    requires
      var s := Run(Initial(channelCapacity), actions);
      s.open && |s.queue| < s.capacity && InHand(s) == [event]
    ensures
      var s := Run(Initial(channelCapacity), actions);
      var after := Next(s, Advance);
      if s.skipped > 0 then after.queue == s.queue + [Lagged(s.skipped)] && after.skipped == 0 && InHand(after) == [event]
      else after.queue == s.queue + [event] && after.skipped == 0 && InHand(after) == [] && after.settled == s.settled + [Settled(event, Enqueued)]
  {
    RunInvariant(channelCapacity, actions);
  }

  // ---------------------------------------------------------------- counting

  lemma {:induction false} CountsPartition(settled: seq<Settled>)
    ensures |settled| == |EnqueuedEntries(settled)| + Count(settled, Dropped) + Count(settled, AuthRejected) + Count(settled, Lost)
  {
    if settled != [] {
      CountsPartition(settled[..|settled| - 1]);
    }
  }

  predicate LostLast(settled: seq<Settled>) {
    forall i :: 0 <= i < |settled| && settled[i].fate.Lost? ==> i == |settled| - 1
  }

  lemma {:induction false} AtMostOneLost(settled: seq<Settled>)
    requires LostLast(settled)
    ensures Count(settled, Lost) == LostCount(settled)
  {
    if settled != [] {
      AtMostOneLost(settled[..|settled| - 1]);
    }
  }

  predicate FatesFit(settled: seq<Settled>) {
    forall i :: 0 <= i < |settled| ==> FateOk(settled[i])
  }

  lemma {:induction false} AuthCountOf(settled: seq<Settled>)
    requires FatesFit(settled)
    ensures AuthCount(EventsOf(settled)) == Count(settled, AuthRejected)
  {
    if settled != [] {
      var n := |settled| - 1;
      AuthCountOf(settled[..n]);
      assert FateOk(settled[n]);
      AuthSnoc(EventsOf(settled[..n]), settled[n].event);
    }
  }

  lemma AuthSnoc(events: seq<Event>, event: Event)
    ensures AuthCount(events + [event]) == AuthCount(events) + (if IsAuth(event) then 1 else 0)
  {
    assert (events + [event])[..|events|] == events;
  }

  lemma AuthCountHand(s: State)
    requires FatesOk(s)
    ensures AuthCount(EventsOf(s.settled) + InHand(s)) == AuthCount(EventsOf(s.settled))
  {
    if InHand(s) != [] {
      AuthSnoc(EventsOf(s.settled), s.pc.event);
    } else {
      assert EventsOf(s.settled) + [] == EventsOf(s.settled);
    }
  }

  /** Lag conservation: in every state of every run, the events taken, apart from the auth refreshes, are
      those that entered the queue, plus the drops announced by the worker's markers, plus the drops still
      counted, plus the one in hand, plus the drops a saturated counter forgot (none while fewer than 2^64
      events were taken). One event may be missing, and only if the queue was closed or the worker aborted.
      The queue never exceeds its capacity. */
  lemma LagConservation(channelCapacity: nat, actions: seq<Action>)
    ensures
      var s := Run(Initial(channelCapacity), actions);
      var accepted := Accepted(Initial(channelCapacity), actions);
      var handed := |accepted| - AuthCount(accepted);
      var accounted := |ForwardedEntries(s.sent)| + MarkerSum(s.sent) + s.skipped + s.uncounted + |InHand(s)|;
      && |s.queue| <= s.capacity
      && accounted <= handed <= accounted + 1
      && (s.open && Abort !in actions ==> handed == accounted)
      && (|accepted| <= USIZE_MAX ==> s.uncounted == 0)
  {
    RunInvariant(channelCapacity, actions);
    AcceptedAreSettled(channelCapacity, actions);
    LossNeedsClosing(channelCapacity, actions);
    Balance(Run(Initial(channelCapacity), actions));
  }

  /** There is room in the queue whenever something happens. */
  predicate RoomThroughout(channelCapacity: nat, actions: seq<Action>) {
    forall k :: 0 <= k < |actions| ==>
      var s := Run(Initial(channelCapacity), actions[..k]);
      |s.queue| < s.capacity
  }

  /** With room in the queue a step settles no event as dropped. */
  lemma SettlesWithRoom(s: State, action: Action)
    requires |s.queue| < s.capacity
    ensures
      var after := Next(s, action).settled;
      after == s.settled || exists x: Settled :: after == s.settled + [x] && !x.fate.Dropped?
  {
    match action {
      case Take(event) => assert TakeStep(s, event).settled != s.settled ==> TakeStep(s, event).settled == s.settled + [Settled(event, AuthRejected)];
      case Advance =>
        if AdvanceStep(s).settled != s.settled {
          assert AdvanceStep(s).settled == s.settled + [Settled(s.pc.event, if s.open then Enqueued else Lost)];
        }
      case Abort =>
        if InHand(s) != [] {
          assert Next(s, Abort).settled == s.settled + [Settled(s.pc.event, Lost)];
        }
      case _ =>
    }
  }

  lemma NoDropStep(s: State, action: Action)
    requires Count(s.settled, Dropped) == 0 && |s.queue| < s.capacity
    ensures Count(Next(s, action).settled, Dropped) == 0
  {
    SettlesWithRoom(s, action);
    var after := Next(s, action).settled;
    if after != s.settled {
      var x: Settled :| after == s.settled + [x] && !x.fate.Dropped?;
      SettledSnoc(s.settled, x);
    }
  }

  lemma {:induction false} NoDrops(channelCapacity: nat, actions: seq<Action>)
    requires RoomThroughout(channelCapacity, actions)
    ensures Count(Run(Initial(channelCapacity), actions).settled, Dropped) == 0
  {
    if actions != [] {
      var n := |actions| - 1;
      forall k | 0 <= k < n
        ensures actions[..n][..k] == actions[..k]
      {
      }
      NoDrops(channelCapacity, actions[..n]);
      NoDropStep(Run(Initial(channelCapacity), actions[..n]), actions[n]);
    }
  }

  /** Without pressure there is no loss: if the queue always has room, is open and the worker is not
      aborted, every taken event but the auth refreshes is in the queue or in hand, and no lag is
      announced or counted. */
  lemma NoLagWithoutPressure(channelCapacity: nat, actions: seq<Action>)
    requires RoomThroughout(channelCapacity, actions)
    ensures
      var s := Run(Initial(channelCapacity), actions);
      var accepted := Accepted(Initial(channelCapacity), actions);
      && MarkerSum(s.sent) == 0 && s.skipped == 0
      && (s.open && Abort !in actions ==> |accepted| - AuthCount(accepted) == |ForwardedEntries(s.sent)| + |InHand(s)|)
  {
    NoDrops(channelCapacity, actions);
    RunInvariant(channelCapacity, actions);
    LagConservation(channelCapacity, actions);
  }

  lemma Balance(s: State)
    requires Inv(s)
    ensures
      var taken := EventsOf(s.settled) + InHand(s);
      && |taken| - AuthCount(taken)
         == |ForwardedEntries(s.sent)| + MarkerSum(s.sent) + s.skipped + s.uncounted + |InHand(s)| + LostCount(s.settled)
      && (|taken| <= USIZE_MAX ==> s.uncounted == 0)
  {
    CountsPartition(s.settled);
    AtMostOneLost(s.settled);
    EventsAt(s.settled);
    AuthCountOf(s.settled);
    AuthCountHand(s);
  }

  // ---------------------------------------------------------------- entries and their positions

  predicate InOrder(entries: seq<Entry>) {
    && (forall k :: 0 <= k < |entries| ==> entries[k].Forwarded?)
    && (forall k, l :: 0 <= k < l < |entries| ==> entries[k].index < entries[l].index)
  }

  predicate EntryOk(settled: seq<Settled>, entry: Entry) {
    entry.Forwarded? && entry.index < |settled| && settled[entry.index] == Settled(entry.event, Enqueued)
  }

  lemma {:induction false} EntriesAreOrdered(settled: seq<Settled>)
    ensures forall k :: 0 <= k < |EnqueuedEntries(settled)| ==> EntryOk(settled, EnqueuedEntries(settled)[k])
    ensures InOrder(EnqueuedEntries(settled))
  {
    if settled != [] {
      var before := settled[..|settled| - 1];
      EntriesAreOrdered(before);
      var entries := EnqueuedEntries(settled);
      forall k | 0 <= k < |entries|
        ensures EntryOk(settled, entries[k])
      {
        if k < |EnqueuedEntries(before)| {
          assert entries[k] == EnqueuedEntries(before)[k];
          assert EntryOk(before, entries[k]);
        }
      }
      forall k, l | 0 <= k < l < |entries|
        ensures entries[k].index < entries[l].index
      {
        assert EntryOk(before, EnqueuedEntries(before)[k]);
      }
    }
  }

  lemma {:induction false} EnqueuedAt(settled: seq<Settled>, i: nat)
    requires i < |settled| && settled[i].fate.Enqueued?
    ensures
      var p := |EnqueuedEntries(settled[..i])|;
      p < |EnqueuedEntries(settled)| && EnqueuedEntries(settled)[p] == Forwarded(i, settled[i].event)
  {
    var n := |settled| - 1;
    if i < n {
      EnqueuedAt(settled[..n], i);
      assert settled[..n][..i] == settled[..i];
    }
  }

  lemma {:induction false} ForwardedAt(sent: seq<Entry>, k: nat)
    requires k < |sent| && sent[k].Forwarded?
    ensures
      var p := |ForwardedEntries(sent[..k])|;
      p < |ForwardedEntries(sent)| && ForwardedEntries(sent)[p] == sent[k]
  {
    var n := |sent| - 1;
    if k < n {
      ForwardedAt(sent[..n], k);
      assert sent[..n][..k] == sent[..k];
    }
  }

  lemma SamePosition(entries: seq<Entry>, p: nat, q: nat)
    requires InOrder(entries) && p < |entries| && q < |entries| && entries[p].index == entries[q].index
    ensures p == q
  {
  }

  /** As many entries precede an event in the queue as enqueued events precede it among the taken ones. */
  lemma PositionsAgree(settled: seq<Settled>, sent: seq<Entry>, k: nat)
    requires ForwardedEntries(sent) == EnqueuedEntries(settled) && k < |sent| && sent[k].Forwarded?
    ensures EntryOk(settled, sent[k])
    ensures |ForwardedEntries(sent[..k])| == |EnqueuedEntries(settled[..sent[k].index])|
  {
    ForwardedAt(sent, k);
    EntriesAreOrdered(settled);
    var p := |ForwardedEntries(sent[..k])|;
    assert EntryOk(settled, EnqueuedEntries(settled)[p]);
    EnqueuedAt(settled, sent[k].index);
    SamePosition(EnqueuedEntries(settled), p, |EnqueuedEntries(settled[..sent[k].index])|);
  }

  // ---------------------------------------------------------------- the lossless tier

  lemma LosslessSnoc(events: seq<Event>, event: Event)
    ensures LosslessOf(events + [event]) == LosslessOf(events) + (if IsLossless(event) then [event] else [])
  {
    assert (events + [event])[..|events|] == events;
  }

  function EntryEvents(entries: seq<Entry>): seq<Event>
    requires forall k :: 0 <= k < |entries| ==> entries[k].Forwarded?
  {
    if entries == [] then [] else EntryEvents(entries[..|entries| - 1]) + [entries[|entries| - 1].event]
  }

  lemma EntrySnoc(entries: seq<Entry>, entry: Entry)
    requires entry.Forwarded? && forall k :: 0 <= k < |entries| ==> entries[k].Forwarded?
    ensures EntryEvents(entries + [entry]) == EntryEvents(entries) + [entry.event]
  {
    assert (entries + [entry])[..|entries|] == entries;
  }

  /** The worker's markers are not lossless, so the lossless events in the queue are forwarded ones. */
  lemma {:induction false} LosslessInQueue(sent: seq<Entry>)
    ensures LosslessOf(Raw(sent)) == LosslessOf(EntryEvents(ForwardedEntries(sent)))
  {
    if sent != [] {
      var n := |sent| - 1;
      LosslessInQueue(sent[..n]);
      LosslessSnoc(Raw(sent[..n]), if sent[n].Marker? then Lagged(sent[n].skipped) else sent[n].event);
      if sent[n].Forwarded? {
        EntrySnoc(ForwardedEntries(sent[..n]), sent[n]);
        LosslessSnoc(EntryEvents(ForwardedEntries(sent[..n])), sent[n].event);
      } else {
        assert ForwardedEntries(sent[..n]) + [] == ForwardedEntries(sent[..n]);
      }
    }
  }

  predicate AllForwarded(entries: seq<Entry>) {
    forall k :: 0 <= k < |entries| ==> entries[k].Forwarded?
  }

  /** The event that was lost, if one was. */
  function LostEvent(settled: seq<Settled>): seq<Event> {
    if LostCount(settled) > 0 then [settled[|settled| - 1].event] else []
  }

  lemma LosslessOne(event: Event)
    ensures LosslessOf([event]) == if IsLossless(event) then [event] else []
  {
    LosslessSnoc([], event);
    assert [] + [event] == [event];
  }

  /** The lossless events that entered the queue, given the settled ones. */
  function LosslessEntries(settled: seq<Settled>): seq<Event>
    requires AllForwarded(EnqueuedEntries(settled))
  {
    LosslessOf(EntryEvents(EnqueuedEntries(settled)))
  }

  lemma LosslessEntriesSnoc(settled: seq<Settled>)
    requires settled != []
    ensures AllForwarded(EnqueuedEntries(settled)) && AllForwarded(EnqueuedEntries(settled[..|settled| - 1]))
    ensures
      var last := settled[|settled| - 1];
      LosslessEntries(settled) ==
      LosslessEntries(settled[..|settled| - 1]) + (if last.fate.Enqueued? && IsLossless(last.event) then [last.event] else [])
  {
    EntriesAreOrdered(settled);
    var n := |settled| - 1;
    var last, entries := settled[n], EnqueuedEntries(settled[..n]);
    EntriesAreOrdered(settled[..n]);
    if last.fate.Enqueued? {
      EntrySnoc(entries, Forwarded(n, last.event));
      LosslessSnoc(EntryEvents(entries), last.event);
    } else {
      assert entries + [] == entries;
    }
  }

  lemma Padded<T>(a: seq<T>)
    ensures a + [] == a
  {
  }

  /** The last event, if lossless, is the last to enter the queue or the lost one. */
  lemma LastFate(settled: seq<Settled>, before: seq<Event>)
    requires settled != [] && FateOk(settled[|settled| - 1])
    ensures
      var last := settled[|settled| - 1];
      before + (if IsLossless(last.event) then [last.event] else [])
      == (before + (if last.fate.Enqueued? && IsLossless(last.event) then [last.event] else [])) + LosslessOf(LostEvent(settled))
  {
    var last := settled[|settled| - 1];
    LosslessOne(last.event);
    Padded(before);
    if last.fate.Enqueued? && IsLossless(last.event) {
      Padded(before + [last.event]);
    }
  }

  /** Lossless events are enqueued or the one that was lost. */
  lemma {:induction false} LosslessSettled(settled: seq<Settled>)
    requires FatesFit(settled) && LostLast(settled)
    ensures AllForwarded(EnqueuedEntries(settled))
    ensures LosslessOf(EventsOf(settled)) == LosslessEntries(settled) + LosslessOf(LostEvent(settled))
  {
    if settled != [] {
      var n := |settled| - 1;
      LosslessSettled(settled[..n]);
      LosslessEntriesSnoc(settled);
      assert LostEvent(settled[..n]) == [];
      Padded(LosslessEntries(settled[..n]));
      assert LosslessOf(EventsOf(settled[..n])) == LosslessEntries(settled[..n]);
      LosslessSnoc(EventsOf(settled[..n]), settled[n].event);
      assert FateOk(settled[n]);
      LastFate(settled, LosslessEntries(settled[..n]));
    }
  }

  /** An entry carries the taken event whose position it names. */
  predicate EntryIs(accepted: seq<Event>, entry: Entry) {
    entry.Forwarded? && entry.index < |accepted| && accepted[entry.index] == entry.event
  }

  /** The markers in front of an entry announce exactly the events taken before it that neither entered
      the queue nor were auth refreshes. */
  predicate Announces(accepted: seq<Event>, sent: seq<Entry>, k: nat)
    requires k < |sent|
  {
    sent[k].Forwarded? ==>
      var i := sent[k].index;
      i < |accepted| && MarkerSum(sent[..k]) == i - |ForwardedEntries(sent[..k])| - AuthCount(accepted[..i])
  }

  /** The lossless tier: as long as the queue is open and the worker not aborted, the lossless events taken
      are exactly those the consumer has read or can read, in order and once each, plus one in hand; at
      worst one is missing, at the end. All events in the queue are taken ones in the order they were
      taken. While fewer than 2^64 events were taken, the markers in front of each event announce exactly
      the events dropped before it. */
  lemma LosslessTier(channelCapacity: nat, actions: seq<Action>)
    ensures
      var s := Run(Initial(channelCapacity), actions);
      var accepted, entries := Accepted(Initial(channelCapacity), actions), ForwardedEntries(s.sent);
      && (s.open && Abort !in actions ==> LosslessOf(accepted) == LosslessOf(s.received + s.queue) + LosslessOf(InHand(s)))
      && LosslessOf(Raw(s.sent)) <= LosslessOf(accepted) && |LosslessOf(accepted)| <= |LosslessOf(Raw(s.sent))| + 1
      && (forall k :: 0 <= k < |entries| ==> EntryIs(accepted, entries[k]))
      && InOrder(entries)
      && (|accepted| <= USIZE_MAX ==> forall k :: 0 <= k < |s.sent| ==> Announces(accepted, s.sent, k))
  {
    RunInvariant(channelCapacity, actions);
    AcceptedAreSettled(channelCapacity, actions);
    LossNeedsClosing(channelCapacity, actions);
    var s := Run(Initial(channelCapacity), actions);
    LosslessTaken(s);
    EntriesTaken(s);
    if |EventsOf(s.settled) + InHand(s)| <= USIZE_MAX {
      Balance(s);
      forall k | 0 <= k < |s.sent|
        ensures Announces(EventsOf(s.settled) + InHand(s), s.sent, k)
      {
        EntryAnnounced(s, k);
      }
    }
  }

  lemma LosslessTaken(s: State)
    requires Inv(s)
    ensures
      var taken := EventsOf(s.settled) + InHand(s);
      && (LostCount(s.settled) == 0 ==> LosslessOf(taken) == LosslessOf(Raw(s.sent)) + LosslessOf(InHand(s)))
      && LosslessOf(Raw(s.sent)) <= LosslessOf(taken) && |LosslessOf(taken)| <= |LosslessOf(Raw(s.sent))| + 1
  {
    LosslessSettled(s.settled);
    LosslessInQueue(s.sent);
    var queued := LosslessOf(Raw(s.sent));
    assert queued == LosslessEntries(s.settled);
    if InHand(s) != [] {
      assert LostEvent(s.settled) == [];
      Padded(queued);
      LosslessSnoc(EventsOf(s.settled), s.pc.event);
      LosslessOne(s.pc.event);
    } else {
      Padded(EventsOf(s.settled));
      if LostCount(s.settled) > 0 {
        LosslessOne(s.settled[|s.settled| - 1].event);
      }
    }
  }

  lemma EntriesTaken(s: State)
    requires Inv(s)
    ensures InOrder(ForwardedEntries(s.sent))
    ensures forall k :: 0 <= k < |ForwardedEntries(s.sent)| ==> EntryIs(EventsOf(s.settled) + InHand(s), ForwardedEntries(s.sent)[k])
  {
    EntriesAreOrdered(s.settled);
    EventsAt(s.settled);
    var entries := ForwardedEntries(s.sent);
    forall k | 0 <= k < |entries|
      ensures EntryIs(EventsOf(s.settled) + InHand(s), entries[k])
    {
      assert EntryOk(s.settled, entries[k]);
    }
  }

  lemma {:induction false} EventsPrefix(settled: seq<Settled>, i: nat)
    requires i <= |settled|
    ensures i <= |EventsOf(settled)| && EventsOf(settled[..i]) == EventsOf(settled)[..i]
  {
    EventsAt(settled);
    EventsAt(settled[..i]);
  }

  lemma EntryAnnounced(s: State, k: nat)
    requires Inv(s) && s.uncounted == 0 && k < |s.sent|
    ensures |EventsOf(s.settled)| == |s.settled|
    ensures Announces(EventsOf(s.settled) + InHand(s), s.sent, k)
  {
    EventsAt(s.settled);
    if s.sent[k].Forwarded? {
      var i := s.sent[k].index;
      PositionsAgree(s.settled, s.sent, k);
      assert AnnouncedBefore(s.settled, s.sent, k);
      assert FatesFit(s.settled[..i]) && LostLast(s.settled[..i]) && LostCount(s.settled[..i]) == 0;
      DropsBefore(s.settled[..i]);
      EventsPrefix(s.settled, i);
      assert (EventsOf(s.settled) + InHand(s))[..i] == EventsOf(s.settled)[..i];
    }
  }

  /** What neither entered the queue nor was an auth refresh was dropped. */
  lemma DropsBefore(settled: seq<Settled>)
    requires FatesFit(settled) && LostLast(settled) && LostCount(settled) == 0
    ensures Count(settled, Dropped) == |settled| - |EnqueuedEntries(settled)| - AuthCount(EventsOf(settled))
  {
    CountsPartition(settled);
    AtMostOneLost(settled);
    AuthCountOf(settled);
  }

  // ---------------------------------------------------------------- server requests

  function RejectedWith(rejected: seq<Rejection>, code: int): seq<ServerRequest> {
    if rejected == [] then []
    else
      var last := rejected[|rejected| - 1];
      RejectedWith(rejected[..|rejected| - 1], code) + (if last.code == code then [last.request] else [])
  }

  lemma RejectedSnoc(rejected: seq<Rejection>, x: Rejection, code: int)
    ensures RejectedWith(rejected + [x], code) == RejectedWith(rejected, code) + (if x.code == code then [x.request] else [])
  {
    assert (rejected + [x])[..|rejected|] == rejected;
  }

  function AuthRequests(events: seq<Event>): seq<ServerRequest> {
    if events == [] then []
    else
      var last := events[|events| - 1];
      AuthRequests(events[..|events| - 1]) + (if IsAuth(last) then [last.request] else [])
  }

  /** The positions of the events that entered the queue. */
  function Indices(entries: seq<Entry>): set<nat>
    requires forall k :: 0 <= k < |entries| ==> entries[k].Forwarded?
  {
    set k | 0 <= k < |entries| :: entries[k].index
  }

  /** The requests, other than auth refreshes, whose position is not among those that entered the queue. */
  function Missing(events: seq<Event>, enqueued: set<nat>): seq<ServerRequest> {
    if events == [] then []
    else
      var n, last := |events| - 1, events[|events| - 1];
      Missing(events[..n], enqueued)
      + (if last.Request? && !IsAuth(last) && n !in enqueued then [last.request] else [])
  }

  lemma IndicesAre(settled: seq<Settled>, i: nat)
    requires i < |settled|
    ensures AllForwarded(EnqueuedEntries(settled))
    ensures i in Indices(EnqueuedEntries(settled)) <==> settled[i].fate.Enqueued?
  {
    EntriesAreOrdered(settled);
    var entries := EnqueuedEntries(settled);
    if settled[i].fate.Enqueued? {
      EnqueuedAt(settled, i);
      assert entries[|EnqueuedEntries(settled[..i])|].index == i;
    }
    assert forall k :: 0 <= k < |entries| ==> EntryOk(settled, entries[k]);
  }

  /** The fates of the first `n` events, seen from the set of positions that entered the queue. */
  predicate FatesSeen(settled: seq<Settled>, enqueued: set<nat>, n: nat)
    requires n <= |settled|
  {
    forall i :: 0 <= i < n ==> (i in enqueued <==> settled[i].fate.Enqueued?) && !settled[i].fate.Lost? && FateOk(settled[i])
  }

  lemma RejectionsSnoc(before: seq<Settled>, last: Settled, code: int)
    ensures RejectedWith(RejectionsOf(before + [last]), code) == RejectedWith(RejectionsOf(before), code) + RejectedWith(RejectionsOf([last]), code)
  {
    SettledSnoc(before, last);
    assert [last][..0] == [];
    if RejectionsOf([last]) == [] {
      assert RejectionsOf(before) + [] == RejectionsOf(before);
    } else {
      var x := RejectionsOf([last])[0];
      assert RejectionsOf([last]) == [x] && [x][..0] == [];
      RejectedSnoc(RejectionsOf(before), x, code);
    }
  }

  lemma RejectionOfOne(last: Settled)
    requires FateOk(last) && !last.fate.Lost?
    ensures RejectedWith(RejectionsOf([last]), QUEUE_FULL)
         == if last.event.Request? && last.fate.Dropped? then [last.event.request] else []
    ensures RejectedWith(RejectionsOf([last]), AUTH_UNSUPPORTED)
         == if IsAuth(last.event) then [last.event.request] else []
  {
    RejectionsOfOne(last);
    Kinds(last.event);
    if last.event.Request? {
      RejectedOne(Rejection(last.event.request, QUEUE_FULL), QUEUE_FULL);
      RejectedOne(Rejection(last.event.request, QUEUE_FULL), AUTH_UNSUPPORTED);
      RejectedOne(Rejection(last.event.request, AUTH_UNSUPPORTED), QUEUE_FULL);
      RejectedOne(Rejection(last.event.request, AUTH_UNSUPPORTED), AUTH_UNSUPPORTED);
    }
  }

  lemma RejectedOne(x: Rejection, code: int)
    ensures RejectedWith([x], code) == if x.code == code then [x.request] else []
  {
    RejectedSnoc([], x, code);
    assert [] + [x] == [x];
  }

  lemma RejectionsOfOne(last: Settled)
    ensures RejectionsOf([last]) ==
      if last.event.Request? && last.fate.AuthRejected? then [Rejection(last.event.request, AUTH_UNSUPPORTED)]
      else if last.event.Request? && last.fate.Dropped? then [Rejection(last.event.request, QUEUE_FULL)]
      else []
  {
    assert [last][..0] == [];
  }

  lemma {:induction false} RejectionsAre(settled: seq<Settled>, enqueued: set<nat>)
    requires FatesSeen(settled, enqueued, |settled|)
    ensures RejectedWith(RejectionsOf(settled), QUEUE_FULL) == Missing(EventsOf(settled), enqueued)
    ensures RejectedWith(RejectionsOf(settled), AUTH_UNSUPPORTED) == AuthRequests(EventsOf(settled))
  {
    if settled != [] {
      var n := |settled| - 1;
      var before, last := settled[..n], settled[n];
      assert settled == before + [last] && FatesSeen(before, enqueued, n);
      RejectionsAre(before, enqueued);
      EventsAt(before);
      MissingSnoc(EventsOf(before), last.event, enqueued);
      AuthRequestsSnoc(EventsOf(before), last.event);
      RejectionsSnoc(before, last, QUEUE_FULL);
      RejectionsSnoc(before, last, AUTH_UNSUPPORTED);
      RejectionOfOne(last);
    }
  }

  lemma MissingSnoc(events: seq<Event>, event: Event, enqueued: set<nat>)
    ensures
      Missing(events + [event], enqueued) ==
      Missing(events, enqueued) + (if event.Request? && !IsAuth(event) && |events| !in enqueued then [event.request] else [])
  {
    assert (events + [event])[..|events|] == events;
  }

  /** How many of the taken events have been decided on: all but one in hand or lost. */
  function Decided(s: State): nat {
    |s.settled| - LostCount(s.settled)
  }

  /** Server-request accounting: of the decided events, the auth refreshes were rejected as unsupported,
      each once and in order; every other request entered the queue or was rejected as overload, never
      both, and these rejections too are in order and once each. No auth refresh enters the queue. All
      taken events are decided but one in hand, or one lost to a closed queue or an abort. */
  lemma RequestAccounting(channelCapacity: nat, actions: seq<Action>)
    ensures
      var s := Run(Initial(channelCapacity), actions);
      var accepted, entries := Accepted(Initial(channelCapacity), actions), ForwardedEntries(s.sent);
      var n := Decided(s);
      && n <= |accepted| <= n + 1
      && (s.open && Abort !in actions ==> |accepted| == n + |InHand(s)|)
      && RejectedWith(s.rejected, -32000) == AuthRequests(accepted)
      && RejectedWith(s.rejected, -32001) == Missing(accepted[..n], Indices(entries))
      && (forall k :: 0 <= k < |entries| ==>
            EntryIs(accepted, entries[k]) && entries[k].index < n && !IsAuth(entries[k].event))
  {
    RunInvariant(channelCapacity, actions);
    AcceptedAreSettled(channelCapacity, actions);
    LossNeedsClosing(channelCapacity, actions);
    var s := Run(Initial(channelCapacity), actions);
    EventsAt(s.settled);
    EntriesTaken(s);
    EntriesDecided(s);
    RequestsSettled(s);
  }

  lemma EntriesDecided(s: State)
    requires Inv(s)
    ensures forall k :: 0 <= k < |ForwardedEntries(s.sent)| ==>
              ForwardedEntries(s.sent)[k].index < Decided(s) && !IsAuth(ForwardedEntries(s.sent)[k].event)
  {
    EntriesAreOrdered(s.settled);
    var entries := ForwardedEntries(s.sent);
    forall k | 0 <= k < |entries|
      ensures entries[k].index < Decided(s) && !IsAuth(entries[k].event)
    {
      assert EntryOk(s.settled, entries[k]);
      assert FateOk(s.settled[entries[k].index]);
    }
  }

  lemma RequestsSettled(s: State)
    requires Inv(s)
    ensures
      var taken := EventsOf(s.settled) + InHand(s);
      && Decided(s) <= |taken|
      && RejectedWith(s.rejected, -32000) == AuthRequests(taken)
      && RejectedWith(s.rejected, -32001) == Missing(taken[..Decided(s)], Indices(ForwardedEntries(s.sent)))
  {
    var n := Decided(s);
    EventsAt(s.settled);
    EventsPrefix(s.settled, n);
    assert (EventsOf(s.settled) + InHand(s))[..n] == EventsOf(s.settled)[..n];
    DecidedFates(s);
    RejectionsAre(s.settled[..n], Indices(ForwardedEntries(s.sent)));
    LostIsNotRejected(s.settled);
    AuthUndecided(s);
  }

  lemma DecidedFates(s: State)
    requires Inv(s)
    ensures FatesSeen(s.settled[..Decided(s)], Indices(ForwardedEntries(s.sent)), Decided(s))
  {
    var n, enqueued := Decided(s), Indices(ForwardedEntries(s.sent));
    var decided := s.settled[..n];
    forall i | 0 <= i < n
      ensures (i in enqueued <==> decided[i].fate.Enqueued?) && !decided[i].fate.Lost? && FateOk(decided[i])
    {
      IndicesAre(s.settled, i);
      assert decided[i] == s.settled[i] && FateOk(s.settled[i]);
    }
  }

  lemma LostIsNotRejected(settled: seq<Settled>)
    ensures RejectionsOf(settled) == RejectionsOf(settled[..|settled| - LostCount(settled)])
  {
    if LostCount(settled) == 0 {
      assert settled[..|settled|] == settled;
    }
  }

  lemma AuthRequestsSnoc(events: seq<Event>, event: Event)
    ensures AuthRequests(events + [event]) == AuthRequests(events) + (if IsAuth(event) then [event.request] else [])
  {
    assert (events + [event])[..|events|] == events;
  }

  /** An event in hand or lost is not an auth refresh. */
  lemma AuthUndecided(s: State)
    requires Inv(s)
    ensures
      var decided := s.settled[..Decided(s)];
      AuthRequests(EventsOf(s.settled) + InHand(s)) == AuthRequests(EventsOf(decided))
  {
    var n := Decided(s);
    if InHand(s) != [] {
      AuthRequestsSnoc(EventsOf(s.settled), s.pc.event);
    } else {
      assert EventsOf(s.settled) + [] == EventsOf(s.settled);
    }
    if n < |s.settled| {
      assert FateOk(s.settled[n]);
      AuthRequestsSnoc(EventsOf(s.settled[..n]), s.settled[n].event);
    } else {
      assert s.settled[..n] == s.settled;
    }
  }
}
