/**
 In-process event forwarding under backpressure (motyga-rs/app-server-client/src/lib.rs).

 One worker feeds a bounded queue. The protocol is a state machine whose actions are the
 worker's micro-steps (take an event, flush a lag marker or send the event), the consumer
 draining, the receiver closing, and the worker exiting or being aborted; an action that is not
 enabled leaves the state alone, so a run is any sequence of actions. The last five fields of
 `State` are history: they record what happened and never influence a step.
 */
module EventForwarding {

  type RequestId = string

  datatype ServerNotification =
    | TurnCompleted(payload: string)
    | ThreadSettingsUpdated(payload: string)
    | ItemCompleted(payload: string)
    | ExternalAgentConfigImportCompleted(payload: string)
    | AgentMessageDelta(payload: string)
    | PlanDelta(payload: string)
    | ReasoningSummaryTextDelta(payload: string)
    | ReasoningTextDelta(payload: string)
    | OtherNotification(name: string, payload: string)

  datatype ServerRequest =
    | ChatgptAuthTokensRefresh(requestId: RequestId)
    | OtherRequest(requestId: RequestId, name: string)

  datatype Event =
    | Lagged(skipped: nat)
    | Notification(notification: ServerNotification)
    | Request(request: ServerRequest)

  const USIZE_MAX: nat := 0xFFFF_FFFF_FFFF_FFFF
  const AUTH_UNSUPPORTED: int := -32000
  const QUEUE_FULL: int := -32001

  predicate ServerNotificationRequiresDelivery(n: ServerNotification) {
    !n.OtherNotification?
  }

  predicate RequiresDelivery(e: Event) {
    e.Notification? && ServerNotificationRequiresDelivery(e.notification)
  }

  predicate IsAuthRefresh(e: Event) {
    e.Request? && e.request.ChatgptAuthTokensRefresh?
  }

  function SaturatingAdd(n: nat): nat {
    if n < USIZE_MAX then n + 1 else USIZE_MAX
  }

  // ---------------------------------------------------------------- state

  /** Where the worker is inside `forward_in_process_event`. */
  datatype Pc = Idle | Flushing(event: Event) | Sending(event: Event) | Stopped

  /** What became of an event taken from the server. `Lost` is the one in hand when the queue was
      found closed or the worker was aborted. */
  datatype Fate = Enqueued | Dropped | AuthRejected | Lost

  datatype Settled = Settled(event: Event, fate: Fate)

  /** What entered the queue: a marker made by the worker, or the event with the given position
      among the taken ones. An upstream `Lagged` event is an ordinary event. */
  datatype Entry = Marker(skipped: nat) | Forwarded(index: nat, event: Event)

  datatype Rejection = Rejection(request: ServerRequest, code: int)

  datatype State = State(
    capacity: nat,
    queue: seq<Event>,
    open: bool,
    enabled: bool,
    skipped: nat,
    pc: Pc,
    settled: seq<Settled>,
    sent: seq<Entry>,
    received: seq<Event>,
    rejected: seq<Rejection>,
    uncounted: nat)

  function Initial(channelCapacity: nat): State {
    State(if channelCapacity < 1 then 1 else channelCapacity, [], true, true, 0, Idle, [], [], [], [], 0)
  }

  datatype Action = Take(event: Event) | Advance | Drain | Close | Exit | Abort

  // ---------------------------------------------------------------- steps

  function Settle(s: State, event: Event, fate: Fate): State {
    s.(settled := s.settled + [Settled(event, fate)], pc := Idle)
  }

  function Disable(s: State, event: Event): State {
    Settle(s, event, Lost).(enabled := false)
  }

  function PushMarker(s: State, event: Event): State {
    s.(queue := s.queue + [Lagged(s.skipped)], sent := s.sent + [Marker(s.skipped)],
       skipped := 0, pc := Sending(event))
  }

  function Push(s: State, event: Event): State {
    Settle(s.(queue := s.queue + [event], sent := s.sent + [Forwarded(|s.settled|, event)]), event, Enqueued)
  }

  function Drop(s: State, event: Event): State {
    Settle(s.(skipped := SaturatingAdd(s.skipped),
              uncounted := s.uncounted + (if s.skipped < USIZE_MAX then 0 else 1),
              rejected := s.rejected + (if event.Request? then [Rejection(event.request, QUEUE_FULL)] else [])),
           event, Dropped)
  }

  function TakeStep(s: State, event: Event): State {
    if !s.pc.Idle? || !s.enabled then s
    else if IsAuthRefresh(event) then
      Settle(s.(rejected := s.rejected + [Rejection(event.request, AUTH_UNSUPPORTED)]), event, AuthRejected)
    else s.(pc := if s.skipped > 0 then Flushing(event) else Sending(event))
  }

  /** One `send` or `try_send`: a blocking send on a full open queue waits. */
  function AdvanceStep(s: State): State {
    if s.pc.Flushing? then
      if !s.open then Disable(s, s.pc.event)
      else if |s.queue| < s.capacity then PushMarker(s, s.pc.event)
      else if RequiresDelivery(s.pc.event) then s
      else Drop(s, s.pc.event)
    else if s.pc.Sending? then
      if !s.open then Disable(s, s.pc.event)
      else if |s.queue| < s.capacity then Push(s, s.pc.event)
      else if RequiresDelivery(s.pc.event) then s
      else Drop(s, s.pc.event)
    else s
  }

  function Next(s: State, action: Action): State {
    match action
    case Take(event) => TakeStep(s, event)
    case Advance => AdvanceStep(s)
    case Drain =>
      if s.open && s.queue != [] then s.(queue := s.queue[1..], received := s.received + [s.queue[0]]) else s
    case Close => s.(open := false, queue := [])
    case Exit => if s.pc.Idle? then s.(pc := Stopped) else s
    case Abort =>
      if s.pc.Flushing? || s.pc.Sending? then Settle(s, s.pc.event, Lost).(pc := Stopped) else s.(pc := Stopped)
  }

  function Run(s: State, actions: seq<Action>): State
    decreases actions
  {
    if actions == [] then s else Next(Run(s, actions[..|actions| - 1]), actions[|actions| - 1])
  }

  // ---------------------------------------------------------------- what the history says

  function Raw(sent: seq<Entry>): seq<Event> {
    if sent == [] then []
    else
      var last := sent[|sent| - 1];
      Raw(sent[..|sent| - 1]) + [if last.Marker? then Lagged(last.skipped) else last.event]
  }

  function MarkerSum(sent: seq<Entry>): nat {
    if sent == [] then 0
    else
      var last := sent[|sent| - 1];
      MarkerSum(sent[..|sent| - 1]) + (if last.Marker? then last.skipped else 0)
  }

  /** The entries that are not the worker's markers. */
  function ForwardedEntries(sent: seq<Entry>): (entries: seq<Entry>)
    ensures forall k :: 0 <= k < |entries| ==> entries[k].Forwarded?
  {
    if sent == [] then []
    else
      var last := sent[|sent| - 1];
      ForwardedEntries(sent[..|sent| - 1]) + (if last.Forwarded? then [last] else [])
  }

  /** The entries the settled events call for, in the order they were taken. */
  function EnqueuedEntries(settled: seq<Settled>): seq<Entry> {
    if settled == [] then []
    else
      var n, last := |settled| - 1, settled[|settled| - 1];
      EnqueuedEntries(settled[..n]) + (if last.fate.Enqueued? then [Forwarded(n, last.event)] else [])
  }

  function Count(settled: seq<Settled>, fate: Fate): nat {
    if settled == [] then 0
    else Count(settled[..|settled| - 1], fate) + (if settled[|settled| - 1].fate == fate then 1 else 0)
  }

  /** The rejections the settled events call for. */
  function RejectionsOf(settled: seq<Settled>): seq<Rejection> {
    if settled == [] then []
    else
      var last := settled[|settled| - 1];
      RejectionsOf(settled[..|settled| - 1])
      + (if last.fate.AuthRejected? && last.event.Request? then [Rejection(last.event.request, AUTH_UNSUPPORTED)]
         else if last.fate.Dropped? && last.event.Request? then [Rejection(last.event.request, QUEUE_FULL)]
         else [])
  }

  // ---------------------------------------------------------------- the invariant

  predicate QueueOk(s: State) {
    && 1 <= s.capacity && |s.queue| <= s.capacity
    && (if s.open then Raw(s.sent) == s.received + s.queue else s.received <= Raw(s.sent) && s.queue == [])
  }

  predicate FateOk(x: Settled) {
    && (x.fate.AuthRejected? <==> IsAuthRefresh(x.event))
    && (x.fate.Dropped? ==> !RequiresDelivery(x.event))
  }

  /** A lost event is the last one ever taken. */
  predicate FatesOk(s: State) {
    && (forall i :: 0 <= i < |s.settled| ==> FateOk(s.settled[i]))
    && (forall i :: 0 <= i < |s.settled| && s.settled[i].fate.Lost? ==>
          i == |s.settled| - 1 && (s.pc.Stopped? || (s.pc.Idle? && !s.enabled)))
    && ((s.pc.Flushing? || s.pc.Sending?) ==> s.enabled && !IsAuthRefresh(s.pc.event))
  }

  predicate HistoryOk(s: State) {
    && ForwardedEntries(s.sent) == EnqueuedEntries(s.settled)
    && s.rejected == RejectionsOf(s.settled)
  }

  /** Every drop is announced in a marker, still counted, or was lost to saturation of the counter,
      which needs more than 2^64 - 1 drops. */
  predicate LagOk(s: State) {
    && s.skipped <= USIZE_MAX
    && MarkerSum(s.sent) + s.skipped + s.uncounted == Count(s.settled, Dropped)
    && (s.uncounted > 0 ==> Count(s.settled, Dropped) > USIZE_MAX)
    && (s.pc.Sending? ==> s.skipped == 0)
    && (s.pc.Flushing? ==> s.skipped > 0)
  }

  /** The markers before an enqueued event announce exactly the drops before it. */
  predicate AnnouncedBefore(settled: seq<Settled>, sent: seq<Entry>, k: nat)
    requires k < |sent|
  {
    sent[k].Forwarded? ==>
      sent[k].index < |settled| && MarkerSum(sent[..k]) == Count(settled[..sent[k].index], Dropped)
  }

  predicate AnnouncedOk(s: State) {
    s.uncounted == 0 ==> forall k :: 0 <= k < |s.sent| ==> AnnouncedBefore(s.settled, s.sent, k)
  }

  predicate Inv(s: State) {
    QueueOk(s) && FatesOk(s) && HistoryOk(s) && LagOk(s) && AnnouncedOk(s)
  }

  // ---------------------------------------------------------------- preservation

  lemma SettledSnoc(settled: seq<Settled>, x: Settled)
    ensures
      var after := settled + [x];
      && after[..|settled|] == settled
      && Count(after, Dropped) == Count(settled, Dropped) + (if x.fate.Dropped? then 1 else 0)
      && EnqueuedEntries(after)
         == EnqueuedEntries(settled) + (if x.fate.Enqueued? then [Forwarded(|settled|, x.event)] else [])
      && RejectionsOf(after) == RejectionsOf(settled) + RejectionsOf([x])
  {
    assert (settled + [x])[..|settled|] == settled;
    assert [x][..0] == [];
  }

  lemma SentSnoc(sent: seq<Entry>, x: Entry)
    ensures
      var after := sent + [x];
      && after[..|sent|] == sent
      && Raw(after) == Raw(sent) + [if x.Marker? then Lagged(x.skipped) else x.event]
      && MarkerSum(after) == MarkerSum(sent) + (if x.Marker? then x.skipped else 0)
      && ForwardedEntries(after) == ForwardedEntries(sent) + (if x.Forwarded? then [x] else [])
  {
    assert (sent + [x])[..|sent|] == sent;
  }

  /** Earlier announcements survive when more events settle. */
  lemma AnnouncedGrows(settled: seq<Settled>, x: Settled, sent: seq<Entry>)
    requires forall k :: 0 <= k < |sent| ==> AnnouncedBefore(settled, sent, k)
    ensures forall k :: 0 <= k < |sent| ==> AnnouncedBefore(settled + [x], sent, k)
  {
    forall k | 0 <= k < |sent|
      ensures AnnouncedBefore(settled + [x], sent, k)
    {
      assert AnnouncedBefore(settled, sent, k);
      if sent[k].Forwarded? {
        assert (settled + [x])[..sent[k].index] == settled[..sent[k].index];
      }
    }
  }

  lemma AnnouncedSnoc(settled: seq<Settled>, sent: seq<Entry>, x: Entry)
    requires forall k :: 0 <= k < |sent| ==> AnnouncedBefore(settled, sent, k)
    requires x.Forwarded? ==> x.index < |settled| && MarkerSum(sent) == Count(settled[..x.index], Dropped)
    ensures forall k :: 0 <= k < |sent + [x]| ==> AnnouncedBefore(settled, sent + [x], k)
  {
    var after := sent + [x];
    forall k | 0 <= k < |after|
      ensures AnnouncedBefore(settled, after, k)
    {
      if k < |sent| {
        assert AnnouncedBefore(settled, sent, k);
        assert after[..k] == sent[..k];
      } else {
        assert after[..k] == sent;
      }
    }
  }

  lemma SettlePreserves(s: State, event: Event, fate: Fate)
    requires QueueOk(s) && FatesOk(s) && AnnouncedOk(s)
    requires s.enabled && !s.pc.Stopped? && FateOk(Settled(event, fate)) && !fate.Lost?
    ensures QueueOk(Settle(s, event, fate)) && FatesOk(Settle(s, event, fate)) && AnnouncedOk(Settle(s, event, fate))
  {
    if s.uncounted == 0 {
      AnnouncedGrows(s.settled, Settled(event, fate), s.sent);
    }
  }

  lemma LosePreserves(s: State, event: Event, after: State)
    requires Inv(s) && s.enabled && !s.pc.Stopped? && !IsAuthRefresh(event)
    requires after == Disable(s, event) || after == Settle(s, event, Lost).(pc := Stopped)
    ensures Inv(after)
  {
    SettledSnoc(s.settled, Settled(event, Lost));
    if s.uncounted == 0 {
      AnnouncedGrows(s.settled, Settled(event, Lost), s.sent);
    }
  }

  lemma DropPreserves(s: State, event: Event)
    requires Inv(s) && s.enabled && !s.pc.Stopped? && !IsAuthRefresh(event) && !RequiresDelivery(event)
    ensures Inv(Drop(s, event))
  {
    SettledSnoc(s.settled, Settled(event, Dropped));
    if s.uncounted == 0 {
      AnnouncedGrows(s.settled, Settled(event, Dropped), s.sent);
    }
    assert s.uncounted + (if s.skipped < USIZE_MAX then 0 else 1) > 0 ==> s.uncounted > 0 || s.skipped == USIZE_MAX;
  }

  lemma PushMarkerPreserves(s: State)
    requires Inv(s) && s.pc.Flushing? && s.open && |s.queue| < s.capacity
    ensures Inv(PushMarker(s, s.pc.event))
  {
    SentSnoc(s.sent, Marker(s.skipped));
    if s.uncounted == 0 {
      AnnouncedSnoc(s.settled, s.sent, Marker(s.skipped));
    }
  }

  lemma PushPreserves(s: State)
    requires Inv(s) && s.pc.Sending? && s.open && |s.queue| < s.capacity
    ensures Inv(Push(s, s.pc.event))
  {
    PushHistory(s);
    PushAnnounced(s);
    assert FateOk(Settled(s.pc.event, Enqueued));
  }

  lemma PushHistory(s: State)
    requires Inv(s) && s.pc.Sending? && s.open && |s.queue| < s.capacity
    ensures QueueOk(Push(s, s.pc.event)) && HistoryOk(Push(s, s.pc.event)) && LagOk(Push(s, s.pc.event))
  {
    var x := Settled(s.pc.event, Enqueued);
    SettledSnoc(s.settled, x);
    SentSnoc(s.sent, Forwarded(|s.settled|, s.pc.event));
    assert RejectionsOf([x]) == [];
    assert (s.received + s.queue) + [s.pc.event] == s.received + (s.queue + [s.pc.event]);
  }

  lemma PushAnnounced(s: State)
    requires Inv(s) && s.pc.Sending? && s.open && |s.queue| < s.capacity
    ensures AnnouncedOk(Push(s, s.pc.event))
  {
    if s.uncounted == 0 {
      var x := Settled(s.pc.event, Enqueued);
      SettledSnoc(s.settled, x);
      AnnouncedGrows(s.settled, x, s.sent);
      AnnouncedSnoc(s.settled + [x], s.sent, Forwarded(|s.settled|, s.pc.event));
    }
  }

  lemma TakePreserves(s: State, event: Event)
    requires Inv(s)
    ensures Inv(TakeStep(s, event))
  {
    if s.pc.Idle? && s.enabled && IsAuthRefresh(event) {
      SettledSnoc(s.settled, Settled(event, AuthRejected));
      SettlePreserves(s, event, AuthRejected);
    }
  }

  lemma AdvancePreserves(s: State)
    requires Inv(s)
    ensures Inv(AdvanceStep(s))
  {
    if s.pc.Flushing? || s.pc.Sending? {
      if !s.open {
        LosePreserves(s, s.pc.event, Disable(s, s.pc.event));
      } else if |s.queue| < s.capacity {
        if s.pc.Flushing? { PushMarkerPreserves(s); } else { PushPreserves(s); }
      } else if !RequiresDelivery(s.pc.event) {
        DropPreserves(s, s.pc.event);
      }
    }
  }

  lemma NextPreserves(s: State, action: Action)
    requires Inv(s)
    ensures Inv(Next(s, action))
  {
    match action {
      case Take(event) => TakePreserves(s, event);
      case Advance => AdvancePreserves(s);
      case Drain =>
        if s.open && s.queue != [] {
          assert s.received + s.queue == (s.received + [s.queue[0]]) + s.queue[1..];
        }
      case Close =>
      case Exit =>
      case Abort =>
        if s.pc.Flushing? || s.pc.Sending? {
          LosePreserves(s, s.pc.event, Settle(s, s.pc.event, Lost).(pc := Stopped));
        }
    }
  }

  lemma {:induction false} RunPreserves(s: State, actions: seq<Action>)
    requires Inv(s)
    ensures Inv(Run(s, actions))
  {
    if actions != [] {
      RunPreserves(s, actions[..|actions| - 1]);
      NextPreserves(Run(s, actions[..|actions| - 1]), actions[|actions| - 1]);
    }
  }

  /** The invariant holds in every state of every run. */
  lemma RunInvariant(channelCapacity: nat, actions: seq<Action>)
    ensures Inv(Run(Initial(channelCapacity), actions))
  {
    RunPreserves(Initial(channelCapacity), actions);
  }

  lemma {:induction false} RunAppend(s: State, one: seq<Action>, two: seq<Action>)
    ensures Run(s, one + two) == Run(Run(s, one), two)
    decreases two
  {
    if two == [] {
      assert one + two == one;
    } else {
      assert (one + two)[..|one + two| - 1] == one + two[..|two| - 1];
      RunAppend(s, one, two[..|two| - 1]);
    }
  }

  lemma RunSnoc(s: State, actions: seq<Action>, action: Action)
    ensures Run(s, actions + [action]) == Next(Run(s, actions), action)
  {
    assert (actions + [action])[..|actions|] == actions;
  }

  // ---------------------------------------------------------------- first results

  /** The capacity is the configured one, clamped to at least one. */
  lemma {:induction false} CapacityIsFixed(channelCapacity: nat, actions: seq<Action>)
    ensures Run(Initial(channelCapacity), actions).capacity == if channelCapacity == 0 then 1 else channelCapacity
  {
    if actions != [] {
      CapacityIsFixed(channelCapacity, actions[..|actions| - 1]);
      CapacityKept(Run(Initial(channelCapacity), actions[..|actions| - 1]), actions[|actions| - 1]);
    }
  }

  lemma CapacityKept(s: State, action: Action)
    ensures Next(s, action).capacity == s.capacity
  {
  }

  /** The consumer reads, in order, a prefix of what entered the queue; nothing is lost on the way
      while it listens. */
  lemma ConsumerReadsInOrder(channelCapacity: nat, actions: seq<Action>)
    ensures
      var s := Run(Initial(channelCapacity), actions);
      && s.received <= Raw(s.sent)
      && (s.open ==> Raw(s.sent) == s.received + s.queue)
  {
    RunInvariant(channelCapacity, actions);
  }
}
