/**
 The worker of the in-process client as the source runs it: fields updated in place, one call of
 `Forward` per event, blocking sends that wait while the consumer acts. What the
 consumer does at each point where the source awaits is a parameter (`Drain` and `Close` steps);
 every method is proved to be a run of the state machine in `EventForwarding`.
 */
module InProcessWorker {
  import opened EventForwarding

  datatype TrySendResult = TrySent | TryFull | TryClosed

  datatype SendResult = Sent | SendClosed | StillBlocked

  datatype ForwardEventResult = Continue | DisableStream | Blocked

  predicate FromConsumer(steps: seq<Action>) {
    forall i :: 0 <= i < |steps| ==> steps[i].Drain? || steps[i].Close?
  }

  class Worker {
    const capacity: nat
    var queue: seq<Event>
    var open: bool
    var eventStreamEnabled: bool
    var skippedEvents: nat
    var rejected: seq<Rejection>
    ghost var settled: seq<Settled>
    ghost var sent: seq<Entry>
    ghost var received: seq<Event>
    ghost var uncounted: nat

    /** The state of the machine when the worker stands at `pc`. */
    ghost function At(pc: Pc): State
      reads this
    {
      State(capacity, queue, open, eventStreamEnabled, skippedEvents, pc, settled, sent, received, rejected, uncounted)
    }

    constructor (channelCapacity: nat)
      ensures At(Idle) == Initial(channelCapacity) && Inv(At(Idle))
    {
      capacity := if channelCapacity < 1 then 1 else channelCapacity;
      queue, open, eventStreamEnabled, skippedEvents, rejected := [], true, true, 0, [];
      settled, sent, received, uncounted := [], [], [], 0;
    }

    /** The consumer takes one event or drops the receiver. */
    method ConsumerStep(ghost pc: Pc, step: Action)
      requires step.Drain? || step.Close?
      modifies `queue, `open, `received
      ensures At(pc) == Next(old(At(pc)), step)
    {
      if step.Close? {
        open, queue := false, [];
      } else if open && queue != [] {
        received := received + [queue[0]];
        queue := queue[1..];
      }
    }

    method ConsumerSteps(ghost pc: Pc, steps: seq<Action>)
      requires FromConsumer(steps)
      modifies `queue, `open, `received
      ensures At(pc) == Run(old(At(pc)), steps)
    {
      for i := 0 to |steps|
        invariant At(pc) == Run(old(At(pc)), steps[..i])
      {
        assert steps[..i + 1] == steps[..i] + [steps[i]];
        RunSnoc(old(At(pc)), steps[..i], steps[i]);
        ConsumerStep(pc, steps[i]);
      }
      assert steps[..|steps|] == steps;
    }

    method TrySend(event: Event) returns (result: TrySendResult)
      modifies `queue
      ensures result == if !open then TryClosed else if |old(queue)| < capacity then TrySent else TryFull
      ensures queue == if result.TrySent? then old(queue) + [event] else old(queue)
    {
      if !open {
        return TryClosed;
      }
      if |queue| >= capacity {
        return TryFull;
      }
      queue := queue + [event];
      return TrySent;
    }

    /** A blocking send: waits through consumer steps until there is room or the receiver is gone. */
    method Send(ghost pc: Pc, event: Event, waits: seq<Action>) returns (result: SendResult, ghost waited: nat)
      requires FromConsumer(waits)
      modifies `queue, `open, `received
      ensures waited <= |waits|
      ensures
        var s := Run(old(At(pc)), waits[..waited]);
        && At(pc) == (if result.Sent? then s.(queue := s.queue + [event]) else s)
        && (result.Sent? <==> s.open && |s.queue| < s.capacity)
        && (result.SendClosed? <==> !s.open)
      ensures result.StillBlocked? ==> waited == |waits|
    {
      var i := 0;
      while open && |queue| >= capacity && i < |waits|
        invariant i <= |waits| && At(pc) == Run(old(At(pc)), waits[..i])
      {
        assert waits[..i + 1] == waits[..i] + [waits[i]];
        RunSnoc(old(At(pc)), waits[..i], waits[i]);
        ConsumerStep(pc, waits[i]);
        i := i + 1;
      }
      waited := i;
      if !open {
        return SendClosed, waited;
      }
      if |queue| >= capacity {
        return StillBlocked, waited;
      }
      queue := queue + [event];
      return Sent, waited;
    }

    /** The bookkeeping shared by both places that drop a best-effort event. */
    method DropEvent(ghost pc: Pc, event: Event)
      modifies `skippedEvents, `rejected, `settled, `uncounted
      ensures At(Idle) == Drop(old(At(pc)), event)
    {
      uncounted := uncounted + (if skippedEvents < USIZE_MAX then 0 else 1);
      skippedEvents := SaturatingAdd(skippedEvents);
      if event.Request? {
        rejected := rejected + [Rejection(event.request, QUEUE_FULL)];
      } else {
        assert rejected + [] == rejected;
      }
      settled := settled + [Settled(event, Dropped)];
    }

    /** Where the machine stands after a call. */
    ghost function PcAfter(result: ForwardEventResult, blockedAt: Pc): Pc {
      if result.Blocked? then blockedAt else Idle
    }

    /** The flush of a pending lag marker in front of a lossless event: it blocks, so the marker is never lost. */
    method FlushBlocking(event: Event, waits: seq<Action>)
      returns (result: ForwardEventResult, flushed: bool, ghost actions: seq<Action>)
      requires skippedEvents > 0 && RequiresDelivery(event) && FromConsumer(waits) && eventStreamEnabled
      modifies this
      ensures !flushed ==> eventStreamEnabled == !result.DisableStream?
      ensures flushed ==> result.Continue? && eventStreamEnabled && At(Sending(event)) == Run(old(At(Flushing(event))), actions)
      ensures !flushed ==> At(PcAfter(result, Flushing(event))) == Run(old(At(Flushing(event))), actions)
    {
      ghost var pc, before, marker := Flushing(event), At(Flushing(event)), Marker(skippedEvents);
      var sendResult, waited := Send(pc, Lagged(skippedEvents), waits);
      actions := waits[..waited];
      if sendResult.StillBlocked? {
        return Blocked, false, actions;
      }
      RunSnoc(before, actions, Advance);
      actions := actions + [Advance];
      if sendResult.SendClosed? {
        settled, eventStreamEnabled := settled + [Settled(event, Lost)], false;
        return DisableStream, false, actions;
      }
      skippedEvents, sent := 0, sent + [marker];
      return Continue, true, actions;
    }

    /** The flush in front of a best-effort event: if the marker finds no room, the event is dropped. */
    method FlushOrDrop(event: Event) returns (result: ForwardEventResult, flushed: bool, ghost actions: seq<Action>)
      requires skippedEvents > 0 && !RequiresDelivery(event) && eventStreamEnabled
      modifies this
      ensures !flushed ==> eventStreamEnabled == !result.DisableStream?
      ensures flushed ==> result.Continue? && eventStreamEnabled && At(Sending(event)) == Run(old(At(Flushing(event))), actions)
      ensures !flushed ==> At(PcAfter(result, Flushing(event))) == Run(old(At(Flushing(event))), actions)
    {
      ghost var pc, before := Flushing(event), At(Flushing(event));
      actions := [Advance];
      RunSnoc(before, [], Advance);
      assert [] + [Advance] == [Advance];
      var trySendResult := TrySend(Lagged(skippedEvents));
      match trySendResult {
        case TrySent =>
          sent := sent + [Marker(skippedEvents)];
          skippedEvents := 0;
          return Continue, true, actions;
        case TryFull =>
          DropEvent(pc, event);
          return Continue, false, actions;
        case TryClosed =>
          settled, eventStreamEnabled := settled + [Settled(event, Lost)], false;
          return DisableStream, false, actions;
      }
    }

    /** The delivery of a lossless event. */
    method DeliverBlocking(event: Event, waits: seq<Action>) returns (result: ForwardEventResult, ghost actions: seq<Action>)
      requires FromConsumer(waits) && eventStreamEnabled && RequiresDelivery(event)
      modifies this
      ensures At(PcAfter(result, Sending(event))) == Run(old(At(Sending(event))), actions)
    {
      ghost var pc, before := Sending(event), At(Sending(event));
      var sendResult, waited := Send(pc, event, waits);
      actions := waits[..waited];
      if sendResult.StillBlocked? {
        return Blocked, actions;
      }
      RunSnoc(before, actions, Advance);
      actions := actions + [Advance];
      if sendResult.SendClosed? {
        settled, eventStreamEnabled := settled + [Settled(event, Lost)], false;
        return DisableStream, actions;
      }
      sent, settled := sent + [Forwarded(|settled|, event)], settled + [Settled(event, Enqueued)];
      return Continue, actions;
    }

    /** The delivery of a best-effort event: without room it is dropped. */
    method DeliverOrDrop(event: Event) returns (result: ForwardEventResult, ghost actions: seq<Action>)
      requires eventStreamEnabled && !RequiresDelivery(event)
      modifies this
      ensures At(PcAfter(result, Sending(event))) == Run(old(At(Sending(event))), actions)
    {
      ghost var pc, before := Sending(event), At(Sending(event));
      actions := [Advance];
      RunSnoc(before, [], Advance);
      assert [] + [Advance] == [Advance];
      var trySendResult := TrySend(event);
      match trySendResult {
        case TrySent =>
          sent, settled := sent + [Forwarded(|settled|, event)], settled + [Settled(event, Enqueued)];
          return Continue, actions;
        case TryFull =>
          DropEvent(pc, event);
          return Continue, actions;
        case TryClosed =>
          settled, eventStreamEnabled := settled + [Settled(event, Lost)], false;
          return DisableStream, actions;
      }
    }

    /** The delivery of `event` itself. */
    method Deliver(event: Event, waits: seq<Action>) returns (result: ForwardEventResult, ghost actions: seq<Action>)
      requires FromConsumer(waits) && eventStreamEnabled
      modifies this
      ensures At(PcAfter(result, Sending(event))) == Run(old(At(Sending(event))), actions)
    {
      if RequiresDelivery(event) {
        result, actions := DeliverBlocking(event, waits);
      } else {
        result, actions := DeliverOrDrop(event);
      }
    }

    /** One event of the worker loop. `flushWaits` and `sendWaits` are what the consumer does while a
        blocking send waits, `between` what it does between the marker and the event. */
    method HandleEvent(event: Event, flushWaits: seq<Action>, between: seq<Action>, sendWaits: seq<Action>)
      returns (result: ForwardEventResult, ghost actions: seq<Action>, ghost pc: Pc)
      requires Inv(At(Idle)) && eventStreamEnabled
      requires FromConsumer(flushWaits) && FromConsumer(between) && FromConsumer(sendWaits)
      modifies this
      ensures At(pc) == Run(old(At(Idle)), [Take(event)] + actions) && Inv(At(pc))
      ensures !result.Blocked? ==> pc == Idle
      ensures IsAuthRefresh(event) ==> queue == old(queue) && result.Continue?
    {
      ghost var before := At(Idle);
      ghost var taken := Next(before, Take(event));
      RunSnoc(before, [], Take(event));
      assert [] + [Take(event)] == [Take(event)];
      if IsAuthRefresh(event) {
        rejected := rejected + [Rejection(event.request, AUTH_UNSUPPORTED)];
        settled := settled + [Settled(event, AuthRejected)];
        result, actions, pc := Continue, [], Idle;
      } else {
        result, actions, pc := Forward(event, flushWaits, between, sendWaits);
      }
      RunAppend(before, [Take(event)], actions);
      RunPreserves(before, [Take(event)] + actions);
    }

    method Forward(event: Event, flushWaits: seq<Action>, between: seq<Action>, sendWaits: seq<Action>)
      returns (result: ForwardEventResult, ghost actions: seq<Action>, ghost pc: Pc)
      requires eventStreamEnabled
      requires FromConsumer(flushWaits) && FromConsumer(between) && FromConsumer(sendWaits)
      modifies this
      ensures At(pc) == Run(old(At(if skippedEvents > 0 then Flushing(event) else Sending(event))), actions)
      ensures !result.Blocked? ==> pc == Idle
    {
      ghost var before := At(if skippedEvents > 0 then Flushing(event) else Sending(event));
      actions := [];
      if skippedEvents > 0 {
        var flushed;
        if RequiresDelivery(event) {
          result, flushed, actions := FlushBlocking(event, flushWaits);
        } else {
          result, flushed, actions := FlushOrDrop(event);
        }
        if !flushed {
          pc := PcAfter(result, Flushing(event));
          return;
        }
        RunAppend(before, actions, between);
        ConsumerSteps(Sending(event), between);
        actions := actions + between;
      }
      ghost var sendActions;
      result, sendActions := Deliver(event, sendWaits);
      RunAppend(before, actions, sendActions);
      actions := actions + sendActions;
      pc := PcAfter(result, Sending(event));
    }
  }
}
