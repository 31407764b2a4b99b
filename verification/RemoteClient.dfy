/**
 The remote client as the source runs it: the initialize handshake with its loop over frames, the
 worker's handlers that update the pending map in place, the loop that fails the remaining waiters
 on exit, and `next_event`. Each handler is proved to be one step of `RemoteWorker.Next`.
 */
module RemoteClient {
  import opened Options
  import opened RemoteWorker

  const INITIALIZE_ID := StringId("initialize")

  // ---------------------------------------------------------------- handshake

  datatype HandshakeError =
    | InvalidInitialize | RejectedInitialize(error: string) | RejectWriteFailed
    | ClosedDuring | TransportDuring | EofDuring | TimedOut | FirstWriteFailed | LastWriteFailed

  datatype Handshake =
    | Established(consumed: nat, result: string, pendingEvents: seq<AppServerEvent>)
    | Refused(error: HandshakeError)

  /** How one frame ends the handshake, if it does. */
  function Verdict(input: Input): Option<Handshake> {
    match input.frame
    case Text(Response(id, result)) => if id == INITIALIZE_ID then Some(Established(0, result, [])) else None
    case Text(ErrorReply(id, error)) => if id == INITIALIZE_ID then Some(Refused(RejectedInitialize(error))) else None
    case Text(Request(_, None)) => if input.writeOk then None else Some(Refused(RejectWriteFailed))
    case Text(_) => None
    case InvalidText => Some(Refused(InvalidInitialize))
    case Closing(_) => Some(Refused(ClosedDuring))
    case TransportError => Some(Refused(TransportDuring))
    case EndOfStream => Some(Refused(EofDuring))
    case OtherFrame => None
  }

  /** The first frame that decides the handshake. */
  predicate Decides(wire: seq<Input>, k: nat) {
    k < |wire| && Verdict(wire[k]).Some? && forall i :: 0 <= i < k ==> Verdict(wire[i]).None?
  }

  /** The handshake cannot succeed: the first write fails, no frame decides before the timeout, or the deciding
      frame refuses or cannot be acknowledged. */
  ghost predicate Hopeless(firstWriteOk: bool, wire: seq<Input>, lastWriteOk: bool) {
    || !firstWriteOk
    || (forall i :: 0 <= i < |wire| ==> Verdict(wire[i]).None?)
    || (exists k: nat :: Decides(wire, k) && (Verdict(wire[k]).value.Refused? || !lastWriteOk))
  }

  /** The frame that decides the handshake decides it alone, and a response carries no event. */
  lemma Decision(wire: seq<Input>, n: nat, lastWriteOk: bool)
    requires Decides(wire, n)
    ensures Hopeless(true, wire, lastWriteOk) <==> Verdict(wire[n]).value.Refused? || !lastWriteOk
    ensures Verdict(wire[n]).value.Established? ==>
      DecodeEvents(wire[..n + 1]) == DecodeEvents(wire[..n]) && RejectionsDue(wire[..n + 1]) == RejectionsDue(wire[..n])
  {
    OnlyOneDecides(wire, n);
    assert wire[..n + 1] == wire[..n] + [wire[n]];
    WireSnoc(wire[..n], wire[n]);
    assert DecodeEvents(wire[..n]) + [] == DecodeEvents(wire[..n]);
    assert RejectionsDue(wire[..n]) + [] == RejectionsDue(wire[..n]);
  }

  /** A frame that does not decide is read on: its event is kept, an unknown request rejected. */
  lemma ReadOn(wire: seq<Input>, n: nat)
    requires n < |wire| && Verdict(wire[n]).None?
    ensures
      var frame := wire[n].frame;
      && DecodeEvents(wire[..n + 1]) == DecodeEvents(wire[..n]) + (if EventOf(frame).Some? then [EventOf(frame).value] else [])
      && RejectionsDue(wire[..n + 1]) == RejectionsDue(wire[..n]) + (if IsUnknownRequest(frame) then [frame.message.id] else [])
  {
    assert wire[..n + 1] == wire[..n] + [wire[n]];
    WireSnoc(wire[..n], wire[n]);
  }

  /** What the handshake ends with when frame `k` decides it. */
  function Conclusion(wire: seq<Input>, k: nat, lastWriteOk: bool): Handshake
    requires Decides(wire, k)
  {
    var verdict := Verdict(wire[k]).value;
    if verdict.Refused? then verdict
    else if !lastWriteOk then Refused(LastWriteFailed)
    else Established(k + 1, verdict.result, DecodeEvents(wire[..k + 1]))
  }

  /** One text message of the handshake: an end, an event to set aside, a rejection, or nothing. */
  method HandleInitializeMessage(message: Message, writeOk: bool)
    returns (end: Option<Handshake>, event: Option<AppServerEvent>, ghost rejected: Option<RequestId>)
    ensures end == Verdict(Input(Text(message), writeOk))
    ensures event == EventOf(Text(message))
    ensures rejected == if IsUnknownRequest(Text(message)) && writeOk then Some(message.id) else None
  {
    end, event, rejected := None, None, None;
    match message {
      case Response(id, result) =>
        if id == StringId("initialize") {
          end := Some(Established(0, result, []));
        }
      case ErrorReply(id, error) =>
        if id == StringId("initialize") {
          end := Some(Refused(RejectedInitialize(error)));
        }
      case Notification(decoded) =>
        if decoded.Some? {
          event := Some(ServerNotification(decoded.value));
        }
      case Request(id, decoded) =>
        if decoded.Some? {
          event := Some(ServerRequest(id, decoded.value));
        } else if writeOk {
          rejected := Some(id);
        } else {
          end := Some(Refused(RejectWriteFailed));
        }
    }
  }

  /** One frame of the handshake. */
  method HandleInitializeFrame(input: Input)
    returns (end: Option<Handshake>, event: Option<AppServerEvent>, ghost rejected: Option<RequestId>)
    ensures end == Verdict(input)
    ensures event == EventOf(input.frame)
    ensures rejected == if IsUnknownRequest(input.frame) && input.writeOk then Some(input.frame.message.id) else None
  {
    end, event, rejected := None, None, None;
    match input.frame {
      case Text(message) => end, event, rejected := HandleInitializeMessage(message, input.writeOk);
      case InvalidText => end := Some(Refused(InvalidInitialize));
      case Closing(_) => end := Some(Refused(ClosedDuring));
      case TransportError => end := Some(Refused(TransportDuring));
      case EndOfStream => end := Some(Refused(EofDuring));
      case OtherFrame =>
    }
  }

  /** Reads frames until one decides the handshake; running out of frames is the timeout. On success the
      deciding frame is the first response to the initialize request, and the events set aside are
      exactly those carried by the frames read, in wire order. A refusal names its cause. */
  method InitializeRemoteConnection(firstWriteOk: bool, wire: seq<Input>, lastWriteOk: bool)
    returns (handshake: Handshake, ghost rejected: seq<RequestId>)
    ensures handshake.Established? ==>
      && firstWriteOk && lastWriteOk && 0 < handshake.consumed <= |wire|
      && Decides(wire, handshake.consumed - 1)
      && wire[handshake.consumed - 1].frame == Text(Response(StringId("initialize"), handshake.result))
      && handshake.pendingEvents == DecodeEvents(wire[..handshake.consumed])
      && rejected == RejectionsDue(wire[..handshake.consumed])
    ensures handshake.Refused? <==> Hopeless(firstWriteOk, wire, lastWriteOk)
    ensures !firstWriteOk ==> handshake == Refused(FirstWriteFailed)
    ensures firstWriteOk && (forall i :: 0 <= i < |wire| ==> Verdict(wire[i]).None?) ==> handshake == Refused(TimedOut)
    ensures firstWriteOk ==> forall k: nat :: Decides(wire, k) ==> handshake == Conclusion(wire, k, lastWriteOk)
  {
    rejected := [];
    if !firstWriteOk {
      return Refused(FirstWriteFailed), rejected;
    }
    var pendingEvents: seq<AppServerEvent> := [];
    for n := 0 to |wire|
      invariant forall i :: 0 <= i < n ==> Verdict(wire[i]).None?
      invariant pendingEvents == DecodeEvents(wire[..n])
      invariant rejected == RejectionsDue(wire[..n])
    {
      var end, event;
      ghost var reject;
      end, event, reject := HandleInitializeFrame(wire[n]);
      if end.Some? {
        Decision(wire, n, lastWriteOk);
        OnlyOneDecides(wire, n);
        if end.value.Refused? {
          return end.value, rejected;
        }
        if !lastWriteOk {
          return Refused(LastWriteFailed), rejected;
        }
        return Established(n + 1, end.value.result, pendingEvents), rejected;
      }
      ReadOn(wire, n);
      pendingEvents := pendingEvents + (if event.Some? then [event.value] else []);
      rejected := rejected + (if reject.Some? then [reject.value] else []);
    }
    return Refused(TimedOut), rejected;
  }

  lemma OnlyOneDecides(wire: seq<Input>, k: nat)
    requires Decides(wire, k)
    ensures forall j :: Decides(wire, j) ==> j == k
  {
  }

  // ---------------------------------------------------------------- the worker and the client

  lemma AnswerOneMore(outcomes: map<Waiter, seq<Outcome>>, ws: set<Waiter>, w: Waiter, outcome: Outcome)
    requires w !in ws
    ensures Answer(AnswerAll(outcomes, ws, outcome), w, outcome) == AnswerAll(outcomes, ws + {w}, outcome)
  {
    var one, all := Answer(AnswerAll(outcomes, ws, outcome), w, outcome), AnswerAll(outcomes, ws + {w}, outcome);
    assert one.Keys == all.Keys;
    forall v | v in all
      ensures one[v] == all[v]
    {
      AnswerAllAt(outcomes, ws, outcome, v);
      AnswerAllAt(outcomes, ws + {w}, outcome, v);
    }
  }

  lemma AnswerNobody(outcomes: map<Waiter, seq<Outcome>>, outcome: Outcome)
    ensures AnswerAll(outcomes, {}, outcome) == outcomes
  {
    forall w | w in outcomes
      ensures AnswerAll(outcomes, {}, outcome)[w] == outcomes[w]
    {
      assert outcomes[w] + [] == outcomes[w];
    }
    assert AnswerAll(outcomes, {}, outcome).Keys == outcomes.Keys;
  }

  /** The state after a failed write has been undone and reported. */
  function Undone(s: State, w: Waiter, id: RequestId): State {
    s.(registered := s.registered[w := id], outcomes := Answer(s.outcomes, w, Failed(WriteError, WriteFailed)))
  }

  lemma FailedWrite(s: State, w: Waiter, id: RequestId)
    requires InHand(s, w) && id !in s.pending
    ensures WaitersOk(Undone(s, w, id)) && PendingOk(Undone(s, w, id)) && s.pending[id := w] - {id} == s.pending
  {
    AnswerHand(s, w, Failed(WriteError, WriteFailed));
    NoteAnswered(s.(outcomes := Answer(s.outcomes, w, Failed(WriteError, WriteFailed))), w, id);
  }

  lemma StepIsValid(s: State, action: Action)
    requires Inv(s)
    ensures Inv(Next(s, action))
  {
    WaitersPreserved(s, action);
    StreamPreserved(s, action);
  }

  class Client {
    const capacity: nat
    var running: bool
    var commands: seq<Queued>
    var pendingRequests: map<RequestId, Waiter>
    var consumerOpen: bool
    var pendingEvents: seq<AppServerEvent>
    var eventChannel: seq<AppServerEvent>
    var outcomes: map<Waiter, seq<Outcome>>
    ghost var waiters: nat
    ghost var registered: map<Waiter, RequestId>
    ghost var wire: seq<Input>
    ghost var rejected: seq<RequestId>
    ghost var yielded: seq<AppServerEvent>
    ghost var farewell: seq<AppServerEvent>

    ghost function View(): State
      reads this
    {
      State(running, capacity, commands, pendingRequests, consumerOpen, pendingEvents, eventChannel,
            waiters, registered, outcomes, wire, rejected, yielded, farewell)
    }

    ghost predicate Valid()
      reads this
    {
      Inv(View())
    }

    constructor (capacity: nat, pendingEvents: seq<AppServerEvent>, ghost wire: seq<Input>)
      requires pendingEvents == DecodeEvents(wire)
      ensures View() == Connected(capacity, wire) && Valid()
    {
      this.capacity, running, commands, pendingRequests := capacity, true, [], map[];
      consumerOpen, this.pendingEvents, eventChannel, outcomes := true, pendingEvents, [], map[];
      waiters, registered, this.wire, rejected, yielded, farewell := 0, map[], wire, RejectionsDue(wire), [], [];
      new;
      ConnectedOk(capacity, wire);
    }

    /** The loop over the pending map after the worker has left its select loop. */
    method FailPending(failure: Outcome)
      requires forall a, b :: a in pendingRequests && b in pendingRequests && pendingRequests[a] == pendingRequests[b] ==> a == b
      modifies `outcomes, `pendingRequests
      ensures outcomes == AnswerAll(old(outcomes), old(pendingRequests).Values, failure) && pendingRequests == map[]
    {
      var all := pendingRequests;
      ghost var done: set<Waiter> := {};
      AnswerNobody(outcomes, failure);
      while pendingRequests.Keys != {}
        invariant forall id :: id in pendingRequests ==> id in all && all[id] == pendingRequests[id]
        invariant forall id :: id in all && id !in pendingRequests ==> all[id] in done
        invariant forall id :: id in pendingRequests ==> pendingRequests[id] !in done
        invariant done <= all.Values
        invariant outcomes == AnswerAll(old(outcomes), done, failure)
        decreases pendingRequests.Keys
      {
        var id :| id in pendingRequests.Keys;
        var waiter := pendingRequests[id];
        AnswerOneMore(old(outcomes), done, waiter, failure);
        outcomes := Answer(outcomes, waiter, failure);
        done := done + {waiter};
        pendingRequests := pendingRequests - {id};
      }
      assert done == all.Values;
    }

    /** Leaving the select loop: fail the registered waiters, drop the unread commands. */
    method Leave(failure: Outcome)
      requires WaitersOk(View()) && PendingOk(View())
      modifies `running, `commands, `pendingRequests, `outcomes
      ensures View() == ExitWith(old(View()), failure)
    {
      FailPending(failure);
      outcomes := AnswerAll(outcomes, QueuedWaiters(commands), Failed(BrokenPipe, ReplyChannelClosed));
      running, commands := false, [];
    }

    method LeaveDisconnected(kind: ErrorKind, reason: Reason)
      requires WaitersOk(View()) && PendingOk(View())
      modifies `running, `commands, `pendingRequests, `outcomes, `eventChannel, `farewell
      ensures View() == Disconnect(old(View()), kind, reason)
    {
      ghost var before := View();
      if consumerOpen {
        eventChannel := eventChannel + [Disconnected(reason)];
        farewell := farewell + [Disconnected(reason)];
        SameWaiters(before, View());
      }
      Leave(Failed(kind, reason));
    }

    /** A request command: refuse a duplicate id, else register the waiter and write. */
    method HandleRequest(id: RequestId, waiter: Waiter, writeOk: bool)
      requires InHand(View(), waiter) && running
      modifies `running, `commands, `pendingRequests, `outcomes, `eventChannel, `farewell, `registered
      ensures View() == RequestStep(old(View()), id, waiter, writeOk)
    {
      ghost var before := View();
      if id in pendingRequests {
        outcomes := Answer(outcomes, waiter, Failed(InvalidInput, DuplicateId));
        return;
      }
      registered := registered[waiter := id];
      pendingRequests := pendingRequests[id := waiter];
      if !writeOk {
        pendingRequests := pendingRequests - {id};
        outcomes := Answer(outcomes, waiter, Failed(WriteError, WriteFailed));
        FailedWrite(before, waiter, id);
        assert View() == Undone(before, waiter, id);
        LeaveDisconnected(BrokenPipe, WriteFailed);
      }
    }

    /** What one command does once it is off the queue. */
    method Dispatch(next: Queued, writeOk: bool)
      requires InHand(View(), next.waiter) && running
      modifies `running, `commands, `pendingRequests, `outcomes, `eventChannel, `farewell, `registered
      ensures View() == CommandStep(old(View()), next, writeOk)
    {
      match next.command {
        case SendRequest(id) => HandleRequest(id, next.waiter, writeOk);
        case WriteMessage =>
          outcomes := Answer(outcomes, next.waiter, if writeOk then Written else Failed(WriteError, WriteFailed));
        case Shutdown =>
          var outcome := if writeOk then Written else Failed(WriteError, WriteFailed);
          AnswerHand(View(), next.waiter, outcome);
          outcomes := Answer(outcomes, next.waiter, outcome);
          Leave(CHANNEL_CLOSED);
      }
    }

    /** One command of the select loop. */
    method HandleCommand(writeOk: bool)
      requires Valid()
      modifies this
      ensures Valid() && View() == Next(old(View()), Execute(writeOk))
    {
      ghost var before := View();
      StepIsValid(before, Execute(writeOk));
      if running && commands != [] {
        PopKeeps(before);
        var next := commands[0];
        commands := commands[1..];
        Dispatch(next, writeOk);
      }
    }

    method Route(id: RequestId, outcome: Outcome)
      modifies `pendingRequests, `outcomes
      ensures View() == Reply(old(View()), id, outcome)
    {
      if id in pendingRequests {
        var waiter := pendingRequests[id];
        pendingRequests := pendingRequests - {id};
        outcomes := Answer(outcomes, waiter, outcome);
      }
    }

    method HandleMessage(message: Message, writeOk: bool)
      requires WaitersOk(View()) && PendingOk(View()) && running
      modifies `running, `commands, `pendingRequests, `outcomes, `eventChannel, `farewell, `rejected
      ensures View() == MessageStep(old(View()), message, writeOk)
    {
      match message {
        case Response(id, result) => Route(id, Answered(result));
        case ErrorReply(id, error) => Route(id, AnsweredError(error));
        case Notification(None) =>
        case Notification(Some(notification)) =>
          if consumerOpen {
            eventChannel := eventChannel + [ServerNotification(notification)];
          } else {
            Leave(CHANNEL_CLOSED);
          }
        case Request(id, Some(request)) =>
          if consumerOpen {
            eventChannel := eventChannel + [ServerRequest(id, request)];
          } else {
            Leave(CHANNEL_CLOSED);
          }
        case Request(id, None) =>
          if writeOk {
            rejected := rejected + [id];
          } else {
            LeaveDisconnected(BrokenPipe, WriteFailed);
          }
      }
    }

    /** What one frame does once it is read. */
    method HandleRead(input: Input)
      requires WaitersOk(View()) && PendingOk(View()) && running
      modifies `running, `commands, `pendingRequests, `outcomes, `eventChannel, `farewell, `rejected
      ensures View() == FrameStep(old(View()), input)
    {
      match input.frame {
        case Text(message) => HandleMessage(message, input.writeOk);
        case InvalidText => LeaveDisconnected(InvalidData, InvalidJsonRpc);
        case Closing(text) =>
          LeaveDisconnected(ConnectionAborted, ServerClosed(if text != "" then text else "connection closed"));
        case TransportError => LeaveDisconnected(InvalidData, TransportFailed);
        case EndOfStream => LeaveDisconnected(UnexpectedEof, ConnectionClosed);
        case OtherFrame =>
      }
    }

    /** One frame of the select loop. */
    method HandleFrame(input: Input)
      requires Valid()
      modifies this
      ensures Valid() && View() == Next(old(View()), Receive(input))
      ensures old(running) ==> (running <==> !FrameEnds(old(consumerOpen), input))
    {
      ghost var before := View();
      StepIsValid(before, Receive(input));
      if running {
        StopsExactly(before, Receive(input));
        wire := wire + [input];
        SameWaiters(before, View());
        HandleRead(input);
      }
    }

    /** The events set aside during the handshake come first; `None` means there is nothing to read yet
        or, once the worker has exited, ever. */
    method NextEvent() returns (event: Option<AppServerEvent>)
      requires Valid() && consumerOpen
      modifies `pendingEvents, `eventChannel, `yielded
      ensures Valid() && View() == Next(old(View()), RemoteWorker.NextEvent)
      ensures event == if old(pendingEvents) + old(eventChannel) == [] then None
                       else Some((old(pendingEvents) + old(eventChannel))[0])
    {
      ghost var before := View();
      StepIsValid(before, RemoteWorker.NextEvent);
      if pendingEvents != [] {
        event, pendingEvents := Some(pendingEvents[0]), pendingEvents[1..];
        yielded := yielded + [event.value];
      } else if eventChannel != [] {
        event, eventChannel := Some(eventChannel[0]), eventChannel[1..];
        yielded := yielded + [event.value];
      } else {
        event := None;
      }
    }
  }
}
