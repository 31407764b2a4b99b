/** What `next_event` yields, against the frames on the wire. */
module RemoteStream {
  import opened Options
  import opened RemoteWorker

  /** The frame an action makes a running worker read. */
  function ReadOne(s: State, action: Action): seq<Input> {
    if action.Receive? && s.running then [action.input] else []
  }

  /** The frames the worker reads in a run: those that arrive while it is running. */
  function Read(s: State, actions: seq<Action>): seq<Input>
    decreases actions
  {
    if actions == [] then [] else ReadOne(s, actions[0]) + Read(Next(s, actions[0]), actions[1..])
  }

  lemma WireStep(s: State, action: Action)
    ensures Next(s, action).wire == s.wire + ReadOne(s, action)
  {
    assert s.wire + [] == s.wire;
    match action {
      case Receive(input) => ReceiveWire(s, input);
      case Execute(writeOk) => ExecuteWire(s, writeOk);
      case _ =>
    }
  }

  lemma ReceiveWire(s: State, input: Input)
    ensures ReceiveStep(s, input).wire == if s.running then s.wire + [input] else s.wire
  {
    if input.frame.Text? {
      MessageWire(s.(wire := s.wire + [input]), input.frame.message, input.writeOk);
    }
  }

  lemma MessageWire(s: State, message: Message, writeOk: bool)
    ensures MessageStep(s, message, writeOk).wire == s.wire
  {
  }

  lemma ExecuteWire(s: State, writeOk: bool)
    ensures ExecuteStep(s, writeOk).wire == s.wire
  {
  }

  lemma Associative<T>(a: seq<T>, b: seq<T>, c: seq<T>)
    ensures (a + b) + c == a + (b + c)
  {
  }

  lemma {:induction false} WireIsRead(s: State, actions: seq<Action>)
    ensures Run(s, actions).wire == s.wire + Read(s, actions)
    decreases actions
  {
    if actions == [] {
      assert s.wire + [] == s.wire;
    } else {
      WireStep(s, actions[0]);
      WireIsRead(Next(s, actions[0]), actions[1..]);
      Associative(s.wire, ReadOne(s, actions[0]), Read(Next(s, actions[0]), actions[1..]));
    }
  }

  /** No event decoded from the wire is a `Disconnected`, so the farewell is the only one and the last. */
  lemma {:induction false} DecodedAreNotFarewells(wire: seq<Input>)
    ensures forall i :: 0 <= i < |DecodeEvents(wire)| ==> !DecodeEvents(wire)[i].Disconnected?
  {
    if wire != [] {
      DecodedAreNotFarewells(wire[..|wire| - 1]);
    }
  }

  // ---------------------------------------------------------------- what has been yielded

  /** What was yielded stays a prefix of what the wire carries, also when the consumer has gone. */
  predicate YieldedOk(s: State) {
    s.yielded <= DecodeEvents(s.wire) + s.farewell
  }

  /** A step that a consumer who has gone cannot see. */
  predicate Unseen(s: State, after: State) {
    after.yielded == s.yielded && after.farewell == s.farewell && !after.consumerOpen
  }

  lemma UnseenStep(s: State, action: Action)
    requires !s.consumerOpen
    ensures Unseen(s, Next(s, action))
  {
    match action {
      case Receive(input) => UnseenReceive(s, input);
      case Execute(writeOk) => UnseenExecute(s, writeOk);
      case _ =>
    }
  }

  lemma UnseenReceive(s: State, input: Input)
    requires !s.consumerOpen
    ensures Unseen(s, ReceiveStep(s, input))
  {
    if input.frame.Text? {
      UnseenMessage(s.(wire := s.wire + [input]), input.frame.message, input.writeOk);
    }
  }

  lemma UnseenMessage(s: State, message: Message, writeOk: bool)
    requires !s.consumerOpen
    ensures Unseen(s, MessageStep(s, message, writeOk))
  {
  }

  lemma UnseenExecute(s: State, writeOk: bool)
    requires !s.consumerOpen
    ensures Unseen(s, ExecuteStep(s, writeOk))
  {
  }

  lemma OpenYield(s: State)
    requires StreamOk(s) && s.consumerOpen
    ensures YieldedOk(s)
  {
    assert s.yielded + s.early + s.unread == s.yielded + (s.early + s.unread);
  }

  lemma ClosedYield(s: State, after: State, action: Action)
    requires StreamOk(s) && YieldedOk(s) && Unseen(s, after)
    requires after.wire == s.wire + ReadOne(s, action)
    ensures YieldedOk(after)
  {
    if ReadOne(s, action) == [] {
      assert s.wire + [] == s.wire;
    } else {
      WireSnoc(s.wire, action.input);
    }
  }

  lemma YieldedStep(s: State, action: Action)
    requires StreamOk(s) && YieldedOk(s)
    ensures YieldedOk(Next(s, action))
  {
    if s.consumerOpen {
      if action.DropConsumer? {
        assert YieldedOk(s.(consumerOpen := false));
      } else {
        StreamPreserved(s, action);
        StaysOpen(s, action);
        OpenYield(Next(s, action));
      }
    } else {
      UnseenStep(s, action);
      WireStep(s, action);
      ClosedYield(s, Next(s, action), action);
    }
  }

  /** Only the consumer drops the stream. */
  lemma StaysOpen(s: State, action: Action)
    requires !action.DropConsumer?
    ensures Next(s, action).consumerOpen == s.consumerOpen
  {
    match action {
      case Receive(input) => ReceiveOpen(s, input);
      case _ =>
    }
  }

  lemma ReceiveOpen(s: State, input: Input)
    ensures ReceiveStep(s, input).consumerOpen == s.consumerOpen
  {
    if input.frame.Text? {
      MessageOpen(s.(wire := s.wire + [input]), input.frame.message, input.writeOk);
    }
  }

  lemma MessageOpen(s: State, message: Message, writeOk: bool)
    ensures MessageStep(s, message, writeOk).consumerOpen == s.consumerOpen
  {
  }

  lemma {:induction false} YieldedRun(s: State, actions: seq<Action>)
    requires StreamOk(s) && YieldedOk(s)
    ensures YieldedOk(Run(s, actions))
    decreases actions
  {
    if actions != [] {
      StreamPreserved(s, actions[0]);
      YieldedStep(s, actions[0]);
      YieldedRun(Next(s, actions[0]), actions[1..]);
    }
  }

  /** Event stream shape: in every run, what `next_event` has yielded is a prefix of the decodable
      notifications and known requests of the frames read, the handshake's first and in wire order, then at
      most one `Disconnected`, and that only once the worker has stopped. While the consumer listens, what
      it has not yet read completes the sequence. Unknown requests are rejected in wire order, each once. */
  lemma EventStreamShape(capacity: nat, wire: seq<Input>, actions: seq<Action>)
    ensures
      var start := Connected(capacity, wire);
      var s, all := Run(start, actions), DecodeEvents(wire + Read(start, actions));
      && |s.farewell| <= 1 && (forall i :: 0 <= i < |s.farewell| ==> s.farewell[i].Disconnected?)
      && (s.farewell != [] ==> !s.running)
      && s.yielded <= all + s.farewell
      && (s.consumerOpen ==> s.yielded + s.early + s.unread == all + s.farewell)
      && s.rejected == RejectionsDue(wire + Read(start, actions))
  {
    var start := Connected(capacity, wire);
    ConnectedOk(capacity, wire);
    RunPreserves(start, actions);
    WireIsRead(start, actions);
    YieldedRun(start, actions);
  }
}
