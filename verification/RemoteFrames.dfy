/**
 What each kind of frame does to a running remote worker, and what each kind of command that is not a
 request gets back. The laws name the frames, the errors and the events themselves.
 */
module RemoteFrames {
  import opened Options
  import opened RemoteWorker
  import opened RemoteAnswers

  /** Every pending waiter gets `failure`, every unread command finds its reply channel gone, and whoever was
      answered before keeps the answer. */
  predicate AllFailed(s: State, after: State, failure: Outcome) {
    && (forall id :: id in s.pending ==> Get(after.outcomes, s.pending[id]) == [failure])
    && (forall i :: 0 <= i < |s.commands| ==> Get(after.outcomes, s.commands[i].waiter) == [Failed(BrokenPipe, ReplyChannelClosed)])
    && (forall w :: w in s.outcomes ==> Get(after.outcomes, w) == s.outcomes[w])
  }

  /** The worker has stopped; a consumer that listens will read `farewell` after everything else. */
  predicate Stopped(s: State, after: State, farewell: seq<AppServerEvent>) {
    && !after.running && after.pending == map[] && after.commands == []
    && after.early == s.early && after.yielded == s.yielded && after.consumerOpen == s.consumerOpen
    && after.unread == s.unread + (if s.consumerOpen then farewell else [])
  }

  lemma ExitFails(s: State, failure: Outcome)
    requires WaitersOk(s) && PendingOk(s)
    ensures AllFailed(s, ExitWith(s, failure), failure) && Stopped(s, ExitWith(s, failure), [])
  {
    var after := ExitWith(s, failure);
    forall id | id in s.pending
      ensures Get(after.outcomes, s.pending[id]) == [failure]
    {
      NotQueued(s, id);
      ExitAnswers(s, failure, s.pending[id]);
    }
    forall i | 0 <= i < |s.commands|
      ensures Get(after.outcomes, s.commands[i].waiter) == [Failed(BrokenPipe, ReplyChannelClosed)]
    {
      assert IsQueued(s, s.commands[i].waiter);
      ExitAnswers(s, failure, s.commands[i].waiter);
    }
    forall w | w in s.outcomes
      ensures Get(after.outcomes, w) == s.outcomes[w]
    {
      ExitAnswers(s, failure, w);
    }
    assert s.unread + [] == s.unread;
  }

  lemma DisconnectFails(s: State, kind: ErrorKind, reason: Reason)
    requires WaitersOk(s) && PendingOk(s)
    ensures AllFailed(s, Disconnect(s, kind, reason), Failed(kind, reason))
    ensures Stopped(s, Disconnect(s, kind, reason), [Disconnected(reason)])
  {
    var told := Told(s, reason);
    ToldKeeps(s, reason, 0);
    ExitFails(told, Failed(kind, reason));
    assert told.unread + [] == told.unread;
    assert s.unread + [] == s.unread;
  }

  /** Kind by kind, the frames that end the connection, with what waiters and consumer are told. */
  predicate Fatal(frame: Frame, kind: ErrorKind, reason: Reason) {
    match frame
    case InvalidText => kind.InvalidData? && reason.InvalidJsonRpc?
    case Closing(text) => kind.ConnectionAborted? && reason == ServerClosed(if |text| > 0 then text else "connection closed")
    case TransportError => kind.InvalidData? && reason.TransportFailed?
    case EndOfStream => kind.UnexpectedEof? && reason.ConnectionClosed?
    case Text(_) => false
    case OtherFrame => false
  }

  /** At any point of any run: a frame that ends the connection stops a running worker, every pending waiter
      fails with that frame's error, and a listening consumer is told exactly that it is disconnected. */
  lemma ConnectionEnds(capacity: nat, wire: seq<Input>, before: seq<Action>, input: Input, kind: ErrorKind, reason: Reason)
    requires Run(Connected(capacity, wire), before).running && Fatal(input.frame, kind, reason)
    ensures
      var s := Run(Connected(capacity, wire), before);
      var after := Next(s, Receive(input));
      AllFailed(s, after, Failed(kind, reason)) && Stopped(s, after, [Disconnected(reason)])
  {
    RunBound(capacity, wire, before);
    var s := Run(Connected(capacity, wire), before);
    FatalDisconnects(s, input, kind, reason);
    assert Next(s, Receive(input)) == ReceiveStep(s, input);
  }

  lemma FatalDisconnects(s: State, input: Input, kind: ErrorKind, reason: Reason)
    requires WaitersOk(s) && PendingOk(s) && s.running && Fatal(input.frame, kind, reason)
    ensures
      var after := ReceiveStep(s, input);
      AllFailed(s, after, Failed(kind, reason)) && Stopped(s, after, [Disconnected(reason)])
  {
    var read := s.(wire := s.wire + [input]);
    SameWaiters(s, read);
    DisconnectFails(read, kind, reason);
    assert ReceiveStep(s, input) == Disconnect(read, kind, reason);
  }

  /** The frames and messages that mean nothing here: control frames, unknown notifications, and answers to
      requests nobody is waiting on. */
  predicate Meaningless(s: State, frame: Frame) {
    match frame
    case OtherFrame => true
    case Text(Notification(None)) => true
    case Text(Response(id, _)) => id !in s.pending
    case Text(ErrorReply(id, _)) => id !in s.pending
    case _ => false
  }

  /** Such a frame is read and changes nothing else. */
  lemma MeaninglessIsIgnored(s: State, input: Input)
    requires s.running && Meaningless(s, input.frame)
    ensures Next(s, Receive(input)) == s.(wire := s.wire + [input])
  {
  }

  /** A known notification or request reaches a listening consumer as it is; without a consumer the worker
      stops and every pending waiter learns that the channel is closed. */
  lemma EventIsDelivered(capacity: nat, wire: seq<Input>, before: seq<Action>, input: Input, event: AppServerEvent)
    requires Run(Connected(capacity, wire), before).running && input.frame.Text?
    requires
      || (event.ServerNotification? && input.frame.message == Notification(Some(event.notification)))
      || (event.ServerRequest? && input.frame.message == Request(event.id, Some(event.request)))
    ensures
      var s := Run(Connected(capacity, wire), before);
      var after := Next(s, Receive(input));
      if s.consumerOpen then after == s.(wire := s.wire + [input], unread := s.unread + [event])
      else AllFailed(s, after, Failed(BrokenPipe, WorkerChannelClosed)) && Stopped(s, after, [])
  {
    RunBound(capacity, wire, before);
    var s := Run(Connected(capacity, wire), before);
    var read := s.(wire := s.wire + [input]);
    if !s.consumerOpen {
      SameWaiters(s, read);
      ExitFails(read, Failed(BrokenPipe, WorkerChannelClosed));
      assert ReceiveStep(s, input) == ExitWith(read, Failed(BrokenPipe, WorkerChannelClosed));
    }
  }

  /** An unknown request is rejected under its own id; if that cannot be written the connection is over. */
  lemma UnknownIsRejected(capacity: nat, wire: seq<Input>, before: seq<Action>, id: RequestId, writeOk: bool)
    requires Run(Connected(capacity, wire), before).running
    ensures
      var s, input := Run(Connected(capacity, wire), before), Input(Text(Request(id, None)), writeOk);
      var after := Next(s, Receive(input));
      if writeOk then after == s.(wire := s.wire + [input], rejected := s.rejected + [id])
      else AllFailed(s, after, Failed(BrokenPipe, WriteFailed)) && Stopped(s, after, [Disconnected(WriteFailed)])
  {
    RunBound(capacity, wire, before);
    var s, input := Run(Connected(capacity, wire), before), Input(Text(Request(id, None)), writeOk);
    var read := s.(wire := s.wire + [input]);
    if !writeOk {
      SameWaiters(s, read);
      DisconnectFails(read, BrokenPipe, WriteFailed);
      assert ReceiveStep(s, input) == Disconnect(read, BrokenPipe, WriteFailed);
    }
  }

  // ---------------------------------------------------------------- commands that are not requests

  /** What a notification, an answer to a server request or a shutdown gets: whether its write succeeded, when
      its turn comes; its reply channel is gone if the worker ends before. */
  function Receipt(s: State, w: Waiter, actions: seq<Action>): Option<Outcome>
    decreases actions
  {
    if actions == [] then None
    else
      var action := actions[0];
      if Its(s, w, action) then Some(if action.writeOk then Written else Failed(WriteError, WriteFailed))
      else if Ends(s, action) then Some(Failed(BrokenPipe, ReplyChannelClosed))
      else Receipt(Next(s, action), w, actions[1..])
  }

  lemma ReceiptComes(s: State, w: Waiter, command: Command, writeOk: bool)
    requires WaitersOk(s) && PendingOk(s) && s.running && s.commands != [] && s.commands[0] == Queued(command, w)
    requires !command.SendRequest?
    ensures Get(ExecuteStep(s, writeOk).outcomes, w) == [if writeOk then Written else Failed(WriteError, WriteFailed)]
  {
    QueuedIsQueued(s, w, command);
    PopKeeps(s);
    if command.Shutdown? {
      var rest, outcome := s.(commands := s.commands[1..]), if writeOk then Written else Failed(WriteError, WriteFailed);
      AnswerHand(rest, w, outcome);
      ExitAnswers(rest.(outcomes := Answer(s.outcomes, w, outcome)), Failed(BrokenPipe, WorkerChannelClosed), w);
    }
  }

  lemma {:induction false} QueuedGetsReceipt(s: State, w: Waiter, command: Command, actions: seq<Action>)
    requires WaitersOk(s) && PendingOk(s) && s.running && QueuedAs(s, w, command) && !command.SendRequest?
    ensures Get(Run(s, actions).outcomes, w) == Given(Receipt(s, w, actions))
    decreases actions
  {
    QueuedIsQueued(s, w, command);
    if actions != [] {
      var action, rest, after := actions[0], actions[1..], Next(s, actions[0]);
      WaitersPreserved(s, action);
      StopsExactly(s, action);
      if Its(s, w, action) {
        OwnCommand(s, w, command, action);
        ReceiptComes(s, w, command, action.writeOk);
        OutcomeIsFinal(after, w, rest);
      } else {
        WaitsStep(s, action, w, command);
        if after.running {
          QueuedGetsReceipt(after, w, command, rest);
        } else {
          OutcomeIsFinal(after, w, rest);
        }
      }
    }
  }

  /** A command that is not a request, submitted at any point of any run to a running worker with room, gets
      exactly its receipt. */
  lemma CommandGetsReceipt(capacity: nat, wire: seq<Input>, before: seq<Action>, command: Command, rest: seq<Action>)
    requires !command.SendRequest?
    ensures
      var s := Run(Connected(capacity, wire), before);
      var w, submitted := s.waiters, Next(s, Submit(command));
      s.running && |s.commands| < s.capacity ==> Get(Run(submitted, rest).outcomes, w) == Given(Receipt(submitted, w, rest))
  {
    RunBound(capacity, wire, before);
    var s := Run(Connected(capacity, wire), before);
    var w, submitted := s.waiters, Next(s, Submit(command));
    WaitersPreserved(s, Submit(command));
    if s.running && |s.commands| < s.capacity {
      assert submitted.commands[|s.commands|] == Queued(command, w);
      QueuedGetsReceipt(submitted, w, command, rest);
    }
  }
}
