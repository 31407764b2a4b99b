/**
 What becomes of the commands callers submit to the remote worker. `Submitted` numbers the accepted
 commands of a run in order; the number is the waiter, and the results speak of the command's own id.
 */
module RemoteAnswers {
  import opened Options
  import opened RemoteWorker

  /** A command is accepted when the queue has room; a stopped worker answers it at once. */
  predicate Accepts(s: State, action: Action) {
    action.Submit? && (!s.running || |s.commands| < s.capacity)
  }

  /** The accepted commands of a run, in order. */
  function Submitted(s: State, actions: seq<Action>): seq<Command>
    decreases actions
  {
    if actions == [] then []
    else (if Accepts(s, actions[0]) then [actions[0].command] else []) + Submitted(Next(s, actions[0]), actions[1..])
  }

  // ---------------------------------------------------------------- waiters carry their own commands

  /** Queued waiters carry the command they were accepted with, registered ones its own id. */
  predicate Bound(s: State, log: seq<Command>) {
    && |log| == s.waiters
    && QueueBound(s.commands, log)
    && (forall w :: w in s.registered ==> w < |log| && log[w] == SendRequest(s.registered[w]))
  }

  predicate QueueBound(commands: seq<Queued>, log: seq<Command>) {
    forall i :: 0 <= i < |commands| ==> commands[i].waiter < |log| && log[commands[i].waiter] == commands[i].command
  }

  /** A step that accepts nothing and registers nothing. */
  predicate Quiet(s: State, after: State) {
    after.waiters == s.waiters && after.registered == s.registered && (after.commands == s.commands || after.commands == [])
  }

  lemma ReceiveQuiet(s: State, input: Input)
    ensures Quiet(s, ReceiveStep(s, input))
  {
    if input.frame.Text? {
      MessageQuiet(s.(wire := s.wire + [input]), input.frame.message, input.writeOk);
    }
  }

  lemma MessageQuiet(s: State, message: Message, writeOk: bool)
    ensures Quiet(s, MessageStep(s, message, writeOk))
  {
  }

  lemma RequestBound(s: State, id: RequestId, w: Waiter, writeOk: bool, log: seq<Command>)
    requires Bound(s, log) && w < |log| && log[w] == SendRequest(id)
    ensures Bound(RequestStep(s, id, w, writeOk), log)
  {
  }

  lemma ExecuteBound(s: State, writeOk: bool, log: seq<Command>)
    requires Bound(s, log)
    ensures Bound(ExecuteStep(s, writeOk), log)
  {
    if s.running && s.commands != [] {
      var next, rest := s.commands[0], s.(commands := s.commands[1..]);
      assert QueueBound(rest.commands, log);
      if next.command.SendRequest? {
        RequestBound(rest, next.command.id, next.waiter, writeOk, log);
      }
    }
  }

  lemma BoundStep(s: State, action: Action, log: seq<Command>)
    requires Bound(s, log)
    ensures Bound(Next(s, action), log + (if Accepts(s, action) then [action.command] else []))
  {
    match action {
      case Submit(command) => SubmitBound(s, command, log);
      case Execute(writeOk) => ExecuteBound(s, writeOk, log);
      case Receive(input) => ReceiveQuiet(s, input);
      case _ => assert Quiet(s, Next(s, action));
    }
    assert log + [] == log;
  }

  lemma SubmitBound(s: State, command: Command, log: seq<Command>)
    requires Bound(s, log)
    ensures Bound(SubmitStep(s, command), log + (if Accepts(s, Submit(command)) then [command] else []))
  {
    assert log + [] == log;
  }

  lemma {:induction false} BoundRun(s: State, actions: seq<Action>, log: seq<Command>)
    requires Bound(s, log)
    ensures Bound(Run(s, actions), log + Submitted(s, actions))
    decreases actions
  {
    if actions == [] {
      assert log + [] == log;
    } else {
      var accepted := if Accepts(s, actions[0]) then [actions[0].command] else [];
      BoundStep(s, actions[0], log);
      BoundRun(Next(s, actions[0]), actions[1..], log + accepted);
      assert log + (accepted + Submitted(Next(s, actions[0]), actions[1..])) ==
             log + accepted + Submitted(Next(s, actions[0]), actions[1..]);
    }
  }

  lemma RunBound(capacity: nat, wire: seq<Input>, actions: seq<Action>)
    ensures
      var start := Connected(capacity, wire);
      Inv(Run(start, actions)) && Bound(Run(start, actions), Submitted(start, actions))
  {
    var start := Connected(capacity, wire);
    ConnectedOk(capacity, wire);
    RunPreserves(start, actions);
    BoundRun(start, actions, []);
    assert [] + Submitted(start, actions) == Submitted(start, actions);
  }

  /** Exactly-once answers: in every run no accepted command is answered twice, and once the worker has
      stopped each has exactly one outcome. Queued commands are the submitted ones. The pending map holds
      precisely the ids of the submitted requests that have left the queue and have no outcome, each under
      its own waiter; any other command that has left the queue has its outcome. */
  lemma ExactlyOnce(capacity: nat, wire: seq<Input>, actions: seq<Action>)
    ensures
      var s, commands := Run(Connected(capacity, wire), actions), Submitted(Connected(capacity, wire), actions);
      && (forall w :: 0 <= w < |commands| ==> |Get(s.outcomes, w)| <= 1)
      && (!s.running ==> forall w :: 0 <= w < |commands| ==> |Get(s.outcomes, w)| == 1)
      && QueueBound(s.commands, commands)
      && (forall id, w :: (id in s.pending && s.pending[id] == w)
                     <==> (0 <= w < |commands| && commands[w] == SendRequest(id) && !IsQueued(s, w) && Get(s.outcomes, w) == []))
      && (forall w :: 0 <= w < |commands| && !commands[w].SendRequest? && !IsQueued(s, w) ==> |Get(s.outcomes, w)| == 1)
  {
    RunBound(capacity, wire, actions);
    var s, commands := Run(Connected(capacity, wire), actions), Submitted(Connected(capacity, wire), actions);
    forall w | 0 <= w < |commands|
      ensures |Get(s.outcomes, w)| <= 1
      ensures !s.running ==> |Get(s.outcomes, w)| == 1
      ensures !commands[w].SendRequest? && !IsQueued(s, w) ==> |Get(s.outcomes, w)| == 1
    {
      WaiterCounted(s, commands, w);
    }
    forall id, w
      ensures (id in s.pending && s.pending[id] == w)
         <==> (0 <= w < |commands| && commands[w] == SendRequest(id) && !IsQueued(s, w) && Get(s.outcomes, w) == [])
    {
      if 0 <= w {
        PendingIsOwn(s, commands, id, w);
      }
    }
  }

  lemma WaiterCounted(s: State, commands: seq<Command>, w: Waiter)
    requires Inv(s) && Bound(s, commands) && w < |commands|
    ensures |Get(s.outcomes, w)| <= 1 && (!s.running ==> |Get(s.outcomes, w)| == 1)
    ensures !commands[w].SendRequest? && !IsQueued(s, w) ==> |Get(s.outcomes, w)| == 1
  {
    assert w in s.outcomes || IsQueued(s, w) || IsPending(s, w);
    WhoWaits(s, w);
  }

  lemma PendingIsOwn(s: State, commands: seq<Command>, id: RequestId, w: Waiter)
    requires Inv(s) && Bound(s, commands)
    ensures (id in s.pending && s.pending[id] == w)
       <==> (w < |commands| && commands[w] == SendRequest(id) && !IsQueued(s, w) && Get(s.outcomes, w) == [])
  {
    if id in s.pending && s.pending[id] == w {
      NotQueued(s, id);
    }
    if w < |commands| && commands[w] == SendRequest(id) && !IsQueued(s, w) && Get(s.outcomes, w) == [] {
      NowhereElse(s, w);
      var other :| other in s.pending && s.pending[other] == w;
      assert commands[w] == SendRequest(other);
    }
  }

  lemma NowhereElse(s: State, w: Waiter)
    requires WaitersOk(s) && w < s.waiters && !IsQueued(s, w) && Get(s.outcomes, w) == []
    ensures IsPending(s, w)
  {
    assert w in s.outcomes || IsQueued(s, w) || IsPending(s, w);
  }

  // ---------------------------------------------------------------- one request, from submission to outcome

  predicate QueuedAs(s: State, w: Waiter, command: Command) {
    exists i :: 0 <= i < |s.commands| && s.commands[i] == Queued(command, w)
  }

  /** The command of `w` is the next one `action` executes. */
  predicate Its(s: State, w: Waiter, action: Action) {
    action.Execute? && s.commands != [] && s.commands[0].waiter == w
  }

  const NEVER_READ := Failed(BrokenPipe, ReplyChannelClosed)

  /** What a queued request with id `id` gets: when its turn comes a duplicate is refused and a failed
      write reported, otherwise it is registered and gets the first response or error that carries its id,
      or the error of the worker's end; if the worker ends before its turn, its reply channel is gone. */
  function Sentence(s: State, w: Waiter, id: RequestId, actions: seq<Action>): Option<Outcome>
    decreases actions
  {
    if actions == [] then None
    else
      var action, rest := actions[0], actions[1..];
      if Its(s, w, action) then
        if id in s.pending then Some(Failed(InvalidInput, DuplicateId))
        else if !action.writeOk then Some(Failed(WriteError, WriteFailed))
        else FirstRuling(Next(s, action), id, rest)
      else if Ends(s, action) then Some(NEVER_READ)
      else Sentence(Next(s, action), w, id, rest)
  }

  function Given(outcome: Option<Outcome>): seq<Outcome> {
    if outcome.Some? then [outcome.value] else []
  }

  lemma QueuedIsQueued(s: State, w: Waiter, command: Command)
    requires WaitersOk(s) && QueuedAs(s, w, command)
    ensures IsQueued(s, w) && w < s.waiters && w !in s.outcomes && w !in s.registered
  {
    var i :| 0 <= i < |s.commands| && s.commands[i] == Queued(command, w);
    assert s.commands[i].waiter == w;
  }

  /** A waiter still queued when the worker ends finds its reply channel gone. */
  lemma ExitUnread(s: State, failure: Outcome, w: Waiter, command: Command)
    requires WaitersOk(s) && PendingOk(s) && QueuedAs(s, w, command)
    ensures Get(ExitWith(s, failure).outcomes, w) == [NEVER_READ]
  {
    QueuedIsQueued(s, w, command);
    ExitAnswers(s, failure, w);
  }

  lemma DisconnectUnread(s: State, kind: ErrorKind, reason: Reason, w: Waiter, command: Command)
    requires WaitersOk(s) && PendingOk(s) && QueuedAs(s, w, command)
    ensures Get(Disconnect(s, kind, reason).outcomes, w) == [NEVER_READ]
  {
    QueuedIsQueued(s, w, command);
    DisconnectAnswers(s, kind, reason, w);
  }

  /** A step that is not its own leaves a queued command queued, or ends the worker unread. */
  predicate Waits(after: State, w: Waiter, command: Command) {
    if after.running then QueuedAs(after, w, command) else Get(after.outcomes, w) == [NEVER_READ]
  }

  lemma WaitsMessage(s: State, message: Message, writeOk: bool, w: Waiter, command: Command)
    requires WaitersOk(s) && PendingOk(s) && s.running && QueuedAs(s, w, command)
    ensures Waits(MessageStep(s, message, writeOk), w, command)
  {
    if EventOf(Text(message)).Some? && !s.consumerOpen {
      ExitUnread(s, CHANNEL_CLOSED, w, command);
    } else if IsUnknownRequest(Text(message)) && !writeOk {
      DisconnectUnread(s, BrokenPipe, WriteFailed, w, command);
    } else {
      assert MessageStep(s, message, writeOk).commands == s.commands;
    }
  }

  lemma WaitsReceive(s: State, input: Input, w: Waiter, command: Command)
    requires WaitersOk(s) && PendingOk(s) && s.running && QueuedAs(s, w, command)
    ensures Waits(ReceiveStep(s, input), w, command)
  {
    var read := s.(wire := s.wire + [input]);
    SameWaiters(s, read);
    assert read.commands == s.commands;
    var fatal := FatalFrame(input.frame);
    if fatal.Some? {
      DisconnectUnread(read, fatal.value.kind, fatal.value.reason, w, command);
    } else if input.frame.Text? {
      WaitsMessage(read, input.frame.message, input.writeOk, w, command);
    }
  }

  lemma WaitsRequest(s: State, id: RequestId, hand: Waiter, writeOk: bool, w: Waiter, command: Command)
    requires InHand(s, hand) && s.running && QueuedAs(s, w, command)
    ensures Waits(RequestStep(s, id, hand, writeOk), w, command)
  {
    var after := RequestStep(s, id, hand, writeOk);
    if id !in s.pending && !writeOk {
      var outcome := Failed(WriteError, WriteFailed);
      AnswerHand(s, hand, outcome);
      var answered := s.(outcomes := Answer(s.outcomes, hand, outcome));
      NoteAnswered(answered, hand, id);
      var noted := answered.(registered := s.registered[hand := id]);
      assert noted.commands == s.commands;
      DisconnectUnread(noted, BrokenPipe, WriteFailed, w, command);
    } else {
      assert after.commands == s.commands;
    }
  }

  lemma WaitsCommand(s: State, next: Queued, writeOk: bool, w: Waiter, command: Command)
    requires InHand(s, next.waiter) && s.running && QueuedAs(s, w, command)
    ensures Waits(CommandStep(s, next, writeOk), w, command)
  {
    match next.command {
      case SendRequest(id) => WaitsRequest(s, id, next.waiter, writeOk, w, command);
      case WriteMessage => assert CommandStep(s, next, writeOk).commands == s.commands;
      case Shutdown =>
        var outcome := if writeOk then Written else Failed(WriteError, WriteFailed);
        AnswerHand(s, next.waiter, outcome);
        var answered := s.(outcomes := Answer(s.outcomes, next.waiter, outcome));
        assert answered.commands == s.commands;
        ExitUnread(answered, CHANNEL_CLOSED, w, command);
    }
  }

  lemma StaysBehind(s: State, w: Waiter, command: Command)
    requires s.commands != [] && QueuedAs(s, w, command) && s.commands[0].waiter != w
    ensures QueuedAs(s.(commands := s.commands[1..]), w, command)
  {
    var rest := s.(commands := s.commands[1..]);
    var i :| 0 <= i < |s.commands| && s.commands[i] == Queued(command, w);
    assert rest.commands[i - 1] == Queued(command, w);
  }

  lemma WaitsExecute(s: State, writeOk: bool, w: Waiter, command: Command)
    requires WaitersOk(s) && PendingOk(s) && s.running && QueuedAs(s, w, command) && !Its(s, w, Execute(writeOk))
    ensures Waits(ExecuteStep(s, writeOk), w, command)
  {
    PopKeeps(s);
    StaysBehind(s, w, command);
    WaitsCommand(s.(commands := s.commands[1..]), s.commands[0], writeOk, w, command);
  }

  lemma WaitsStep(s: State, action: Action, w: Waiter, command: Command)
    requires WaitersOk(s) && PendingOk(s) && s.running && QueuedAs(s, w, command) && !Its(s, w, action)
    ensures Waits(Next(s, action), w, command)
  {
    match action {
      case Execute(writeOk) => WaitsExecute(s, writeOk, w, command);
      case Receive(input) => WaitsReceive(s, input, w, command);
      case AbortWorker => ExitUnread(s, NEVER_READ, w, command);
      case Submit(other) =>
        var i :| 0 <= i < |s.commands| && s.commands[i] == Queued(command, w);
        assert SubmitStep(s, other).commands[i] == s.commands[i];
      case _ => assert Next(s, action).commands == s.commands;
    }
  }

  /** Its turn: refused, reported or registered under its own id. */
  lemma TurnComes(s: State, w: Waiter, id: RequestId, writeOk: bool)
    requires WaitersOk(s) && PendingOk(s) && s.running && s.commands != [] && s.commands[0] == Queued(SendRequest(id), w)
    ensures
      var after := ExecuteStep(s, writeOk);
      if id in s.pending then Get(after.outcomes, w) == [Failed(InvalidInput, DuplicateId)]
      else if !writeOk then Get(after.outcomes, w) == [Failed(WriteError, WriteFailed)]
      else after.running && id in after.pending && after.pending[id] == w
  {
    QueuedIsQueued(s, w, SendRequest(id));
    PopKeeps(s);
    var rest := s.(commands := s.commands[1..]);
    if id !in s.pending && !writeOk {
      var outcome := Failed(WriteError, WriteFailed);
      AnswerHand(rest, w, outcome);
      var answered := rest.(outcomes := Answer(s.outcomes, w, outcome));
      NoteAnswered(answered, w, id);
      DisconnectAnswers(answered.(registered := s.registered[w := id]), BrokenPipe, WriteFailed, w);
    }
  }

  lemma OwnCommand(s: State, w: Waiter, command: Command, action: Action)
    requires WaitersOk(s) && QueuedAs(s, w, command) && Its(s, w, action)
    ensures s.commands[0] == Queued(command, w)
  {
    var i :| 0 <= i < |s.commands| && s.commands[i] == Queued(command, w);
    assert s.commands[0].waiter == s.commands[i].waiter;
  }

  /** From the queue on, a request gets exactly its sentence. */
  lemma {:induction false} QueuedIsAnswered(s: State, w: Waiter, id: RequestId, actions: seq<Action>)
    requires WaitersOk(s) && PendingOk(s) && s.running && QueuedAs(s, w, SendRequest(id))
    ensures Get(Run(s, actions).outcomes, w) == Given(Sentence(s, w, id, actions))
    decreases actions
  {
    QueuedIsQueued(s, w, SendRequest(id));
    if actions != [] {
      var action, rest, after := actions[0], actions[1..], Next(s, actions[0]);
      WaitersPreserved(s, action);
      StopsExactly(s, action);
      if Its(s, w, action) {
        OwnCommand(s, w, SendRequest(id), action);
        TurnComes(s, w, id, action.writeOk);
        if id in s.pending || !action.writeOk {
          OutcomeIsFinal(after, w, rest);
        } else {
          RoutedToFirstAnswer(after, id, rest);
        }
      } else {
        WaitsStep(s, action, w, SendRequest(id));
        if after.running {
          QueuedIsAnswered(after, w, id, rest);
        } else {
          OutcomeIsFinal(after, w, rest);
        }
      }
    }
  }

  /** The life of a request, in any run: submitted to a running worker with room, it becomes the next
      waiter, and whatever happens then that waiter gets exactly the request's sentence, once; submitted to
      a stopped worker, it gets the error of a closed channel. */
  lemma RequestIsAnswered(capacity: nat, wire: seq<Input>, before: seq<Action>, id: RequestId, rest: seq<Action>)
    ensures
      var s := Run(Connected(capacity, wire), before);
      var w, submitted := s.waiters, Next(s, Submit(SendRequest(id)));
      var after := Run(submitted, rest);
      && w == |Submitted(Connected(capacity, wire), before)|
      && (s.running && |s.commands| < s.capacity ==> Get(after.outcomes, w) == Given(Sentence(submitted, w, id, rest)))
      && (!s.running ==> Get(after.outcomes, w) == [CHANNEL_CLOSED])
  {
    RunBound(capacity, wire, before);
    var s := Run(Connected(capacity, wire), before);
    var w, submitted := s.waiters, Next(s, Submit(SendRequest(id)));
    WaitersPreserved(s, Submit(SendRequest(id)));
    if s.running && |s.commands| < s.capacity {
      assert submitted.commands[|s.commands|] == Queued(SendRequest(id), w);
      QueuedIsAnswered(submitted, w, id, rest);
    } else if !s.running {
      OutcomeIsFinal(submitted, w, rest);
    }
  }

  /** A duplicate id is refused without harm: at any point of any run, if the next command is a request
      whose id is pending, its outcome is the duplicate error for good, and the waiter that holds the id
      still gets exactly the first ruling of what follows, as if the duplicate had not been there. */
  lemma DuplicateIsRefused(capacity: nat, wire: seq<Input>, before: seq<Action>, id: RequestId, writeOk: bool, rest: seq<Action>)
    requires
      var s := Run(Connected(capacity, wire), before);
      s.running && s.commands != [] && s.commands[0].command == SendRequest(id) && id in s.pending
    ensures
      var s, commands := Run(Connected(capacity, wire), before), Submitted(Connected(capacity, wire), before);
      var refused, holder := s.commands[0].waiter, s.pending[id];
      var next := Next(s, Execute(writeOk));
      var after := Run(next, rest);
      && refused != holder && refused < |commands| && holder < |commands|
      && commands[refused] == SendRequest(id) && commands[holder] == SendRequest(id)
      && Get(after.outcomes, refused) == [Failed(InvalidInput, DuplicateId)]
      && Get(after.outcomes, holder) == Given(FirstRuling(next, id, rest))
  {
    RunBound(capacity, wire, before);
    var s, commands := Run(Connected(capacity, wire), before), Submitted(Connected(capacity, wire), before);
    var refused, holder, next := s.commands[0].waiter, s.pending[id], Next(s, Execute(writeOk));
    NotQueued(s, id);
    assert IsQueued(s, refused);
    assert s.registered[holder] == id;
    TurnComes(s, refused, id, writeOk);
    WaitersPreserved(s, Execute(writeOk));
    OutcomeIsFinal(next, refused, rest);
    RulingIsOutcome(s, id, Execute(writeOk));
    StopsExactly(s, Execute(writeOk));
    RoutedToFirstAnswer(next, id, rest);
  }
}
