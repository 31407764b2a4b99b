/**
 The remote JSON-RPC worker (motyga-rs/app-server-client/src/remote.rs).

 `Next` is one iteration of the worker's select loop or one move of its surroundings: a caller
 submits a command, the worker executes one or reads one frame, the consumer reads or drops the
 event stream, the worker is aborted. Whether a socket write succeeds and how a text frame
 decodes are part of the action. Responses are matched to requests by id, as section 5 of the
 JSON-RPC 2.0 Specification requires.
 */
module RemoteWorker {
  import opened Options

  datatype RequestId = StringId(text: string) | IntegerId(number: int)

  /** The oneshot sender a caller waits on; numbered in the order commands are accepted. */
  type Waiter = nat

  datatype AppServerEvent =
    | ServerNotification(notification: string)
    | ServerRequest(id: RequestId, request: string)
    | Disconnected(reason: Reason)

  /** `decoded` is `None` when the notification or request is unknown to this client. */
  datatype Message =
    | Response(id: RequestId, result: string)
    | ErrorReply(id: RequestId, error: string)
    | Notification(decoded: Option<string>)
    | Request(id: RequestId, decoded: Option<string>)

  datatype Frame = Text(message: Message) | InvalidText | Closing(reason: string) | OtherFrame | TransportError | EndOfStream

  /** A frame, and whether the write it may cause succeeds. */
  datatype Input = Input(frame: Frame, writeOk: bool)

  datatype ErrorKind = InvalidInput | BrokenPipe | InvalidData | ConnectionAborted | UnexpectedEof | WriteError

  datatype Reason =
    | DuplicateId | WriteFailed | InvalidJsonRpc | ServerClosed(text: string) | TransportFailed
    | ConnectionClosed | WorkerChannelClosed | ReplyChannelClosed

  datatype Outcome =
    | Answered(result: string)
    | AnsweredError(error: string)
    | Written
    | Failed(kind: ErrorKind, reason: Reason)

  datatype Command = SendRequest(id: RequestId) | WriteMessage | Shutdown

  datatype Queued = Queued(command: Command, waiter: Waiter)

  datatype State = State(
    running: bool,
    capacity: nat,
    commands: seq<Queued>,
    pending: map<RequestId, Waiter>,
    consumerOpen: bool,
    early: seq<AppServerEvent>,
    unread: seq<AppServerEvent>,
    // history
    waiters: nat,
    registered: map<Waiter, RequestId>,
    outcomes: map<Waiter, seq<Outcome>>,
    wire: seq<Input>,
    rejected: seq<RequestId>,
    yielded: seq<AppServerEvent>,
    farewell: seq<AppServerEvent>)

  datatype Action =
    | Submit(command: Command)
    | Execute(writeOk: bool)
    | CommandsClosed
    | Receive(input: Input)
    | NextEvent
    | DropConsumer
    | AbortWorker

  // ---------------------------------------------------------------- decoding the wire

  function EventOf(frame: Frame): Option<AppServerEvent> {
    match frame
    case Text(Notification(Some(notification))) => Some(ServerNotification(notification))
    case Text(Request(id, Some(request))) => Some(ServerRequest(id, request))
    case _ => None
  }

  /** The decodable notifications and known server requests, in wire order. */
  function DecodeEvents(wire: seq<Input>): seq<AppServerEvent> {
    if wire == [] then []
    else
      var event := EventOf(wire[|wire| - 1].frame);
      DecodeEvents(wire[..|wire| - 1]) + (if event.Some? then [event.value] else [])
  }

  predicate IsUnknownRequest(frame: Frame) {
    frame.Text? && frame.message.Request? && frame.message.decoded.None?
  }

  /** The ids of unknown server requests whose rejection (code -32601) could be written. */
  function RejectionsDue(wire: seq<Input>): seq<RequestId> {
    if wire == [] then []
    else
      var last := wire[|wire| - 1];
      RejectionsDue(wire[..|wire| - 1])
      + (if IsUnknownRequest(last.frame) && last.writeOk then [last.frame.message.id] else [])
  }

  // ---------------------------------------------------------------- answering

  function Get(outcomes: map<Waiter, seq<Outcome>>, w: Waiter): seq<Outcome> {
    if w in outcomes then outcomes[w] else []
  }

  function Answer(outcomes: map<Waiter, seq<Outcome>>, w: Waiter, outcome: Outcome): map<Waiter, seq<Outcome>> {
    outcomes[w := Get(outcomes, w) + [outcome]]
  }

  function AnswerAll(outcomes: map<Waiter, seq<Outcome>>, ws: set<Waiter>, outcome: Outcome): map<Waiter, seq<Outcome>> {
    map w | w in outcomes.Keys + ws :: Get(outcomes, w) + (if w in ws then [outcome] else [])
  }

  function QueuedWaiters(commands: seq<Queued>): set<Waiter> {
    set i | 0 <= i < |commands| :: commands[i].waiter
  }

  /** The loop ends: registered waiters get the exit error, unread commands find their reply channel gone. */
  function ExitWith(s: State, failure: Outcome): State {
    s.(running := false, pending := map[], commands := [],
       outcomes := AnswerAll(AnswerAll(s.outcomes, s.pending.Values, failure),
                             QueuedWaiters(s.commands), Failed(BrokenPipe, ReplyChannelClosed)))
  }

  /** Delivery succeeds exactly while the consumer holds the receiving end. */
  function Deliver(s: State, event: AppServerEvent): State {
    if s.consumerOpen then s.(unread := s.unread + [event]) else s
  }

  /** The server is gone: tell the consumer, then exit. */
  function Disconnect(s: State, kind: ErrorKind, reason: Reason): State {
    ExitWith(Told(s, reason), Failed(kind, reason))
  }

  function Told(s: State, reason: Reason): State {
    if s.consumerOpen then Deliver(s, Disconnected(reason)).(farewell := s.farewell + [Disconnected(reason)]) else s
  }

  const CHANNEL_CLOSED := Failed(BrokenPipe, WorkerChannelClosed)

  // ---------------------------------------------------------------- steps

  function SubmitStep(s: State, command: Command): State {
    if !s.running then
      s.(waiters := s.waiters + 1, outcomes := Answer(s.outcomes, s.waiters, CHANNEL_CLOSED))
    else if |s.commands| < s.capacity then
      s.(waiters := s.waiters + 1, commands := s.commands + [Queued(command, s.waiters)])
    else s
  }

  function RequestStep(s: State, id: RequestId, w: Waiter, writeOk: bool): State {
    if id in s.pending then s.(outcomes := Answer(s.outcomes, w, Failed(InvalidInput, DuplicateId)))
    else
      var noted := s.(registered := s.registered[w := id]);
      if writeOk then noted.(pending := s.pending[id := w])
      else
        Disconnect(noted.(outcomes := Answer(s.outcomes, w, Failed(WriteError, WriteFailed))), BrokenPipe, WriteFailed)
  }

  /** One command, taken off the queue. */
  function CommandStep(s: State, next: Queued, writeOk: bool): State {
    match next.command
    case SendRequest(id) => RequestStep(s, id, next.waiter, writeOk)
    case WriteMessage =>
      s.(outcomes := Answer(s.outcomes, next.waiter, if writeOk then Written else Failed(WriteError, WriteFailed)))
    case Shutdown =>
      ExitWith(s.(outcomes := Answer(s.outcomes, next.waiter, if writeOk then Written else Failed(WriteError, WriteFailed))),
               CHANNEL_CLOSED)
  }

  function ExecuteStep(s: State, writeOk: bool): State {
    if !s.running || s.commands == [] then s
    else CommandStep(s.(commands := s.commands[1..]), s.commands[0], writeOk)
  }

  function Reply(s: State, id: RequestId, outcome: Outcome): State {
    if id in s.pending then
      s.(pending := s.pending - {id}, outcomes := Answer(s.outcomes, s.pending[id], outcome))
    else s
  }

  function MessageStep(s: State, message: Message, writeOk: bool): State {
    match message
    case Response(id, result) => Reply(s, id, Answered(result))
    case ErrorReply(id, error) => Reply(s, id, AnsweredError(error))
    case Notification(None) => s
    case Notification(Some(notification)) =>
      if s.consumerOpen then Deliver(s, ServerNotification(notification)) else ExitWith(s, CHANNEL_CLOSED)
    case Request(id, Some(request)) =>
      if s.consumerOpen then Deliver(s, ServerRequest(id, request)) else ExitWith(s, CHANNEL_CLOSED)
    case Request(id, None) =>
      if writeOk then s.(rejected := s.rejected + [id]) else Disconnect(s, BrokenPipe, WriteFailed)
  }

  /** The exit error a frame causes by itself. */
  function FatalFrame(frame: Frame): Option<Outcome> {
    match frame
    case InvalidText => Some(Failed(InvalidData, InvalidJsonRpc))
    case Closing(reason) =>
      Some(Failed(ConnectionAborted, ServerClosed(if reason == "" then "connection closed" else reason)))
    case TransportError => Some(Failed(InvalidData, TransportFailed))
    case EndOfStream => Some(Failed(UnexpectedEof, ConnectionClosed))
    case Text(_) => None
    case OtherFrame => None
  }

  /** One frame, read off the wire. */
  function FrameStep(s: State, input: Input): State {
    var fatal := FatalFrame(input.frame);
    if fatal.Some? && fatal.value.Failed? then Disconnect(s, fatal.value.kind, fatal.value.reason)
    else if input.frame.Text? then MessageStep(s, input.frame.message, input.writeOk)
    else s
  }

  function ReceiveStep(s: State, input: Input): State {
    if !s.running then s else FrameStep(s.(wire := s.wire + [input]), input)
  }

  function NextEventStep(s: State): State {
    if !s.consumerOpen then s
    else if s.early != [] then s.(early := s.early[1..], yielded := s.yielded + [s.early[0]])
    else if s.unread != [] then s.(unread := s.unread[1..], yielded := s.yielded + [s.unread[0]])
    else s
  }

  function Next(s: State, action: Action): State {
    match action
    case Submit(command) => SubmitStep(s, command)
    case Execute(writeOk) => ExecuteStep(s, writeOk)
    case CommandsClosed => if s.running && s.commands == [] then ExitWith(s, CHANNEL_CLOSED) else s
    case Receive(input) => ReceiveStep(s, input)
    case NextEvent => NextEventStep(s)
    case DropConsumer => s.(consumerOpen := false)
    case AbortWorker => if s.running then ExitWith(s, Failed(BrokenPipe, ReplyChannelClosed)) else s
  }

  function Run(s: State, actions: seq<Action>): State
    decreases actions
  {
    if actions == [] then s else Run(Next(s, actions[0]), actions[1..])
  }

  /** The worker as `connect_with_stream` starts it after a handshake that consumed `wire`. */
  function Connected(capacity: nat, wire: seq<Input>): State {
    State(true, capacity, [], map[], true, DecodeEvents(wire), [], 0, map[], map[], wire, RejectionsDue(wire), [], [])
  }

  // ---------------------------------------------------------------- waiters: the invariant

  predicate IsPending(s: State, w: Waiter) {
    exists id :: id in s.pending && s.pending[id] == w
  }

  predicate IsQueued(s: State, w: Waiter) {
    exists i :: 0 <= i < |s.commands| && s.commands[i].waiter == w
  }

  predicate QueueDistinct(commands: seq<Queued>) {
    forall i, j :: 0 <= i < j < |commands| ==> commands[i].waiter != commands[j].waiter
  }

  /** Each accepted command is queued, pending or answered, and only one of these. */
  predicate WaitersOk(s: State) {
    && QueueDistinct(s.commands)
    && (forall i :: 0 <= i < |s.commands| ==>
          s.commands[i].waiter < s.waiters && s.commands[i].waiter !in s.outcomes && s.commands[i].waiter !in s.registered)
    && (forall w :: w in s.outcomes ==> w < s.waiters && |s.outcomes[w]| == 1)
    && (forall w :: 0 <= w < s.waiters ==> w in s.outcomes || IsQueued(s, w) || IsPending(s, w))
    && (forall w :: w in s.registered ==> w < s.waiters)
  }

  /** The pending map holds precisely the registered, unanswered ids. */
  predicate PendingOk(s: State) {
    && (forall id :: id in s.pending ==>
          s.pending[id] in s.registered && s.registered[s.pending[id]] == id && s.pending[id] !in s.outcomes)
    && (forall w :: w in s.registered && w !in s.outcomes ==>
          s.registered[w] in s.pending && s.pending[s.registered[w]] == w)
    && (!s.running ==> s.pending == map[] && s.commands == [])
  }

  predicate StreamOk(s: State) {
    && |s.farewell| <= 1 && (s.running ==> s.farewell == [])
    && (forall i :: 0 <= i < |s.farewell| ==> s.farewell[i].Disconnected?)
    && (s.consumerOpen ==> s.yielded + s.early + s.unread == DecodeEvents(s.wire) + s.farewell)
    && s.rejected == RejectionsDue(s.wire)
  }

  predicate Inv(s: State) {
    WaitersOk(s) && PendingOk(s) && StreamOk(s)
  }

  // ---------------------------------------------------------------- preservation: waiters

  lemma SubmitPreserves(s: State, command: Command)
    requires WaitersOk(s) && PendingOk(s)
    ensures WaitersOk(SubmitStep(s, command)) && PendingOk(SubmitStep(s, command))
  {
    var after := SubmitStep(s, command);
    if s.running && |s.commands| < s.capacity {
      forall w | 0 <= w < after.waiters
        ensures w in after.outcomes || IsQueued(after, w) || IsPending(after, w)
      {
        if w == s.waiters {
          assert after.commands[|s.commands|].waiter == w;
        } else if IsQueued(s, w) {
          var i :| 0 <= i < |s.commands| && s.commands[i].waiter == w;
          assert after.commands[i].waiter == w;
        } else if IsPending(s, w) {
          var id :| id in s.pending && s.pending[id] == w;
          assert after.pending[id] == w;
        }
      }
    } else if !s.running {
      forall w | 0 <= w < after.waiters
        ensures w in after.outcomes || IsQueued(after, w) || IsPending(after, w)
      {
      }
    }
  }

  /** An exit answers every remaining waiter exactly once. */
  lemma ExitPreserves(s: State, failure: Outcome)
    requires WaitersOk(s) && PendingOk(s)
    ensures WaitersOk(ExitWith(s, failure)) && PendingOk(ExitWith(s, failure))
  {
    var after := ExitWith(s, failure);
    forall w | w in after.outcomes
      ensures w < s.waiters && |after.outcomes[w]| == 1
    {
      ExitAnswers(s, failure, w);
    }
    forall w | 0 <= w < s.waiters
      ensures w in after.outcomes
    {
      ExitAnswers(s, failure, w);
    }
  }

  /** What a waiter has received once the worker has exited. */
  function Settlement(s: State, failure: Outcome, w: Waiter): seq<Outcome> {
    if w in s.outcomes then s.outcomes[w]
    else if IsQueued(s, w) then [Failed(BrokenPipe, ReplyChannelClosed)]
    else [failure]
  }

  lemma ExitAnswers(s: State, failure: Outcome, w: Waiter)
    requires WaitersOk(s) && PendingOk(s)
    ensures
      var outcomes := ExitWith(s, failure).outcomes;
      && (w in outcomes <==> w < s.waiters)
      && (w < s.waiters ==> outcomes[w] == Settlement(s, failure, w))
  {
    var closed := Failed(BrokenPipe, ReplyChannelClosed);
    AnswerAllAt(s.outcomes, s.pending.Values, failure, w);
    AnswerAllAt(AnswerAll(s.outcomes, s.pending.Values, failure), QueuedWaiters(s.commands), closed, w);
    WhoWaits(s, w);
  }

  lemma AnswerAllAt(outcomes: map<Waiter, seq<Outcome>>, ws: set<Waiter>, outcome: Outcome, w: Waiter)
    ensures
      var after := AnswerAll(outcomes, ws, outcome);
      && (w in after <==> w in outcomes || w in ws)
      && Get(after, w) == Get(outcomes, w) + (if w in ws then [outcome] else [])
  {
  }

  lemma WhoWaits(s: State, w: Waiter)
    requires WaitersOk(s) && PendingOk(s)
    ensures w in QueuedWaiters(s.commands) <==> IsQueued(s, w)
    ensures w in s.pending.Values <==> IsPending(s, w)
    ensures IsQueued(s, w) ==> w < s.waiters && w !in s.outcomes && !IsPending(s, w)
    ensures IsPending(s, w) ==> w < s.waiters && w !in s.outcomes
  {
  }

  /** Taking the first command off the queue leaves its waiter in hand. */
  predicate InHand(s: State, w: Waiter) {
    && WaitersOkBut(s, w) && PendingOk(s)
    && w < s.waiters && w !in s.outcomes && w !in s.registered
  }

  predicate WaitersOkBut(s: State, hand: Waiter) {
    && QueueDistinct(s.commands)
    && (forall i :: 0 <= i < |s.commands| ==>
          s.commands[i].waiter < s.waiters && s.commands[i].waiter !in s.outcomes
          && s.commands[i].waiter !in s.registered && s.commands[i].waiter != hand)
    && (forall w :: w in s.outcomes ==> w < s.waiters && |s.outcomes[w]| == 1)
    && (forall w :: 0 <= w < s.waiters && w != hand ==> w in s.outcomes || IsQueued(s, w) || IsPending(s, w))
    && (forall w :: w in s.registered ==> w < s.waiters)
  }

  lemma PopKeeps(s: State)
    requires WaitersOk(s) && PendingOk(s) && s.running && s.commands != []
    ensures InHand(s.(commands := s.commands[1..]), s.commands[0].waiter)
  {
    var after := s.(commands := s.commands[1..]);
    forall w | 0 <= w < s.waiters && w != s.commands[0].waiter
      ensures w in after.outcomes || IsQueued(after, w) || IsPending(after, w)
    {
      if IsQueued(s, w) {
        var i :| 0 <= i < |s.commands| && s.commands[i].waiter == w;
        assert after.commands[i - 1].waiter == w;
      } else if IsPending(s, w) {
        var id :| id in s.pending && s.pending[id] == w;
        assert after.pending[id] == w;
      }
    }
  }

  /** Answering the waiter in hand settles it. */
  lemma AnswerHand(s: State, w: Waiter, outcome: Outcome)
    requires InHand(s, w)
    ensures
      var after := s.(outcomes := Answer(s.outcomes, w, outcome));
      WaitersOk(after) && PendingOk(after)
  {
    var after := s.(outcomes := Answer(s.outcomes, w, outcome));
    forall v | 0 <= v < s.waiters
      ensures v in after.outcomes || IsQueued(after, v) || IsPending(after, v)
    {
      assert IsQueued(after, v) <==> IsQueued(s, v);
      assert IsPending(after, v) <==> IsPending(s, v);
    }
  }

  lemma RegisterHand(s: State, w: Waiter, id: RequestId)
    requires InHand(s, w) && s.running && id !in s.pending
    ensures
      var after := s.(registered := s.registered[w := id], pending := s.pending[id := w]);
      WaitersOk(after) && PendingOk(after)
  {
    var after := s.(registered := s.registered[w := id], pending := s.pending[id := w]);
    forall v | 0 <= v < s.waiters
      ensures v in after.outcomes || IsQueued(after, v) || IsPending(after, v)
    {
      if v == w {
        assert after.pending[id] == w;
      } else if IsPending(s, v) {
        var other :| other in s.pending && s.pending[other] == v;
        assert after.pending[other] == v;
      } else {
        assert IsQueued(after, v) <==> IsQueued(s, v);
      }
    }
  }

  lemma ExecutePreserves(s: State, writeOk: bool)
    requires WaitersOk(s) && PendingOk(s)
    ensures WaitersOk(ExecuteStep(s, writeOk)) && PendingOk(ExecuteStep(s, writeOk))
  {
    if s.running && s.commands != [] {
      PopKeeps(s);
      var next, rest := s.commands[0], s.(commands := s.commands[1..]);
      match next.command {
        case SendRequest(id) => RequestPreserves(rest, id, next.waiter, writeOk);
        case WriteMessage =>
          AnswerHand(rest, next.waiter, if writeOk then Written else Failed(WriteError, WriteFailed));
        case Shutdown =>
          var outcome := if writeOk then Written else Failed(WriteError, WriteFailed);
          AnswerHand(rest, next.waiter, outcome);
          ExitPreserves(rest.(outcomes := Answer(s.outcomes, next.waiter, outcome)), CHANNEL_CLOSED);
      }
    }
  }

  lemma RequestPreserves(s: State, id: RequestId, w: Waiter, writeOk: bool)
    requires InHand(s, w) && s.running
    ensures WaitersOk(RequestStep(s, id, w, writeOk)) && PendingOk(RequestStep(s, id, w, writeOk))
  {
    if id in s.pending {
      AnswerHand(s, w, Failed(InvalidInput, DuplicateId));
    } else if writeOk {
      RegisterHand(s, w, id);
    } else {
      AnswerHand(s, w, Failed(WriteError, WriteFailed));
      var answered := s.(registered := s.registered[w := id], outcomes := Answer(s.outcomes, w, Failed(WriteError, WriteFailed)));
      NoteAnswered(s.(outcomes := answered.outcomes), w, id);
      DisconnectPreserves(answered, BrokenPipe, WriteFailed);
    }
  }

  lemma NoteAnswered(s: State, w: Waiter, id: RequestId)
    requires WaitersOk(s) && PendingOk(s) && w in s.outcomes && w !in s.registered
    ensures
      var after := s.(registered := s.registered[w := id]);
      WaitersOk(after) && PendingOk(after)
  {
    var after := s.(registered := s.registered[w := id]);
    SameWaiters(s, after);
  }

  /** Liveness of waiters depends on the queue, the pending map and the outcomes only. */
  lemma SameWaiters(s: State, after: State)
    requires after.commands == s.commands && after.pending == s.pending
    ensures forall w: Waiter :: (IsQueued(after, w) <==> IsQueued(s, w)) && (IsPending(after, w) <==> IsPending(s, w))
  {
  }

  lemma DisconnectAnswers(s: State, kind: ErrorKind, reason: Reason, w: Waiter)
    requires WaitersOk(s) && PendingOk(s)
    ensures
      var after := Disconnect(s, kind, reason);
      && !after.running
      && (w in after.outcomes <==> w < s.waiters)
      && (w < s.waiters ==> after.outcomes[w] == Settlement(s, Failed(kind, reason), w))
  {
    ToldKeeps(s, reason, w);
    ExitAnswers(Told(s, reason), Failed(kind, reason), w);
  }

  lemma ToldKeeps(s: State, reason: Reason, w: Waiter)
    requires WaitersOk(s) && PendingOk(s)
    ensures WaitersOk(Told(s, reason)) && PendingOk(Told(s, reason))
    ensures IsQueued(Told(s, reason), w) == IsQueued(s, w)
    ensures Told(s, reason).outcomes == s.outcomes && Told(s, reason).waiters == s.waiters
  {
    SameWaiters(s, Told(s, reason));
  }

  lemma DisconnectPreserves(s: State, kind: ErrorKind, reason: Reason)
    requires WaitersOk(s) && PendingOk(s)
    ensures WaitersOk(Disconnect(s, kind, reason)) && PendingOk(Disconnect(s, kind, reason))
  {
    ToldKeeps(s, reason, 0);
    ExitPreserves(Told(s, reason), Failed(kind, reason));
  }

  lemma ReplyPreserves(s: State, id: RequestId, outcome: Outcome)
    requires WaitersOk(s) && PendingOk(s) && s.running
    ensures WaitersOk(Reply(s, id, outcome)) && PendingOk(Reply(s, id, outcome))
  {
    if id in s.pending {
      var after := Reply(s, id, outcome);
      forall w | 0 <= w < s.waiters
        ensures w in after.outcomes || IsQueued(after, w) || IsPending(after, w)
      {
        if IsPending(s, w) && w != s.pending[id] {
          var other :| other in s.pending && s.pending[other] == w;
          assert after.pending[other] == w;
        } else {
          assert IsQueued(after, w) <==> IsQueued(s, w);
        }
      }
    }
  }

  lemma ReceivePreserves(s: State, input: Input)
    requires WaitersOk(s) && PendingOk(s)
    ensures WaitersOk(ReceiveStep(s, input)) && PendingOk(ReceiveStep(s, input))
  {
    if s.running {
      var read := s.(wire := s.wire + [input]);
      SameWaiters(s, read);
      var fatal := FatalFrame(input.frame);
      if fatal.Some? && fatal.value.Failed? {
        DisconnectPreserves(read, fatal.value.kind, fatal.value.reason);
      } else if input.frame.Text? {
        MessagePreserves(read, input.frame.message, input.writeOk);
      }
    }
  }

  lemma MessagePreserves(s: State, message: Message, writeOk: bool)
    requires WaitersOk(s) && PendingOk(s) && s.running
    ensures WaitersOk(MessageStep(s, message, writeOk)) && PendingOk(MessageStep(s, message, writeOk))
  {
    var after := MessageStep(s, message, writeOk);
    match message {
      case Response(id, result) => ReplyPreserves(s, id, Answered(result));
      case ErrorReply(id, error) => ReplyPreserves(s, id, AnsweredError(error));
      case Notification(None) =>
      case Notification(Some(notification)) =>
        if s.consumerOpen { SameWaiters(s, after); } else { ExitPreserves(s, CHANNEL_CLOSED); }
      case Request(id, Some(request)) =>
        if s.consumerOpen { SameWaiters(s, after); } else { ExitPreserves(s, CHANNEL_CLOSED); }
      case Request(id, None) =>
        if writeOk { SameWaiters(s, after); } else { DisconnectPreserves(s, BrokenPipe, WriteFailed); }
    }
  }

  lemma WaitersPreserved(s: State, action: Action)
    requires WaitersOk(s) && PendingOk(s)
    ensures WaitersOk(Next(s, action)) && PendingOk(Next(s, action))
  {
    match action {
      case Submit(command) => SubmitPreserves(s, command);
      case Execute(writeOk) => ExecutePreserves(s, writeOk);
      case CommandsClosed => if s.running && s.commands == [] { ExitPreserves(s, CHANNEL_CLOSED); }
      case Receive(input) => ReceivePreserves(s, input);
      case NextEvent => SameWaiters(s, NextEventStep(s));
      case DropConsumer => SameWaiters(s, s.(consumerOpen := false));
      case AbortWorker => if s.running { ExitPreserves(s, Failed(BrokenPipe, ReplyChannelClosed)); }
    }
  }

  // ---------------------------------------------------------------- preservation: the event stream

  lemma WireSnoc(wire: seq<Input>, input: Input)
    ensures
      var event := EventOf(input.frame);
      && DecodeEvents(wire + [input]) == DecodeEvents(wire) + (if event.Some? then [event.value] else [])
      && RejectionsDue(wire + [input])
         == RejectionsDue(wire) + (if IsUnknownRequest(input.frame) && input.writeOk then [input.frame.message.id] else [])
  {
    assert (wire + [input])[..|wire|] == wire;
  }

  /** Stopping, answering and the like do not touch the stream. */
  lemma ExitKeepsStream(s: State, failure: Outcome)
    requires StreamOk(s)
    ensures StreamOk(ExitWith(s, failure))
  {
  }

  lemma DisconnectKeepsStream(s: State, kind: ErrorKind, reason: Reason)
    requires StreamOk(s) && s.running
    ensures StreamOk(Disconnect(s, kind, reason))
  {
    if s.consumerOpen {
      var told := Deliver(s, Disconnected(reason)).(running := false, farewell := s.farewell + [Disconnected(reason)]);
      assert s.yielded + s.early + told.unread == (s.yielded + s.early + s.unread) + [Disconnected(reason)];
      assert DecodeEvents(s.wire) + told.farewell == DecodeEvents(s.wire) + s.farewell + [Disconnected(reason)];
      ExitKeepsStream(told, Failed(kind, reason));
    }
  }

  /** A frame that carries no event and causes no rejection changes neither list. */
  lemma QuietFrame(s: State, input: Input)
    requires StreamOk(s) && EventOf(input.frame).None? && !(IsUnknownRequest(input.frame) && input.writeOk)
    ensures StreamOk(s.(wire := s.wire + [input]))
  {
    WireSnoc(s.wire, input);
    assert DecodeEvents(s.wire) + [] == DecodeEvents(s.wire);
    assert RejectionsDue(s.wire) + [] == RejectionsDue(s.wire);
  }

  lemma EventFrame(s: State, input: Input)
    requires StreamOk(s) && s.running && EventOf(input.frame).Some?
    ensures
      var read := s.(wire := s.wire + [input]);
      if s.consumerOpen then StreamOk(Deliver(read, EventOf(input.frame).value)) else StreamOk(read)
  {
    WireSnoc(s.wire, input);
    assert RejectionsDue(s.wire) + [] == RejectionsDue(s.wire);
    if s.consumerOpen {
      var event := EventOf(input.frame).value;
      assert s.yielded + s.early + (s.unread + [event]) == (s.yielded + s.early + s.unread) + [event];
      assert DecodeEvents(s.wire) + [event] + [] == DecodeEvents(s.wire) + [] + [event];
    }
  }

  lemma RejectedFrame(s: State, input: Input)
    requires StreamOk(s) && IsUnknownRequest(input.frame) && input.writeOk
    ensures StreamOk(s.(wire := s.wire + [input], rejected := s.rejected + [input.frame.message.id]))
  {
    WireSnoc(s.wire, input);
    assert DecodeEvents(s.wire) + [] == DecodeEvents(s.wire);
  }

  lemma MessageKeepsStream(s: State, input: Input)
    requires StreamOk(s) && s.running && input.frame.Text?
    ensures StreamOk(ReceiveStep(s, input))
  {
    var read := s.(wire := s.wire + [input]);
    if EventOf(input.frame).Some? {
      EventFrame(s, input);
      if !s.consumerOpen {
        ExitKeepsStream(read, CHANNEL_CLOSED);
      }
    } else if IsUnknownRequest(input.frame) {
      if input.writeOk {
        RejectedFrame(s, input);
      } else {
        QuietFrame(s, input);
        DisconnectKeepsStream(read, BrokenPipe, WriteFailed);
      }
    } else {
      QuietFrame(s, input);
    }
  }

  lemma ReceiveKeepsStream(s: State, input: Input)
    requires StreamOk(s)
    ensures StreamOk(ReceiveStep(s, input))
  {
    if s.running {
      var read := s.(wire := s.wire + [input]);
      if input.frame.Text? {
        MessageKeepsStream(s, input);
      } else {
        QuietFrame(s, input);
        var fatal := FatalFrame(input.frame);
        if fatal.Some? && fatal.value.Failed? {
          DisconnectKeepsStream(read, fatal.value.kind, fatal.value.reason);
        }
      }
    }
  }

  lemma ExecuteKeepsStream(s: State, writeOk: bool)
    requires StreamOk(s)
    ensures StreamOk(ExecuteStep(s, writeOk))
  {
    if s.running && s.commands != [] {
      var next, rest := s.commands[0], s.(commands := s.commands[1..]);
      match next.command {
        case SendRequest(id) =>
          if id !in s.pending && !writeOk {
            DisconnectKeepsStream(rest.(registered := s.registered[next.waiter := id],
                                        outcomes := Answer(s.outcomes, next.waiter, Failed(WriteError, WriteFailed))),
                                  BrokenPipe, WriteFailed);
          }
        case WriteMessage =>
        case Shutdown =>
          ExitKeepsStream(rest.(outcomes := Answer(s.outcomes, next.waiter,
                                                   if writeOk then Written else Failed(WriteError, WriteFailed))), CHANNEL_CLOSED);
      }
    }
  }

  lemma NextEventKeepsStream(s: State)
    requires StreamOk(s)
    ensures StreamOk(NextEventStep(s))
  {
    if s.consumerOpen && s.early != [] {
      assert (s.yielded + [s.early[0]]) + s.early[1..] == s.yielded + s.early;
    } else if s.consumerOpen && s.unread != [] {
      assert (s.yielded + [s.unread[0]]) + [] + s.unread[1..] == s.yielded + [] + s.unread;
    }
  }

  lemma StreamPreserved(s: State, action: Action)
    requires StreamOk(s)
    ensures StreamOk(Next(s, action))
  {
    match action {
      case Receive(input) => ReceiveKeepsStream(s, input);
      case Execute(writeOk) => ExecuteKeepsStream(s, writeOk);
      case NextEvent => NextEventKeepsStream(s);
      case CommandsClosed => ExitKeepsStream(s, CHANNEL_CLOSED);
      case AbortWorker => ExitKeepsStream(s, Failed(BrokenPipe, ReplyChannelClosed));
      case Submit(_) =>
      case DropConsumer =>
    }
  }

  lemma {:induction false} RunPreserves(s: State, actions: seq<Action>)
    requires Inv(s)
    ensures Inv(Run(s, actions))
    decreases actions
  {
    if actions != [] {
      WaitersPreserved(s, actions[0]);
      StreamPreserved(s, actions[0]);
      RunPreserves(Next(s, actions[0]), actions[1..]);
    }
  }

  lemma ConnectedOk(capacity: nat, wire: seq<Input>)
    ensures Inv(Connected(capacity, wire))
  {
    assert [] + DecodeEvents(wire) + [] == DecodeEvents(wire) + [];
  }

  // ---------------------------------------------------------------- a registered request

  /** The answer a frame carries for a request id: responses and errors are matched by id. */
  function AnswerFor(id: RequestId, frame: Frame): Option<Outcome> {
    if frame.Text? && frame.message.Response? && frame.message.id == id then Some(Answered(frame.message.result))
    else if frame.Text? && frame.message.ErrorReply? && frame.message.id == id then Some(AnsweredError(frame.message.error))
    else None
  }

  /** The error remaining waiters get when `action` ends the worker. */
  function ExitFailure(s: State, action: Action): Outcome {
    match action
    case Execute(_) =>
      if s.commands != [] && s.commands[0].command.SendRequest? then Failed(BrokenPipe, WriteFailed)
      else Failed(BrokenPipe, WorkerChannelClosed)
    case Receive(input) => FrameError(input.frame)
    case AbortWorker => Failed(BrokenPipe, ReplyChannelClosed)
    case _ => Failed(BrokenPipe, WorkerChannelClosed)
  }

  /** Kind by kind, the error a frame leaves behind when it ends the worker. */
  function FrameError(frame: Frame): Outcome {
    match frame
    case InvalidText => Failed(InvalidData, InvalidJsonRpc)
    case Closing(text) => Failed(ConnectionAborted, ServerClosed(if text == "" then "connection closed" else text))
    case TransportError => Failed(InvalidData, TransportFailed)
    case EndOfStream => Failed(UnexpectedEof, ConnectionClosed)
    case Text(Request(_, None)) => Failed(BrokenPipe, WriteFailed)
    case _ => Failed(BrokenPipe, WorkerChannelClosed)
  }

  /** Kind by kind, the frames that end a running worker: broken text, the end of the connection in any form,
      an unknown request that cannot be rejected, and an event nobody listens for. */
  predicate FrameEnds(listening: bool, input: Input) {
    match input.frame
    case InvalidText => true
    case Closing(_) => true
    case TransportError => true
    case EndOfStream => true
    case OtherFrame => false
    case Text(Response(_, _)) => false
    case Text(ErrorReply(_, _)) => false
    case Text(Notification(None)) => false
    case Text(Notification(Some(_))) => !listening
    case Text(Request(_, Some(_))) => !listening
    case Text(Request(_, None)) => !input.writeOk
  }

  /** The actions that end a running worker. */
  predicate Ends(s: State, action: Action) {
    match action
    case Execute(writeOk) =>
      s.commands != [] &&
      (s.commands[0].command.Shutdown?
       || (s.commands[0].command.SendRequest? && s.commands[0].command.id !in s.pending && !writeOk))
    case Receive(input) => FrameEnds(s.consumerOpen, input)
    case CommandsClosed => s.commands == []
    case AbortWorker => true
    case _ => false
  }

  /** A worker stops for these reasons and no others. */
  lemma StopsExactly(s: State, action: Action)
    requires s.running
    ensures Next(s, action).running <==> !Ends(s, action)
  {
    match action {
      case Receive(input) => ReceiveStops(s, input);
      case _ =>
    }
  }

  lemma ReceiveStops(s: State, input: Input)
    requires s.running
    ensures ReceiveStep(s, input).running <==> !Ends(s, Receive(input))
  {
    if input.frame.Text? {
      MessageStops(s.(wire := s.wire + [input]), input.frame.message, input.writeOk);
    }
  }

  lemma MessageStops(s: State, message: Message, writeOk: bool)
    requires s.running
    ensures MessageStep(s, message, writeOk).running <==> !FrameEnds(s.consumerOpen, Input(Text(message), writeOk))
  {
  }

  /** What an action does to a registered waiter with id `id`: route an answer, end the worker, or nothing. */
  function Ruling(s: State, id: RequestId, action: Action): Option<Outcome> {
    if action.Receive? && AnswerFor(id, action.input.frame).Some? then AnswerFor(id, action.input.frame)
    else if Ends(s, action) then Some(ExitFailure(s, action))
    else None
  }

  /** The waiter of `id` gets the answer if there is one, stays pending while the worker runs, and
      otherwise gets the failure. */
  predicate Treats(s: State, after: State, id: RequestId, answer: Option<Outcome>, failure: Outcome)
    requires id in s.pending
  {
    if answer.Some? then Get(after.outcomes, s.pending[id]) == [answer.value]
    else if after.running then id in after.pending && after.pending[id] == s.pending[id]
    else Get(after.outcomes, s.pending[id]) == [failure]
  }

  /** The first ruling in a run. */
  function FirstRuling(s: State, id: RequestId, actions: seq<Action>): Option<Outcome>
    decreases actions
  {
    if actions == [] then None
    else
      var ruling := Ruling(s, id, actions[0]);
      if ruling.Some? then ruling else FirstRuling(Next(s, actions[0]), id, actions[1..])
  }

  lemma RulingIsOutcome(s: State, id: RequestId, action: Action)
    requires WaitersOk(s) && PendingOk(s) && s.running && id in s.pending
    ensures Treats(s, Next(s, action), id, if action.Receive? then AnswerFor(id, action.input.frame) else None,
                   ExitFailure(s, action))
  {
    var w := s.pending[id];
    NotQueued(s, id);
    match action {
      case Execute(writeOk) => ExecuteRuling(s, id, writeOk);
      case CommandsClosed => ExitAnswers(s, CHANNEL_CLOSED, w);
      case Receive(input) => ReceiveRuling(s, id, input);
      case AbortWorker => ExitAnswers(s, Failed(BrokenPipe, ReplyChannelClosed), w);
      case Submit(_) =>
      case NextEvent =>
      case DropConsumer =>
    }
  }

  lemma NotQueued(s: State, id: RequestId)
    requires WaitersOk(s) && PendingOk(s) && id in s.pending
    ensures !IsQueued(s, s.pending[id])
  {
  }

  lemma ReadKeeps(s: State, input: Input)
    requires WaitersOk(s) && PendingOk(s)
    ensures
      var read := s.(wire := s.wire + [input]);
      WaitersOk(read) && PendingOk(read)
  {
    SameWaiters(s, s.(wire := s.wire + [input]));
  }

  lemma ReceiveRuling(s: State, id: RequestId, input: Input)
    requires WaitersOk(s) && PendingOk(s) && s.running && id in s.pending
    ensures Treats(s, ReceiveStep(s, input), id, AnswerFor(id, input.frame), ExitFailure(s, Receive(input)))
  {
    var read := s.(wire := s.wire + [input]);
    assert Treats(read, FrameStep(read, input), id, AnswerFor(id, input.frame), FrameError(input.frame)) by {
      ReadKeeps(s, input);
      FrameRuling(read, id, input);
    }
    ReceiveTreats(s, id, input);
  }

  lemma ReceiveTreats(s: State, id: RequestId, input: Input)
    requires s.running && id in s.pending
    requires
      var read := s.(wire := s.wire + [input]);
      Treats(read, FrameStep(read, input), id, AnswerFor(id, input.frame), FrameError(input.frame))
    ensures Treats(s, ReceiveStep(s, input), id, AnswerFor(id, input.frame), FrameError(input.frame))
  {
    var read := s.(wire := s.wire + [input]);
    TreatsSame(s, read, FrameStep(read, input), id, AnswerFor(id, input.frame), FrameError(input.frame));
  }

  /** How a waiter is treated depends on the pending map only. */
  lemma TreatsSame(s: State, read: State, after: State, id: RequestId, answer: Option<Outcome>, failure: Outcome)
    requires s.pending == read.pending && id in s.pending
    ensures Treats(read, after, id, answer, failure) <==> Treats(s, after, id, answer, failure)
  {
  }

  lemma FrameRuling(s: State, id: RequestId, input: Input)
    requires WaitersOk(s) && PendingOk(s) && s.running && id in s.pending
    ensures Treats(s, FrameStep(s, input), id, AnswerFor(id, input.frame), FrameError(input.frame))
  {
    if input.frame.Text? {
      MessageRuling(s, id, input.frame.message, input.writeOk);
    } else if !input.frame.OtherFrame? {
      FatalRuling(s, id, input);
    }
  }

  /** A frame that is neither text nor a control frame ends the connection with its own error. */
  lemma FatalStep(s: State, input: Input)
    requires !input.frame.Text? && !input.frame.OtherFrame?
    ensures FrameError(input.frame).Failed?
    ensures FrameStep(s, input) == Disconnect(s, FrameError(input.frame).kind, FrameError(input.frame).reason)
  {
  }

  lemma DisconnectRuling(s: State, id: RequestId, kind: ErrorKind, reason: Reason)
    requires WaitersOk(s) && PendingOk(s) && s.running && id in s.pending
    ensures Treats(s, Disconnect(s, kind, reason), id, None, Failed(kind, reason))
  {
    NotQueued(s, id);
    DisconnectAnswers(s, kind, reason, s.pending[id]);
  }

  lemma FatalRuling(s: State, id: RequestId, input: Input)
    requires WaitersOk(s) && PendingOk(s) && s.running && id in s.pending && !input.frame.Text? && !input.frame.OtherFrame?
    ensures Treats(s, FrameStep(s, input), id, None, FrameError(input.frame))
  {
    FatalStep(s, input);
    DisconnectRuling(s, id, FrameError(input.frame).kind, FrameError(input.frame).reason);
  }

  lemma MessageRuling(s: State, id: RequestId, message: Message, writeOk: bool)
    requires WaitersOk(s) && PendingOk(s) && s.running && id in s.pending
    ensures Treats(s, MessageStep(s, message, writeOk), id, AnswerFor(id, Text(message)), FrameError(Text(message)))
  {
    NotQueued(s, id);
    if EventOf(Text(message)).Some? {
      if !s.consumerOpen {
        ExitAnswers(s, CHANNEL_CLOSED, s.pending[id]);
      }
    } else if IsUnknownRequest(Text(message)) {
      if !writeOk {
        DisconnectAnswers(s, BrokenPipe, WriteFailed, s.pending[id]);
      }
    }
  }

  lemma ExecuteRuling(s: State, id: RequestId, writeOk: bool)
    requires WaitersOk(s) && PendingOk(s) && s.running && id in s.pending
    ensures Treats(s, ExecuteStep(s, writeOk), id, None, ExitFailure(s, Execute(writeOk)))
  {
    if s.commands != [] {
      NotQueued(s, id);
      PopKeeps(s);
      var next, rest := s.commands[0], s.(commands := s.commands[1..]);
      match next.command {
        case SendRequest(newId) => RequestRuling(rest, newId, next.waiter, writeOk, id);
        case WriteMessage =>
        case Shutdown => ShutdownRuling(rest, next.waiter, if writeOk then Written else Failed(WriteError, WriteFailed), id);
      }
    }
  }

  lemma ShutdownRuling(s: State, hand: Waiter, outcome: Outcome, id: RequestId)
    requires InHand(s, hand) && s.running && id in s.pending
    ensures
      var after := ExitWith(s.(outcomes := Answer(s.outcomes, hand, outcome)), CHANNEL_CLOSED);
      !after.running && Get(after.outcomes, s.pending[id]) == [CHANNEL_CLOSED]
  {
    AnswerHand(s, hand, outcome);
    var answered := s.(outcomes := Answer(s.outcomes, hand, outcome));
    NotQueued(answered, id);
    ExitAnswers(answered, CHANNEL_CLOSED, s.pending[id]);
  }

  lemma RequestRuling(s: State, newId: RequestId, hand: Waiter, writeOk: bool, id: RequestId)
    requires InHand(s, hand) && s.running && id in s.pending
    ensures
      var w, after := s.pending[id], RequestStep(s, newId, hand, writeOk);
      if after.running then id in after.pending && after.pending[id] == w
      else Get(after.outcomes, w) == [Failed(BrokenPipe, WriteFailed)]
  {
    if newId !in s.pending && !writeOk {
      var outcome := Failed(WriteError, WriteFailed);
      AnswerHand(s, hand, outcome);
      var answered := s.(outcomes := Answer(s.outcomes, hand, outcome));
      NoteAnswered(answered, hand, newId);
      var noted := answered.(registered := s.registered[hand := newId]);
      NotQueued(noted, id);
      DisconnectAnswers(noted, BrokenPipe, WriteFailed, s.pending[id]);
    }
  }

  /** Whatever happens after a request is registered, its waiter receives exactly the first ruling:
      the first response or error carrying its id, or the exit error if the worker ends first; and
      with no ruling yet it is still pending. */
  lemma {:induction false} RoutedToFirstAnswer(s: State, id: RequestId, actions: seq<Action>)
    requires WaitersOk(s) && PendingOk(s) && s.running && id in s.pending
    ensures
      var after, ruling := Run(s, actions), FirstRuling(s, id, actions);
      if ruling.Some? then Get(after.outcomes, s.pending[id]) == [ruling.value]
      else id in after.pending && after.pending[id] == s.pending[id] && Get(after.outcomes, s.pending[id]) == []
    decreases actions
  {
    if actions != [] {
      var after := Next(s, actions[0]);
      WaitersPreserved(s, actions[0]);
      RulingIsOutcome(s, id, actions[0]);
      StopsExactly(s, actions[0]);
      if Ruling(s, id, actions[0]).Some? {
        OutcomeIsFinal(after, s.pending[id], actions[1..]);
      } else {
        RoutedToFirstAnswer(after, id, actions[1..]);
      }
    }
  }

  /** An outcome, once given, is never changed or repeated. */
  lemma {:induction false} OutcomeIsFinal(s: State, w: Waiter, actions: seq<Action>)
    requires WaitersOk(s) && PendingOk(s) && w in s.outcomes
    ensures Get(Run(s, actions).outcomes, w) == s.outcomes[w]
    decreases actions
  {
    if actions != [] {
      OutcomeKept(s, w, actions[0]);
      WaitersPreserved(s, actions[0]);
      OutcomeIsFinal(Next(s, actions[0]), w, actions[1..]);
    }
  }

  predicate Keeps(s: State, after: State, w: Waiter) {
    w in s.outcomes ==> w in after.outcomes && after.outcomes[w] == s.outcomes[w]
  }

  lemma OutcomeKept(s: State, w: Waiter, action: Action)
    requires WaitersOk(s) && PendingOk(s) && w in s.outcomes
    ensures Keeps(s, Next(s, action), w)
  {
    match action {
      case Submit(command) =>
      case Execute(writeOk) => ExecuteKeeps(s, w, writeOk);
      case CommandsClosed => ExitAnswers(s, CHANNEL_CLOSED, w);
      case Receive(input) => ReceiveKeeps(s, w, input);
      case NextEvent =>
      case DropConsumer =>
      case AbortWorker => ExitAnswers(s, Failed(BrokenPipe, ReplyChannelClosed), w);
    }
  }

  lemma ExecuteKeeps(s: State, w: Waiter, writeOk: bool)
    requires WaitersOk(s) && PendingOk(s) && w in s.outcomes
    ensures Keeps(s, ExecuteStep(s, writeOk), w)
  {
    if s.running && s.commands != [] {
      PopKeeps(s);
      var next, rest := s.commands[0], s.(commands := s.commands[1..]);
      var outcome := if writeOk then Written else Failed(WriteError, WriteFailed);
      AnswerHand(rest, next.waiter, outcome);
      var answered := rest.(outcomes := Answer(s.outcomes, next.waiter, outcome));
      match next.command {
        case SendRequest(id) =>
          if id !in s.pending && !writeOk {
            NoteAnswered(answered, next.waiter, id);
            DisconnectAnswers(answered.(registered := s.registered[next.waiter := id]), BrokenPipe, WriteFailed, w);
          }
        case WriteMessage =>
        case Shutdown => ExitAnswers(answered, CHANNEL_CLOSED, w);
      }
    }
  }

  lemma ReceiveKeeps(s: State, w: Waiter, input: Input)
    requires WaitersOk(s) && PendingOk(s) && w in s.outcomes
    ensures Keeps(s, ReceiveStep(s, input), w)
  {
    if s.running {
      var read := s.(wire := s.wire + [input]);
      SameWaiters(s, read);
      var fatal := FatalFrame(input.frame);
      if fatal.Some? && fatal.value.Failed? {
        DisconnectAnswers(read, fatal.value.kind, fatal.value.reason, w);
      } else if input.frame.Text? {
        MessageKeeps(read, w, input.frame.message, input.writeOk);
      }
    }
  }

  lemma MessageKeeps(s: State, w: Waiter, message: Message, writeOk: bool)
    requires WaitersOk(s) && PendingOk(s) && w in s.outcomes
    ensures Keeps(s, MessageStep(s, message, writeOk), w)
  {
    if EventOf(Text(message)).Some? {
      ExitAnswers(s, CHANNEL_CLOSED, w);
    } else if IsUnknownRequest(Text(message)) {
      DisconnectAnswers(s, BrokenPipe, WriteFailed, w);
    }
  }
}
