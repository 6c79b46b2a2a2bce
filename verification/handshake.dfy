/** The WebSocket exchange shared by the three trace scripts: wait for
    auth_required, send the token, wait for auth_ok, send one command, read
    one reply. The server's messages are given as a sequence; the messages
    the client sends are part of the outcome. */
module Handshake {
  import opened Options
  import opened Json
  import opened Outcomes

  const AuthRequired := "auth_required"
  const AuthOk := "auth_ok"
  const UnknownError := "Unknown error"

  /** The message that answers auth_required. */
  function AuthMessage(token: string): Value {
    Obj(map["type" := Str("auth"), "access_token" := Str(token)])
  }

  /** `message.get("type")`; None when the message is not a dict. */
  function TypeOf(m: Value): Option<Value> {
    Lookup(m, "type", Null)
  }

  datatype Phase =
    | AwaitAuthRequired
    | AwaitAuthOk
    | AwaitReply
    | Answered(reply: Value)
    | Aborted(error: Error)
  {
    predicate Final() {
      Answered? || Aborted?
    }
  }

  datatype Transition = Transition(next: Phase, sends: seq<Value>)

  /** How the client reacts to one received message. */
  function Receive(token: string, command: Value, phase: Phase, m: Value): Transition
    requires !phase.Final()
  {
    match phase
    case AwaitAuthRequired =>
      (match TypeOf(m)
       case None => Transition(Aborted(Malformed), [])
       case Some(t) =>
         if t == Str(AuthRequired) then Transition(AwaitAuthOk, [AuthMessage(token)])
         else Transition(Aborted(ProtocolError(t)), []))
    case AwaitAuthOk =>
      (match TypeOf(m)
       case None => Transition(Aborted(Malformed), [])
       case Some(t) =>
         if t == Str(AuthOk) then Transition(AwaitReply, [command])
         else Transition(Aborted(AuthError(m)), []))
    case AwaitReply => Transition(Answered(m), [])
  }

  /** How many more messages the client must read from `phase` on. */
  function Awaited(phase: Phase): nat {
    match phase
    case AwaitAuthRequired => 3
    case AwaitAuthOk => 2
    case AwaitReply => 1
    case _ => 0
  }

  /** The messages the client still has to send from `phase` on. */
  function Owed(token: string, command: Value, phase: Phase): seq<Value> {
    match phase
    case AwaitAuthRequired => [AuthMessage(token), command]
    case AwaitAuthOk => [command]
    case _ => []
  }

  /** One received message moves the exchange one step along: a decided
      exchange sends nothing more, and an undecided one has sent part of what
      was owed and awaits one message fewer. */
  lemma ReceiveAdvances(token: string, command: Value, phase: Phase, m: Value)
    requires !phase.Final()
    ensures var t := Receive(token, command, phase, m);
      && (t.next.Final() ==> t.sends == [])
      && (!t.next.Final() ==> Owed(token, command, phase) == t.sends + Owed(token, command, t.next)
                              && Awaited(t.next) + 1 == Awaited(phase))
      && (t.next.Answered? ==> Awaited(phase) == 1 && t.next.reply == m)
  {
  }

  /** Feeds the server's messages in order until the exchange is decided;
      messages after that point are never read. What is sent is always a
      prefix of what is owed, and an answered exchange has sent all of it and
      answers with the last awaited message. */
  function Drive(token: string, command: Value, phase: Phase, incoming: seq<Value>): (t: Transition)
    ensures t.sends <= Owed(token, command, phase)
    ensures !phase.Final() && t.next.Answered? ==>
      |incoming| >= Awaited(phase) && t.next.reply == incoming[Awaited(phase) - 1]
      && t.sends == Owed(token, command, phase)
    decreases |incoming|
  {
    if phase.Final() || incoming == [] then Transition(phase, [])
    else
      var t := Receive(token, command, phase, incoming[0]);
      var rest := Drive(token, command, t.next, incoming[1..]);
      ReceiveAdvances(token, command, phase, incoming[0]);
      Transition(rest.next, t.sends + rest.sends)
  }

  /** What a connection sent, and how it ended: with the server's reply for
      one exchange, with the script's result for a whole invocation. */
  datatype Session<+T> = Session(sent: seq<Value>, outcome: Result<T>)

  /** One connection: the credential check, the handshake and the command. */
  function Converse(token: Option<string>, command: Value, incoming: seq<Value>): (x: Session<Value>)
    ensures !Given(token) ==> x == Session([], Fail(MissingCredential))
    ensures x.outcome.Ok? ==>
      Given(token) && |incoming| >= 3 && x.outcome.value == incoming[2]
      && x.sent == [AuthMessage(token.value), command]
  {
    if !Given(token) then Session([], Fail(MissingCredential))
    else
      var t := Drive(token.value, command, AwaitAuthRequired, incoming);
      match t.next
      case Answered(reply) => Session(t.sends, Ok(reply))
      case Aborted(e) => Session(t.sends, Fail(e))
      case _ => Session(t.sends, Fail(TransportError))
  }

  /** The reply's envelope: a falsy `success` is a CommandError carrying
      `error.message` (default "Unknown error"); otherwise the `result`
      field, or `default` when it is absent. */
  function Unwrap(reply: Value, default: Value): (r: Result<Value>)
    ensures r.Ok? <==> reply.Obj? && Truthy(Get(reply.fields, "success", Null))
    ensures r.Ok? ==> r.value == Get(reply.fields, "result", default)
    ensures r.Fail? && reply.Obj? && "error" !in reply.fields ==> r == Fail(CommandError(Str(UnknownError)))
    ensures r.Fail? && reply.Obj? && Index(reply, "error").Some? && Index(Index(reply, "error").value, "message").Some?
            ==> r == Fail(CommandError(Index(Index(reply, "error").value, "message").value))
    ensures r.Fail? && reply.Obj? && Index(reply, "error").Some? && !Index(reply, "error").value.Obj?
            ==> r == Fail(Malformed)
    ensures r.Fail? && reply.Obj? && Index(reply, "error").Some? && Index(reply, "error").value.Obj?
            && "message" !in Index(reply, "error").value.fields
            ==> r == Fail(CommandError(Str(UnknownError)))
    ensures !reply.Obj? ==> r == Fail(Malformed)
  {
    if !reply.Obj? then Fail(Malformed)
    else if !Truthy(Get(reply.fields, "success", Null)) then
      match Lookup(Get(reply.fields, "error", Obj(map[])), "message", Str(UnknownError))
      case None => Fail(Malformed)
      case Some(message) => Fail(CommandError(message))
    else Ok(Get(reply.fields, "result", default))
  }

  /** The command's reply as a script reads it: the exchange's failure, or
      the third message unwrapped with `default` for a missing result. */
  function Reply(token: Option<string>, command: Value, incoming: seq<Value>, default: Value): (r: Result<Value>)
    ensures Converse(token, command, incoming).outcome.Fail? ==> r == Fail(Converse(token, command, incoming).outcome.error)
    ensures Converse(token, command, incoming).outcome.Ok? ==> |incoming| >= 3 && r == Unwrap(incoming[2], default)
  {
    match Converse(token, command, incoming).outcome
    case Fail(e) => Fail(e)
    case Ok(reply) => Unwrap(reply, default)
  }

  /** The server's two envelopes round-trip: a successful reply yields the
      result it wraps, and a failed one the message it carries. */
  lemma UnwrapsEnvelope(result: Value, message: Value, default: Value)
    ensures Unwrap(Obj(map["success" := Bool(true), "result" := result]), default) == Ok(result)
    ensures Unwrap(Obj(map["success" := Bool(false), "error" := Obj(map["message" := message])]), default)
            == Fail(CommandError(message))
    ensures Unwrap(Obj(map["success" := Bool(false)]), default) == Fail(CommandError(Str(UnknownError)))
  {
    var failed := Obj(map["success" := Bool(false), "error" := Obj(map["message" := message])]);
    assert Get(failed.fields, "success", Null) == Bool(false);
  }

  /** A first message that is not auth_required ends the exchange before the
      token is sent. */
  lemma RejectsUnexpectedGreeting(token: Option<string>, command: Value, incoming: seq<Value>)
    requires Given(token) && |incoming| >= 1
    requires TypeOf(incoming[0]) != Some(Str(AuthRequired))
    ensures Converse(token, command, incoming).sent == []
    ensures TypeOf(incoming[0]).Some? ==>
      Converse(token, command, incoming).outcome == Fail(ProtocolError(TypeOf(incoming[0]).value))
    ensures TypeOf(incoming[0]).None? ==> Converse(token, command, incoming).outcome == Fail(Malformed)
  {
    assert Drive(token.value, command, AwaitAuthRequired, incoming)
        == Drive(token.value, command, Receive(token.value, command, AwaitAuthRequired, incoming[0]).next, incoming[1..]);
  }

  /** A second message that is not auth_ok ends the exchange after the token
      was sent and before the command is. */
  lemma RejectsFailedAuth(token: Option<string>, command: Value, incoming: seq<Value>)
    requires Given(token) && |incoming| >= 2
    requires TypeOf(incoming[0]) == Some(Str(AuthRequired))
    requires TypeOf(incoming[1]) != Some(Str(AuthOk))
    ensures Converse(token, command, incoming).sent == [AuthMessage(token.value)]
    ensures TypeOf(incoming[1]).Some? ==> Converse(token, command, incoming).outcome == Fail(AuthError(incoming[1]))
    ensures TypeOf(incoming[1]).None? ==> Converse(token, command, incoming).outcome == Fail(Malformed)
  {
    var tok := token.value;
    var t2 := Receive(tok, command, AwaitAuthOk, incoming[1]);
    assert incoming[1..][1..] == incoming[2..];
    assert Drive(tok, command, AwaitAuthOk, incoming[1..]) == Transition(t2.next, []);
    assert Drive(tok, command, AwaitAuthRequired, incoming) == Transition(t2.next, [AuthMessage(tok)]);
  }

  /** After auth_required and auth_ok the third message is the reply, and
      exactly the token and the command were sent, in that order. */
  lemma AnswersAfterHandshake(token: Option<string>, command: Value, incoming: seq<Value>)
    requires Given(token) && |incoming| >= 3
    requires TypeOf(incoming[0]) == Some(Str(AuthRequired))
    requires TypeOf(incoming[1]) == Some(Str(AuthOk))
    ensures Converse(token, command, incoming) == Session([AuthMessage(token.value), command], Ok(incoming[2]))
  {
    var tok := token.value;
    assert incoming[1..][1..] == incoming[2..];
    assert Drive(tok, command, AwaitReply, incoming[2..]) == Transition(Answered(incoming[2]), []);
    assert Drive(tok, command, AwaitAuthOk, incoming[1..]) == Transition(Answered(incoming[2]), [command]);
  }

  /** Drive on an undecided phase: one message, then the rest. */
  lemma DriveStep(token: string, command: Value, phase: Phase, incoming: seq<Value>)
    requires !phase.Final() && incoming != []
    ensures var t := Receive(token, command, phase, incoming[0]);
      var rest := Drive(token, command, t.next, incoming[1..]);
      Drive(token, command, phase, incoming) == Transition(rest.next, t.sends + rest.sends)
  {
  }

  /** Once the exchange is decided, further messages change nothing. */
  lemma {:induction false} DriveIgnoresLater(token: string, command: Value, phase: Phase, incoming: seq<Value>, later: seq<Value>)
    requires Drive(token, command, phase, incoming).next.Final()
    ensures Drive(token, command, phase, incoming + later) == Drive(token, command, phase, incoming)
    decreases |incoming|
  {
    if !phase.Final() {
      assert incoming != [];
      assert (incoming + later)[1..] == incoming[1..] + later;
      assert (incoming + later)[0] == incoming[0];
      DriveIgnoresLater(token, command, Receive(token, command, phase, incoming[0]).next, incoming[1..], later);
      DriveStep(token, command, phase, incoming);
      DriveStep(token, command, phase, incoming + later);
    }
  }

  /** A conversation that ended for any reason other than the connection
      closing early has the same outcome whatever the server sends next. */
  lemma ConverseIgnoresLater(token: Option<string>, command: Value, incoming: seq<Value>, later: seq<Value>)
    requires Converse(token, command, incoming).outcome != Fail(TransportError)
    ensures Converse(token, command, incoming + later) == Converse(token, command, incoming)
  {
    if Given(token) {
      DriveIgnoresLater(token.value, command, AwaitAuthRequired, incoming, later);
    }
  }
}
