/** ha_get_trace.py: fetch the full trace of one automation run. */
module GetTrace {
  import opened Options
  import opened Json
  import opened Outcomes
  import opened Text
  import opened Handshake
  import opened AutomationIds

  /** The trace/get command for the stripped id and the given run. */
  function GetCommand(automationId: string, runId: string): (c: Value)
    ensures c.Obj? && c.fields.Keys == {"id", "type", "domain", "item_id", "run_id"}
    ensures c.fields["id"] == Num(1) && c.fields["type"] == Str("trace/get") && c.fields["domain"] == Str(Domain)
    ensures c.fields["run_id"] == Str(runId)
    ensures c.fields["item_id"] == Str(ItemId(automationId))
  {
    Obj(map[
      "id" := Num(1),
      "type" := Str("trace/get"),
      "domain" := Str(Domain),
      "item_id" := Str(ItemId(automationId)),
      "run_id" := Str(runId)])
  }

  /** The command names the automation by its item id, whether it was given
      as "automation.x" or as the bare "x". */
  lemma GetCommandNamesItem(x: string, runId: string)
    requires !Contains(x, Prefix)
    ensures GetCommand(Prefix + x, runId).fields["item_id"] == Str(x)
    ensures GetCommand(x, runId).fields["item_id"] == Str(x)
  {
    ItemIdStripsPrefix(x);
    ItemIdOfBareId(x);
  }

  /** get_trace: the handshake, the command, and the reply's result, which
      must be truthy. */
  function GetTrace(token: Option<string>, automationId: string, runId: string, incoming: seq<Value>): (s: Session<Value>)
    ensures s.sent == Converse(token, GetCommand(automationId, runId), incoming).sent
    ensures s.outcome.Ok? <==> Reply(token, GetCommand(automationId, runId), incoming, Null).Ok? && Truthy(Reply(token, GetCommand(automationId, runId), incoming, Null).value)
    ensures s.outcome.Ok? ==> |incoming| >= 3 && s.outcome.value == Get(incoming[2].fields, "result", Null)
    ensures Reply(token, GetCommand(automationId, runId), incoming, Null).Fail? ==> s.outcome == Fail(Reply(token, GetCommand(automationId, runId), incoming, Null).error)
    ensures Reply(token, GetCommand(automationId, runId), incoming, Null).Ok? && !Truthy(Reply(token, GetCommand(automationId, runId), incoming, Null).value) ==> s.outcome == Fail(NotFound)
    ensures Reply(token, GetCommand(automationId, runId), incoming, Null).Ok? && Truthy(Reply(token, GetCommand(automationId, runId), incoming, Null).value) ==> s.outcome == Ok(Reply(token, GetCommand(automationId, runId), incoming, Null).value)
  {
    Session(Converse(token, GetCommand(automationId, runId), incoming).sent,
      match Reply(token, GetCommand(automationId, runId), incoming, Null)
      case Fail(e) => Fail(e)
      case Ok(trace) => if Truthy(trace) then Ok(trace) else Fail(NotFound))
  }

  /** A server that completes the handshake and then rejects the command with
      the message "boom" makes the script fail with exactly that message,
      after sending the token and the command. */
  lemma SurfacesServerMessage(token: string, automationId: string, runId: string)
    requires token != ""
    ensures
      var incoming := [
        Obj(map["type" := Str(AuthRequired)]),
        Obj(map["type" := Str(AuthOk)]),
        Obj(map["id" := Num(1), "type" := Str("result"), "success" := Bool(false),
                "error" := Obj(map["message" := Str("boom")])])];
      GetTrace(Some(token), automationId, runId, incoming)
        == Session([AuthMessage(token), GetCommand(automationId, runId)], Fail(CommandError(Str("boom"))))
  {
    var incoming := [
      Obj(map["type" := Str(AuthRequired)]),
      Obj(map["type" := Str(AuthOk)]),
      Obj(map["id" := Num(1), "type" := Str("result"), "success" := Bool(false),
              "error" := Obj(map["message" := Str("boom")])])];
    AnswersAfterHandshake(Some(token), GetCommand(automationId, runId), incoming);
  }

  /** A greeting other than auth_required fails before anything is sent. */
  lemma GreetingChecked(token: string, automationId: string, runId: string, incoming: seq<Value>)
    requires token != "" && |incoming| >= 1
    requires TypeOf(incoming[0]) != Some(Str(AuthRequired))
    ensures GetTrace(Some(token), automationId, runId, incoming).sent == []
    ensures GetTrace(Some(token), automationId, runId, incoming).outcome.Fail?
  {
    RejectsUnexpectedGreeting(Some(token), GetCommand(automationId, runId), incoming);
  }
}
