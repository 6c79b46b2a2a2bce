/** ha_list_traces.py: list automation traces, optionally for one
    automation, reshaped and newest first. */
module ListTraces {
  import opened Options
  import opened Json
  import opened Outcomes
  import opened Text
  import opened Seqs
  import opened Sorting
  import opened Handshake
  import opened AutomationIds

  /** The trace/list command; `item_id` only when an automation is named. */
  function ListCommand(automationId: Option<string>): (c: Value)
    ensures c.Obj?
    ensures c.fields.Keys == {"id", "type", "domain"} + (if Given(automationId) then {"item_id"} else {})
    ensures c.fields["id"] == Num(1) && c.fields["type"] == Str("trace/list") && c.fields["domain"] == Str(Domain)
    ensures Given(automationId) ==> c.fields["item_id"] == Str(ItemId(automationId.value))
  {
    var base := map["id" := Num(1), "type" := Str("trace/list"), "domain" := Str(Domain)];
    if Given(automationId) then Obj(base["item_id" := Str(ItemId(automationId.value))]) else Obj(base)
  }

  /** The automation_id of a formatted trace: `f"automation.{item_id}"` for a
      truthy item id, the literal "unknown" otherwise. */
  datatype Label = Unknown | Prefixed(itemId: Value)

  function LabelOf(itemId: Value): Label {
    if Truthy(itemId) then Prefixed(itemId) else Unknown
  }

  /** The label's text; the f-string rendering of a non-string item id is not
      modelled. */
  function LabelText(name: Label): Option<string> {
    match name
    case Unknown => Some("unknown")
    case Prefixed(Str(s)) => Some(Prefix + s)
    case Prefixed(_) => None
  }

  /** The label of a trace carries the automation's entity id: a trace
      listed for "automation.x" or for the bare "x" is labelled
      "automation.x", and one without an item id is labelled "unknown". */
  lemma LabelRoundTrip(x: string)
    requires x != "" && !Contains(x, Prefix)
    ensures LabelText(LabelOf(Str(ItemId(Prefix + x)))) == Some(Prefix + x)
    ensures LabelText(LabelOf(Str(ItemId(x)))) == Some(Prefix + x)
    ensures LabelText(LabelOf(Null)) == Some("unknown")
    ensures LabelText(LabelOf(Str(""))) == Some("unknown")
  {
    ItemIdStripsPrefix(x);
    ItemIdOfBareId(x);
  }

  datatype FormattedTrace = FormattedTrace(
    automation: Label,
    runId: Value,
    start: Value,
    state: Value,
    scriptExecution: Value,
    lastStep: Value,
    error: Value)

  /** The reshaping of one trace that is a dict with a dict timestamp. */
  function Format(trace: Value): FormattedTrace {
    FormattedTrace(
      LabelOf(Attr(trace, "item_id")),
      Attr(trace, "run_id"),
      Attr(Nested(trace, "timestamp"), "start"),
      Attr(trace, "state"),
      Attr(trace, "script_execution"),
      Attr(trace, "last_step"),
      Attr(trace, "error"))
  }

  /** One iteration of the formatting loop: it raises unless the trace and
      its timestamp are dicts. */
  function FormatStep(trace: Value): Step<FormattedTrace> {
    if trace.Obj? && Nested(trace, "timestamp").Obj? then Emit(Format(trace)) else Raise
  }

  /** The sort key, with a missing or non-string start ordered as "". */
  function StartKey(t: FormattedTrace): string {
    if t.start.Str? then t.start.s else ""
  }

  /** The sort keeps the formatted traces, orders them by start, and keeps
      the order of equal starts. */
  lemma SortsFormatted(traces: seq<Value>, formatted: seq<FormattedTrace>)
    requires Collect(traces, FormatStep) == Some(formatted)
    ensures |SortDesc(formatted, StartKey)| == |traces|
    ensures multiset(SortDesc(formatted, StartKey)) == multiset(Map(traces, Format))
    ensures SortedDesc(SortDesc(formatted, StartKey), StartKey)
    ensures forall k: string :: KeyClass(SortDesc(formatted, StartKey), StartKey, k) == KeyClass(Map(traces, Format), StartKey, k)
  {
    CollectIsFilterMap(traces, FormatStep, _ => true, Format);
    FilterAll(traces, _ => true);
    SortPermutes(formatted, StartKey);
    SortSorted(formatted, StartKey);
    forall k: string
      ensures KeyClass(SortDesc(formatted, StartKey), StartKey, k) == KeyClass(formatted, StartKey, k)
    {
      SortStable(formatted, StartKey, k);
    }
    assert |SortDesc(formatted, StartKey)| == |multiset(formatted)| == |traces|;
  }

  /** The formatting loop and the sort, with a missing start sorting as "". */
  function FormatAndSort(traces: seq<Value>): (r: Result<seq<FormattedTrace>>)
    ensures r.Fail? ==> r == Fail(Malformed)
    ensures r.Ok? <==> forall i | 0 <= i < |traces| :: FormatStep(traces[i]).Emit?
    ensures r.Ok? ==> |r.value| == |traces|
    ensures r.Ok? ==> multiset(r.value) == multiset(Map(traces, Format))
    ensures r.Ok? ==> SortedDesc(r.value, StartKey)
    ensures r.Ok? ==> forall k: string :: KeyClass(r.value, StartKey, k) == KeyClass(Map(traces, Format), StartKey, k)
  {
    CollectIsFilterMap(traces, FormatStep, _ => true, Format);
    match Collect(traces, FormatStep)
    case None => Fail(Malformed)
    case Some(formatted) =>
      SortsFormatted(traces, formatted);
      Ok(SortDesc(formatted, StartKey))
  }

  /** The code as written: the key function falls back to "" only when the
      formatted dict lacks "timestamp", which never happens, so a trace
      without a start has the key None; with two or more traces Python's
      sort compares it and raises TypeError. */
  function FormatAndSortAsWritten(traces: seq<Value>): (r: Result<seq<FormattedTrace>>)
    ensures r.Ok? ==> r == FormatAndSort(traces)
    ensures FormatAndSort(traces).Fail? ==> r == FormatAndSort(traces)
    ensures FormatAndSort(traces).Ok? ==>
      (r == Fail(Malformed) <==> |traces| >= 2 && exists i | 0 <= i < |traces| :: !Format(traces[i]).start.Str?)
  {
    match FormatAndSort(traces)
    case Fail(e) => Fail(e)
    case Ok(sorted) =>
      UndatedSurvivesSort(traces);
      if |sorted| >= 2 && exists i | 0 <= i < |sorted| :: !sorted[i].start.Str? then Fail(Malformed)
      else Ok(sorted)
  }

  /** The sorted listing holds a trace without a string start exactly when
      the input does. */
  lemma UndatedSurvivesSort(traces: seq<Value>)
    requires FormatAndSort(traces).Ok?
    ensures var sorted := FormatAndSort(traces).value;
      (exists i | 0 <= i < |sorted| :: !sorted[i].start.Str?)
      <==> exists i | 0 <= i < |traces| :: !Format(traces[i]).start.Str?
  {
    var sorted := FormatAndSort(traces).value;
    var formatted := Map(traces, Format);
    if i :| 0 <= i < |sorted| && !sorted[i].start.Str? {
      assert sorted[i] in multiset(formatted);
      var j :| 0 <= j < |formatted| && formatted[j] == sorted[i];
      assert !Format(traces[j]).start.Str?;
    }
    if j :| 0 <= j < |traces| && !Format(traces[j]).start.Str? {
      assert formatted[j] in multiset(sorted);
      var i :| 0 <= i < |sorted| && sorted[i] == formatted[j];
      assert !sorted[i].start.Str?;
    }
  }

  /** What list_traces does with the reply's result: a falsy result is an
      empty list, not an error; otherwise the traces are formatted and sorted
      by `listing`. */
  function Respond(result: Value, listing: seq<Value> -> Result<seq<FormattedTrace>>): Result<seq<FormattedTrace>> {
    if !Truthy(result) then Ok([])
    else if !result.Arr? then Fail(Malformed)
    else listing(result.items)
  }

  /** list_traces with the corrected sort: the handshake, the command, the
      reply, and the listing of its result. */
  function ListTraces(token: Option<string>, automationId: Option<string>, incoming: seq<Value>): (s: Session<seq<FormattedTrace>>)
    ensures s.sent == Converse(token, ListCommand(automationId), incoming).sent
    ensures Reply(token, ListCommand(automationId), incoming, Obj(map[])).Fail? ==> s.outcome == Fail(Reply(token, ListCommand(automationId), incoming, Obj(map[])).error)
    ensures Reply(token, ListCommand(automationId), incoming, Obj(map[])).Ok? && !Truthy(Reply(token, ListCommand(automationId), incoming, Obj(map[])).value) ==> s.outcome == Ok([])
    ensures Reply(token, ListCommand(automationId), incoming, Obj(map[])).Ok? && Truthy(Reply(token, ListCommand(automationId), incoming, Obj(map[])).value) && !Reply(token, ListCommand(automationId), incoming, Obj(map[])).value.Arr? ==> s.outcome == Fail(Malformed)
    ensures Reply(token, ListCommand(automationId), incoming, Obj(map[])).Ok? && Truthy(Reply(token, ListCommand(automationId), incoming, Obj(map[])).value) && Reply(token, ListCommand(automationId), incoming, Obj(map[])).value.Arr? ==>
      s.outcome == FormatAndSort(Reply(token, ListCommand(automationId), incoming, Obj(map[])).value.items)
  {
    Session(Converse(token, ListCommand(automationId), incoming).sent,
      match Reply(token, ListCommand(automationId), incoming, Obj(map[]))
      case Fail(e) => Fail(e)
      case Ok(result) => Respond(result, FormatAndSort))
  }

  /** list_traces as written, with the sort that fails on a missing start. */
  function ListTracesAsWritten(token: Option<string>, automationId: Option<string>, incoming: seq<Value>): (s: Session<seq<FormattedTrace>>)
    ensures s.sent == Converse(token, ListCommand(automationId), incoming).sent
    ensures s.outcome.Ok? ==> s.outcome == ListTraces(token, automationId, incoming).outcome
    ensures Reply(token, ListCommand(automationId), incoming, Obj(map[])).Fail? ==> s.outcome == Fail(Reply(token, ListCommand(automationId), incoming, Obj(map[])).error)
    ensures Reply(token, ListCommand(automationId), incoming, Obj(map[])).Ok? && !Truthy(Reply(token, ListCommand(automationId), incoming, Obj(map[])).value) ==> s.outcome == Ok([])
    ensures Reply(token, ListCommand(automationId), incoming, Obj(map[])).Ok? && Truthy(Reply(token, ListCommand(automationId), incoming, Obj(map[])).value) && !Reply(token, ListCommand(automationId), incoming, Obj(map[])).value.Arr? ==> s.outcome == Fail(Malformed)
    ensures Reply(token, ListCommand(automationId), incoming, Obj(map[])).Ok? && Truthy(Reply(token, ListCommand(automationId), incoming, Obj(map[])).value) && Reply(token, ListCommand(automationId), incoming, Obj(map[])).value.Arr? ==>
      s.outcome == FormatAndSortAsWritten(Reply(token, ListCommand(automationId), incoming, Obj(map[])).value.items)
  {
    Session(Converse(token, ListCommand(automationId), incoming).sent,
      match Reply(token, ListCommand(automationId), incoming, Obj(map[]))
      case Fail(e) => Fail(e)
      case Ok(result) => Respond(result, FormatAndSortAsWritten))
  }

  /** Two traces, one without a start timestamp: the code as written fails
      the whole listing, the corrected sort lists both, the dated one first. */
  lemma MissingStartBreaksListing()
    ensures
      var dated := Obj(map["item_id" := Str("a"), "timestamp" := Obj(map["start" := Str("2024-01-01T00:00:00Z")])]);
      var undated := Obj(map["item_id" := Str("a")]);
      && FormatAndSortAsWritten([undated, dated]) == Fail(Malformed)
      && FormatAndSort([undated, dated]).Ok?
      && |FormatAndSort([undated, dated]).value| == 2
      && FormatAndSort([undated, dated]).value[0].start == Str("2024-01-01T00:00:00Z")
  {
    var dated := Obj(map["item_id" := Str("a"), "timestamp" := Obj(map["start" := Str("2024-01-01T00:00:00Z")])]);
    var undated := Obj(map["item_id" := Str("a")]);
    var traces := [undated, dated];
    assert FormatStep(undated).Emit? && FormatStep(dated).Emit?;
    var fd := Format(dated);
    var fu := Format(undated);
    assert traces[1..] == [dated];
    assert FormatStep(undated) == Emit(fu) && FormatStep(dated) == Emit(fd);
    assert Collect([dated], FormatStep) == Some([fd]) by {
      assert [dated][1..] == [];
      assert Collect([], FormatStep) == Some([]);
      assert [fd] + [] == [fd];
    }
    assert Collect(traces, FormatStep) == Some([fu] + [fd]);
    assert StrLt(StartKey(fu), StartKey(fd));
    assert [fu, fd][1..] == [fd];
    assert SortDesc([fd], StartKey) == [fd] by {
      assert [fd][1..] == [];
    }
    assert Insert(fu, [fd], StartKey) == [fd, fu] by {
      assert [fd][1..] == [];
    }
    assert SortDesc([fu, fd], StartKey) == [fd, fu];
  }

  /** With every start a string the two agree. */
  lemma AsWrittenAgreesOnDatedTraces(traces: seq<Value>)
    requires forall i | 0 <= i < |traces| :: FormatStep(traces[i]).Emit? && Format(traces[i]).start.Str?
    ensures FormatAndSortAsWritten(traces) == FormatAndSort(traces)
  {
    var sorted := FormatAndSort(traces).value;
    var formatted := Map(traces, Format);
    forall i | 0 <= i < |sorted|
      ensures sorted[i].start.Str?
    {
      assert sorted[i] in multiset(formatted);
    }
  }

  /** After a successful handshake, both versions list the array the
      reply's result holds. */
  lemma ListsReplyResult(token: string, automationId: Option<string>, incoming: seq<Value>, traces: seq<Value>)
    requires token != "" && |incoming| >= 3
    requires TypeOf(incoming[0]) == Some(Str(AuthRequired))
    requires TypeOf(incoming[1]) == Some(Str(AuthOk))
    requires incoming[2] == Obj(map["success" := Bool(true), "result" := Arr(traces)])
    requires traces != []
    ensures ListTraces(Some(token), automationId, incoming).outcome == FormatAndSort(traces)
    ensures ListTracesAsWritten(Some(token), automationId, incoming).outcome == FormatAndSortAsWritten(traces)
  {
    AnswersAfterHandshake(Some(token), ListCommand(automationId), incoming);
    UnwrapsEnvelope(Arr(traces), Null, Obj(map[]));
  }

  /** The same two traces as a whole listing: the script as written exits
      with an error, the corrected one lists both. */
  lemma ListingWithUndatedTrace(token: string, incoming: seq<Value>)
    requires token != "" && |incoming| == 3
    requires incoming[0] == Obj(map["type" := Str(AuthRequired)])
    requires incoming[1] == Obj(map["type" := Str(AuthOk)])
    requires incoming[2] == Obj(map["success" := Bool(true), "result" := Arr([
      Obj(map["item_id" := Str("a")]),
      Obj(map["item_id" := Str("a"), "timestamp" := Obj(map["start" := Str("2024-01-01T00:00:00Z")])])])])
    ensures ListTracesAsWritten(Some(token), None, incoming).outcome == Fail(Malformed)
    ensures ListTraces(Some(token), None, incoming).outcome.Ok?
    ensures |ListTraces(Some(token), None, incoming).outcome.value| == 2
  {
    var dated := Obj(map["item_id" := Str("a"), "timestamp" := Obj(map["start" := Str("2024-01-01T00:00:00Z")])]);
    var undated := Obj(map["item_id" := Str("a")]);
    assert TypeOf(incoming[0]) == Some(Str(AuthRequired));
    assert TypeOf(incoming[1]) == Some(Str(AuthOk));
    ListsReplyResult(token, None, incoming, [undated, dated]);
    MissingStartBreaksListing();
  }
}
