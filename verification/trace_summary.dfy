/** ha_trace_summary.py: fetch every trace of one automation and aggregate
    its runs into success counts, error patterns and last steps. */
module TraceSummary {
  import opened Options
  import opened Json
  import opened Outcomes
  import opened Seqs
  import opened Handshake
  import opened AutomationIds

  /** The trace/list command; this script always names the item. */
  function SummaryCommand(itemId: string): (c: Value)
    ensures c.Obj? && c.fields.Keys == {"id", "type", "domain", "item_id"}
    ensures c.fields["id"] == Num(1) && c.fields["type"] == Str("trace/list") && c.fields["domain"] == Str(Domain)
    ensures c.fields["item_id"] == Str(itemId)
  {
    Obj(map["id" := Num(1), "type" := Str("trace/list"), "domain" := Str(Domain), "item_id" := Str(itemId)])
  }

  function SelectStep(itemId: string, trace: Value): Step<Value> {
    match Lookup(trace, "item_id", Null)
    case None => Raise
    case Some(v) => if v == Str(itemId) then Emit(trace) else Skip
  }

  /** The runs of the automation among the listed traces: a falsy result and
      an empty selection both end the script as not found. */
  function SelectRuns(result: Value, itemId: string): (r: Result<seq<Value>>)
    ensures !Truthy(result) ==> r == Fail(NotFound)
    ensures r.Ok? ==>
      result.Arr? && r.value != [] && IsSubseq(r.value, result.items)
      && (forall t | t in r.value :: Attr(t, "item_id") == Str(itemId))
      && r.value == Filter(result.items, t => Attr(t, "item_id") == Str(itemId))
    ensures result.Arr? && Truthy(result) && (forall t | t in result.items :: t.Obj?) ==>
      (r.Ok? <==> exists t | t in result.items :: Attr(t, "item_id") == Str(itemId))
    ensures r.Ok? ==> forall t | t in result.items :: t.Obj?
    ensures result.Arr? && (forall t | t in result.items :: t.Obj? && Attr(t, "item_id") != Str(itemId)) ==>
      r == Fail(NotFound)
    ensures Truthy(result) && !result.Arr? ==> r == Fail(Malformed)
    ensures result.Arr? && Truthy(result) && (exists t | t in result.items :: !t.Obj?) ==> r == Fail(Malformed)
  {
    if !Truthy(result) then Fail(NotFound)
    else if !result.Arr? then Fail(Malformed)
    else
      var step := t => SelectStep(itemId, t);
      var keep := t => Attr(t, "item_id") == Str(itemId);
      CollectIsFilter(result.items, step, keep);
      match Collect(result.items, step)
      case None => Fail(Malformed)
      case Some(runs) => if runs == [] then Fail(NotFound) else Ok(runs)
  }

  datatype RunClass = Succeeded | Failed | Uncounted

  /** The success test comes first, so a finished run counts as successful
      even when it carries an error. */
  function Classify(run: Value): RunClass {
    var state := Attr(run, "state");
    var execution := Attr(run, "script_execution");
    if state == Str("stopped") && execution == Str("finished") then Succeeded
    else if Truthy(Attr(run, "error")) then Failed
    else if state == Str("stopped") && execution != Str("finished") then Failed
    else Uncounted
  }

  /** The presence check of calculate_execution_time: both timestamps truthy. */
  predicate HasTiming(run: Value) {
    Truthy(Attr(Nested(run, "timestamp"), "start")) && Truthy(Attr(Nested(run, "timestamp"), "finish"))
  }

  predicate HasError(run: Value) {
    Truthy(Attr(run, "error"))
  }

  /** `run.get("last_step", "unknown")`. */
  function LastStep(run: Value): Value {
    if run.Obj? then Get(run.fields, "last_step", Str("unknown")) else Null
  }

  /** One iteration of the loop completes: the run and its timestamps are
      dicts and its last step can be a dict key. */
  predicate Summarizable(run: Value) {
    run.Obj? && Nested(run, "timestamp").Obj? && Hashable(LastStep(run))
  }

  /** The loop's accumulators. The error and last-step frequency dicts are
      multisets: a key's count is its multiplicity. */
  datatype Tally = Tally(successful: nat, failed: nat, timed: seq<Value>, errors: multiset<Value>, lastSteps: multiset<Value>)

  /** The loop of calculate_summary. Counting commutes, so the fold adds the
      first run last, and the timed runs are consed in input order. */
  function Count(runs: seq<Value>): (t: Option<Tally>)
    ensures t.Some? <==> forall i | 0 <= i < |runs| :: Summarizable(runs[i])
    ensures t.Some? ==> |t.value.lastSteps| == |runs|
  {
    if runs == [] then Some(Tally(0, 0, [], multiset{}, multiset{}))
    else if !Summarizable(runs[0]) then None
    else match Count(runs[1..])
      case None => None
      case Some(rest) =>
        var run := runs[0];
        var kind := Classify(run);
        Some(Tally(
          rest.successful + (if kind == Succeeded then 1 else 0),
          rest.failed + (if kind == Failed then 1 else 0),
          (if HasTiming(run) then [run] else []) + rest.timed,
          (if HasError(run) then multiset{Attr(run, "error")} else multiset{}) + rest.errors,
          multiset{LastStep(run)} + rest.lastSteps))
  }

  /** The two counters count the runs of their class. */
  lemma {:induction false} CountClasses(runs: seq<Value>)
    requires Count(runs).Some?
    ensures Count(runs).value.successful == |Filter(runs, run => Classify(run) == Succeeded)|
    ensures Count(runs).value.failed == |Filter(runs, run => Classify(run) == Failed)|
  {
    if runs != [] {
      CountClasses(runs[1..]);
    }
  }

  /** The timed runs are exactly the runs with both timestamps, in order;
      a run missing one contributes nothing rather than a zero duration. */
  lemma {:induction false} CountTimed(runs: seq<Value>)
    requires Count(runs).Some?
    ensures Count(runs).value.timed == Filter(runs, HasTiming)
  {
    if runs != [] {
      CountTimed(runs[1..]);
    }
  }

  /** Each error value is counted once per run that carries it. */
  lemma {:induction false} CountErrors(runs: seq<Value>)
    requires Count(runs).Some?
    ensures Count(runs).value.errors == multiset(Map(Filter(runs, HasError), run => Attr(run, "error")))
  {
    if runs != [] {
      CountErrors(runs[1..]);
      var f := Filter(runs[1..], HasError);
      if HasError(runs[0]) {
        assert Filter(runs, HasError) == [runs[0]] + f;
        assert Map([runs[0]] + f, run => Attr(run, "error")) == [Attr(runs[0], "error")] + Map(f, run => Attr(run, "error"));
      }
    }
  }

  /** Each run's last step is counted once, "unknown" standing in for a
      missing one. */
  lemma {:induction false} CountLastSteps(runs: seq<Value>)
    requires Count(runs).Some?
    ensures Count(runs).value.lastSteps == multiset(Map(runs, LastStep))
  {
    if runs != [] {
      CountLastSteps(runs[1..]);
      assert Map(runs, LastStep) == [LastStep(runs[0])] + Map(runs[1..], LastStep);
    }
  }

  /** `success_rate`: "0%" without runs, otherwise successful/total as a
      percentage (the decimal rendering is not modelled). */
  datatype Rate = NoRuns | Percent(successful: nat, total: nat)

  /** `error_patterns`: the literal "No errors", or the frequency of each error. */
  datatype ErrorReport = NoErrors | Patterns(counts: multiset<Value>)

  datatype Summary = Summary(
    automationId: string,
    totalRuns: nat,
    successfulRuns: nat,
    failedRuns: nat,
    successRate: Rate,
    timed: seq<Value>,
    lastSteps: multiset<Value>,
    errorPatterns: ErrorReport)

  /** calculate_summary. */
  function CalculateSummary(runs: seq<Value>, automationId: string): (r: Result<Summary>)
    ensures r.Fail? ==> r == Fail(Malformed)
    ensures r.Ok? <==> forall i | 0 <= i < |runs| :: Summarizable(runs[i])
    ensures r.Ok? ==> r.value.automationId == automationId && r.value.totalRuns == |runs|
    ensures r.Ok? ==> r.value.successfulRuns + r.value.failedRuns <= r.value.totalRuns
    ensures r.Ok? ==> |r.value.lastSteps| == r.value.totalRuns
    ensures r.Ok? ==> (r.value.successRate == NoRuns <==> runs == [])
    ensures r.Ok? && runs != [] ==> r.value.successRate == Percent(r.value.successfulRuns, |runs|)
    ensures r.Ok? ==> (r.value.errorPatterns == NoErrors <==> forall i | 0 <= i < |runs| :: !HasError(runs[i]))
    ensures r.Ok? && r.value.errorPatterns.Patterns? ==>
      |r.value.errorPatterns.counts| == |Filter(runs, HasError)|
    ensures r.Ok? ==> r.value.successfulRuns == |Filter(runs, run => Classify(run) == Succeeded)|
    ensures r.Ok? ==> r.value.failedRuns == |Filter(runs, run => Classify(run) == Failed)|
    ensures r.Ok? ==> r.value.timed == Filter(runs, HasTiming)
    ensures r.Ok? ==> r.value.lastSteps == multiset(Map(runs, LastStep))
    ensures r.Ok? && r.value.errorPatterns.Patterns? ==>
      r.value.errorPatterns.counts == multiset(Map(Filter(runs, HasError), run => Attr(run, "error")))
  {
    match Count(runs)
    case None => Fail(Malformed)
    case Some(t) =>
      var total := |runs|;
      CountClasses(runs);
      ClassesPartition(runs);
      CountTimed(runs);
      CountErrors(runs);
      CountLastSteps(runs);
      FilterEmpty(runs, HasError);
      Ok(Summary(
        automationId,
        total,
        t.successful,
        t.failed,
        if total > 0 then Percent(t.successful, total) else NoRuns,
        t.timed,
        t.lastSteps,
        if t.errors == multiset{} then NoErrors else Patterns(t.errors)))
  }

  /** Every run is in exactly one class. */
  lemma {:induction false} ClassesPartition(runs: seq<Value>)
    ensures |Filter(runs, run => Classify(run) == Succeeded)|
          + |Filter(runs, run => Classify(run) == Failed)|
          + |Filter(runs, run => Classify(run) == Uncounted)| == |runs|
  {
    if runs != [] {
      ClassesPartition(runs[1..]);
    }
  }

  /** A stopped, finished run is a success whatever error it carries. */
  lemma SuccessTakesPrecedence(run: Value)
    requires Attr(run, "state") == Str("stopped") && Attr(run, "script_execution") == Str("finished")
    ensures Classify(run) == Succeeded
  {
  }

  /** The runs in neither bucket are exactly those that are not stopped and
      carry no error. */
  lemma UncountedRuns(run: Value)
    ensures Classify(run) == Uncounted <==> Attr(run, "state") != Str("stopped") && !HasError(run)
  {
  }

  /** The runs counted as failures are exactly the unsuccessful ones that are
      stopped or carry an error. */
  lemma FailedRuns(run: Value)
    ensures Classify(run) == Failed <==>
      !(Attr(run, "state") == Str("stopped") && Attr(run, "script_execution") == Str("finished"))
      && (HasError(run) || Attr(run, "state") == Str("stopped"))
  {
  }

  /** Runs without a last step are counted under "unknown". */
  lemma {:induction false} UnknownLastSteps(runs: seq<Value>)
    requires forall i | 0 <= i < |runs| :: runs[i].Obj?
    ensures multiset(Map(runs, LastStep))[Str("unknown")]
         >= |Filter(runs, (r: Value) => r.Obj? && "last_step" !in r.fields)|
  {
    if runs != [] {
      var missing := (r: Value) => r.Obj? && "last_step" !in r.fields;
      UnknownLastSteps(runs[1..]);
      assert Map(runs, LastStep) == [LastStep(runs[0])] + Map(runs[1..], LastStep);
      assert multiset(Map(runs, LastStep)) == multiset{LastStep(runs[0])} + multiset(Map(runs[1..], LastStep));
      assert |Filter(runs, missing)| <= |Filter(runs[1..], missing)| + 1;
      assert missing(runs[0]) ==> LastStep(runs[0]) == Str("unknown");
    }
  }

  /** get_trace_summary: the handshake, the trace/list command for the
      stripped id, the reply, the run selection and the aggregation. */
  function GetTraceSummary(token: Option<string>, automationId: string, incoming: seq<Value>): (s: Session<Summary>)
    ensures s.sent == Converse(token, SummaryCommand(ItemId(automationId)), incoming).sent
    ensures Reply(token, SummaryCommand(ItemId(automationId)), incoming, Arr([])).Fail? ==> s.outcome == Fail(Reply(token, SummaryCommand(ItemId(automationId)), incoming, Arr([])).error)
    ensures Reply(token, SummaryCommand(ItemId(automationId)), incoming, Arr([])).Ok? && SelectRuns(Reply(token, SummaryCommand(ItemId(automationId)), incoming, Arr([])).value, ItemId(automationId)).Fail? ==> s.outcome == Fail(SelectRuns(Reply(token, SummaryCommand(ItemId(automationId)), incoming, Arr([])).value, ItemId(automationId)).error)
    ensures Reply(token, SummaryCommand(ItemId(automationId)), incoming, Arr([])).Ok? && SelectRuns(Reply(token, SummaryCommand(ItemId(automationId)), incoming, Arr([])).value, ItemId(automationId)).Ok? ==> s.outcome == CalculateSummary(SelectRuns(Reply(token, SummaryCommand(ItemId(automationId)), incoming, Arr([])).value, ItemId(automationId)).value, automationId)
    ensures s.outcome.Ok? ==> s.outcome.value.totalRuns >= 1
  {
    Session(Converse(token, SummaryCommand(ItemId(automationId)), incoming).sent,
      match Reply(token, SummaryCommand(ItemId(automationId)), incoming, Arr([]))
      case Fail(e) => Fail(e)
      case Ok(result) =>
        match SelectRuns(result, ItemId(automationId))
        case Fail(e) => Fail(e)
        case Ok(runs) => CalculateSummary(runs, automationId))
  }

  /** A handshake that succeeds and a reply that wraps `traces`. */
  lemma ListedReply(token: string, command: Value, incoming: seq<Value>, traces: seq<Value>)
    requires token != "" && |incoming| >= 3
    requires TypeOf(incoming[0]) == Some(Str(AuthRequired))
    requires TypeOf(incoming[1]) == Some(Str(AuthOk))
    requires incoming[2] == Obj(map["success" := Bool(true), "result" := Arr(traces)])
    ensures Converse(Some(token), command, incoming).outcome == Ok(incoming[2])
    ensures Unwrap(incoming[2], Arr([])) == Ok(Arr(traces))
  {
    AnswersAfterHandshake(Some(token), command, incoming);
    UnwrapsEnvelope(Arr(traces), Null, Arr([]));
  }

  /** After a successful handshake whose reply lists dict traces, the summary
      covers exactly the traces of this automation, in order; with none of
      them the script reports not found. */
  lemma SummarizesListedRuns(token: string, automationId: string, incoming: seq<Value>, traces: seq<Value>)
    requires token != "" && |incoming| >= 3
    requires TypeOf(incoming[0]) == Some(Str(AuthRequired))
    requires TypeOf(incoming[1]) == Some(Str(AuthOk))
    requires incoming[2] == Obj(map["success" := Bool(true), "result" := Arr(traces)])
    requires forall t | t in traces :: t.Obj?
    ensures (exists t | t in traces :: Attr(t, "item_id") == Str(ItemId(automationId))) ==>
      GetTraceSummary(Some(token), automationId, incoming).outcome
        == CalculateSummary(Filter(traces, t => Attr(t, "item_id") == Str(ItemId(automationId))), automationId)
    ensures (forall t | t in traces :: Attr(t, "item_id") != Str(ItemId(automationId))) ==>
      GetTraceSummary(Some(token), automationId, incoming).outcome == Fail(NotFound)
  {
    var itemId := ItemId(automationId);
    ListedReply(token, SummaryCommand(itemId), incoming, traces);
    var runs := SelectRuns(Arr(traces), itemId);
    if exists t | t in traces :: Attr(t, "item_id") == Str(itemId) {
      assert traces != [];
      assert runs.Ok?;
    } else {
      assert runs == Fail(NotFound);
    }
  }

  /** Two summarizable runs, neither timed, the second the only one with an
      error: the tally adds up their classes, error and last steps. */
  lemma CountTwo(a: Value, b: Value)
    requires Summarizable(a) && Summarizable(b) && !HasTiming(a) && !HasTiming(b)
    requires !HasError(a) && HasError(b)
    ensures Count([a, b]) == Some(Tally(
      (if Classify(a) == Succeeded then 1 else 0) + (if Classify(b) == Succeeded then 1 else 0),
      (if Classify(a) == Failed then 1 else 0) + (if Classify(b) == Failed then 1 else 0),
      [],
      multiset{Attr(b, "error")},
      multiset{LastStep(a), LastStep(b)}))
  {
    assert [b][1..] == [];
    var empty := Count([]);
    assert empty == Some(Tally(0, 0, [], multiset{}, multiset{}));
    assert Count([b]).Some?;
    var cb := Count([b]).value;
    assert cb.timed == [];
    assert cb.errors == multiset{Attr(b, "error")};
    assert cb.lastSteps == multiset{LastStep(b)};
    assert Count([b]) == Some(Tally(
      if Classify(b) == Succeeded then 1 else 0,
      if Classify(b) == Failed then 1 else 0,
      [],
      multiset{Attr(b, "error")},
      multiset{LastStep(b)}));
    assert [a, b][1..] == [b];
    var cab := Count([a, b]).value;
    assert cab.timed == [];
    assert cab.errors == multiset{Attr(b, "error")};
    assert cab.lastSteps == multiset{LastStep(a), LastStep(b)};
  }

  /** The summary is read off the tally. */
  lemma SummaryOfTally(runs: seq<Value>, automationId: string, t: Tally)
    requires runs != [] && Count(runs) == Some(t) && t.errors != multiset{}
    ensures CalculateSummary(runs, automationId)
      == Ok(Summary(automationId, |runs|, t.successful, t.failed, Percent(t.successful, |runs|),
                    t.timed, t.lastSteps, Patterns(t.errors)))
  {
  }

  lemma FinishedRun(run: Value)
    requires run == Obj(map["state" := Str("stopped"), "script_execution" := Str("finished")])
    ensures Summarizable(run) && Classify(run) == Succeeded && !HasTiming(run) && !HasError(run)
    ensures LastStep(run) == Str("unknown")
  {
    assert "timestamp" !in run.fields && "last_step" !in run.fields && "error" !in run.fields;
  }

  lemma StoppedWithError(run: Value)
    requires run == Obj(map["state" := Str("stopped"), "script_execution" := Str("error"), "error" := Str("x")])
    ensures Summarizable(run) && Classify(run) == Failed && !HasTiming(run) && HasError(run)
    ensures LastStep(run) == Str("unknown") && Attr(run, "error") == Str("x")
  {
    assert "timestamp" !in run.fields && "last_step" !in run.fields;
  }

  /** One finished run and one stopped run with an error: one success, one
      failure, a rate of 1 in 2. */
  lemma TwoRunExample()
    ensures
      var ok := Obj(map["state" := Str("stopped"), "script_execution" := Str("finished")]);
      var bad := Obj(map["state" := Str("stopped"), "script_execution" := Str("error"), "error" := Str("x")]);
      var r := CalculateSummary([ok, bad], "automation.a");
      r.Ok? && r.value.totalRuns == 2 && r.value.successfulRuns == 1 && r.value.failedRuns == 1
      && r.value.successRate == Percent(1, 2)
      && r.value.errorPatterns == Patterns(multiset{Str("x")})
      && r.value.lastSteps == multiset{Str("unknown"), Str("unknown")}
  {
    var ok := Obj(map["state" := Str("stopped"), "script_execution" := Str("finished")]);
    var bad := Obj(map["state" := Str("stopped"), "script_execution" := Str("error"), "error" := Str("x")]);
    FinishedRun(ok);
    StoppedWithError(bad);
    CountTwo(ok, bad);
    SummaryOfTally([ok, bad], "automation.a", Count([ok, bad]).value);
  }
}
