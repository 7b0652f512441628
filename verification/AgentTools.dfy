/**
 One batch of tool calls of an assistant message: error classification, repeated-failure counting,
 and what stops the rest of the batch.
 */
module AgentTools {
  import opened Common

  // -------------------------------------------------------------------- classification

  // What json.loads makes of an output; `errorType` is empty when absent or falsy.
  datatype Json =
    | NotJson
    | NotAnObject
    | Object(okIsFalse: bool, hasError: bool, errorType: string, fatalIsTrue: bool, approval: Option<Ask>)

  // An approval request in an output: its id as text, and the tool it names, empty when that is no text.
  datatype Ask = Ask(id: string, tool: string)

  // A request that is bound to the call that made it.
  datatype Request = Request(id: string, tool: string, callId: string)

  datatype Output = Output(text: string, json: Json)

  const Markers: seq<string> :=
    ["safety_blocked", "forbidden", "permission_denied", "path_escape", "persistence_error", "cancelled"]

  predicate IsFatalType(errorType: string) {
    errorType in {"forbidden", "permission_denied", "path_escape", "safety_blocked", "cancelled",
                  "persistence_error", "internal_error"}
  }

  function FirstMarker(text: string, markers: seq<string>): Option<string> {
    if markers == [] then None
    else if Contains(text, markers[0]) then Some(markers[0])
    else FirstMarker(text, markers[1..])
  }

  function DetectFatalMarker(text: string): Option<string> { FirstMarker(Lower(text), Markers) }

  predicate SaysError(text: string) { "(error:" <= Lower(TrimLeft(text)) }

  predicate StructuredError(json: Json) {
    json.Object? && (json.okIsFalse || json.hasError || json.errorType != "" || json.fatalIsTrue)
  }

  // An empty status is as good as none.
  predicate HasStatus(status: Option<string>) { status.Some? && status.value != "" }

  predicate ConfirmedError(output: Output, status: Option<string>) {
    HasStatus(status) || StructuredError(output.json) || SaysError(output.text)
  }

  predicate CallLayerError(status: Option<string>) { status == Some("json") || status == Some("dispatch") }

  // The fatal flag and the error type; the first rule that applies decides.
  function ClassifyToolError(output: Output, status: Option<string>): (bool, string) {
    if status == Some("blocked") then (true, "blocked")
    else if ConfirmedError(output, status) && DetectFatalMarker(output.text).Some? then
      (true, DetectFatalMarker(output.text).value)
    else if CallLayerError(status) then (false, status.value)
    else if output.json.Object? then
      if output.json.fatalIsTrue then
        (true, if output.json.errorType != "" then output.json.errorType else "fatal_flagged")
      else if IsFatalType(output.json.errorType) then (true, output.json.errorType)
      else if output.json.errorType != "" then (false, output.json.errorType)
      else if output.json.hasError || output.json.okIsFalse then (false, "unknown_error")
      else (false, "")
    else (false, "")
  }

  // How the batch loop reads a classification without status: no type means success.
  predicate CountsAsSuccess(output: Output, status: Option<string>) {
    ClassifyToolError(output, status).1 == "" && !HasStatus(status)
  }

  lemma {:induction false} MarkerIsContained(text: string, markers: seq<string>)
    ensures FirstMarker(text, markers).Some? <==> exists m :: m in markers && Contains(text, m)
    ensures FirstMarker(text, markers).Some? ==>
              FirstMarker(text, markers).value in markers && Contains(text, FirstMarker(text, markers).value)
  {
    if markers != [] {
      MarkerIsContained(text, markers[1..]);
      assert markers == [markers[0]] + markers[1..];
      assert markers[0] in markers;
    }
  }

  predicate Marked(text: string) { exists m :: m in Markers && Contains(Lower(text), m) }

  /** An error is fatal exactly when the tool was blocked, a confirmed error's text holds a fatal marker,
      or - unless the call itself failed - the object says so.  Normal output is never fatal, whatever
      words it holds. */
  lemma FatalExactlyWhen(output: Output, status: Option<string>)
    ensures ClassifyToolError(output, status).0 <==>
              || status == Some("blocked")
              || (ConfirmedError(output, status) && Marked(output.text))
              || (!CallLayerError(status) && output.json.Object?
                  && (output.json.fatalIsTrue || IsFatalType(output.json.errorType)))
    ensures !ConfirmedError(output, status) ==> !ClassifyToolError(output, status).0
  {
    MarkerIsContained(Lower(output.text), Markers);
  }

  /** Where the type of an error comes from: the status of a blocked call, a marker its text holds, the status
      of a call that failed itself, or what the object says of itself - in this order. */
  lemma TypeComesFrom(output: Output, status: Option<string>)
    ensures var errorType := ClassifyToolError(output, status).1;
            if status == Some("blocked") then errorType == "blocked"
            else if ConfirmedError(output, status) && Marked(output.text) then
              errorType in Markers && Contains(Lower(output.text), errorType)
            else if CallLayerError(status) then Some(errorType) == status
            else if !output.json.Object? then errorType == ""
            else if output.json.errorType != "" then errorType == output.json.errorType
            else if output.json.fatalIsTrue then errorType == "fatal_flagged"
            else (errorType == "unknown_error" <==> output.json.hasError || output.json.okIsFalse)
                 && (errorType == "" <==> errorType != "unknown_error")
  {
    MarkerIsContained(Lower(output.text), Markers);
  }

  /** A call without a status counts as a success exactly when its output is not a structured error and
      does not announce an error text with a fatal marker.  So a plain "(error: ...)" text counts as
      success. */
  lemma SuccessExactlyWhen(output: Output, status: Option<string>)
    requires !HasStatus(status)
    ensures CountsAsSuccess(output, status) <==>
              !StructuredError(output.json) && !(SaysError(output.text) && Marked(output.text))
  {
    MarkersAreNotEmpty();
    MarkerIsContained(Lower(output.text), Markers);
  }

  lemma MarkersAreNotEmpty()
    ensures forall m :: m in Markers ==> m != ""
  {
  }

  /** A confirmed text error that clears the failure counts all the same. */
  lemma TextErrorClearsCounts()
    ensures var output := Output("(error: gone)", NotJson);
            ConfirmedError(output, None) && CountsAsSuccess(output, None)
  {
    var text := "(error: gone)";
    assert TrimLeft(text) == text && Lower(text) == text;
    forall m | m in Markers ensures !Contains(text, m) {
      LacksFirstLetter(text, m);
    }
    SuccessExactlyWhen(Output(text, NotJson), None);
  }

  lemma LacksFirstLetter(text: string, part: string)
    requires part != "" && part[0] !in text
    ensures !Contains(text, part)
  {
    forall i: nat ensures !StandsAt(text, part, i) {
      if i + |part| <= |text| {
        assert text[i] == text[i..i + |part|][0];
      }
    }
  }

  // -------------------------------------------------------------------- one call and what became of it

  datatype ToolCall = ToolCall(id: string, name: string, hasObjectArguments: bool)

  datatype ToolMessage = ToolMessage(callId: string, content: Output)

  // How far a call got: from not at all to the tool itself having run.
  datatype How = NotStarted | Skipped | Deferred | Rejected | Hooked | Dispatched

  datatype Verdict =
    | Cancelled
    | Ignored                       // skipped behind a fatal call
    | Blocked                       // by a control hook; not counted
    | Approval(request: Request)
    | Fatal(errorType: string)
    | Failed(errorType: string)
    | Succeeded

  // What the outside answers while one call is looked at: the cancel checks before, behind the parsing and
  // behind the control hooks, the parsing's rejection, the hooks' reason to block, an exception of the dispatch,
  // and the tool's own answer.
  datatype Outside = Outside(
    cancelled: bool, rejection: Option<(Output, Option<string>)>, cancelledThen: bool, block: Option<string>,
    cancelledLast: bool, raised: Option<string>, answer: Output, status: Option<string>)

  datatype CallTrace = CallTrace(
    call: ToolCall, outside: Outside, how: How, output: Output, status: Option<string>, verdict: Verdict)

  predicate Started(how: How) { how.Rejected? || how.Hooked? || how.Dispatched? }

  // The verdict on a call that was rejected or dispatched and asked for no approval.
  function Judge(output: Output, status: Option<string>): Verdict {
    var (fatal, errorType) := ClassifyToolError(output, status);
    if errorType == "cancelled" || status == Some("cancelled") then Cancelled
    else if fatal then Fatal(errorType)
    else if errorType == "" && !HasStatus(status) then Succeeded
    else Failed(if errorType != "" then errorType else status.value)
  }

  // The condition of `FatalExactlyWhen`.
  predicate EndsTheRun(output: Output, status: Option<string>) {
    || status == Some("blocked")
    || (ConfirmedError(output, status) && Marked(output.text))
    || (!CallLayerError(status) && output.json.Object?
        && (output.json.fatalIsTrue || IsFatalType(output.json.errorType)))
  }

  /** What a call that ran leads to, read off its output and status: it is cancelled when the status or the
      type of its error says so, ends the run under the condition of a fatal error, succeeds without any
      sign of an error, and is counted as a failure otherwise. */
  lemma VerdictExactlyWhen(output: Output, status: Option<string>)
    ensures var v := Judge(output, status);
            && (v.Cancelled? <==> status == Some("cancelled") || ClassifyToolError(output, status).1 == "cancelled")
            && (v.Fatal? <==> EndsTheRun(output, status) && !v.Cancelled?)
            && (v.Succeeded? <==> !HasStatus(status) && !StructuredError(output.json)
                                  && !(SaysError(output.text) && Marked(output.text)))
            && (v.Cancelled? || v.Fatal? || v.Succeeded? || (v.Failed? && v.errorType != ""))
            && (HasStatus(status) && ClassifyToolError(output, status).1 == "" && v.Failed? ==>
                  v.errorType == status.value)
  {
    FatalExactlyWhen(output, status);
    if !HasStatus(status) {
      SuccessExactlyWhen(output, status);
    }
    MarkersAreNotEmpty();
    MarkerIsContained(Lower(output.text), Markers);
  }

  predicate Judged(t: CallTrace) {
    match t.how
    case NotStarted => t.verdict.Cancelled? && t.output == CancelledOutput
    case Skipped => t.verdict.Ignored? && t.output == SkippedOutput
    case Deferred => t.verdict.Approval? && t.output == DeferredOutput
    case Hooked => t.verdict.Blocked? && t.output.json.NotJson?
    case _ =>
      var ask := ExtractApproval(t.output, t.call);
      t.verdict == if ask.Some? then Approval(ask.value) else Judge(t.output, t.status)
  }

  // The approval id that an output names, whatever else it says.
  function AskedId(output: Output): Option<string> {
    if output.json.Object? && output.json.approval.Some? then Some(output.json.approval.value.id) else None
  }

  // A request counts only with an id of the right form and for the very tool that was called.
  function ExtractApproval(output: Output, call: ToolCall): Option<Request> {
    if AskedId(output).None? then None
    else
      var ask := output.json.approval.value;
      if "approval_" <= ask.id && ask.tool != "" && ask.tool == call.name && call.hasObjectArguments
      then Some(Request(ask.id, ask.tool, call.id))
      else None
  }

  // An output asks for this approval: under an id of the right form, for the very tool that was called.
  predicate Requests(output: Output, call: ToolCall, request: Request) {
    && output.json.Object? && output.json.approval.Some? && call.hasObjectArguments
    && var ask := output.json.approval.value;
       && "approval_" <= ask.id && ask.tool == call.name && ask.tool != ""
       && request == Request(ask.id, ask.tool, call.id)
  }

  // Nothing kept the call from being answered.
  predicate Answered(how: How) { how.Rejected? || how.Dispatched? }

  /** A call that was answered asks for an approval exactly when its output requests one, and is judged by its
      output otherwise; any other says why it was not answered, and never counts. */
  lemma VerdictFollows(t: CallTrace)
    requires Judged(t)
    ensures Answered(t.how) ==> (t.verdict.Approval? <==> exists r :: Requests(t.output, t.call, r))
    ensures Answered(t.how) && t.verdict.Approval? ==> Requests(t.output, t.call, t.verdict.request)
    ensures Answered(t.how) && !t.verdict.Approval? ==> t.verdict == Judge(t.output, t.status)
    ensures !Answered(t.how) ==> !t.verdict.Fatal? && !t.verdict.Failed? && !t.verdict.Succeeded?
    ensures t.how.NotStarted? ==> t.verdict.Cancelled?
    ensures t.how.Skipped? ==> t.verdict.Ignored?
    ensures t.how.Deferred? ==> t.verdict.Approval?
    ensures t.how.Hooked? ==> t.verdict.Blocked?
  {
    hide Judge, ClassifyToolError;
    VerdictExactlyWhen(t.output, t.status);
    var asked := ExtractApproval(t.output, t.call);
    assert asked.Some? ==> Requests(t.output, t.call, asked.value);
    assert forall r :: Requests(t.output, t.call, r) ==> asked == Some(r);
  }

  // The type of a fatal verdict as the result of the run reports it.
  function ReportedType(v: Verdict): string {
    var errorType := if v.Fatal? || v.Failed? then v.errorType else "";
    if errorType != "" then errorType else "tool_error"
  }

  // The call that ran and asked for this approval.
  predicate Asks(t: CallTrace, request: Request) {
    Started(t.how) && t.verdict == Approval(request) && ExtractApproval(t.output, t.call) == Some(request)
  }

  const TOOL_ERROR_LIMIT := 3

  // How often the tool failed with this type since it last succeeded, over all calls ever made.
  function Failures(history: seq<CallTrace>, tool: string, errorType: string): nat {
    if history == [] then 0
    else
      var t := history[|history| - 1];
      var before := Failures(history[..|history| - 1], tool, errorType);
      if t.call.name != tool then before
      else if t.verdict.Succeeded? then 0
      else if t.verdict == Failed(errorType) then before + 1
      else before
  }

  // The tool failed at i in this way, and has not succeeded since.
  predicate StillCounts(history: seq<CallTrace>, i: int, tool: string, errorType: string) {
    && 0 <= i < |history| && history[i].call.name == tool && history[i].verdict == Failed(errorType)
    && forall j :: i < j < |history| && history[j].call.name == tool ==> !history[j].verdict.Succeeded?
  }

  ghost function Counting(history: seq<CallTrace>, tool: string, errorType: string): set<int> {
    set i | 0 <= i < |history| && StillCounts(history, i, tool, errorType)
  }

  lemma CountingGrows(before: seq<CallTrace>, t: CallTrace, tool: string, errorType: string)
    ensures var was := Counting(before, tool, errorType);
            Counting(before + [t], tool, errorType) ==
              if t.call.name == tool && t.verdict.Succeeded? then {}
              else if t.call.name == tool && t.verdict == Failed(errorType) then was + {|before|}
              else was
  {
    var history := before + [t];
    assert history[|before|] == t && forall j :: 0 <= j < |before| ==> history[j] == before[j];
    forall i | 0 <= i < |before|
      ensures StillCounts(history, i, tool, errorType) <==>
              StillCounts(before, i, tool, errorType) && !(t.call.name == tool && t.verdict.Succeeded?)
    {
      if StillCounts(history, i, tool, errorType) && t.call.name == tool {
        assert !history[|before|].verdict.Succeeded?;
      }
    }
  }

  /** The counter of a tool and an error type is the number of such failures since the tool last succeeded. */
  lemma {:induction false} FailuresAreCounted(history: seq<CallTrace>, tool: string, errorType: string)
    ensures Failures(history, tool, errorType) == |Counting(history, tool, errorType)|
  {
    if history == [] {
      assert Counting(history, tool, errorType) == {};
    } else {
      var before, t := history[..|history| - 1], history[|history| - 1];
      FailuresAreCounted(before, tool, errorType);
      assert history == before + [t];
      CountingGrows(before, t, tool, errorType);
    }
  }

  // This call ends the run: fatal by itself, or the limit is reached with it.
  predicate IsFatal(before: seq<CallTrace>, t: CallTrace) {
    t.verdict.Fatal?
    || (t.verdict.Failed? && Failures(before + [t], t.call.name, t.verdict.errorType) >= TOOL_ERROR_LIMIT)
  }

  predicate Halts(before: seq<CallTrace>, t: CallTrace) {
    t.verdict.Cancelled? || t.verdict.Approval? || IsFatal(before, t)
  }

  datatype BatchResult =
    | GoOn
    | BatchCancelled
    | AwaitingApproval(request: Request)
    | ToolError(errorType: string)

  // -------------------------------------------------------------------- several runs of one runner

  predicate Recovers(own: seq<CallTrace>, tool: string) {
    exists i :: 0 <= i < |own| && own[i].call.name == tool && own[i].verdict.Succeeded?
  }

  // The failures of earlier runs count on until the tool succeeds.
  lemma {:induction false} FailuresSplit(before: seq<CallTrace>, own: seq<CallTrace>, tool: string, errorType: string)
    ensures Failures(before + own, tool, errorType) ==
              Failures(own, tool, errorType) + if Recovers(own, tool) then 0 else Failures(before, tool, errorType)
  {
    if own == [] {
      assert before + own == before;
    } else {
      var n := |own| - 1;
      var all := before + own;
      assert all[|all| - 1] == own[n] && all[..|all| - 1] == before + own[..n];
      FailuresSplit(before, own[..n], tool, errorType);
      assert Recovers(own[..n], tool) ==> Recovers(own, tool);
      assert own[n].call.name == tool && own[n].verdict.Succeeded? ==> Recovers(own, tool);
      if Recovers(own, tool) && !Recovers(own[..n], tool) {
        var i :| 0 <= i < |own| && own[i].call.name == tool && own[i].verdict.Succeeded?;
        assert i < n ==> own[..n][i] == own[i];
      }
    }
  }

  /** The counters are not reset between runs: a failure ends the run exactly when it would by this run's
      own calls alone, or when the tool has not yet succeeded in this run and the failures of earlier
      runs make up the limit. */
  lemma LimitOutlivesTheRun(before: seq<CallTrace>, own: seq<CallTrace>, t: CallTrace)
    requires t.verdict.Failed?
    ensures var tool, errorType := t.call.name, t.verdict.errorType;
            IsFatal(before + own, t) <==>
              || IsFatal(own, t)
              || (!Recovers(own, tool)
                  && Failures(before, tool, errorType) + Failures(own, tool, errorType) >= TOOL_ERROR_LIMIT - 1)
  {
    FailuresSplit(before, own, t.call.name, t.verdict.errorType);
    assert (before + own + [t])[..|before + own|] == before + own;
    assert (own + [t])[..|own|] == own;
  }

  // The names of the called tools, each once, in the order of their first call.
  function Names(own: seq<CallTrace>): seq<string> {
    if own == [] then []
    else
      var names := Names(own[..|own| - 1]);
      if own[|own| - 1].call.name in names then names else names + [own[|own| - 1].call.name]
  }

  lemma NamesGrow(own: seq<CallTrace>, t: CallTrace)
    ensures var names := Names(own);
            Names(own + [t]) == if t.call.name in names then names else names + [t.call.name]
  {
    assert (own + [t])[..|own|] == own;
  }

  // The counters hold, per tool and error type, the failures since the tool last succeeded.
  ghost predicate Counted(counts: map<(string, string), nat>, history: seq<CallTrace>) {
    forall tool, errorType ::
      Failures(history, tool, errorType) == if (tool, errorType) in counts then counts[(tool, errorType)] else 0
  }

  // -------------------------------------------------------------------- what a batch shows

  // Nothing is started behind a call that halts the batch.
  predicate NothingStartsAfter(history: seq<CallTrace>, batch: nat)
    requires batch <= |history|
  {
    forall i, j :: batch <= i < j < |history| && Halts(history[..i], history[i]) ==> !Started(history[j].how)
  }

  // A request for approval is the only one, and stays with every later call that is not cancelled.
  predicate OneApproval(history: seq<CallTrace>, batch: nat)
    requires batch <= |history|
  {
    forall i, j :: batch <= i < j < |history| && history[i].verdict.Approval? ==>
      history[j].verdict == history[i].verdict || history[j].verdict.Cancelled?
  }

  predicate AnyFatal(history: seq<CallTrace>, batch: nat)
    requires batch <= |history|
  {
    exists i :: batch <= i < |history| && IsFatal(history[..i], history[i])
  }

  // A call of the batch ended it with this type of error.
  predicate FatalWith(history: seq<CallTrace>, batch: nat, errorType: string)
    requires batch <= |history|
  {
    exists i :: batch <= i < |history| && IsFatal(history[..i], history[i]) && ReportedType(history[i].verdict) == errorType
  }

  predicate AnyCancelled(history: seq<CallTrace>, batch: nat)
    requires batch <= |history|
  {
    exists i :: batch <= i < |history| && history[i].verdict.Cancelled?
  }

  predicate AnyApproval(history: seq<CallTrace>, batch: nat)
    requires batch <= |history|
  {
    exists i :: batch <= i < |history| && history[i].verdict.Approval?
  }

  // -------------------------------------------------------------------- the batch

  class ToolRunner {
    var errorCounts: map<(string, string), nat>
    var toolsUsed: seq<string>
    ghost var history: seq<CallTrace>
    ghost var runStart: nat   // where the current run begins in the history

    // The counters are the failures since the last success over all runs, the names those of this run.
    ghost predicate Valid()
      reads this
    {
      runStart <= |history| && toolsUsed == Names(history[runStart..]) && Counted(errorCounts, history)
    }

    constructor ()
      ensures Valid() && history == [] && errorCounts == map[]
    {
      errorCounts, toolsUsed, history, runStart := map[], [], [], 0;
    }

    // What a run resets of the runner: the names of the tools used, and not the counters.
    method StartRun()
      requires Valid()
      modifies this`toolsUsed, this`runStart
      ensures Valid() && toolsUsed == [] && runStart == |history|
    {
      toolsUsed := [];
      runStart := |history|;
    }

    method ClearToolErrorCounts(tool: string)
      modifies this`errorCounts
      ensures errorCounts == map k | k in old(errorCounts) && k.0 != tool :: old(errorCounts)[k]
    {
      errorCounts := map k | k in errorCounts && k.0 != tool :: errorCounts[k];
    }

    method NoteTool(tool: string)
      modifies this`toolsUsed
      ensures toolsUsed == if tool in old(toolsUsed) then old(toolsUsed) else old(toolsUsed) + [tool]
    {
      if tool !in toolsUsed {
        toolsUsed := toolsUsed + [tool];
      }
    }

    // The counters behind a verdict; true when the call is fatal.
    method Count(t: CallTrace) returns (fatal: bool)
      requires Counted(errorCounts, history)
      modifies this`errorCounts
      ensures Counted(errorCounts, history + [t])
      ensures fatal <==> IsFatal(history, t)
    {
      assert (history + [t])[..|history|] == history;
      fatal := t.verdict.Fatal?;
      if t.verdict.Succeeded? {
        ClearToolErrorCounts(t.call.name);
      } else if t.verdict.Failed? {
        var key := (t.call.name, t.verdict.errorType);
        errorCounts := errorCounts[key := (if key in errorCounts then errorCounts[key] else 0) + 1];
        fatal := errorCounts[key] >= TOOL_ERROR_LIMIT;
      }
    }

    // The bookkeeping of one call.
    method Record(t: CallTrace) returns (fatal: bool)
      requires Valid()
      modifies this
      ensures Valid() && history == old(history) + [t] && runStart == old(runStart)
      ensures fatal <==> IsFatal(old(history), t)
    {
      hide Counted, IsFatal;
      NamesGrow(history[runStart..], t);
      assert (history + [t])[runStart..] == history[runStart..] + [t];
      NoteTool(t.call.name);
      fatal := Count(t);
      history := history + [t];
    }

    // What happens to one call before its result is judged.
    method StartCall(call: ToolCall, o: Outside, cancelled: bool, failed: bool, deferred: bool)
      returns (how: How, output: Output, status: Option<string>)
      ensures cancelled ==> how.NotStarted?
      ensures failed && !how.NotStarted? ==> how.Skipped?
      ensures deferred && !failed && !how.NotStarted? ==> how.Deferred?
      ensures how.Skipped? ==> failed
      ensures how.Deferred? ==> deferred
      ensures how.NotStarted? ==> output == CancelledOutput
      ensures how.Skipped? ==> output == SkippedOutput
      ensures how.Deferred? ==> output == DeferredOutput
      ensures how.Hooked? ==> output.json.NotJson?
      ensures Goes(call, o, cancelled, failed, deferred, how, output, status)
    {
      if cancelled || o.cancelled {
        return NotStarted, CancelledOutput, Some("cancelled");
      }
      if failed {
        return Skipped, SkippedOutput, None;
      }
      if deferred {
        return Deferred, DeferredOutput, None;
      }
      if o.cancelledThen {
        return NotStarted, CancelledOutput, Some("cancelled");
      }
      if o.rejection.Some? {
        return Rejected, o.rejection.value.0, o.rejection.value.1;
      }
      if o.cancelledLast {
        return NotStarted, CancelledOutput, Some("cancelled");
      }
      if o.block.Some? {
        return Hooked, HookOutput(call.name, o.block.value), Some("hook_blocked");
      }
      if o.raised.Some? {
        return Dispatched, RaisedOutput(call.name, o.raised.value), Some("dispatch");
      }
      return Dispatched, o.answer, o.status;
    }

    // One turn of the loop.
    method RunCall(call: ToolCall, outside: Outside, state: BatchState, ghost batch: nat)
      returns (message: ToolMessage, next: BatchState)
      requires Valid() && batch <= |history| && Tracks(state, history, batch)
      modifies this
      ensures Valid() && |history| == |old(history)| + 1 && old(history) <= history && runStart == old(runStart)
      ensures Tracks(next, history, batch)
      ensures Answers(message, call, history[|old(history)|])
      ensures history[|old(history)|].outside == outside && WentBehind(history, batch, |old(history)|)
    {
      hide Goes;
      hide Failures, NothingStartsAfter, OneApproval, AnyFatal, AnyApproval, AnyCancelled, FatalWith, ApprovalIs;
      hide ClassifyToolError, ExtractApproval, Names, Counted;
      var how, output, status := StartCall(call, outside, state.cancelled, state.fatalType.Some?, state.approval.Some?);
      message := ToolMessage(call.id, output);
      var ask := ExtractApproval(output, call);
      var verdict := match how
        case NotStarted => Cancelled
        case Skipped => Ignored
        case Deferred => Approval(state.approval.value)
        case Hooked => Blocked
        case _ => if ask.Some? then Approval(ask.value) else Judge(output, status);
      var t := CallTrace(call, outside, how, output, status, verdict);
      assert (history + [t])[..|history|] == history;
      CallAppended(history, batch, state, t);
      var fatal := Record(t);
      next := state.(cancelled := state.cancelled || verdict.Cancelled?);
      if verdict.Approval? {
        next := next.(approval := Some(verdict.request));
      } else if fatal {
        next := next.(fatalType := Some(verdict.errorType));
      }
    }

    /** Runs a batch: one message per call, in order and with its id; nothing starts behind a call that
        halts; at most one approval; cancellation wins over approval and approval over failure, and
        the batch is a tool error exactly when a call was fatal or failed the same way three times
        since that tool last succeeded. */
    method ProcessToolCalls(calls: seq<ToolCall>, outside: seq<Outside>, cancelSeen: bool)
      returns (messages: seq<ToolMessage>, result: BatchResult)
      requires Valid() && |outside| == |calls|
      modifies this
      ensures Valid() && old(history) <= history && runStart == old(runStart)
      ensures AnswersBatch(history, |old(history)|, calls, outside, messages)
      ensures NothingStartsAfter(history, |old(history)|) && OneApproval(history, |old(history)|)
      ensures result.BatchCancelled? <==> AnyCancelled(history, |old(history)|) || cancelSeen
      ensures result.AwaitingApproval? <==>
                AnyApproval(history, |old(history)|) && !AnyCancelled(history, |old(history)|) && !cancelSeen
      ensures result.ToolError? <==>
                && AnyFatal(history, |old(history)|) && !AnyApproval(history, |old(history)|)
                && !AnyCancelled(history, |old(history)|) && !cancelSeen
      ensures result.ToolError? ==> FatalWith(history, |old(history)|, result.errorType)
      ensures result.AwaitingApproval? ==> exists k: nat :: AskedByOne(history, |old(history)|, k, result.request)
    {
      messages := [];
      ghost var batch := |history|;
      var state := BatchState(None, None, false);
      assert Tracks(state, history, batch);
      assert AnswersBatch(history, batch, calls[..0], outside[..0], []);
      hide Valid, NothingStartsAfter, OneApproval, AnyFatal, AnyApproval, AnyCancelled, Answers, AskedByOne;
      hide WentBehind, FatalWith, ApprovalIs, Tracks, AnswersBatch;
      for i := 0 to |calls|
        invariant Valid() && old(history) <= history && runStart == old(runStart) && batch <= |history|
        invariant Tracks(state, history, batch) && AnswersBatch(history, batch, calls[..i], outside[..i], messages)
      {
        ghost var before := history;
        var message;
        message, state := RunCall(calls[i], outside[i], state, batch);
        BatchGrows(before, history, batch, calls, outside, messages, i, message);
        messages := messages + [message];
      }
      assert calls[..|calls|] == calls && outside[..|calls|] == outside;
      Tracked(state, history, batch);
      if state.cancelled || cancelSeen {
        result := BatchCancelled;
      } else if state.approval.Some? {
        result := AwaitingApproval(state.approval.value);
        OnlyOneAsks(history, batch, state, calls, outside, messages);
      } else if state.fatalType.Some? {
        result := ToolError(if state.fatalType.value != "" then state.fatalType.value else "tool_error");
      } else {
        result := GoOn;
      }
    }
  }

  // One message per call, in order: the call went as the calls before it and the outside let it.
  predicate AnswersBatch(history: seq<CallTrace>, batch: nat, calls: seq<ToolCall>, outside: seq<Outside>,
                         messages: seq<ToolMessage>)
  {
    && |calls| == |outside| == |messages| && batch + |calls| == |history|
    && (forall i: nat :: i < |calls| ==>
          Answers(messages[i], calls[i], history[batch + i]) && history[batch + i].outside == outside[i])
    && forall k: nat :: batch <= k < |history| ==> WentBehind(history, batch, k)
  }

  lemma BatchGrows(before: seq<CallTrace>, after: seq<CallTrace>, batch: nat, calls: seq<ToolCall>,
                   outside: seq<Outside>, messages: seq<ToolMessage>, i: nat, m: ToolMessage)
    requires i < |calls| == |outside| && AnswersBatch(before, batch, calls[..i], outside[..i], messages)
    requires before <= after && |after| == |before| + 1
    requires Answers(m, calls[i], after[|before|]) && after[|before|].outside == outside[i]
    requires WentBehind(after, batch, |before|)
    ensures AnswersBatch(after, batch, calls[..i + 1], outside[..i + 1], messages + [m])
  {
    hide Answers, WentBehind;
    forall k: nat | batch <= k < |before| ensures WentBehind(after, batch, k) {
      WentBehindStays(before, after, batch, k);
    }
    forall j: nat | j < i
      ensures Answers(messages[j], calls[j], after[batch + j]) && after[batch + j].outside == outside[j]
    {
      assert Answers(messages[j], calls[..i][j], before[batch + j]) && before[batch + j].outside == outside[..i][j];
    }
  }

  // Anything may come from outside.
  method AskOutside(n: nat) returns (outside: seq<Outside>)
    ensures |outside| == n
  {
    outside := [];
    for i := 0 to n
      invariant |outside| == i
    {
      var o: Outside := *;
      outside := outside + [o];
    }
  }

  // The loop's variables and what they say of the batch so far.
  datatype BatchState = BatchState(fatalType: Option<string>, approval: Option<Request>, cancelled: bool)

  predicate Tracks(s: BatchState, history: seq<CallTrace>, batch: nat)
    requires batch <= |history|
  {
    && NothingStartsAfter(history, batch) && OneApproval(history, batch)
    && (s.cancelled <==> AnyCancelled(history, batch))
    && (s.approval.Some? <==> AnyApproval(history, batch))
    && (s.fatalType.Some? <==> AnyFatal(history, batch))
    && (s.approval.Some? ==> s.fatalType.None? && ApprovalIs(history, batch, s.approval.value))
    && (s.fatalType.Some? ==>
          FatalWith(history, batch, if s.fatalType.value != "" then s.fatalType.value else "tool_error"))
    && (s.approval.Some? ==> exists i :: batch <= i < |history| && Asks(history[i], s.approval.value))
  }

  lemma Tracked(s: BatchState, history: seq<CallTrace>, batch: nat)
    requires batch <= |history| && Tracks(s, history, batch)
    ensures NothingStartsAfter(history, batch) && OneApproval(history, batch)
    ensures s.cancelled <==> AnyCancelled(history, batch)
    ensures s.approval.Some? <==> AnyApproval(history, batch)
    ensures s.fatalType.Some? <==> AnyFatal(history, batch)
    ensures s.approval.Some? ==> s.fatalType.None?
    ensures s.fatalType.Some? ==>
              FatalWith(history, batch, if s.fatalType.value != "" then s.fatalType.value else "tool_error")
  {
  }

  // How a call goes: cancelled as soon as the batch or a check says so, skipped or deferred behind a call that
  // failed or asked, and otherwise as far as the parsing, the hooks and the tool let it.
  predicate Goes(call: ToolCall, o: Outside, cancelled: bool, failed: bool, deferred: bool,
                 how: How, output: Output, status: Option<string>)
  {
    && (how.NotStarted? <==>
          || cancelled || o.cancelled
          || (!failed && !deferred && (o.cancelledThen || (o.rejection.None? && o.cancelledLast))))
    && (how.Skipped? <==> !how.NotStarted? && failed)
    && (how.Deferred? <==> !how.NotStarted? && !failed && deferred)
    && (how.Rejected? ==> o.rejection == Some((output, status)))
    && (how.Hooked? ==> o.rejection.None? && o.block.Some? && output == HookOutput(call.name, o.block.value))
    && (how.Dispatched? ==> o.rejection.None? && o.block.None?)
    && (how.Dispatched? && o.raised.None? ==> output == o.answer && status == o.status)
    && (how.Dispatched? && o.raised.Some? ==> output == RaisedOutput(call.name, o.raised.value))
  }

  // The i-th call went as the calls of its batch before it let it.
  predicate WentBehind(history: seq<CallTrace>, batch: nat, i: nat)
    requires batch <= i < |history|
  {
    var before, t := history[..i], history[i];
    Goes(t.call, t.outside, AnyCancelled(before, batch), AnyFatal(before, batch), AnyApproval(before, batch),
         t.how, t.output, t.status)
  }

  lemma WentBehindStays(before: seq<CallTrace>, after: seq<CallTrace>, batch: nat, i: nat)
    requires batch <= i < |before| && before <= after && WentBehind(before, batch, i)
    ensures WentBehind(after, batch, i)
  {
    hide Goes, AnyFatal, AnyCancelled, AnyApproval;
    assert before[..i] == after[..i];
  }

  const CancelledOutput :=
    Output("(cancelled: tool call was not started because the current run was cancelled)", NotJson)

  const SkippedOutput := Output("(error: skipped because an earlier tool call failed)", NotJson)

  const DeferredOutput := Output("", Object(true, true, "approval_deferred", false, None))

  function HookOutput(tool: string, reason: string): Output {
    Output("(error: tool " + tool + " blocked by Hook: " + reason + ")", NotJson)
  }

  function RaisedOutput(tool: string, reason: string): Output {
    Output("(error: tool " + tool + " failed: " + reason + ")", NotJson)
  }

  predicate Answers(m: ToolMessage, call: ToolCall, t: CallTrace) {
    m.callId == call.id && t.call == call && m.content == t.output && Judged(t)
  }

  predicate ApprovalIs(history: seq<CallTrace>, batch: nat, request: Request)
    requires batch <= |history|
  {
    forall i :: batch <= i < |history| && history[i].verdict.Approval? ==> history[i].verdict.request == request
  }

  // The k-th call of the batch ran and asked; every later one was deferred behind it.
  predicate AskedByOne(history: seq<CallTrace>, batch: nat, k: nat, request: Request)
    requires batch <= |history|
  {
    && batch + k < |history| && Asks(history[batch + k], request)
    && forall j :: batch + k < j < |history| ==> history[j].how.Deferred? && history[j].output == DeferredOutput
  }

  lemma OnlyOneAsks(history: seq<CallTrace>, batch: nat, s: BatchState, calls: seq<ToolCall>,
                    outside: seq<Outside>, messages: seq<ToolMessage>)
    requires batch <= |history| && Tracks(s, history, batch) && AnswersBatch(history, batch, calls, outside, messages)
    requires s.approval.Some? && !s.cancelled
    ensures exists k: nat :: AskedByOne(history, batch, k, s.approval.value)
  {
    hide Failures, ExtractApproval, Judge;
    var i :| batch <= i < |history| && Asks(history[i], s.approval.value);
    forall j | i < j < |history| ensures history[j].how.Deferred? && history[j].output == DeferredOutput {
      assert Answers(messages[j - batch], calls[j - batch], history[batch + (j - batch)]);
      assert Halts(history[..i], history[i]);
    }
    assert AskedByOne(history, batch, i - batch, s.approval.value);
  }

  // What a call adds to the state; it was not started behind a halt and repeats a pending request.
  lemma CallAppended(history: seq<CallTrace>, batch: nat, s: BatchState, t: CallTrace)
    requires batch <= |history| && Tracks(s, history, batch)
    requires s.cancelled || s.approval.Some? || s.fatalType.Some? ==> !Started(t.how)
    requires s.approval.Some? ==> t.verdict == Approval(s.approval.value) || t.verdict.Cancelled?
    requires Judged(t) && (t.how.Deferred? ==> s.approval.Some?)
    requires t.verdict.Approval? && !t.how.Deferred? ==> Asks(t, t.verdict.request)
    ensures var now := history + [t];
            Tracks(
              BatchState(
                if !t.verdict.Approval? && IsFatal(history, t) then Some(t.verdict.errorType) else s.fatalType,
                if t.verdict.Approval? then Some(t.verdict.request) else s.approval,
                s.cancelled || t.verdict.Cancelled?),
              now, batch)
  {
    hide Failures, ExtractApproval, Judge;
    var now := history + [t];
    assert forall i :: 0 <= i <= |history| ==> now[..i] == history[..i];
    assert now[|history|] == t && history[..|history|] == history;
    assert forall i :: 0 <= i < |history| ==> now[i] == history[i];
  }

  /** Two runs of one runner: two failures in the first run leave it going, and the first failure of the
      second run is fatal, although that run has called the tool only once. */
  method FatalInTheNextRun(t: CallTrace) returns (runner: ToolRunner, first: bool, second: bool, next: bool)
    requires t.verdict.Failed?
    ensures fresh(runner) && runner.Valid()
    ensures !first && !second && next
    ensures runner.toolsUsed == [t.call.name] && runner.history == [t, t, t] && runner.runStart == 2
  {
    hide Failures, Names, Counted;
    runner := new ToolRunner();
    FailuresInARow(t);
    NamesGrow([], t);
    runner.StartRun();
    first := runner.Record(t);
    second := runner.Record(t);
    runner.StartRun();
    next := runner.Record(t);
    assert runner.history[2..] == [] + [t];
  }

  lemma FailuresInARow(t: CallTrace)
    requires t.verdict.Failed?
    ensures !IsFatal([], t) && !IsFatal([] + [t], t) && IsFatal([] + [t] + [t], t)
    ensures Names([]) == []
  {
    var none: seq<CallTrace> := [];
    FailuresSplit(none, [t], t.call.name, t.verdict.errorType);
    FailuresSplit([t], [t], t.call.name, t.verdict.errorType);
    FailuresSplit([t, t], [t], t.call.name, t.verdict.errorType);
    assert [t][..0] == none && none + [t] == [t] && [t] + [t] == [t, t] && [t, t] + [t] == none + [t] + [t] + [t];
  }
}
