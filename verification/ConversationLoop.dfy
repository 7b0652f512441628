/**
 One run of the conversation agent: model calls with retry and fallback, tool batches persisted as
 whole groups, and steering entries injected into the last tool result of a batch.

 The database, the model, the hooks and the cancel checker answer anything; `compress` may return
 anything.
 */
module ConversationLoop {
  import opened Common
  import opened Steering
  import opened ErrorPolicy
  import Tools = AgentTools

  // `guidance` are the entries appended to the text of a tool result.
  datatype Message =
    | User(text: string)
    | Assistant(content: string, reasoning: Option<string>, calls: seq<Tools.ToolCall>)
    | ToolResult(callId: string, output: Tools.Output, guidance: seq<Entry>)

  datatype Turn = Turn(content: string, reasoning: Option<string>, calls: seq<Tools.ToolCall>, finish: string)

  datatype Reply = Answered(turn: Turn) | Interrupted | TimedOut | Raised(status: Option<int>, message: string)

  datatype Check = Clear | Cancel | Raises

  datatype RunResult =
    | Completed(text: string)
    | CancelledRun
    | HookBlocked
    | ModelError
    | PersistenceError
    | ToolFailure(errorType: string)
    | AwaitsApproval(request: Tools.Request)
    | MaxIterations
    | InternalError
    | InvalidMailbox

  // What a model call led to: the run went on with its turn, dropped it, retried, compressed and retried,
  // or ended.
  datatype Outcome = Used | Abandoned | Failed | Compacted | GaveUp

  // A model call as it was made: what was sent, what of it was hook context, and the transcript then.
  datatype ModelCall = ModelCall(
    request: seq<Message>, temporary: seq<Message>, transcript: seq<Message>, compressed: bool, reply: Reply,
    outcome: Outcome)

  // What the loop has heard from outside: how often it looked at the cancel flag, whether a look said cancel
  // or raised, whether storing or a hook broke, and whether a hook blocked the call.
  datatype Heard = Heard(looks: nat, cancel: bool, raised: bool, broke: bool, blocked: bool)

  const NothingHeard := Heard(0, false, false, false, false)

  // Nothing heard so far stops the run.
  predicate Quiet(h: Heard) { !h.cancel && !h.raised && !h.broke && !h.blocked }

  // -------------------------------------------------------------------- the text of a tool result

  function Merged(entries: seq<Entry>): string {
    if entries == [] then ""
    else if |entries| == 1 then entries[0].text
    else entries[0].text + "\n\n" + Merged(entries[1..])
  }

  function FormatGuidance(entries: seq<Entry>): string {
    if entries == [] then "" else GUIDANCE_START + Merged(entries) + GUIDANCE_END
  }

  const GUIDANCE_START :=
    "[OUT_OF_BAND_USER_GUIDANCE]\nThe user sent the following guidance while you were working:\n"

  const GUIDANCE_END := "\n[/OUT_OF_BAND_USER_GUIDANCE]"

  // What the message says once the guidance is appended.
  function Content(m: Message): string
    requires m.ToolResult?
  {
    if m.guidance == [] then m.output.text
    else if m.output.text == "" then FormatGuidance(m.guidance)
    else m.output.text + "\n\n" + FormatGuidance(m.guidance)
  }

  lemma {:induction false} MergedHolds(entries: seq<Entry>, i: nat)
    requires i < |entries|
    ensures Contains(Merged(entries), entries[i].text)
  {
    if |entries| == 1 {
      PartOfSum("", entries[0].text, "");
      assert "" + entries[0].text + "" == entries[0].text;
    } else if i == 0 {
      PartOfSum("", entries[0].text, "\n\n" + Merged(entries[1..]));
      assert "" + entries[0].text + ("\n\n" + Merged(entries[1..])) == Merged(entries);
    } else {
      MergedHolds(entries[1..], i - 1);
      ContainedInSum(entries[0].text + "\n\n", Merged(entries[1..]), "", entries[i].text);
      assert entries[0].text + "\n\n" + Merged(entries[1..]) + "" == Merged(entries);
    }
  }

  lemma PartOfSum(a: string, part: string, b: string)
    ensures Contains(a + part + b, part)
  {
    assert (a + part + b)[|a|..|a| + |part|] == part;
    assert StandsAt(a + part + b, part, |a|);
  }

  lemma ContainedInSum(a: string, text: string, b: string, part: string)
    requires Contains(text, part)
    ensures Contains(a + text + b, part)
  {
    var i: nat :| i <= |text| && StandsAt(text, part, i);
    var all := a + text + b;
    assert all[|a| + i..|a| + i + |part|] == text[i..i + |part|];
    assert StandsAt(all, part, |a| + i);
  }

  /** Only guidance adds to the text of a result. */
  lemma ContentIsPlain(m: Message)
    requires m.ToolResult?
    ensures Content(m) == m.output.text <==> m.guidance == []
  {
    hide Merged, GUIDANCE_END;
    if m.guidance != [] {
      assert |Content(m)| >= |m.output.text| + |GUIDANCE_START|;
    }
  }

  /** The text of a result with guidance starts with what the tool answered and holds the text of every entry. */
  lemma GuidanceIsShown(m: Message, i: nat)
    requires m.ToolResult? && i < |m.guidance|
    ensures m.output.text <= Content(m) && Contains(Content(m), m.guidance[i].text)
  {
    hide GUIDANCE_START, GUIDANCE_END, Contains;
    var text := m.guidance[i].text;
    var before := if m.output.text == "" then "" else m.output.text + "\n\n";
    MergedHolds(m.guidance, i);
    ContainedInSum(GUIDANCE_START, Merged(m.guidance), GUIDANCE_END, text);
    ContainedInSum(before, FormatGuidance(m.guidance), "", text);
    assert before + FormatGuidance(m.guidance) + "" == Content(m);
  }

  // An object in JSON ends with its closing brace.
  predicate EndsLikeAnObject(text: string) {
    var last := TrimRight(text);
    last != "" && last[|last| - 1] == '}'
  }

  /** Behind guidance a result is no object any more, whatever the tool answered. */
  lemma GuidedIsNoObject(m: Message)
    requires m.ToolResult? && m.guidance != []
    ensures !EndsLikeAnObject(Content(m))
  {
    hide GUIDANCE_START, GUIDANCE_END;
    GuidanceEnds();
    LastOfSum(GUIDANCE_START + Merged(m.guidance), GUIDANCE_END);
    if m.output.text != "" {
      LastOfSum(m.output.text + "\n\n", FormatGuidance(m.guidance));
    }
    var text := Content(m);
    assert text[|text| - 1] == ']' && TrimRight(text) == text;
  }

  lemma GuidanceEnds()
    ensures GUIDANCE_END != "" && GUIDANCE_END[|GUIDANCE_END| - 1] == ']'
  {
  }

  lemma LastOfSum(a: string, b: string)
    requires b != ""
    ensures a + b != "" && (a + b)[|a + b| - 1] == b[|b| - 1]
  {
  }

  // The approval a stored result is a placeholder of.  Text with guidance behind it is no JSON any more.
  function Asks(m: Message): Option<string> {
    if m.ToolResult? && m.guidance == [] then Tools.AskedId(m.output) else None
  }

  // -------------------------------------------------------------------- transcripts

  predicate AnswersAll(results: seq<Message>, calls: seq<Tools.ToolCall>) {
    |results| == |calls|
    && forall i :: 0 <= i < |calls| ==> results[i].ToolResult? && results[i].callId == calls[i].id
  }

  // The messages of the group that starts with this one.
  function Extent(m: Message): nat { if m.Assistant? then 1 + |m.calls| else 1 }

  predicate StartsGroup(t: seq<Message>)
    requires t != []
  {
    !t[0].ToolResult? && Extent(t[0]) <= |t|
    && (t[0].Assistant? ==> AnswersAll(t[1..Extent(t[0])], t[0].calls))
  }

  // A concatenation of complete groups: an assistant with calls is followed by one result per call.
  predicate Grouped(t: seq<Message>)
    decreases |t|
  {
    t == [] || (StartsGroup(t) && Grouped(t[Extent(t[0])..]))
  }

  // All steering entries in tool results, in transcript order.
  function Guidance(t: seq<Message>): seq<Entry> {
    if t == [] then []
    else if t[0].ToolResult? then t[0].guidance + Guidance(t[1..])
    else Guidance(t[1..])
  }

  lemma {:induction false} GroupedSum(a: seq<Message>, b: seq<Message>)
    requires Grouped(a) && Grouped(b)
    ensures Grouped(a + b)
    decreases |a|
  {
    if a == [] {
      assert a + b == b;
    } else {
      var n := Extent(a[0]);
      GroupedSum(a[n..], b);
      assert (a + b)[n..] == a[n..] + b && (a + b)[1..n] == a[1..n] && (a + b)[0] == a[0];
      hide AnswersAll;
    }
  }

  lemma {:induction false} GuidanceSum(a: seq<Message>, b: seq<Message>)
    ensures Guidance(a + b) == Guidance(a) + Guidance(b)
    decreases |a|
  {
    if a == [] {
      assert a + b == b;
    } else {
      GuidanceSum(a[1..], b);
      assert (a + b)[0] == a[0] && (a + b)[1..] == a[1..] + b;
    }
  }

  lemma {:induction false} NoGuidance(t: seq<Message>)
    requires forall i :: 0 <= i < |t| ==> t[i].ToolResult? ==> t[i].guidance == []
    ensures Guidance(t) == []
  {
    if t != [] {
      NoGuidance(t[1..]);
    }
  }

  lemma CompleteGroup(assistant: Message, results: seq<Message>)
    requires assistant.Assistant? && AnswersAll(results, assistant.calls)
    ensures Grouped([assistant] + results)
  {
    var t := [assistant] + results;
    assert t[1..1 + |assistant.calls|] == results && t[1 + |assistant.calls|..] == [];
  }

  lemma PlainMessage(m: Message)
    requires m.User? || (m.Assistant? && m.calls == [])
    ensures Grouped([m]) && Guidance([m]) == []
  {
    assert [m][1..] == [];
  }

  // Results of a batch that carry the guidance in the last one only.
  predicate CarriesAtTheEnd(results: seq<Message>, hand: seq<Entry>) {
    && (hand != [] ==> results != [])
    && forall i :: 0 <= i < |results| ==>
         results[i].ToolResult? && results[i].guidance == (if i == |results| - 1 then hand else [])
  }

  // The same answer, whatever guidance it carries.
  predicate SameButGuidance(a: Message, b: Message) {
    a.ToolResult? && b.ToolResult? && a.callId == b.callId && a.output == b.output
  }

  // The transcript grew by this assistant and these answers.
  predicate Stores(before: seq<Message>, after: seq<Message>, assistant: Message, results: seq<Message>) {
    && |after| == |before| + 1 + |results| && before <= after && after[|before|] == assistant
    && forall k :: 0 <= k < |results| ==> SameButGuidance(after[|before| + 1 + k], results[k])
  }

  lemma StoresGrows(before: seq<Message>, after: seq<Message>, assistant: Message, results: seq<Message>)
    requires Stores(before, after, assistant, results)
    ensures before <= after
  {
  }

  lemma StoredSo(before: seq<Message>, assistant: Message, results: seq<Message>, injected: seq<Message>)
    requires |injected| == |results| && forall i :: 0 <= i < |results| ==> SameButGuidance(injected[i], results[i])
    ensures Stores(before, before + ([assistant] + injected), assistant, results)
    ensures assistant.Assistant? && AnswersAll(results, assistant.calls) ==> AnswersAll(injected, assistant.calls)
  {
    var after := before + ([assistant] + injected);
    assert forall k :: 0 <= k < |results| ==> after[|before| + 1 + k] == injected[k];
  }

  lemma GuidanceOfBatch(assistant: Message, results: seq<Message>, hand: seq<Entry>)
    requires assistant.Assistant? && CarriesAtTheEnd(results, hand)
    ensures Guidance([assistant] + results) == hand
  {
    var t := [assistant] + results;
    if results == [] {
      NoGuidance(t);
    } else {
      var n := |t| - 1;
      NoGuidance(t[..n]);
      GuidanceSum(t[..n], [t[n]]);
      assert t == t[..n] + [t[n]] && [t[n]][1..] == [];
    }
  }

  // -------------------------------------------------------------------- where an entry is

  // Everything the mailbox accepted has left it into `gone`, was reclaimed, or waits - in order.
  ghost predicate Conserved(m: Mailbox, gone: seq<Entry>) {
    m.accepted == gone + m.reclaimed + m.pending
  }

  lemma OthersConserve(a: Mailbox, b: Mailbox, gone: seq<Entry>)
    requires Conserved(a, gone) && OthersActed(a, b)
    ensures Conserved(b, gone)
  {
    var more := b.accepted[|a.accepted|..];
    assert b.accepted == a.accepted + more;
    assert gone + a.reclaimed + a.pending + more == gone + (a.reclaimed + a.pending + more);
    assert gone + (b.reclaimed + b.pending) == gone + b.reclaimed + b.pending;
  }

  lemma TakingConserves(m: Mailbox, gone: seq<Entry>)
    requires Conserved(m, gone) && Inv(m)
    ensures Conserved(m.(pending := []), gone + m.pending)
  {
    if m.pending != [] {
      assert gone + m.reclaimed + m.pending == gone + m.pending + m.reclaimed;
    }
  }

  lemma RestoringConserves(m: Mailbox, gone: seq<Entry>, hand: seq<Entry>)
    requires Conserved(m, gone + hand) && m.reclaimed == []
    ensures Conserved(m.(pending := hand + m.pending), gone)
  {
    assert gone + hand + m.reclaimed + m.pending == gone + m.reclaimed + (hand + m.pending);
  }

  // -------------------------------------------------------------------- the loop's own state

  // How much failure a run can still absorb.
  function Budget(r: Retry): int {
    (r.maxRetries - r.retryCount) + if r.fallbackConfigured && !r.usingFallback then 1 + r.maxRetries else 0
  }

  // The longest run of failed model calls there can be.
  function StreakBound(maxRetries: nat, fallbackConfigured: bool): nat {
    if fallbackConfigured then 2 * (maxRetries + 1) else maxRetries + 1
  }

  // The failed calls at the end of a log, back to the last one that was used, dropped or compressed.
  function Trailing(calls: seq<ModelCall>): nat {
    if calls == [] || !calls[|calls| - 1].outcome.Failed? then 0 else 1 + Trailing(calls[..|calls| - 1])
  }

  // No failure has as many failures before it as the bound.
  predicate StreaksBounded(calls: seq<ModelCall>, bound: nat) {
    forall n :: 0 <= n < |calls| && (calls[n].outcome.Failed? || calls[n].outcome.GaveUp?) ==>
      Trailing(calls[..n]) < bound
  }

  lemma CallLogged(calls: seq<ModelCall>, call: ModelCall, bound: nat)
    requires StreaksBounded(calls, bound)
    requires call.outcome.Failed? || call.outcome.GaveUp? ==> Trailing(calls) < bound
    ensures StreaksBounded(calls + [call], bound)
    ensures Trailing(calls + [call]) == if call.outcome.Failed? then Trailing(calls) + 1 else 0
  {
    var now := calls + [call];
    assert now[..|calls|] == calls && forall n :: 0 <= n < |calls| ==> now[..n] == calls[..n];
  }

  const CONTINUE_MESSAGE := "Please continue from where you left off."

  const EMPTY_TURN := "model returned empty content with no tool_calls"

  function ToolMessages(messages: seq<Tools.ToolMessage>): seq<Message> {
    seq(|messages|, i requires 0 <= i < |messages| => ToolResult(messages[i].callId, messages[i].content, []))
  }

  // What the tools of this batch answered, call by call.
  predicate AnsweredBy(results: seq<Message>, calls: seq<Tools.ToolCall>, b: Batch) {
    && |results| == |calls| && b.from + |calls| == |b.history|
    && forall k :: 0 <= k < |calls| ==>
         && b.history[b.from + k].call == calls[k]
         && results[k] == ToolResult(calls[k].id, b.history[b.from + k].output, [])
  }

  // The transcript grew by the model's turn as it came and by what the tools of its batch answered.
  ghost predicate StoresTurn(before: seq<Message>, after: seq<Message>, turn: Turn, b: Batch) {
    var reasoning := Some(if turn.reasoning.None? then "" else turn.reasoning.value);
    exists results ::
      AnsweredBy(results, turn.calls, b) && Stores(before, after, Assistant(turn.content, reasoning, turn.calls), results)
  }

  lemma TurnStored(before: seq<Message>, after: seq<Message>, turn: Turn, b: Batch, results: seq<Message>)
    requires AnsweredBy(results, turn.calls, b)
    requires Stores(before, after, Assistant(turn.content, Some(OrEmpty(turn.reasoning)), turn.calls), results)
    ensures StoresTurn(before, after, turn, b)
  {
  }

  lemma PlainResults(answers: seq<Tools.ToolMessage>, calls: seq<Tools.ToolCall>, history: seq<Tools.CallTrace>, batch: nat)
    requires batch + |calls| == |history| && |answers| == |calls|
    requires forall i :: 0 <= i < |calls| ==> Tools.Answers(answers[i], calls[i], history[batch + i])
    ensures AnswersAll(ToolMessages(answers), calls) && CarriesAtTheEnd(ToolMessages(answers), [])
    ensures forall modelCalls :: AnsweredBy(ToolMessages(answers), calls, Batch(history, batch, modelCalls))
  {
  }

  // The batch's report of who asked, read off the results as they are stored.
  lemma BatchAsks(answers: seq<Tools.ToolMessage>, calls: seq<Tools.ToolCall>, history: seq<Tools.CallTrace>,
                  batch: nat, request: Tools.Request)
    requires batch + |calls| == |history| && |answers| == |calls|
    requires forall i :: 0 <= i < |calls| ==> Tools.Answers(answers[i], calls[i], history[batch + i])
    requires exists k: nat :: Tools.AskedByOne(history, batch, k, request)
    ensures exists k: nat :: AskedBy(ToolMessages(answers), calls, k, request)
  {
    var k: nat :| Tools.AskedByOne(history, batch, k, request);
    var results := ToolMessages(answers);
    assert Tools.Answers(answers[k], calls[k], history[batch + k]);
    forall j | k < j < |results| ensures Asks(results[j]) == None {
      assert Tools.Answers(answers[j], calls[j], history[batch + j]);
    }
    assert AskedBy(results, calls, k, request);
  }

  predicate EndsWith(t: seq<Message>, text: string) {
    t != [] && t[|t| - 1].Assistant? && t[|t| - 1].content == text && t[|t| - 1].calls == []
  }

  // Results of a batch of which the k-th call asked for this approval; nothing behind it asks again.
  predicate AskedBy(results: seq<Message>, calls: seq<Tools.ToolCall>, k: nat, request: Tools.Request) {
    && |results| == |calls| && k < |calls|
    && request.id != "" && calls[k].id == request.callId && calls[k].name == request.tool
    && Asks(results[k]) == Some(request.id)
    && forall j :: k < j < |results| ==> Asks(results[j]) == None
  }

  // The transcript ends with the complete batch of the assistant message at `a`, whose k-th call asked.
  predicate AwaitsAt(t: seq<Message>, a: nat, k: nat, request: Tools.Request) {
    a < |t| && t[a].Assistant? && AskedBy(t[a + 1..], t[a].calls, k, request)
  }

  ghost predicate Awaits(t: seq<Message>, request: Tools.Request) {
    exists a: nat, k: nat :: AwaitsAt(t, a, k, request)
  }

  lemma BatchAwaits(before: seq<Message>, assistant: Message, results: seq<Message>, k: nat, request: Tools.Request)
    requires assistant.Assistant? && AskedBy(results, assistant.calls, k, request)
    ensures Awaits(before + ([assistant] + results), request)
  {
    var t := before + ([assistant] + results);
    assert t[|before| + 1..] == results;
    assert AwaitsAt(t, |before|, k, request);
  }

  // No text, but a reasoning that was cut off.
  predicate TruncatedReasoning(turn: Turn) {
    turn.finish == "length" && turn.reasoning.Some? && turn.reasoning.value != ""
  }

  // What was sent is the transcript and temporary hook context.
  predicate Faithful(c: ModelCall) {
    Grouped(c.transcript) && (!c.compressed ==> c.request == c.transcript + c.temporary)
  }

  // Whatever waited has landed, behind what had landed before, unless a closer took it.
  predicate LandedOrReclaimed(a: Mailbox, b: Mailbox, before: seq<Entry>, landed: seq<Entry>) {
    b.reclaimed == a.reclaimed ==> before + a.pending <= landed
  }

  lemma DrainedLands(a: Mailbox, drained: Mailbox, b: Mailbox, before: seq<Entry>)
    requires OthersActed(a, drained) && drained.reclaimed <= b.reclaimed
    ensures LandedOrReclaimed(a, b, before, before + drained.pending)
  {
    if b.reclaimed == a.reclaimed {
      WaitingStays(a, drained);
      assert before + a.pending <= before + drained.pending;
    }
  }

  // A tool batch as it was run: the calls from `from` on, and how many model calls there were by then.
  datatype Batch = Batch(history: seq<Tools.CallTrace>, from: nat, modelCalls: nat)

  predicate WasFatal(b: Batch) { b.from <= |b.history| && Tools.AnyFatal(b.history, b.from) }

  predicate WasCancelled(b: Batch) { b.from <= |b.history| && Tools.AnyCancelled(b.history, b.from) }

  predicate AskedApproval(b: Batch) { b.from <= |b.history| && Tools.AnyApproval(b.history, b.from) }

  // A call of the batch stops the run.
  predicate Halted(b: Batch) { WasFatal(b) || WasCancelled(b) || AskedApproval(b) }

  // How a turn may end for reasons of its own, whatever the batch did.
  predicate BrokenOff(r: RunResult) { r.CancelledRun? || r.PersistenceError? || r.InternalError? }

  // What the batch did decides how its turn ends, unless the turn was broken off.
  predicate Explains(b: Batch, ended: Option<RunResult>) {
    && (ended.None? ==> !Halted(b))
    && (ended.Some? && !BrokenOff(ended.value) ==> Halted(b) && !WasCancelled(b))
    && (ended.Some? && !BrokenOff(ended.value) && AskedApproval(b) ==> ended.value.AwaitsApproval?)
    && (ended.Some? && !BrokenOff(ended.value) && !AskedApproval(b) ==>
          ended.value.ToolFailure? && Tools.FatalWith(b.history, b.from, ended.value.errorType))
  }

  // A turn runs at most one batch, and it alone lets the run go on or stop.
  predicate TurnLogged(before: seq<Batch>, after: seq<Batch>, modelCalls: nat, ended: Option<RunResult>) {
    if after == before then ended.None? || !(ended.value.ToolFailure? || ended.value.AwaitsApproval?)
    else
      && |after| == |before| + 1 && before <= after
      && after[|before|].modelCalls == modelCalls && Explains(after[|before|], ended)
  }

  // A turn without a batch ends for other reasons than one.
  lemma NoBatchLogged(batches: seq<Batch>, modelCalls: nat, ended: Option<RunResult>)
    requires ended.None? || (!ended.value.ToolFailure? && !ended.value.AwaitsApproval?)
    ensures TurnLogged(batches, batches, modelCalls, ended)
  {
  }

  // The turn of a batch ends as the batch says or is broken off.
  lemma LogTurn(before: seq<Batch>, b: Batch, said: Option<RunResult>, ended: Option<RunResult>)
    requires said == Some(PersistenceError) || Explains(b, said)
    requires ended == said || (ended.Some? && BrokenOff(ended.value))
    ensures TurnLogged(before, before + [b], b.modelCalls, ended)
    ensures Halted(b) ==> ended.Some?
  {
    hide WasFatal, WasCancelled, AskedApproval;
    assert (before + [b])[|before|] == b;
  }

  // A run that was not broken off ends in a tool failure or a wait for an approval exactly when its last
  // batch stops it.
  predicate StopsAsLogged(batches: seq<Batch>, result: RunResult) {
    && (result.ToolFailure? || result.AwaitsApproval? ==>
          batches != [] && Explains(batches[|batches| - 1], Some(result)))
    && (batches != [] && Halted(batches[|batches| - 1]) ==>
          BrokenOff(result) || result.ToolFailure? || result.AwaitsApproval?)
  }

  // Every end of a run has its ground in what was heard, in the last model call or in the last batch.
  predicate Grounds(r: RunResult, h: Heard, modelCalls: seq<ModelCall>, batches: seq<Batch>) {
    match r
    case CancelledRun =>
      || h.cancel || (modelCalls != [] && modelCalls[|modelCalls| - 1].reply.Interrupted?)
      || (batches != [] && WasCancelled(batches[|batches| - 1]))
    case PersistenceError => h.broke
    case InternalError => h.raised
    case HookBlocked => h.blocked
    case ModelError => modelCalls != [] && modelCalls[|modelCalls| - 1].outcome.GaveUp?
    case _ => true
  }

  lemma HeardGrounds(h: Heard, modelCalls: seq<ModelCall>, batches: seq<Batch>)
    ensures h.cancel ==> Grounds(CancelledRun, h, modelCalls, batches)
    ensures h.raised ==> Grounds(InternalError, h, modelCalls, batches)
    ensures h.broke ==> Grounds(PersistenceError, h, modelCalls, batches)
    ensures h.blocked ==> Grounds(HookBlocked, h, modelCalls, batches)
  {
  }

  lemma GroundsStay(r: RunResult, h: Heard, k: Heard, modelCalls: seq<ModelCall>, batches: seq<Batch>)
    requires Grounds(r, h, modelCalls, batches) && (h.cancel ==> k.cancel) && (h.raised ==> k.raised)
    requires (h.broke ==> k.broke) && (h.blocked ==> k.blocked)
    ensures Grounds(r, k, modelCalls, batches)
  {
    hide WasCancelled;
  }

  lemma BatchGrounds(r: RunResult, h: Heard, modelCalls: seq<ModelCall>, batches: seq<Batch>)
    requires batches != [] && (r.CancelledRun? || r.AwaitsApproval? || r.ToolFailure?)
    requires r.CancelledRun? ==> h.cancel || WasCancelled(batches[|batches| - 1])
    ensures Grounds(r, h, modelCalls, batches)
  {
  }

  // What one model call made of the transcript when the run went on behind it: the turn as it came with the
  // answers of its tools, or the text with the request to continue it, or nothing.
  ghost predicate Told(before: seq<Message>, after: seq<Message>, reply: Reply, calls: nat, batches: seq<Batch>) {
    match reply
    case Answered(turn) =>
      if turn.calls != [] then
        exists b :: b in batches && b.modelCalls == calls && StoresTurn(before, after, turn, b)
      else if turn.content != "" then
        after == before + [Assistant(turn.content, turn.reasoning, []), User(CONTINUE_MESSAGE)]
      else after == before || after == before + [Assistant("", turn.reasoning, []), User(CONTINUE_MESSAGE)]
    case _ => after == before
  }

  // The transcript call by call: between two marks stands what the call between them made of it.
  ghost predicate Story(base: seq<Message>, t: seq<Message>, marks: seq<nat>, calls: seq<ModelCall>, batches: seq<Batch>) {
    && base <= t && 1 <= |marks| <= |calls| + 1 && marks[0] == |base|
    && (forall i :: 0 <= i < |marks| ==> marks[i] <= |t|)
    && forall i: nat :: i + 1 < |marks| ==> Step(t, marks, i, calls, batches)
  }

  ghost predicate Step(t: seq<Message>, marks: seq<nat>, i: nat, calls: seq<ModelCall>, batches: seq<Batch>) {
    && i + 1 < |marks| && i < |calls| && marks[i] <= marks[i + 1] <= |t|
    && Told(t[..marks[i]], t[..marks[i + 1]], calls[i].reply, i + 1, batches)
  }

  lemma StoryStarts(t: seq<Message>, calls: seq<ModelCall>, batches: seq<Batch>)
    ensures Story(t, t, [|t|], calls, batches)
  {
  }

  lemma ToldStays(before: seq<Message>, after: seq<Message>, reply: Reply, n: nat, a: seq<Batch>, b: seq<Batch>)
    requires Told(before, after, reply, n, a) && a <= b
    ensures Told(before, after, reply, n, b)
  {
    hide StoresTurn;
  }

  lemma StoryStays(base: seq<Message>, t: seq<Message>, u: seq<Message>, marks: seq<nat>,
                   c: seq<ModelCall>, d: seq<ModelCall>, a: seq<Batch>, b: seq<Batch>)
    requires Story(base, t, marks, c, a) && t <= u && c <= d && a <= b
    ensures Story(base, u, marks, d, b)
  {
    hide Told;
    forall i: nat | i + 1 < |marks| ensures Step(u, marks, i, d, b) {
      assert Step(t, marks, i, c, a);
      assert u[..marks[i]] == t[..marks[i]] && u[..marks[i + 1]] == t[..marks[i + 1]];
      ToldStays(t[..marks[i]], t[..marks[i + 1]], c[i].reply, i + 1, a, b);
    }
  }

  lemma StoryGoesOn(base: seq<Message>, t: seq<Message>, u: seq<Message>, marks: seq<nat>,
                    c: seq<ModelCall>, d: seq<ModelCall>, a: seq<Batch>, b: seq<Batch>)
    requires Story(base, t, marks, c, a) && |marks| == |c| + 1 && marks[|c|] == |t|
    requires t <= u && c <= d && |d| == |c| + 1 && a <= b && Told(t, u, d[|c|].reply, |d|, b)
    ensures Story(base, u, marks + [|u|], d, b)
  {
    hide Told;
    StoryStays(base, t, u, marks, c, d, a, b);
    var more := marks + [|u|];
    assert u[..|t|] == t && u[..|u|] == u;
    forall i: nat | i + 1 < |more| ensures Step(u, more, i, d, b) {
      if i + 1 < |marks| {
        assert Step(u, marks, i, d, b);
      }
    }
  }

  // No model call follows a batch that stops the run.
  predicate NothingFollows(batches: seq<Batch>, modelCalls: nat) {
    forall i :: 0 <= i < |batches| && Halted(batches[i]) ==> i == |batches| - 1 && batches[i].modelCalls == modelCalls
  }

  // A batch behind which another model call follows; only such a one takes steering entries.
  predicate GoesOn(results: seq<Message>, failed: bool, hasNext: bool) { !failed && results != [] && hasNext }

  function OrEmpty(text: Option<string>): string { if text.Some? then text.value else "" }

  class ConversationAgentLoop {
    const maxIterations: nat
    const maxRetries: nat
    const maxContinuations: nat
    const fallbackConfigured: bool
    const checkerMayRaise: bool   // whether the cancel checker can raise at all
    const mailbox: SteerMailbox
    const tools: Tools.ToolRunner
    var retryCount: nat
    var continuationCount: nat
    var usingFallback: bool
    var unconfirmed: seq<Entry>
    var messages: seq<Message>
    var persisted: seq<Message>
    ghost var modelCalls: seq<ModelCall>
    ghost var compressed: bool
    ghost var landed: seq<Entry>   // in persisted tool results of this run
    ghost var lost: seq<Entry>
    ghost var switches: nat
    ghost var batches: seq<Batch>
    ghost var heard: Heard

    constructor (maxIterations: nat, maxRetries: nat, maxContinuations: nat, fallbackConfigured: bool,
                 checkerMayRaise: bool, transcript: seq<Message>)
      ensures fresh(mailbox) && fresh(tools) && mailbox.Valid() && mailbox.state.New? && tools.Valid()
      ensures persisted == transcript && !usingFallback && retryCount == 0 && unconfirmed == []
      ensures this.maxRetries == maxRetries && this.fallbackConfigured == fallbackConfigured
      ensures this.checkerMayRaise == checkerMayRaise
      ensures landed == lost == [] && modelCalls == [] && !compressed && switches == 0 && batches == []
      ensures heard == NothingHeard
    {
      heard := NothingHeard;
      this.maxIterations, this.maxRetries, this.maxContinuations := maxIterations, maxRetries, maxContinuations;
      this.fallbackConfigured, this.checkerMayRaise := fallbackConfigured, checkerMayRaise;
      mailbox := new SteerMailbox();
      tools := new Tools.ToolRunner();
      retryCount, continuationCount, usingFallback := 0, 0, false;
      unconfirmed, messages, persisted := [], [], transcript;
      modelCalls, compressed, landed, lost, switches, batches := [], false, [], [], 0, [];
    }

    ghost function RetryState(): Retry
      reads this`retryCount, this`usingFallback
    {
      Retry(maxRetries, fallbackConfigured, retryCount, usingFallback)
    }

    ghost predicate RetryInv()
      reads this`retryCount, this`usingFallback, this`modelCalls, this`switches
    {
      && retryCount <= maxRetries
      && Trailing(modelCalls) + Budget(RetryState()) < StreakBound(maxRetries, fallbackConfigured)
      && StreaksBounded(modelCalls, StreakBound(maxRetries, fallbackConfigured))
      && switches + (if MayFallBack(RetryState()) then 1 else 0) <= 1
    }

    // Nothing heard stops the run, or the run ends on good grounds.
    ghost predicate Heeds(ended: Option<RunResult>)
      reads this`heard, this`modelCalls, this`batches
    {
      if ended.None? then Quiet(heard)
      else !ended.value.MaxIterations? && !ended.value.InvalidMailbox? && Grounds(ended.value, heard, modelCalls, batches)
    }

    // Between two model calls memory and database agree, unless something was compressed.
    ghost predicate Synced()
      reads this`messages, this`persisted, this`compressed
    {
      Grouped(persisted) && (!compressed ==> messages == persisted)
    }

    ghost predicate LogInv()
      reads this`modelCalls
    {
      forall i :: 0 <= i < |modelCalls| ==> Faithful(modelCalls[i])
    }

    ghost predicate Linked()
      reads mailbox, tools
    {
      mailbox.Valid() && tools.Valid() && !mailbox.state.New?
    }

    // -------------------------------------------------------------- failures of model calls

    method TryFallbackOrAbort() returns (retry: bool)
      modifies this`usingFallback, this`retryCount, this`switches
      ensures retry <==> MayFallBack(old(RetryState()))
      ensures !retry ==> RetryState() == old(RetryState()) && switches == old(switches)
      ensures retry ==> usingFallback && retryCount == 0 && switches == old(switches) + 1
    {
      if usingFallback {
        return false;
      }
      if !fallbackConfigured {
        return false;
      }
      usingFallback, retryCount := true, 0;
      switches := switches + 1;
      return true;
    }

    // Enters a call with what it led to.
    ghost method Log(call: ModelCall, outcome: Outcome)
      requires LogInv() && Faithful(call)
      requires StreaksBounded(modelCalls, StreakBound(maxRetries, fallbackConfigured))
      requires outcome.Failed? || outcome.GaveUp? ==>
                 Trailing(modelCalls) < StreakBound(maxRetries, fallbackConfigured)
      modifies this`modelCalls
      ensures LogInv() && modelCalls == old(modelCalls) + [call.(outcome := outcome)]
      ensures StreaksBounded(modelCalls, StreakBound(maxRetries, fallbackConfigured))
      ensures Trailing(modelCalls) == if outcome.Failed? then Trailing(old(modelCalls)) + 1 else 0
    {
      hide Trailing, StreaksBounded;
      CallLogged(modelCalls, call.(outcome := outcome), StreakBound(maxRetries, fallbackConfigured));
      modelCalls := modelCalls + [call.(outcome := outcome)];
    }

    /** One failed model call: compress and retry, retry, fall back, or give up.  Every retry that is
        not a compression uses up budget. */
    method HandleModelError(status: Option<int>, message: string, ghost call: ModelCall) returns (retry: bool)
      requires RetryInv() && LogInv() && Faithful(call)
      modifies this`usingFallback, this`retryCount, this`switches, this`messages, this`compressed, this`modelCalls
      ensures RetryInv() && LogInv()
      ensures compressed == (old(compressed) || ClassifyError(status, message).shouldCompress)
      ensures !ClassifyError(status, message).shouldCompress ==> messages == old(messages)
      ensures modelCalls == old(modelCalls) + [call.(outcome :=
                if ClassifyError(status, message).shouldCompress then Compacted else if retry then Failed else GaveUp)]
      ensures retry <==> AfterFailure(status, message, old(RetryState())).Some?
      ensures RetryState() == if retry then AfterFailure(status, message, old(RetryState())).value else old(RetryState())
    {
      hide Trailing, StreaksBounded, Faithful;
      ActionsDoNotCompete(status, message);
      var decision := ClassifyError(status, message);
      if decision.shouldCompress {
        messages := *;
        compressed := true;
        Log(call, Compacted);
        return true;
      }
      if !decision.shouldFallback && decision.retryable && retryCount < maxRetries {
        retryCount := retryCount + 1;
        Log(call, Failed);
        return true;
      }
      retry := TryFallbackOrAbort();
      Log(call, if retry then Failed else GaveUp);
    }

    // -------------------------------------------------------------- the environment

    method AskCancelChecker() returns (check: Check)
      modifies this`heard
      ensures check.Raises? ==> checkerMayRaise
      ensures heard == old(heard).(looks := old(heard).looks + 1, cancel := old(heard).cancel || check.Cancel?,
                                   raised := old(heard).raised || check.Raises?)
    {
      check := *;
      if check == Raises && !checkerMayRaise {
        check := Clear;
      }
      heard := heard.(looks := heard.looks + 1, cancel := heard.cancel || check.Cancel?,
                      raised := heard.raised || check.Raises?);
    }

    // A hook around the dispatch of a batch.
    method DispatchHooks() returns (breaks: bool)
      modifies this`heard
      ensures heard == old(heard).(broke := old(heard).broke || breaks)
    {
      breaks := *;
      heard := heard.(broke := heard.broke || breaks);
    }

    // The control hooks in front of a model call.
    method ControlHooks() returns (blocked: bool)
      modifies this`heard
      ensures heard == old(heard).(blocked := old(heard).blocked || blocked)
    {
      blocked := *;
      heard := heard.(blocked := heard.blocked || blocked);
    }

    // One transaction: all of the messages or none.
    method AddMessages(group: seq<Message>) returns (stored: bool)
      modifies this`persisted, this`heard
      ensures persisted == if stored then old(persisted) + group else old(persisted)
      ensures heard == old(heard).(broke := old(heard).broke || !stored)
    {
      stored := *;
      heard := heard.(broke := heard.broke || !stored);
      if stored {
        persisted := persisted + group;
      }
    }

    method PreModelCall(overThreshold: bool)
      modifies this`messages, this`compressed
      ensures !overThreshold ==> messages == old(messages) && compressed == old(compressed)
      ensures overThreshold ==> compressed
    {
      if overThreshold {
        messages := *;
        compressed := true;
      }
    }

    method CallModel(temporary: seq<Message>) returns (reply: Reply, ghost call: ModelCall)
      requires Synced()
      ensures Faithful(call) && call.transcript == persisted && call.compressed == compressed
      ensures call.request == messages + temporary && call.temporary == temporary && call.reply == reply
    {
      reply := *;
      call := ModelCall(messages + temporary, temporary, persisted, compressed, reply, Used);
    }

    // -------------------------------------------------------------- steering

    // Drains the mailbox into the last result of a batch that goes on.
    method InjectPendingSteer(results: seq<Message>, failed: bool, hasNext: bool)
      returns (injected: seq<Message>, hand: seq<Entry>)
      requires mailbox.Valid() && CarriesAtTheEnd(results, [])
      requires Conserved(mailbox.View(), landed)
      modifies mailbox
      ensures mailbox.Valid() && mailbox.state == old(mailbox.state)
      ensures Conserved(mailbox.View(), landed + hand)
      ensures CarriesAtTheEnd(injected, hand) && |injected| == |results|
      ensures forall i :: 0 <= i < |results| ==> SameButGuidance(injected[i], results[i])
      ensures hand == [] ==> injected == results
      ensures hand == if GoesOn(results, failed, hasNext) then old(mailbox.pending) else []
      ensures mailbox.pending == if GoesOn(results, failed, hasNext) then [] else old(mailbox.pending)
      ensures mailbox.reclaimed == old(mailbox.reclaimed)
    {
      if failed || results == [] || !hasNext {
        assert landed + [] == landed;
        return results, [];
      }
      TakingConserves(mailbox.View(), landed);
      hand := mailbox.Drain();
      var last := |results| - 1;
      injected := results[last := results[last].(guidance := hand)];
    }

    /** Undoes an injection whose batch does not reach the transcript: the entries wait in front again exactly
        when the mailbox takes them back, and stay with the loop otherwise. */
    method RestoreInjectedSteer(hand: seq<Entry>)
      requires mailbox.Valid() && unconfirmed == [] && Conserved(mailbox.View(), landed + hand)
      modifies mailbox, this`unconfirmed
      ensures mailbox.Valid() && mailbox.state == old(mailbox.state)
      ensures var back := Restorable(old(mailbox.View()), hand);
              && unconfirmed == (if back then [] else hand)
              && mailbox.pending == (if back then hand + old(mailbox.pending) else old(mailbox.pending))
      ensures mailbox.reclaimed == old(mailbox.reclaimed)
      ensures Conserved(mailbox.View(), landed + unconfirmed)
    {
      ghost var m := mailbox.View();
      var restored := mailbox.RestoreFront(hand);
      if !restored {
        unconfirmed := unconfirmed + hand;
        assert unconfirmed == hand;
      } else if hand != [] {
        RestoringConserves(m, landed, hand);
        assert mailbox.View() == m.(pending := hand + m.pending);
        assert landed + [] == landed;
      } else {
        assert mailbox.View() == m && landed + hand == landed;
      }
    }

    method OthersUseMailbox(ghost gone: seq<Entry>)
      requires mailbox.Valid() && Conserved(mailbox.View(), gone)
      modifies mailbox
      ensures mailbox.Valid() && Conserved(mailbox.View(), gone) && OthersActed(old(mailbox.View()), mailbox.View())
      ensures (old(mailbox.state).New? <==> mailbox.state.New?) && old(mailbox.reclaimed) <= mailbox.reclaimed
    {
      ghost var before := mailbox.View();
      mailbox.Interfere();
      OthersConserve(before, mailbox.View(), gone);
    }

    // -------------------------------------------------------------- one turn of the model

    method ShouldContinue(finish: string, nothingToContinue: bool) returns (goOn: bool)
      modifies this`continuationCount
      ensures goOn <==> finish == "length" && !nothingToContinue && old(continuationCount) < maxContinuations
      ensures continuationCount == old(continuationCount) + if goOn then 1 else 0
    {
      goOn := finish == "length" && continuationCount < maxContinuations && !nothingToContinue;
      if goOn {
        continuationCount := continuationCount + 1;
      }
    }

    // Persists one message without tool calls behind the list; a stored answer ends the failures.
    method StorePlain(m: Message) returns (stored: bool)
      requires Grouped(persisted) && RetryInv() && (m.User? || (m.Assistant? && m.calls == []))
      requires Trailing(modelCalls) == 0
      modifies this`persisted, this`retryCount, this`heard
      ensures Grouped(persisted) && RetryInv() && Guidance(persisted) == Guidance(old(persisted))
      ensures persisted == if stored then old(persisted) + [m] else old(persisted)
      ensures retryCount == (if stored && m.Assistant? then 0 else old(retryCount))
      ensures heard == old(heard).(broke := old(heard).broke || !stored)
    {
      PlainMessage(m);
      GroupedSum(persisted, [m]);
      GuidanceSum(persisted, [m]);
      assert Guidance(persisted) + [] == Guidance(persisted);
      stored := AddMessages([m]);
      if stored && m.Assistant? {
        retryCount := 0;
      }
    }
  
    // What holds at every model call, and what is left when the run stops.
    ghost predicate Going(base: seq<Message>)
      reads this, mailbox, tools
    {
      && Linked() && Synced() && LogInv() && RetryInv()
      && base <= persisted && Guidance(persisted) == Guidance(base) + landed
      && lost == [] && unconfirmed == [] && Conserved(mailbox.View(), landed)
    }

    ghost predicate Stopped(base: seq<Message>)
      reads this, mailbox, tools
    {
      && Linked() && Grouped(persisted) && LogInv() && RetryInv()
      && base <= persisted && Guidance(persisted) == Guidance(base) + landed
      && (lost == [] || unconfirmed == []) && Conserved(mailbox.View(), landed + lost + unconfirmed)
    }

    // How a turn leaves the loop: going on, or with a result.
    ghost predicate Left(base: seq<Message>, ended: Option<RunResult>)
      reads this, mailbox, tools
    {
      && (ended.None? ==> Going(base))
      && (ended.Some? ==> Stopped(base))
      && (lost != [] ==> ended == Some(InternalError) && checkerMayRaise)
      && (ended.Some? && ended.value.Completed? ==> EndsWith(persisted, ended.value.text))
      && (ended.Some? && ended.value.AwaitsApproval? ==> Awaits(persisted, ended.value.request))
    }

    lemma GoingStops(base: seq<Message>)
      requires Going(base)
      ensures Stopped(base) && lost == []
    {
      assert landed + lost + unconfirmed == landed;
    }

    // A model turn that carries no text and no tool call.
    method RunEmptyTurn(turn: Turn, ghost call: ModelCall, ghost base: seq<Message>) returns (ended: Option<RunResult>)
      requires Going(base) && Faithful(call) && turn.content == "" && turn.calls == [] && Quiet(heard)
      modifies this
      ensures Left(base, ended) && unchanged(this`landed, this`lost, this`unconfirmed, this`batches)
      ensures |modelCalls| == |old(modelCalls)| + 1 && modelCalls[|old(modelCalls)|].reply == call.reply
      ensures Heeds(ended) && old(modelCalls) <= modelCalls && heard.looks == old(heard).looks && old(persisted) <= persisted
      ensures TruncatedReasoning(turn) && old(continuationCount) < maxContinuations ==>
                if ended.None?
                then persisted == old(persisted) + [Assistant("", turn.reasoning, []), User(CONTINUE_MESSAGE)]
                else ended.value.PersistenceError?
      ensures !(TruncatedReasoning(turn) && old(continuationCount) < maxContinuations) ==>
                && persisted == old(persisted)
                && ended == if AfterFailure(None, EMPTY_TURN, old(RetryState())).Some? then None else Some(ModelError)
    {
      hide Grouped, Guidance, Conserved, Faithful, AnswersAll, RetryInv, LogInv, AfterFailure;
      if turn.finish == "length" && turn.reasoning.Some? && turn.reasoning.value != "" {
        var partial := Assistant("", turn.reasoning, []);
        messages := messages + [partial];
        var goOn := ShouldContinue(turn.finish, false);
        if goOn {
          NoteCall(call, Used);
          ended := Continue(partial, base);
          return;
        }
        messages := messages[..|messages| - 1];
      }
      ended := Fail(None, EMPTY_TURN, call, base);
    }

    // A call that did not fail.
    ghost method NoteCall(call: ModelCall, outcome: Outcome)
      requires RetryInv() && LogInv() && Faithful(call) && (outcome.Used? || outcome.Abandoned?)
      modifies this`modelCalls
      ensures RetryInv() && LogInv() && modelCalls == old(modelCalls) + [call.(outcome := outcome)]
      ensures Trailing(modelCalls) == 0
    {
      hide Trailing, StreaksBounded, Faithful;
      Log(call, outcome);
    }

    // Stores a truncated answer and the request to continue it.
    method Continue(partial: Message, ghost base: seq<Message>) returns (ended: Option<RunResult>)
      requires Linked() && Grouped(persisted) && LogInv() && RetryInv()
      requires base <= persisted && Guidance(persisted) == Guidance(base) + landed
      requires lost == [] && unconfirmed == [] && Conserved(mailbox.View(), landed)
      requires Trailing(modelCalls) == 0 && Quiet(heard)
      requires partial.Assistant? && partial.calls == [] && (!compressed ==> messages == persisted + [partial])
      modifies this
      ensures Left(base, ended) && unchanged(this`landed, this`lost, this`unconfirmed, this`modelCalls, this`batches)
      ensures ended.Some? ==> ended.value.PersistenceError?
      ensures heard.looks == old(heard).looks && old(persisted) <= persisted
      ensures Heeds(ended) && (ended.None? ==> retryCount == 0) && continuationCount == old(continuationCount)
      ensures ended.None? ==> persisted == old(persisted) + [partial, User(CONTINUE_MESSAGE)]
    {
      hide Grouped, Guidance, Conserved, Faithful, AnswersAll, Trailing, StreaksBounded, EndsWith, Awaits;
      assert landed + lost + unconfirmed == landed;
      var stored := StorePlain(partial);
      if !stored {
        return Some(PersistenceError);
      }
      var more := User(CONTINUE_MESSAGE);
      messages := messages + [more];
      stored := StorePlain(more);
      return if stored then None else Some(PersistenceError);
    }

    // A model turn with text and no tool calls.
    method RunTextTurn(turn: Turn, ghost base: seq<Message>) returns (ended: Option<RunResult>)
      requires Going(base) && Trailing(modelCalls) == 0 && turn.content != "" && turn.calls == [] && Quiet(heard)
      modifies this
      ensures Left(base, ended) && unchanged(this`landed, this`lost, this`unconfirmed, this`modelCalls, this`batches)
      ensures ended.Some? && ended.value.Completed? ==> ended.value.text == turn.content
      ensures heard.looks == old(heard).looks && old(persisted) <= persisted
      ensures Heeds(ended) && (ended.None? ==> retryCount == 0 && continuationCount == old(continuationCount) + 1)
      ensures turn.finish == "length" && old(continuationCount) < maxContinuations ==>
                if ended.None?
                then persisted == old(persisted) + [Assistant(turn.content, turn.reasoning, []), User(CONTINUE_MESSAGE)]
                else ended.value.PersistenceError?
      ensures !(turn.finish == "length" && old(continuationCount) < maxContinuations) ==>
                ended == Some(Completed(turn.content)) || ended == Some(PersistenceError)
    {
      hide Grouped, Guidance, Conserved, Faithful, AnswersAll;
      var m := Assistant(turn.content, if turn.finish == "length" then turn.reasoning else None, []);
      messages := messages + [m];
      var goOn := ShouldContinue(turn.finish, false);
      if goOn {
        ended := Continue(m, base);
      } else {
        ended := StoreAnswer(m, base);
      }
    }

    // Stores the last answer of a run.
    method StoreAnswer(m: Message, ghost base: seq<Message>) returns (ended: Option<RunResult>)
      requires Linked() && Grouped(persisted) && LogInv() && RetryInv()
      requires base <= persisted && Guidance(persisted) == Guidance(base) + landed
      requires lost == [] && unconfirmed == [] && Conserved(mailbox.View(), landed)
      requires Trailing(modelCalls) == 0 && m.Assistant? && m.calls == []
      modifies this`persisted, this`retryCount, this`heard
      ensures Heeds(ended) && heard.looks == old(heard).looks && old(persisted) <= persisted
      ensures Left(base, ended)
      ensures ended == Some(Completed(m.content)) || ended == Some(PersistenceError)
    {
      hide Grouped, Guidance, Conserved, Faithful, AnswersAll;
      assert landed + lost + unconfirmed == landed;
      var stored := StorePlain(m);
      ended := Some(if stored then Completed(m.content) else PersistenceError);
    }
  
    // Persists a whole batch; entries it carries have landed then.
    method StoreBatch(assistant: Message, results: seq<Message>, hand: seq<Entry>, ghost base: seq<Message>)
      returns (stored: bool)
      requires assistant.Assistant? && AnswersAll(results, assistant.calls) && CarriesAtTheEnd(results, hand)
      requires Grouped(persisted) && RetryInv() && base <= persisted && Trailing(modelCalls) == 0
      requires Guidance(persisted) == Guidance(base) + landed
      modifies this`persisted, this`retryCount, this`landed, this`heard
      ensures heard == old(heard).(broke := old(heard).broke || !stored)
      ensures stored ==> retryCount == 0
      ensures Grouped(persisted) && RetryInv() && base <= persisted
      ensures Guidance(persisted) == Guidance(base) + landed
      ensures persisted == if stored then old(persisted) + ([assistant] + results) else old(persisted)
      ensures landed == if stored then old(landed) + hand else old(landed)
    {
      hide Grouped, Guidance, AnswersAll, CarriesAtTheEnd, Trailing, StreaksBounded;
      var group := [assistant] + results;
      CompleteGroup(assistant, results);
      GroupedSum(persisted, group);
      GuidanceOfBatch(assistant, results, hand);
      GuidanceSum(persisted, group);
      assert Guidance(base) + landed + hand == Guidance(base) + (landed + hand);
      stored := AddMessages(group);
      if stored {
        retryCount := 0;
        landed := landed + hand;
      }
    }

    // The tools of a turn: every call gets its result before anything is stored.  `cancelSeen` is what the last
    // look at the cancel flag found.
    method RunBatch(turn: Turn) returns (results: seq<Message>, error: Option<RunResult>, ghost cancelSeen: bool)
      requires tools.Valid() && turn.calls != []
      requires Quiet(heard)
      modifies tools, this`messages, this`continuationCount, this`batches, this`heard
      ensures continuationCount == 0 && heard.looks == old(heard).looks
      ensures Heeds(error)
      ensures tools.Valid()
      ensures error.None? || !error.value.Completed?
      ensures error != Some(PersistenceError) ==>
                AnswersAll(results, turn.calls) && CarriesAtTheEnd(results, []) && messages == old(messages) + results
      ensures error.Some? && error.value.AwaitsApproval? ==>
                exists k: nat :: AskedBy(results, turn.calls, k, error.value.request)
      ensures batches == old(batches) + [Batch(tools.history, |old(tools.history)|, |modelCalls|)]
      ensures error != Some(PersistenceError) ==>
                |tools.history| == |old(tools.history)| + |turn.calls| && |results| == |turn.calls|
      ensures error != Some(PersistenceError) ==>
                var b := batches[|old(batches)|];
                && (error.None? <==> !Halted(b) && !cancelSeen)
                && (error == Some(CancelledRun) <==> WasCancelled(b) || cancelSeen)
                && (error.Some? && error.value.AwaitsApproval? <==> AskedApproval(b) && !WasCancelled(b) && !cancelSeen)
                && (error.Some? && error.value.ToolFailure? <==>
                      WasFatal(b) && !AskedApproval(b) && !WasCancelled(b) && !cancelSeen)
                && Explains(b, error) && AnsweredBy(results, turn.calls, b)
    {
      hide AnswersAll, CarriesAtTheEnd, AnsweredBy, Grounds, AskedBy;
      hide Tools.AnyFatal, Tools.AnyCancelled, Tools.AnyApproval, Tools.FatalWith, Tools.Answers, Tools.AskedByOne;
      hide Tools.NothingStartsAfter, Tools.OneApproval;
      continuationCount := 0;
      var outside := Tools.AskOutside(|turn.calls|);
      var raises := DispatchHooks();
      if raises {
        var reached :| 0 <= reached <= |turn.calls|;
        var some, _ := tools.ProcessToolCalls(turn.calls[..reached], outside[..reached], false);
        messages := messages + ToolMessages(some);
        batches := batches + [Batch(tools.history, |old(tools.history)|, |modelCalls|)];
        HeardGrounds(heard, modelCalls, batches);
        return ToolMessages(some), Some(PersistenceError), false;
      }
      var seen: bool := *;  // the cancel check behind the last call
      var answers, result := tools.ProcessToolCalls(turn.calls, outside, seen);
      cancelSeen := seen;
      heard := heard.(cancel := heard.cancel || seen);
      results := ToolMessages(answers);
      messages := messages + results;
      batches := batches + [Batch(tools.history, |old(tools.history)|, |modelCalls|)];
      error := match result
        case GoOn => None
        case BatchCancelled => Some(CancelledRun)
        case AwaitingApproval(request) => Some(AwaitsApproval(request))
        case ToolError(errorType) => Some(ToolFailure(errorType));
      PlainResults(answers, turn.calls, tools.history, |old(tools.history)|);
      if error.Some? {
        BatchGrounds(error.value, heard, modelCalls, batches);
      }
      if result.AwaitingApproval? {
        BatchAsks(answers, turn.calls, tools.history, |old(tools.history)|, result.request);
      }
    }

    // Injection, and what the cancel check before the transaction does with it.  `check` is what the checker
    // is going to answer.  A cancelled injection is undone; what is in hand when the checker raises is lost.
    method InjectAndCheck(results: seq<Message>, failed: bool, hasNext: bool, check: Check)
      returns (injected: seq<Message>, hand: seq<Entry>)
      requires Linked() && lost == [] && unconfirmed == [] && Conserved(mailbox.View(), landed)
      requires CarriesAtTheEnd(results, [])
      modifies mailbox, this`unconfirmed, this`lost
      ensures Linked() && CarriesAtTheEnd(injected, hand) && |injected| == |results|
      ensures forall i :: 0 <= i < |results| ==> SameButGuidance(injected[i], results[i])
      ensures hand == [] ==> injected == results
      ensures var taken := if GoesOn(results, failed, hasNext) then old(mailbox.pending) else [];
              match check {
                case Clear => hand == taken && lost == [] && unconfirmed == []
                case Cancel => hand == [] && lost == [] && (unconfirmed == [] || unconfirmed == taken)
                case Raises => hand == lost == taken && unconfirmed == []
              }
      ensures Conserved(mailbox.View(), landed + if check.Cancel? then unconfirmed else hand)
      ensures old(mailbox.reclaimed) <= mailbox.reclaimed
    {
      hide Conserved, Inv, OthersActed, CarriesAtTheEnd;
      injected, hand := InjectPendingSteer(results, failed, hasNext);
      OthersUseMailbox(landed + hand);
      match check {
        case Clear =>
        case Raises => lost := hand;
        case Cancel =>
          if hand != [] {
            RestoreInjectedSteer(hand);
          }
          injected, hand := results, [];
      }
    }

    // The end of a batch up to its transaction.  `drained` is the mailbox right before the drain.
    method InjectUnlessCancelled(results: seq<Message>, failed: bool, hasNext: bool)
      returns (injected: seq<Message>, hand: seq<Entry>, check: Check, ghost drained: Mailbox)
      requires Linked() && lost == [] && unconfirmed == [] && Conserved(mailbox.View(), landed)
      requires CarriesAtTheEnd(results, [])
      modifies mailbox, this`unconfirmed, this`lost, this`heard
      ensures heard == old(heard).(looks := old(heard).looks + 1, cancel := old(heard).cancel || check.Cancel?,
                                   raised := old(heard).raised || check.Raises?)
      ensures Linked() && CarriesAtTheEnd(injected, hand) && |injected| == |results|
      ensures forall i :: 0 <= i < |results| ==> SameButGuidance(injected[i], results[i])
      ensures hand == [] ==> injected == results
      ensures failed ==> hand == []
      ensures OthersActed(old(mailbox.View()), drained)
      ensures var taken := if GoesOn(results, failed, hasNext) then drained.pending else [];
              match check {
                case Clear => hand == taken && lost == [] && unconfirmed == []
                case Cancel => hand == [] && lost == [] && (unconfirmed == [] || unconfirmed == taken)
                case Raises => hand == lost == taken && unconfirmed == [] && checkerMayRaise
              }
      ensures Conserved(mailbox.View(), landed + if check.Cancel? then unconfirmed else hand)
      ensures drained.reclaimed <= mailbox.reclaimed
    {
      hide Conserved, Inv, OthersActed, CarriesAtTheEnd;
      OthersUseMailbox(landed);
      drained := mailbox.View();
      check := AskCancelChecker();
      injected, hand := InjectAndCheck(results, failed, hasNext, check);
    }

    // The transaction of a batch, and what becomes of the entries it carries.
    method StoreOrRestore(assistant: Message, injected: seq<Message>, hand: seq<Entry>, ghost base: seq<Message>)
      returns (stored: bool)
      requires Linked() && Grouped(persisted) && LogInv() && RetryInv() && lost == [] && Trailing(modelCalls) == 0
      requires base <= persisted && Guidance(persisted) == Guidance(base) + landed
      requires assistant.Assistant? && AnswersAll(injected, assistant.calls) && CarriesAtTheEnd(injected, hand)
      requires hand != [] ==> unconfirmed == []
      requires Conserved(mailbox.View(), landed + if hand != [] then hand else unconfirmed)
      modifies this`persisted, this`retryCount, this`landed, this`unconfirmed, this`heard, mailbox
      ensures heard == old(heard).(broke := old(heard).broke || !stored)
      ensures stored ==> retryCount == 0
      ensures Linked() && Grouped(persisted) && RetryInv() && base <= persisted
      ensures Guidance(persisted) == Guidance(base) + landed
      ensures Conserved(mailbox.View(), landed + unconfirmed)
      ensures persisted == if stored then old(persisted) + ([assistant] + injected) else old(persisted)
      ensures landed == if stored then old(landed) + hand else old(landed)
      ensures mailbox.reclaimed == old(mailbox.reclaimed)
      ensures stored || hand == [] ==> unconfirmed == old(unconfirmed)
    {
      hide Grouped, Guidance, Conserved, RetryInv, Inv, CarriesAtTheEnd, AnswersAll;
      ghost var before := landed;
      stored := StoreBatch(assistant, injected, hand, base);
      if !stored && hand != [] {
        RestoreInjectedSteer(hand);
      }
      assert unconfirmed == [] ==> landed + unconfirmed == landed;
      assert hand == [] ==> before + hand == before;
    }

    lemma StopsHere(base: seq<Message>)
      requires Linked() && Grouped(persisted) && LogInv() && RetryInv()
      requires base <= persisted && Guidance(persisted) == Guidance(base) + landed
      requires lost == [] && Conserved(mailbox.View(), landed + unconfirmed)
      ensures Stopped(base)
    {
      assert landed + lost + unconfirmed == landed + unconfirmed;
    }

    // The cancel check once the batch is stored.
    method LastCheck(ghost base: seq<Message>) returns (ended: Option<RunResult>)
      requires Going(base) && Quiet(heard)
      modifies this`heard
      ensures Going(base)
      ensures (ended == Some(CancelledRun) ==> heard.cancel) && (ended == Some(InternalError) ==> heard.raised)
      ensures Heeds(ended) && heard.looks == old(heard).looks + 1
      ensures Left(base, ended) && (ended.Some? ==> ended.value.CancelledRun? || ended.value.InternalError?)
    {
      GoingStops(base);
      var check := AskCancelChecker();
      ended := match check
        case Clear => None
        case Cancel => Some(CancelledRun)
        case Raises => Some(InternalError);
    }

    // A batch is over: nothing to be undone any more.
    lemma BatchStored(base: seq<Message>, before: seq<Message>, assistant: Message, kept: seq<Message>,
                      injected: seq<Message>)
      requires Linked() && Grouped(persisted) && LogInv() && RetryInv()
      requires base <= persisted && Guidance(persisted) == Guidance(base) + landed
      requires lost == [] && unconfirmed == [] && Conserved(mailbox.View(), landed + unconfirmed)
      requires persisted == before + ([assistant] + injected) && messages == kept + injected
      requires !compressed ==> kept == before + [assistant]
      ensures Going(base)
    {
      hide Grouped, Guidance, Conserved, RetryInv, LogInv, Linked;
      assert landed + unconfirmed == landed;
      assert before + ([assistant] + injected) == (before + [assistant]) + injected;
    }

    // What is left of a batch from its transaction on; `said` is how the turn ends if nothing comes in between.
    method FinishBatch(assistant: Message, kept: seq<Message>, results: seq<Message>, injected: seq<Message>,
                       hand: seq<Entry>, said: Option<RunResult>, ghost base: seq<Message>)
      returns (ended: Option<RunResult>, stored: bool)
      requires Linked() && Grouped(persisted) && LogInv() && RetryInv() && Trailing(modelCalls) == 0
      requires base <= persisted && Guidance(persisted) == Guidance(base) + landed && lost == []
      requires assistant.Assistant? && AnswersAll(injected, assistant.calls) && CarriesAtTheEnd(injected, hand)
      requires messages == kept + injected && (!compressed ==> kept == persisted + [assistant])
      requires if said.Some? then hand == [] else unconfirmed == []
      requires Conserved(mailbox.View(), landed + if said.None? then hand else unconfirmed)
      requires Heeds(said) && (said.Some? ==> !said.value.Completed?)
      requires said.Some? && said.value.AwaitsApproval? ==>
                 Awaits(persisted + ([assistant] + injected), said.value.request)
      modifies this, mailbox
      ensures Left(base, ended) && Heeds(ended) && mailbox.reclaimed == old(mailbox.reclaimed)
      ensures unchanged(this`modelCalls, this`batches, this`continuationCount, this`lost)
      ensures ended == said || (ended.Some? && BrokenOff(ended.value))
      ensures persisted == if stored then old(persisted) + ([assistant] + injected) else old(persisted)
      ensures landed == if stored then old(landed) + hand else old(landed)
      ensures messages == kept + if stored then injected else results
      ensures stored || ended == Some(PersistenceError)
      ensures stored && ended == Some(PersistenceError) ==> ended == said
      ensures ended.None? ==> retryCount == 0 && heard.looks == old(heard).looks + 1
      ensures heard.looks >= old(heard).looks
    {
      hide Grounds, AnswersAll, Grouped, Guidance, Conserved, Faithful, RetryInv, LogInv, Inv, CarriesAtTheEnd, Stopped;
      hide Awaits;
      ghost var before, seen := persisted, heard;
      assert hand == [] && unconfirmed == [] ==> landed + hand == landed + unconfirmed;
      stored := StoreOrRestore(assistant, injected, hand, base);
      ended := said;
      StopsHere(base);
      if !stored {
        HeardGrounds(heard, modelCalls, batches);
        messages := kept + results;
        StopsHere(base);
        return Some(PersistenceError), stored;
      }
      if ended.None? {
        BatchStored(base, before, assistant, kept, injected);
        ended := LastCheck(base);
      } else {
        GroundsStay(ended.value, seen, heard, modelCalls, batches);
      }
    }

    /** The end of a batch.  Behind a stored batch of a run that goes on, everything that waited at the drain has
        landed in its last result.  On every way out the entries taken from the mailbox have landed, are back, or
        stay with the loop - unless the cancel checker raised while they were in hand - and a batch
        that did not take them has its results exactly as the tools gave them. */
    method SettleBatch(assistant: Message, kept: seq<Message>, results: seq<Message>, failure: Option<RunResult>,
                       hasNext: bool, ghost base: seq<Message>)
      returns (ended: Option<RunResult>, ghost drained: Mailbox)
      requires Linked() && Grouped(persisted) && LogInv() && RetryInv()
      requires base <= persisted && Guidance(persisted) == Guidance(base) + landed
      requires lost == [] && unconfirmed == [] && Conserved(mailbox.View(), landed)
      requires assistant.Assistant? && AnswersAll(results, assistant.calls) && CarriesAtTheEnd(results, [])
      requires messages == kept + results && (!compressed ==> kept == persisted + [assistant])
      requires Trailing(modelCalls) == 0
      requires Heeds(failure) && (failure.None? || !failure.value.Completed?)
      requires failure.Some? && failure.value.AwaitsApproval? ==>
                 exists k: nat :: AskedBy(results, assistant.calls, k, failure.value.request)
      modifies this, mailbox
      ensures Left(base, ended) && modelCalls == old(modelCalls) && batches == old(batches)
      ensures Heeds(ended) && heard.looks > old(heard).looks
      ensures ended.None? ==> retryCount == 0 && heard.looks >= old(heard).looks + 2
      ensures continuationCount == old(continuationCount)
      ensures ended == failure || (ended.Some? && BrokenOff(ended.value))
      ensures failure.Some? ==> landed == old(landed)
      ensures landed == old(landed) && lost == [] ==> messages == old(messages)
      ensures OthersActed(old(mailbox.View()), drained) && drained.reclaimed <= mailbox.reclaimed
      ensures landed == old(landed) || landed == old(landed) + drained.pending
      ensures ended.None? && hasNext && results != [] ==> landed == old(landed) + drained.pending
      ensures ended == Some(PersistenceError) && failure != ended ==> persisted == old(persisted) && landed == old(landed)
      ensures persisted == old(persisted) || Stores(old(persisted), persisted, assistant, results)
      ensures ended != Some(PersistenceError) && ended != Some(InternalError) ==> persisted != old(persisted)
    {
      hide Stores, SameButGuidance, AnswersAll, Grounds, Awaits;
      hide Grouped, Guidance, Conserved, Faithful, RetryInv, LogInv, Inv, CarriesAtTheEnd, Going, Stopped;
      ghost var before, seen := persisted, heard;
      var injected, hand, check;
      injected, hand, check, drained := InjectUnlessCancelled(results, failure.Some?, hasNext);
      messages := kept + injected;
      StoredSo(before, assistant, results, injected);
      HeardGrounds(heard, modelCalls, batches);
      if failure.Some? {
        GroundsStay(failure.value, seen, heard, modelCalls, batches);
      }
      if check.Raises? {
        LostInHand(base);
        return Some(InternalError), drained;
      }
      var said := if check.Cancel? then Some(CancelledRun) else failure;
      if said.Some? && said.value.AwaitsApproval? {
        var k: nat :| AskedBy(results, assistant.calls, k, said.value.request);
        BatchAwaits(before, assistant, results, k, said.value.request);
      }
      assert hand == [] && unconfirmed == [] ==> landed + hand == landed + unconfirmed;
      var stored;
      ended, stored := FinishBatch(assistant, kept, results, injected, hand, said, base);
      assert hand == [] ==> old(landed) + hand == old(landed);
      assert hand != [] && stored ==> |landed| > |old(landed)|;
    }

    lemma LostInHand(base: seq<Message>)
      requires Linked() && Grouped(persisted) && LogInv() && RetryInv()
      requires base <= persisted && Guidance(persisted) == Guidance(base) + landed
      requires unconfirmed == [] && Conserved(mailbox.View(), landed + lost)
      ensures Stopped(base)
    {
      assert landed + lost + unconfirmed == landed + lost;
    }
  
    // The cancel check between a batch and its transaction.
    method LookBehindBatch(failure: Option<RunResult>) returns (check: Check, said: Option<RunResult>)
      requires Heeds(failure)
      modifies this`heard
      ensures said == if check.Cancel? then Some(CancelledRun) else failure
      ensures heard.looks == old(heard).looks + 1 && (check.Raises? ==> checkerMayRaise)
      ensures if check.Raises? then Heeds(Some(InternalError)) else Heeds(said)
    {
      hide Grounds;
      ghost var before := heard;
      check := AskCancelChecker();
      said := if check.Cancel? then Some(CancelledRun) else failure;
      HeardGrounds(heard, modelCalls, batches);
      if failure.Some? {
        GroundsStay(failure.value, before, heard, modelCalls, batches);
      }
    }

    // A batch that has run: the check behind it, and its end.
    method CloseToolTurn(assistant: Message, kept: seq<Message>, results: seq<Message>, failure: Option<RunResult>,
                         hasNext: bool, ghost base: seq<Message>)
      returns (ended: Option<RunResult>, ghost drained: Mailbox)
      requires Linked() && Grouped(persisted) && LogInv() && RetryInv()
      requires base <= persisted && Guidance(persisted) == Guidance(base) + landed
      requires lost == [] && unconfirmed == [] && Conserved(mailbox.View(), landed)
      requires assistant.Assistant? && AnswersAll(results, assistant.calls) && CarriesAtTheEnd(results, [])
      requires messages == kept + results && (!compressed ==> kept == persisted + [assistant])
      requires Trailing(modelCalls) == 0
      requires Heeds(failure) && (failure.None? || !failure.value.Completed?)
      requires failure.Some? && failure.value.AwaitsApproval? ==>
                 exists k: nat :: AskedBy(results, assistant.calls, k, failure.value.request)
      modifies this, mailbox
      ensures Left(base, ended) && modelCalls == old(modelCalls) && batches == old(batches)
      ensures Heeds(ended) && heard.looks > old(heard).looks && continuationCount == old(continuationCount)
      ensures ended.None? ==> retryCount == 0 && heard.looks >= old(heard).looks + 3
      ensures ended == failure || (ended.Some? && BrokenOff(ended.value))
      ensures failure.Some? ==> landed == old(landed)
      ensures ended.None? ==> OthersActed(old(mailbox.View()), drained) && drained.reclaimed <= mailbox.reclaimed
      ensures ended.None? && hasNext && results != [] ==> landed == old(landed) + drained.pending
      ensures persisted == old(persisted) || Stores(old(persisted), persisted, assistant, results)
      ensures ended != Some(PersistenceError) && ended != Some(InternalError) ==> persisted != old(persisted)
    {
      hide Grounds, Stores, GoesOn, Stopped, OthersActed, EndsWith, Awaits, AskedBy;
      hide Grouped, Guidance, Conserved, Faithful, RetryInv, LogInv, AnswersAll, CarriesAtTheEnd, Going;
      assert landed + unconfirmed == landed;
      var check, said := LookBehindBatch(failure);
      if check.Raises? {
        StopsHere(base);
        return Some(InternalError), mailbox.View();
      }
      ended, drained := SettleBatch(assistant, kept, results, said, hasNext, base);
    }

    // A model turn with tool calls.
    method RunToolTurn(turn: Turn, hasNext: bool, ghost base: seq<Message>) returns (ended: Option<RunResult>)
      requires Going(base) && Trailing(modelCalls) == 0 && turn.calls != [] && Quiet(heard)
      modifies this, mailbox, tools
      ensures Left(base, ended) && modelCalls == old(modelCalls)
      ensures Heeds(ended) && heard.looks >= old(heard).looks && old(persisted) <= persisted
      ensures ended.None? ==> retryCount == 0 && continuationCount == 0 && heard.looks >= old(heard).looks + 3
      ensures ended.None? && hasNext ==> LandedOrReclaimed(old(mailbox.View()), mailbox.View(), old(landed), landed)
      ensures |batches| == |old(batches)| + 1 && TurnLogged(old(batches), batches, |modelCalls|, ended)
      ensures Halted(batches[|old(batches)|]) ==> ended.Some? && landed == old(landed)
      ensures persisted == old(persisted) || StoresTurn(old(persisted), persisted, turn, batches[|old(batches)|])
      ensures ended != Some(PersistenceError) && ended != Some(InternalError) ==> persisted != old(persisted)
    {
      hide Grounds, Stores, AnsweredBy, StoresTurn, GoesOn, Stopped, LandedOrReclaimed, OthersActed;
      hide Grouped, Guidance, Conserved, Faithful, RetryInv, LogInv, AnswersAll, CarriesAtTheEnd;
      hide Explains, TurnLogged, Halted, EndsWith, Awaits, AskedBy;
      var assistant := Assistant(turn.content, Some(OrEmpty(turn.reasoning)), turn.calls);
      var kept := messages + [assistant];
      messages := kept;
      var results, failure;
      ghost var cancelSeen;
      results, failure, cancelSeen := RunBatch(turn);
      ghost var b := batches[|old(batches)|];
      if failure == Some(PersistenceError) {
        assert landed + unconfirmed == landed;
        StopsHere(base);
        LogTurn(old(batches), b, failure, failure);
        return failure;
      }
      ghost var drained;
      ended, drained := CloseToolTurn(assistant, kept, results, failure, hasNext, base);
      LogTurn(old(batches), b, failure, ended);
      if persisted != old(persisted) {
        StoresGrows(old(persisted), persisted, assistant, results);
        TurnStored(old(persisted), persisted, turn, b, results);
      }
      if ended.None? {
        DrainedLands(old(mailbox.View()), drained, mailbox.View(), old(landed));
      }
    }

    // What stands in front of a model call: compression, the control hooks, and three looks at the cancel flag.
    method BeforeCall(overThreshold: bool, ghost base: seq<Message>) returns (ended: Option<RunResult>)
      requires Going(base) && Quiet(heard)
      modifies this`messages, this`compressed, this`heard
      ensures Left(base, ended) && Heeds(ended)
      ensures ended.None? ==> heard.looks == old(heard).looks + 3 && compressed == (old(compressed) || overThreshold)
      ensures ended.Some? ==> ended.value.CancelledRun? || ended.value.InternalError? || ended.value.HookBlocked?
    {
      hide Grouped, Guidance, Conserved, Faithful, RetryInv, AnswersAll, CarriesAtTheEnd, Grounds, EndsWith, Awaits;
      GoingStops(base);
      ended := LastCheck(base);
      if ended.Some? {
        return;
      }
      PreModelCall(overThreshold);
      ended := LastCheck(base);
      if ended.Some? {
        return;
      }
      var blocked := ControlHooks();
      if blocked {
        GoingStops(base);
        HeardGrounds(heard, modelCalls, batches);
        return Some(HookBlocked);
      }
      ended := LastCheck(base);
    }

    /** One iteration: one model call, made on the transcript, unless the run ends in front of it. */
    method Iterate(hasNext: bool, ghost base: seq<Message>) returns (ended: Option<RunResult>)
      requires Going(base) && Quiet(heard)
      modifies this, mailbox, tools
      ensures Left(base, ended) && |modelCalls| <= |old(modelCalls)| + 1
      ensures TurnLogged(old(batches), batches, |modelCalls|, ended)
      ensures Heeds(ended) && (|modelCalls| > |old(modelCalls)| ==> heard.looks >= old(heard).looks + 3)
      ensures old(modelCalls) <= modelCalls && old(batches) <= batches && old(persisted) <= persisted
      ensures ended.None? ==>
                && |modelCalls| == |old(modelCalls)| + 1
                && Told(old(persisted), persisted, modelCalls[|old(modelCalls)|].reply, |modelCalls|, batches)
    {
      hide Grouped, Guidance, Conserved, Faithful, RetryInv, AnswersAll, CarriesAtTheEnd, Told, Grounds, EndsWith, Awaits;
      hide TurnLogged, LogInv;
      var overThreshold: bool := *;
      ended := BeforeCall(overThreshold, base);
      if ended.Some? {
        NoBatchLogged(batches, |modelCalls|, ended);
        return;
      }
      var temporary: seq<Message> := *;  // context the hooks add for this call only
      var reply, call := CallModel(temporary);
      ended := Consume(reply, hasNext, call, base);
    }

    // What becomes of the model's answer.
    method Consume(reply: Reply, hasNext: bool, ghost call: ModelCall, ghost base: seq<Message>)
      returns (ended: Option<RunResult>)
      requires Going(base) && Faithful(call) && call.reply == reply && Quiet(heard)
      modifies this, mailbox, tools
      ensures Left(base, ended) && |modelCalls| == |old(modelCalls)| + 1
      ensures TurnLogged(old(batches), batches, |modelCalls|, ended)
      ensures Heeds(ended) && heard.looks >= old(heard).looks && old(persisted) <= persisted
      ensures old(modelCalls) <= modelCalls && modelCalls[|old(modelCalls)|].reply == reply && old(batches) <= batches
      ensures ended.None? ==> Told(old(persisted), persisted, reply, |modelCalls|, batches)
      ensures reply.TimedOut? && (old(retryCount) < maxRetries || MayFallBack(old(RetryState()))) ==>
                ended.None? || ended.value.CancelledRun? || ended.value.InternalError?
    {
      hide Grouped, Guidance, Conserved, Faithful, AnswersAll, CarriesAtTheEnd, RetryInv, Going, Stopped, LogInv;
      hide AfterFailure;
      match reply {
        case Interrupted => ended := Drop(Some(CancelledRun), call, base);
        case TimedOut =>
          ended := LastCheck(base);
          if ended.None? {
            RequestTimeoutIsRetried(RetryState());
            ended := Fail(None, TIMED_OUT, call, base);
          } else {
            ended := Drop(ended, call, base);
          }
        case Raised(status, message) => ended := Fail(status, message, call, base);
        case Answered(turn) =>
          ended := LastCheck(base);
          if ended.Some? {
            ended := Drop(ended, call, base);
          } else if turn.content == "" && turn.calls == [] {
            ended := RunEmptyTurn(turn, call, base);
          } else {
            UseCall(call, base);
            if turn.calls != [] {
              ended := RunToolTurn(turn, hasNext, base);
            } else {
              ended := RunTextTurn(turn, base);
            }
          }
      }
    }

    // The answer is not used: the run was cancelled meanwhile.
    method Drop(ending: Option<RunResult>, ghost call: ModelCall, ghost base: seq<Message>)
      returns (ended: Option<RunResult>)
      requires Going(base) && Faithful(call)
      requires ending.Some? && (ending.value.CancelledRun? || ending.value.InternalError?)
      requires ending.value.CancelledRun? ==> heard.cancel || call.reply.Interrupted?
      requires ending.value.InternalError? ==> heard.raised
      modifies this`modelCalls
      ensures Heeds(ended) && modelCalls == old(modelCalls) + [call.(outcome := Abandoned)]
      ensures ended == ending && Left(base, ended) && |modelCalls| == |old(modelCalls)| + 1
    {
      hide Grouped, Guidance, Conserved, Faithful, RetryInv, LogInv;
      NoteCall(call, Abandoned);
      assert landed + lost + unconfirmed == landed;
      ended := ending;
    }

    ghost method UseCall(call: ModelCall, base: seq<Message>)
      requires Going(base) && Faithful(call)
      modifies this`modelCalls
      ensures modelCalls == old(modelCalls) + [call.(outcome := Used)]
      ensures Going(base) && |modelCalls| == |old(modelCalls)| + 1 && Trailing(modelCalls) == 0
    {
      hide Grouped, Guidance, Conserved, Faithful, RetryInv, LogInv;
      NoteCall(call, Used);
    }

    // A failed model call: the error policy decides.
    method Fail(status: Option<int>, message: string, ghost call: ModelCall, ghost base: seq<Message>)
      returns (ended: Option<RunResult>)
      requires Going(base) && Faithful(call) && Quiet(heard)
      modifies this
      ensures Left(base, ended) && unchanged(this`landed, this`lost, this`unconfirmed, this`batches, this`persisted)
      ensures Heeds(ended) && heard == old(heard)
      ensures |modelCalls| == |old(modelCalls)| + 1 && old(modelCalls) <= modelCalls && modelCalls[|old(modelCalls)|].reply == call.reply
      ensures ended == if AfterFailure(status, message, old(RetryState())).Some? then None else Some(ModelError)
    {
      hide Grouped, Guidance, Conserved, Faithful, RetryInv, LogInv;
      var retry := HandleModelError(status, message, call);
      assert landed + lost + unconfirmed == landed;
      ended := if retry then None else Some(ModelError);
    }

    method RunInner(ghost base: seq<Message>) returns (result: RunResult, ghost marks: seq<nat>)
      requires Going(base) && Quiet(heard)
      modifies this, mailbox, tools
      requires batches == [] && modelCalls == []
      ensures Left(base, Some(result)) && |modelCalls| <= |old(modelCalls)| + maxIterations
      ensures NothingFollows(batches, |modelCalls|) && StopsAsLogged(batches, result)
      ensures Grounds(result, heard, modelCalls, batches)
      ensures Story(old(persisted), persisted, marks, modelCalls, batches) && |marks| >= |modelCalls|
      ensures !result.InvalidMailbox? && (result.MaxIterations? ==> |modelCalls| == maxIterations)
    {
      hide Going, Stopped, Halted, Story, Told;
      GoingStops(base);
      marks := [|persisted|];
      StoryStarts(persisted, modelCalls, batches);
      for iteration := 0 to maxIterations
        invariant Going(base) && Quiet(heard) && lost == [] && |modelCalls| == iteration
        invariant forall i :: 0 <= i < |batches| ==> !Halted(batches[i])
        invariant Story(old(persisted), persisted, marks, modelCalls, batches)
        invariant |marks| == iteration + 1 && marks[iteration] == |persisted|
      {
        ghost var t, c, a := persisted, modelCalls, batches;
        var ended := Iterate(iteration + 1 < maxIterations, base);
        if ended.Some? {
          StoryStays(old(persisted), t, persisted, marks, c, modelCalls, a, batches);
          return ended.value, marks;
        }
        StoryGoesOn(old(persisted), t, persisted, marks, c, modelCalls, a, batches);
        marks := marks + [|persisted|];
        GoingStops(base);
      }
      GoingStops(base);
      return MaxIterations, marks;
    }
  
    // Closes the mailbox and hands back what the run did not use.
    method FinalizeSteer(ghost base: seq<Message>)
      returns (pendingSteer: seq<Entry>, ghost kept: seq<Entry>, ghost waiting: seq<Entry>)
      requires Stopped(base)
      modifies this`unconfirmed, mailbox
      ensures mailbox.Valid() && mailbox.state.Closed? && unconfirmed == []
      ensures mailbox.accepted == landed + lost + kept + mailbox.reclaimed + waiting && pendingSteer == kept + waiting
    {
      OthersUseMailbox(landed + lost + unconfirmed);
      kept, waiting := unconfirmed, mailbox.pending;
      var pending := mailbox.CloseAndDrain();
      pendingSteer := unconfirmed + pending;
      unconfirmed := [];
    }

    /** A whole run.  Every model call saw the transcript; the transcript stays a sequence of complete
        groups; every entry the mailbox accepted is, in order, in a persisted tool result, with the
        caller, or was reclaimed - none is lost unless the cancel checker raised; failure streaks and
        fallbacks are bounded; a run that awaits an approval has stored the batch of the very call that
        asked for it. */
    method Run(existing: seq<Message>, userMessage: string, resume: bool)
      returns (result: RunResult, pendingSteer: seq<Entry>, ghost kept: seq<Entry>, ghost waiting: seq<Entry>,
        ghost marks: seq<nat>)
      requires mailbox.Valid() && tools.Valid() && unconfirmed == [] && retryCount <= maxRetries
      requires persisted == (if resume then existing else existing + [User(userMessage)]) && Grouped(persisted)
      modifies this, mailbox, tools
      ensures !old(mailbox.state).New? ==> result.InvalidMailbox? && pendingSteer == []
      ensures Grouped(persisted) && old(persisted) <= persisted
      ensures Guidance(persisted) == Guidance(old(persisted)) + landed
      ensures |modelCalls| <= maxIterations && forall i :: 0 <= i < |modelCalls| ==> Faithful(modelCalls[i])
      ensures StreaksBounded(modelCalls, StreakBound(maxRetries, fallbackConfigured)) && switches <= 1
      ensures pendingSteer == kept + waiting
      ensures old(mailbox.state).New? ==> mailbox.accepted == landed + lost + kept + mailbox.reclaimed + waiting
      ensures lost != [] ==> result.InternalError? && checkerMayRaise
      ensures result.Completed? ==> EndsWith(persisted, result.text)
      ensures result.AwaitsApproval? ==> Awaits(persisted, result.request)
      ensures NothingFollows(batches, |modelCalls|) && StopsAsLogged(batches, result)
      ensures Grounds(result, heard, modelCalls, batches)
      ensures result.MaxIterations? ==> |modelCalls| == maxIterations
      ensures result.InvalidMailbox? ==> !old(mailbox.state).New?
      ensures Story(old(persisted), persisted, marks, modelCalls, batches) && |marks| >= |modelCalls|
    {
      hide Story, Told;
      hide Guidance, Conserved, Grouped, Going, Stopped, RetryInv, Faithful, StreaksBounded;
      pendingSteer, kept, waiting := [], [], [];
      ghost var base := persisted;
      var activated := StartRun(existing, userMessage, resume);
      marks := [|persisted|];
      if !activated {
        StoryStarts(persisted, modelCalls, batches);
        result := InvalidMailbox;
      } else {
        result, marks := RunInner(base);
        StoppedFacts(base);
        pendingSteer, kept, waiting := FinalizeSteer(base);
      }
    }

    // Resets the run's own records and activates the mailbox.
    method StartRun(existing: seq<Message>, userMessage: string, resume: bool) returns (activated: bool)
      requires mailbox.Valid() && tools.Valid() && unconfirmed == [] && retryCount <= maxRetries
      requires persisted == (if resume then existing else existing + [User(userMessage)]) && Grouped(persisted)
      modifies this, mailbox, tools
      ensures tools.toolsUsed == [] && tools.errorCounts == old(tools.errorCounts)
      ensures activated <==> old(mailbox.state).New?
      ensures persisted == old(persisted) && landed == lost == [] && modelCalls == [] && switches == 0
      ensures StreaksBounded(modelCalls, StreakBound(maxRetries, fallbackConfigured))
      ensures Guidance(persisted) == Guidance(persisted) + landed
      ensures activated ==> Going(persisted)
      ensures batches == [] && heard == NothingHeard
    {
      hide Guidance, Conserved, Grouped, RetryInv, Faithful;
      ResetRecords();
      tools.StartRun();
      assert Guidance(persisted) == Guidance(persisted) + landed;
      activated := mailbox.Activate();
      if activated {
        messages := if resume then existing else existing + [User(userMessage)];
        EmptyMailbox();
      }
    }

    ghost method ResetRecords()
      requires retryCount <= maxRetries
      modifies this`modelCalls, this`compressed, this`landed, this`lost, this`switches, this`batches, this`heard
      ensures RetryInv() && modelCalls == [] && landed == lost == [] && !compressed && switches == 0 && batches == []
      ensures heard == NothingHeard
    {
      heard := NothingHeard;
      modelCalls, compressed, landed, lost, switches, batches := [], false, [], [], 0, [];
    }

    lemma StoppedFacts(base: seq<Message>)
      requires Stopped(base)
      ensures Grouped(persisted) && base <= persisted && Guidance(persisted) == Guidance(base) + landed
      ensures forall i :: 0 <= i < |modelCalls| ==> Faithful(modelCalls[i])
      ensures StreaksBounded(modelCalls, StreakBound(maxRetries, fallbackConfigured)) && switches <= 1
    {
    }

    lemma EmptyMailbox()
      requires mailbox.accepted == [] && mailbox.pending == [] && mailbox.reclaimed == [] && landed == []
      ensures Conserved(mailbox.View(), landed)
    {
    }
  }

  // One entry waits in a mailbox that was new.
  method SubmitFirst(mailbox: SteerMailbox, entry: Entry)
    requires mailbox.Valid() && mailbox.state.New? && WellFormed(entry)
    modifies mailbox
    ensures mailbox.Valid() && mailbox.state.Active?
    ensures mailbox.View() == Mailbox(Active, [entry.(text := Strip(entry.text))], [entry.(text := Strip(entry.text))], [])
  {
    hide WellFormed, Strip;
    var activated := mailbox.Activate();
    assert mailbox.View() == Mailbox(Active, [], [], []);
    var submitted := mailbox.Submit(entry);
    assert mailbox.accepted[|old(mailbox.accepted)|..] == mailbox.accepted;
  }

  /** A cancel checker that raises behind the injection loses the entry that waited. */
  method RaisingCheckerLoses(entry: Entry, output: Tools.Output) returns (loop: ConversationAgentLoop)
    requires WellFormed(entry)
    ensures fresh(loop) && loop.lost == [entry.(text := Strip(entry.text))] && loop.lost <= loop.mailbox.accepted
    ensures loop.persisted == [] && loop.landed == loop.unconfirmed == []
  {
    hide WellFormed, Strip, Inv;
    loop := new ConversationAgentLoop(1, 0, 0, false, true, []);
    SubmitFirst(loop.mailbox, entry);
    var results := [ToolResult("call", output, [])];
    var injected, hand := loop.InjectAndCheck(results, false, true, Raises);
  }
}
