/**
 The check before a conversation resumes behind an approval: the stored history must hold the
 approved call and all results of its batch as complete facts.
 */
module ResumeHistory {
  import opened Common
  import opened ConversationLoop
  import Tools = AgentTools

  // -------------------------------------------------------------------- stored messages

  // An entry of a tool_calls list; anything else may stand there, too.
  datatype StoredCall = StoredCall(id: string, hasFunction: bool) | NotACall

  // `calls` is absent when the field is no list; `asksFor` is the approval a placeholder result names.
  datatype Stored =
    | Other
    | FromAssistant(calls: Option<seq<StoredCall>>)
    | FromTool(callId: string, asksFor: Option<string>)

  predicate WellFormedCall(c: StoredCall) { c.StoredCall? && c.id != "" && c.hasFunction }

  predicate WellFormedCalls(calls: seq<StoredCall>) {
    && (forall i :: 0 <= i < |calls| ==> WellFormedCall(calls[i]))
    && (forall i, j :: 0 <= i < j < |calls| ==> calls[i].id != calls[j].id)
  }

  predicate HasCalls(m: Stored) { m.FromAssistant? && m.calls.Some? }

  predicate Makes(m: Stored, id: string) {
    HasCalls(m) && exists i :: 0 <= i < |m.calls.value| && m.calls.value[i].StoredCall? && m.calls.value[i].id == id
  }

  predicate Owns(t: seq<Stored>, a: nat, id: string) { a < |t| && Makes(t[a], id) }

  // Exactly one result for this call in the whole history, and it comes later than the call.
  predicate AnsweredOnceAfter(t: seq<Stored>, a: nat, id: string) {
    && (exists j :: a < j < |t| && Answers(t[j], id))
    && (forall i, j :: 0 <= i < j < |t| ==> !(Answers(t[i], id) && Answers(t[j], id)))
  }

  predicate Answers(m: Stored, id: string) { m.FromTool? && m.callId == id }

  // The history may be resumed behind the call `id` of the assistant message at `a`.
  predicate ResumableAt(t: seq<Stored>, approvalId: string, id: string, a: nat) {
    && approvalId != "" && id != ""
    && (forall b :: 0 <= b < |t| && HasCalls(t[b]) ==> WellFormedCalls(t[b].calls.value))
    && Owns(t, a, id) && (forall b :: 0 <= b < |t| && Owns(t, b, id) ==> b == a)
    && (forall j :: 0 <= j < |t| ==> !AsksFor(t[j], approvalId))
    && (forall i :: 0 <= i < |t[a].calls.value| ==> AnsweredOnceAfter(t, a, IdAt(t[a], i)))
  }

  predicate AsksFor(m: Stored, approvalId: string) { m.FromTool? && m.asksFor == Some(approvalId) }

  function IdAt(m: Stored, i: nat): string
    requires HasCalls(m) && i < |m.calls.value|
  {
    if m.calls.value[i].StoredCall? then m.calls.value[i].id else ""
  }

  ghost predicate Resumable(t: seq<Stored>, approvalId: string, id: string) {
    exists a :: ResumableAt(t, approvalId, id, a)
  }

  // -------------------------------------------------------------------- the check

  // The ids of one tool_calls list, or none when an entry is malformed or an id repeats.
  method CallIds(calls: seq<StoredCall>) returns (ids: Option<seq<string>>)
    ensures ids.Some? <==> WellFormedCalls(calls)
    ensures ids.Some? ==> |ids.value| == |calls| && forall i :: 0 <= i < |calls| ==> ids.value[i] == calls[i].id
  {
    var found: seq<string> := [];
    var seen: set<string> := {};
    var repeats := false;
    for i := 0 to |calls|
      invariant |found| == i
      invariant forall j :: 0 <= j < i ==> WellFormedCall(calls[j]) && found[j] == calls[j].id
      invariant seen == set x | x in found
      invariant repeats <==> exists j, k :: 0 <= j < k < i && found[j] == found[k]
    {
      if calls[i].NotACall? || calls[i].id == "" || !calls[i].hasFunction {
        assert !WellFormedCall(calls[i]);
        return None;
      }
      if calls[i].id in seen {
        repeats := true;
      }
      found := found + [calls[i].id];
      seen := seen + {calls[i].id};
    }
    if repeats {
      return None;
    }
    return Some(found);
  }

  // The positions of the results for a call, in order.
  function AnswerIndices(t: seq<Stored>, id: string): seq<nat> {
    if t == [] then []
    else
      var n := |t| - 1;
      if Answers(t[n], id) then AnswerIndices(t[..n], id) + [n] else AnswerIndices(t[..n], id)
  }

  predicate Ascending(at: seq<nat>) { forall k, l :: 0 <= k < l < |at| ==> at[k] < at[l] }

  lemma {:induction false} AnswerIndicesFacts(t: seq<Stored>, id: string)
    ensures forall j: nat :: j in AnswerIndices(t, id) <==> j < |t| && Answers(t[j], id)
    ensures Ascending(AnswerIndices(t, id))
  {
    if t != [] {
      var n := |t| - 1;
      AnswerIndicesFacts(t[..n], id);
      var before := AnswerIndices(t[..n], id);
      forall k | 0 <= k < |before| ensures before[k] < n {
        assert before[k] in before;
      }
      forall j: nat ensures j in AnswerIndices(t, id) <==> j < |t| && Answers(t[j], id) {
        assert j < n ==> t[..n][j] == t[j];
      }
      assert Ascending(before) && Ascending(before + [n]);
    }
  }

  lemma AnsweredOnceIs(t: seq<Stored>, a: nat, id: string)
    ensures AnsweredOnceAfter(t, a, id) <==> var at := AnswerIndices(t, id); |at| == 1 && at[0] > a
  {
    AnswerIndicesFacts(t, id);
    var at := AnswerIndices(t, id);
    assert forall k :: 0 <= k < |at| ==> at[k] in at;
    assert |at| > 1 ==> at[0] < at[1] && Answers(t[at[0]], id) && Answers(t[at[1]], id);
    assert forall j: nat :: j < |t| && Answers(t[j], id) ==> j in at;
  }

  // The assistant messages that make the call, with the ids of their whole list; none when any list of
  // the history is malformed.
  method TargetAssistants(t: seq<Stored>, id: string) returns (targets: Option<seq<(nat, seq<string>)>>)
    ensures targets.Some? <==> forall b :: 0 <= b < |t| && HasCalls(t[b]) ==> WellFormedCalls(t[b].calls.value)
    ensures targets.Some? ==> AreTargets(targets.value, t, id, |t|)
  {
    var found: seq<(nat, seq<string>)> := [];
    for i := 0 to |t|
      invariant forall b :: 0 <= b < i && HasCalls(t[b]) ==> WellFormedCalls(t[b].calls.value)
      invariant AreTargets(found, t, id, i)
    {
      if t[i].FromAssistant? && t[i].calls.Some? {
        var ids := CallIds(t[i].calls.value);
        if ids.None? {
          return None;
        }
        assert Makes(t[i], id) <==> id in ids.value by {
          if id in ids.value {
            var k :| 0 <= k < |ids.value| && ids.value[k] == id;
            assert t[i].calls.value[k].id == id;
          }
          if Makes(t[i], id) {
            var k :| 0 <= k < |t[i].calls.value| && t[i].calls.value[k].StoredCall? && t[i].calls.value[k].id == id;
            assert ids.value[k] == id;
          }
        }
        if id in ids.value {
          ghost var before := found;
          found := found + [(i, ids.value)];
          assert found[|before|] == (i, ids.value) && forall k :: 0 <= k < |before| ==> found[k] == before[k];
        }
      }
    }
    return Some(found);
  }

  predicate IdsOf(ids: seq<string>, m: Stored) {
    HasCalls(m) && WellFormedCalls(m.calls.value) && |ids| == |m.calls.value|
    && forall k :: 0 <= k < |ids| ==> ids[k] == IdAt(m, k)
  }

  predicate AreTargets(targets: seq<(nat, seq<string>)>, t: seq<Stored>, id: string, n: nat)
    requires n <= |t|
  {
    && (forall k :: 0 <= k < |targets| ==> targets[k].0 < n && Owns(t, targets[k].0, id) && IdsOf(targets[k].1, t[targets[k].0]))
    && (forall k, l :: 0 <= k < l < |targets| ==> targets[k].0 < targets[l].0)
    && (forall b :: 0 <= b < n && Owns(t, b, id) ==> exists k :: 0 <= k < |targets| && targets[k].0 == b)
  }

  // The positions of all results of the listed calls; none when a placeholder of the approval is left.
  method ResultsByCall(t: seq<Stored>, approvalId: string, ids: seq<string>)
    returns (results: Option<map<string, seq<nat>>>)
    ensures results.Some? <==> forall j :: 0 <= j < |t| ==> !AsksFor(t[j], approvalId)
    ensures results.Some? ==> forall id :: id in ids ==> id in results.value && results.value[id] == AnswerIndices(t, id)
  {
    var found: map<string, seq<nat>> := map id | id in ids :: [];
    for i := 0 to |t|
      invariant found.Keys == set id | id in ids
      invariant forall j :: 0 <= j < i ==> !AsksFor(t[j], approvalId)
      invariant forall id :: id in found ==> found[id] == AnswerIndices(t[..i], id)
    {
      assert t[..i + 1][..i] == t[..i];
      if t[i].FromTool? {
        if t[i].asksFor == Some(approvalId) {
          assert AsksFor(t[i], approvalId);
          return None;
        }
        if t[i].callId in found {
          found := found[t[i].callId := found[t[i].callId] + [i]];
        }
      }
    }
    assert t[..|t|] == t;
    return Some(found);
  }

  /** Accepts exactly the histories that may be resumed: every list of calls well formed, one assistant
      message that makes the approved call, one later result for each of its calls, and no
      placeholder of the approval left. */
  method ValidateApprovalResumeHistory(t: seq<Stored>, approvalId: string, id: string) returns (ok: bool)
    ensures ok <==> Resumable(t, approvalId, id)
  {
    if approvalId == "" || id == "" {
      return false;
    }
    var targets := TargetAssistants(t, id);
    if targets.None? {
      return false;
    }
    if |targets.value| != 1 {
      OnlyTarget(t, id, targets.value);
      return false;
    }
    var (a, ids) := targets.value[0];
    var results := ResultsByCall(t, approvalId, ids);
    if results.None? {
      return false;
    }
    for k := 0 to |ids|
      invariant forall l :: 0 <= l < k ==> AnsweredOnceAfter(t, a, ids[l])
    {
      AnsweredOnceIs(t, a, ids[k]);
      var at := results.value[ids[k]];
      if |at| != 1 || at[0] <= a {
        assert !AnsweredOnceAfter(t, a, IdAt(t[a], k));
        return false;
      }
    }
    assert ResumableAt(t, approvalId, id, a);
    return true;
  }

  lemma OnlyTarget(t: seq<Stored>, id: string, targets: seq<(nat, seq<string>)>)
    requires AreTargets(targets, t, id, |t|) && |targets| != 1
    ensures !exists a: nat :: Owns(t, a, id) && forall b :: 0 <= b < |t| && Owns(t, b, id) ==> b == a
  {
    if |targets| > 1 {
      assert Owns(t, targets[0].0, id) && Owns(t, targets[1].0, id) && targets[0].0 < targets[1].0;
    }
  }

  // -------------------------------------------------------------------- batches the loop produced

  // How a message of the loop is stored.
  function StoredCalls(calls: seq<Tools.ToolCall>): seq<StoredCall> {
    seq(|calls|, i requires 0 <= i < |calls| => StoredCall(calls[i].id, true))
  }

  function Store(m: Message): Stored {
    match m
    case User(_) => Other
    case Assistant(_, _, calls) => FromAssistant(if calls == [] then None else Some(StoredCalls(calls)))
    case ToolResult(callId, _, _) => FromTool(callId, Asks(m))
  }

  function StoreAll(t: seq<Message>): seq<Stored> {
    seq(|t|, i requires 0 <= i < |t| => Store(t[i]))
  }

  // The assistant message that makes the call with this position in its list.
  predicate CallAt(t: seq<Message>, a: nat, i: nat, id: string) {
    a < |t| && t[a].Assistant? && i < |t[a].calls| && t[a].calls[i].id == id
  }

  // All call ids of a transcript are present and different.
  ghost predicate DistinctCalls(t: seq<Message>) {
    && (forall a, i, id :: CallAt(t, a, i, id) ==> id != "")
    && (forall a, i, b, j, id :: CallAt(t, a, i, id) && CallAt(t, b, j, id) ==> a == b && i == j)
  }

  // In complete groups every result stands right where its call puts it.
  lemma {:induction false} ResultsFollowTheirCalls(t: seq<Message>, r: nat)
    requires Grouped(t) && r < |t| && t[r].ToolResult?
    ensures exists a: nat, i: nat :: CallAt(t, a, i, t[r].callId) && r == a + 1 + i
    decreases |t|
  {
    var n := Extent(t[0]);
    if r < n {
      var i := r - 1;
      assert t[1..n][i] == t[r];
      assert CallAt(t, 0, i, t[r].callId);
    } else {
      assert t[n..][r - n] == t[r];
      ResultsFollowTheirCalls(t[n..], r - n);
      var a: nat, i: nat :| CallAt(t[n..], a, i, t[r].callId) && r - n == a + 1 + i;
      assert CallAt(t, n + a, i, t[r].callId);
    }
  }

  lemma {:induction false} CallsHaveTheirResults(t: seq<Message>, a: nat, i: nat)
    requires Grouped(t) && a < |t| && t[a].Assistant? && i < |t[a].calls|
    ensures a + 1 + i < |t| && t[a + 1 + i].ToolResult? && t[a + 1 + i].callId == t[a].calls[i].id
    decreases |t|
  {
    var n := Extent(t[0]);
    assert forall r :: 1 <= r < n ==> t[1..n][r - 1] == t[r];
    if a != 0 {
      CallsHaveTheirResults(t[n..], a - n, i);
    }
  }

  lemma MakesIsCall(t: seq<Message>, a: nat, id: string)
    requires a < |t|
    ensures Owns(StoreAll(t), a, id) <==> exists i: nat :: CallAt(t, a, i, id)
  {
    var s := StoreAll(t);
    if Owns(s, a, id) {
      var i :| 0 <= i < |s[a].calls.value| && s[a].calls.value[i].StoredCall? && s[a].calls.value[i].id == id;
      assert CallAt(t, a, i, id);
    }
    if i: nat :| CallAt(t, a, i, id) {
      assert s[a].calls.value[i].id == id;
    }
  }

  lemma StoredWell(t: seq<Message>, b: nat)
    requires DistinctCalls(t) && b < |t| && HasCalls(Store(t[b]))
    ensures WellFormedCalls(Store(t[b]).calls.value)
  {
    var calls := Store(t[b]).calls.value;
    forall i | 0 <= i < |calls| ensures WellFormedCall(calls[i]) {
      assert CallAt(t, b, i, calls[i].id);
    }
    forall i, j | 0 <= i < j < |calls| ensures calls[i].id != calls[j].id {
      assert CallAt(t, b, i, calls[i].id) && CallAt(t, b, j, calls[j].id);
    }
  }

  lemma OnlyResult(t: seq<Message>, a: nat, i: nat, r: nat)
    requires Grouped(t) && DistinctCalls(t) && r < |t| && t[r].ToolResult? && CallAt(t, a, i, t[r].callId)
    ensures r == a + 1 + i
  {
    hide Grouped;
    ResultsFollowTheirCalls(t, r);
  }

  lemma AnswersIsResult(t: seq<Message>, r: nat, id: string)
    requires r < |t|
    ensures |StoreAll(t)| == |t|
    ensures Answers(StoreAll(t)[r], id) <==> t[r].ToolResult? && t[r].callId == id
  {
  }

  lemma AnsweredByTheLoop(t: seq<Message>, a: nat, i: nat)
    requires Grouped(t) && DistinctCalls(t) && a < |t| && t[a].Assistant? && i < |t[a].calls|
    ensures AnsweredOnceAfter(StoreAll(t), a, t[a].calls[i].id)
  {
    hide Grouped, StoreAll, DistinctCalls;
    var s, id := StoreAll(t), t[a].calls[i].id;
    CallsHaveTheirResults(t, a, i);
    AnswersIsResult(t, a + 1 + i, id);
    forall r: nat | r < |s| && Answers(s[r], id) ensures r == a + 1 + i {
      AnswersIsResult(t, r, id);
      OnlyResult(t, a, i, r);
    }
  }

  /** On a transcript of complete groups whose call ids all differ, any call of it can be resumed behind an
      approval exactly when no result still is a placeholder of that approval. */
  lemma LoopHistoryResumes(t: seq<Message>, approvalId: string, a: nat, k: nat)
    requires Grouped(t) && DistinctCalls(t) && approvalId != ""
    requires a < |t| && t[a].Assistant? && k < |t[a].calls|
    ensures Resumable(StoreAll(t), approvalId, t[a].calls[k].id) <==>
              forall r :: 0 <= r < |t| && t[r].ToolResult? ==> Asks(t[r]) != Some(approvalId)
  {
    var s, id := StoreAll(t), t[a].calls[k].id;
    assert CallAt(t, a, k, id);
    forall b | 0 <= b < |s| && HasCalls(s[b]) ensures WellFormedCalls(s[b].calls.value) {
      StoredWell(t, b);
    }
    forall b | 0 <= b < |s| ensures Owns(s, b, id) <==> b == a {
      MakesIsCall(t, b, id);
    }
    forall i | 0 <= i < |s[a].calls.value| ensures AnsweredOnceAfter(s, a, IdAt(s[a], i)) {
      AnsweredByTheLoop(t, a, i);
    }
    assert forall r :: 0 <= r < |t| ==>
             (AsksFor(s[r], approvalId) <==> t[r].ToolResult? && Asks(t[r]) == Some(approvalId));
    if forall r :: 0 <= r < |t| && t[r].ToolResult? ==> Asks(t[r]) != Some(approvalId) {
      assert ResumableAt(s, approvalId, id, a);
    }
  }

  lemma ReplacingKeepsCalls(t: seq<Message>, r: nat, m: Message)
    requires DistinctCalls(t) && r < |t| && !t[r].Assistant? && !m.Assistant?
    ensures DistinctCalls(t[r := m])
  {
    var u := t[r := m];
    assert forall a: nat, i: nat, id :: CallAt(u, a, i, id) <==> CallAt(t, a, i, id);
  }

  lemma {:induction false} ReplacingKeepsGroups(t: seq<Message>, r: nat, m: Message)
    requires Grouped(t) && r < |t| && t[r].ToolResult? && m.ToolResult? && m.callId == t[r].callId
    ensures Grouped(t[r := m])
    decreases |t|
  {
    var n := Extent(t[0]);
    var u := t[r := m];
    assert u[0] == t[0];
    if r < n {
      assert u[n..] == t[n..] && u[1..n] == t[1..n][r - 1 := m];
    } else {
      ReplacingKeepsGroups(t[n..], r - n, m);
      assert u[n..] == t[n..][r - n := m] && u[1..n] == t[1..n];
    }
  }

  // -------------------------------------------------------------------- from the stop to the resumption

  predicate OnlyResultFor(t: seq<Message>, r: nat, callId: string) {
    && r < |t| && t[r].ToolResult? && t[r].callId == callId
    && forall q :: 0 <= q < |t| && t[q].ToolResult? && t[q].callId == callId ==> q == r
  }

  /** The update of the stored results of one call; anything but exactly one row is rolled back. */
  method ReplaceToolMessageContent(t: seq<Message>, callId: string, output: Tools.Output)
    returns (replaced: bool, now: seq<Message>)
    ensures replaced <==> exists r: nat :: OnlyResultFor(t, r, callId)
    ensures !replaced ==> now == t
    ensures forall r: nat :: OnlyResultFor(t, r, callId) ==> now == t[r := ToolResult(callId, output, [])]
  {
    var found: seq<nat> := [];
    now := [];
    for i := 0 to |t|
      invariant |now| == i
      invariant forall r: nat :: r in found <==> r < i && t[r].ToolResult? && t[r].callId == callId
      invariant forall k, l :: 0 <= k < l < |found| ==> found[k] != found[l]
      invariant forall r :: 0 <= r < i ==>
                  now[r] == if t[r].ToolResult? && t[r].callId == callId then ToolResult(callId, output, []) else t[r]
    {
      var matches := t[i].ToolResult? && t[i].callId == callId;
      now := now + [if matches then ToolResult(callId, output, []) else t[i]];
      if matches {
        found := found + [i];
      }
    }
    replaced := |found| == 1;
    if replaced {
      assert OnlyResultFor(t, found[0], callId) by {
        assert found[0] in found;
      }
    } else {
      now := t;
      NotOneResult(t, callId, found);
    }
  }

  lemma NotOneResult(t: seq<Message>, callId: string, found: seq<nat>)
    requires forall r: nat :: r in found <==> r < |t| && t[r].ToolResult? && t[r].callId == callId
    requires (forall k, l :: 0 <= k < l < |found| ==> found[k] != found[l]) && |found| != 1
    ensures !exists r: nat :: OnlyResultFor(t, r, callId)
  {
    if |found| > 1 {
      assert found[0] in found && found[1] in found && found[0] != found[1];
    }
  }

  lemma ResultIsUnique(t: seq<Message>, a: nat, k: nat)
    requires Grouped(t) && DistinctCalls(t) && a < |t| && t[a].Assistant? && k < |t[a].calls|
    ensures OnlyResultFor(t, a + 1 + k, t[a].calls[k].id)
  {
    hide Grouped;
    CallsHaveTheirResults(t, a, k);
    forall q: nat | q < |t| && t[q].ToolResult? && t[q].callId == t[a].calls[k].id ensures q == a + 1 + k {
      assert CallAt(t, a, k, t[q].callId);
      OnlyResult(t, a, k, q);
    }
  }

  // Neither the new output nor a result before position `n` names the approval.
  predicate NotAskedElsewhere(t: seq<Message>, n: nat, approvalId: string, output: Tools.Output)
    requires n <= |t|
  {
    Tools.AskedId(output) != Some(approvalId) && forall r :: 0 <= r < n ==> Asks(t[r]) != Some(approvalId)
  }

  // `now` is the stopped transcript with the asking call's result replaced.
  predicate ResolvedAt(t: seq<Message>, a: nat, k: nat, request: Tools.Request, output: Tools.Output, now: seq<Message>) {
    && AwaitsAt(t, a, k, request) && a + 1 + k < |t|
    && now == t[a + 1 + k := ToolResult(request.callId, output, [])]
  }

  /** A history that ends with a batch stopped for an approval is rejected; with the placeholder replaced it
      is accepted exactly when neither the new output nor any earlier result names that approval. */
  lemma StoppedBatchResumes(t: seq<Message>, request: Tools.Request, a: nat, k: nat, output: Tools.Output)
    requires Grouped(t) && DistinctCalls(t) && AwaitsAt(t, a, k, request)
    ensures var resolved := t[a + 1 + k := ToolResult(request.callId, output, [])];
            && !Resumable(StoreAll(t), request.id, request.callId)
            && (Resumable(StoreAll(resolved), request.id, request.callId) <==>
                  NotAskedElsewhere(t, a + 1 + k, request.id, output))
  {
    hide Grouped, DistinctCalls, Resumable, StoreAll, AwaitsAt;
    var r := a + 1 + k;
    var m := ToolResult(request.callId, output, []);
    AwaitsFacts(t, request, a, k);
    CallsHaveTheirResults(t, a, k);
    ReplacingKeepsGroups(t, r, m);
    ReplacingKeepsCalls(t, r, m);
    LoopHistoryResumes(t, request.id, a, k);
    LoopHistoryResumes(t[r := m], request.id, a, k);
    ReplacedAsks(t, r, m, request.id);
  }

  lemma AwaitsFacts(t: seq<Message>, request: Tools.Request, a: nat, k: nat)
    requires AwaitsAt(t, a, k, request)
    ensures a < |t| && t[a].Assistant?
    ensures request.id != "" && k < |t[a].calls| && t[a].calls[k].id == request.callId
    ensures a + 1 + k < |t| && Asks(t[a + 1 + k]) == Some(request.id)
    ensures forall q :: a + 1 + k < q < |t| ==> Asks(t[q]) == None
  {
    assert t[a + 1..][k] == t[a + 1 + k];
    forall q | a + 1 + k < q < |t| ensures Asks(t[q]) == None {
      assert t[a + 1..][q - (a + 1)] == t[q];
    }
  }

  lemma ReplacedAsks(t: seq<Message>, r: nat, m: Message, approvalId: string)
    requires r < |t| && forall q :: r < q < |t| ==> Asks(t[q]) != Some(approvalId)
    ensures var u := t[r := m];
            (forall q :: 0 <= q < |u| ==> Asks(u[q]) != Some(approvalId)) <==>
              Asks(m) != Some(approvalId) && forall q :: 0 <= q < r ==> Asks(t[q]) != Some(approvalId)
  {
    var u := t[r := m];
    assert u[r] == m && (forall q :: 0 <= q < r ==> u[q] == t[q]) && (forall q :: r < q < |t| ==> u[q] == t[q]);
  }

  // The request's own call is the one whose result is replaced.
  lemma StoppedBatchIsReplaced(t: seq<Message>, request: Tools.Request, a: nat, k: nat)
    requires Grouped(t) && DistinctCalls(t) && AwaitsAt(t, a, k, request)
    ensures OnlyResultFor(t, a + 1 + k, request.callId)
  {
    ResultIsUnique(t, a, k);
  }

  /** A run that stops for an approval, the approved call, and the check before the resumption: with call
      ids that all differ, the stopped history is refused, the placeholder is replaced, and the new
      history is accepted exactly when neither the output nor any earlier result names the approval. */
  method RunAndApprove(loop: ConversationAgentLoop, existing: seq<Message>, userMessage: string, resume: bool,
                       output: Tools.Output)
    returns (result: RunResult, early: bool, replaced: bool, stored: seq<Message>, accepted: bool)
    requires loop.mailbox.Valid() && loop.tools.Valid() && loop.unconfirmed == [] && loop.retryCount <= loop.maxRetries
    requires loop.persisted == (if resume then existing else existing + [User(userMessage)]) && Grouped(loop.persisted)
    modifies loop, loop.mailbox, loop.tools
    ensures result.AwaitsApproval? && DistinctCalls(loop.persisted) ==>
              && !early && replaced
              && exists a: nat, k: nat ::
                   && ResolvedAt(loop.persisted, a, k, result.request, output, stored)
                   && (accepted <==> NotAskedElsewhere(loop.persisted, a + 1 + k, result.request.id, output))
  {
    hide Grouped, DistinctCalls, Resumable, AwaitsAt, StoreAll, Guidance;
    var pending;
    ghost var kept, waiting;
    ghost var marks;
    result, pending, kept, waiting, marks := loop.Run(existing, userMessage, resume);
    if !result.AwaitsApproval? {
      return result, false, false, loop.persisted, false;
    }
    var request := result.request;
    early := ValidateApprovalResumeHistory(StoreAll(loop.persisted), request.id, request.callId);
    replaced, stored := ReplaceToolMessageContent(loop.persisted, request.callId, output);
    accepted := ValidateApprovalResumeHistory(StoreAll(stored), request.id, request.callId);
    if DistinctCalls(loop.persisted) {
      ghost var a: nat, k: nat :| AwaitsAt(loop.persisted, a, k, request);
      StoppedBatchIsReplaced(loop.persisted, request, a, k);
      StoppedBatchResumes(loop.persisted, request, a, k, output);
      AwaitsFacts(loop.persisted, request, a, k);
      assert ResolvedAt(loop.persisted, a, k, request, output, stored);
    }
  }
}
