/**
 Rebuilding one complete model turn from the chunks of a stream: text, reasoning and tool calls
 arrive in pieces, tool-call pieces addressed by an index.
 */
module Fragments {
  import opened Common

  // -------------------------------------------------------------------- what a stream carries

  // The index of a tool-call delta: absent, not convertible to a number, or a number.
  datatype RawIndex = Missing | Unreadable | Number(n: int)

  datatype Part = Part(id: Option<string>, kind: Option<string>, name: Option<string>, arguments: Option<string>)

  datatype CallDelta = CallDelta(index: RawIndex, part: Part)

  datatype Delta = Delta(content: Option<string>, reasoning: Option<string>, calls: seq<CallDelta>)

  datatype Choice = Choice(finishReason: Option<string>, delta: Option<Delta>)

  datatype Chunk = Chunk(usage: Option<nat>, choices: seq<Choice>)

  datatype ToolCall = ToolCall(id: string, kind: string, name: string, arguments: string)

  datatype Message = Message(content: string, reasoning: Option<string>, calls: seq<ToolCall>)

  datatype Turn = Turn(message: Message, finishReason: string, usage: Option<nat>)

  // One piece of one channel.
  datatype Fragment =
    | Usage(usage: nat)
    | Finish(reason: string)
    | Text(text: string)
    | Reasoning(text: string)
    | Call(index: int, part: Part)

  function Resolve(raw: RawIndex, position: nat): int { if raw.Number? then raw.n else position }

  function CallFragments(deltas: seq<CallDelta>): seq<Fragment> {
    seq(|deltas|, k requires 0 <= k < |deltas| => Call(Resolve(deltas[k].index, k), deltas[k].part))
  }

  function OrEmpty(s: Option<string>): string { if s.Some? then s.value else "" }

  function DeltaFragments(d: Delta): seq<Fragment> {
    [Text(OrEmpty(d.content)), Reasoning(OrEmpty(d.reasoning))] + CallFragments(d.calls)
  }

  // The pieces of a chunk in the order the accumulator takes them; only the first choice counts.
  function Unpack(chunk: Chunk): seq<Fragment> {
    (if chunk.usage.Some? then [Usage(chunk.usage.value)] else [])
    + (if chunk.choices == [] then [] else ChoiceFragments(chunk.choices[0]))
  }

  function ChoiceFragments(c: Choice): seq<Fragment> {
    (if c.finishReason.Some? then [Finish(c.finishReason.value)] else [])
    + (if c.delta.None? then [] else DeltaFragments(c.delta.value))
  }

  function UnpackAll(chunks: seq<Chunk>): seq<Fragment> {
    if chunks == [] then [] else UnpackAll(chunks[..|chunks| - 1]) + Unpack(chunks[|chunks| - 1])
  }

  // -------------------------------------------------------------------- what each channel says

  function TextOf(f: seq<Fragment>): string {
    if f == [] then "" else TextOf(f[..|f| - 1]) + if f[|f| - 1].Text? then f[|f| - 1].text else ""
  }

  function ReasoningOf(f: seq<Fragment>): string {
    if f == [] then "" else ReasoningOf(f[..|f| - 1]) + if f[|f| - 1].Reasoning? then f[|f| - 1].text else ""
  }

  function FinishOf(f: seq<Fragment>): Option<string> {
    if f == [] then None
    else if f[|f| - 1].Finish? then Some(f[|f| - 1].reason)
    else FinishOf(f[..|f| - 1])
  }

  function UsageOf(f: seq<Fragment>): Option<nat> {
    if f == [] then None
    else if f[|f| - 1].Usage? then Some(f[|f| - 1].usage)
    else UsageOf(f[..|f| - 1])
  }

  function PartsFor(f: seq<Fragment>, index: int): seq<Part> {
    if f == [] then []
    else
      PartsFor(f[..|f| - 1], index)
        + if f[|f| - 1].Call? && f[|f| - 1].index == index then [f[|f| - 1].part] else []
  }

  function NameOf(parts: seq<Part>): string {
    if parts == [] then "" else NameOf(parts[..|parts| - 1]) + OrEmpty(parts[|parts| - 1].name)
  }

  function ArgumentsOf(parts: seq<Part>): string {
    if parts == [] then "" else ArgumentsOf(parts[..|parts| - 1]) + OrEmpty(parts[|parts| - 1].arguments)
  }

  predicate NamesItself(p: Part) { p.id.Some? && p.id.value != "" }

  // The first id that is not empty.
  function IdOf(parts: seq<Part>): Option<string> {
    if parts == [] then None
    else
      var before := IdOf(parts[..|parts| - 1]);
      if before.None? && NamesItself(parts[|parts| - 1]) then parts[|parts| - 1].id else before
  }

  function KindOf(parts: seq<Part>): Option<string> {
    if parts == [] then None
    else if parts[|parts| - 1].kind.Some? then parts[|parts| - 1].kind
    else KindOf(parts[..|parts| - 1])
  }

  // The id a provider left out, made from the attempt and the index.
  function FallbackId(attempt: string, index: int): string {
    "call_stream_" + attempt + "_" + IntText(index)
  }

  function CallFrom(parts: seq<Part>, attempt: string, index: int): ToolCall {
    ToolCall(
      if IdOf(parts).Some? then IdOf(parts).value else FallbackId(attempt, index),
      if KindOf(parts).Some? && KindOf(parts).value != "" then KindOf(parts).value else "function",
      NameOf(parts),
      ArgumentsOf(parts))
  }

  predicate Increasing(at: seq<int>) { forall i, j :: 0 <= i < j < |at| ==> at[i] < at[j] }

  // The turn these fragments stand for, its calls in the order of their indices `at`.
  ghost predicate Rebuilds(f: seq<Fragment>, attempt: string, turn: Turn, at: seq<int>) {
    && turn.message.content == TextOf(f)
    && turn.message.reasoning == (if ReasoningOf(f) == "" then None else Some(ReasoningOf(f)))
    && turn.finishReason == (if FinishOf(f).None? || FinishOf(f).value == "" then "stop" else FinishOf(f).value)
    && turn.usage == UsageOf(f)
    && Increasing(at) && |turn.message.calls| == |at|
    && (forall i :: i in at <==> PartsFor(f, i) != [])
    && (forall k :: 0 <= k < |at| ==> turn.message.calls[k] == CallFrom(PartsFor(f, at[k]), attempt, at[k]))
  }

  // -------------------------------------------------------------------- cutting a message

  // Pieces of one call: names and arguments cut anywhere, every id and type that is sent is its own.
  predicate CutsCall(parts: seq<Part>, c: ToolCall) {
    && parts != [] && c.id != "" && c.kind != ""
    && NameOf(parts) == c.name && ArgumentsOf(parts) == c.arguments
    && (forall p :: p in parts && NamesItself(p) ==> p.id.value == c.id)
    && (forall p :: p in parts && p.kind.Some? ==> p.kind.value == c.kind)
    && (exists p :: p in parts && NamesItself(p))
    && (c.kind == "function" || exists p :: p in parts && p.kind.Some?)
  }

  // The fragments are pieces of the message, in any interleaving of its channels.
  ghost predicate Cuts(f: seq<Fragment>, m: Message, at: seq<int>) {
    && TextOf(f) == m.content && ReasoningOf(f) == OrEmpty(m.reasoning)
    && Increasing(at) && |at| == |m.calls|
    && (forall i :: i in at <==> PartsFor(f, i) != [])
    && (forall k :: 0 <= k < |at| ==> CutsCall(PartsFor(f, at[k]), m.calls[k]))
  }

  predicate FirstNaming(parts: seq<Part>, k: nat) {
    k < |parts| && NamesItself(parts[k]) && forall j :: 0 <= j < k ==> !NamesItself(parts[j])
  }

  predicate LastTyped(parts: seq<Part>, k: nat) {
    k < |parts| && parts[k].kind.Some? && forall j :: k < j < |parts| ==> parts[j].kind.None?
  }

  /** The id of a call is the first one that is not empty. */
  lemma {:induction false} IdIsTheFirst(parts: seq<Part>)
    ensures IdOf(parts).None? ==> forall k :: 0 <= k < |parts| ==> !NamesItself(parts[k])
    ensures IdOf(parts).Some? ==> exists k: nat :: FirstNaming(parts, k) && parts[k].id == IdOf(parts)
  {
    if parts != [] {
      var n := |parts| - 1;
      IdIsTheFirst(parts[..n]);
      if IdOf(parts[..n]).Some? {
        var k: nat :| FirstNaming(parts[..n], k) && parts[..n][k].id == IdOf(parts[..n]);
        assert FirstNaming(parts, k);
      } else if NamesItself(parts[n]) {
        assert FirstNaming(parts, n);
      }
    }
  }

  /** The type of a call is the last one sent. */
  lemma {:induction false} KindIsTheLast(parts: seq<Part>)
    ensures KindOf(parts).None? ==> forall k :: 0 <= k < |parts| ==> parts[k].kind.None?
    ensures KindOf(parts).Some? ==> exists k: nat :: LastTyped(parts, k) && parts[k].kind == KindOf(parts)
  {
    if parts != [] {
      var n := |parts| - 1;
      KindIsTheLast(parts[..n]);
      if parts[n].kind.Some? {
        assert LastTyped(parts, n);
      } else if KindOf(parts[..n]).Some? {
        var k: nat :| LastTyped(parts[..n], k) && parts[..n][k].kind == KindOf(parts[..n]);
        assert LastTyped(parts, k);
      }
    }
  }

  lemma NamesFollow(parts: seq<Part>, p: Part)
    ensures NameOf(parts + [p]) == NameOf(parts) + OrEmpty(p.name)
    ensures ArgumentsOf(parts + [p]) == ArgumentsOf(parts) + OrEmpty(p.arguments)
  {
    assert (parts + [p])[..|parts|] == parts;
  }

  /** Names and arguments are put together in the order they came. */
  lemma {:induction false} PiecesInOrder(a: seq<Part>, b: seq<Part>)
    ensures NameOf(a + b) == NameOf(a) + NameOf(b) && ArgumentsOf(a + b) == ArgumentsOf(a) + ArgumentsOf(b)
  {
    if b == [] {
      assert a + b == a;
    } else {
      hide NameOf, ArgumentsOf;
      var before, last := b[..|b| - 1], b[|b| - 1];
      assert b == before + [last] && a + b == (a + before) + [last];
      PiecesInOrder(a, before);
      NamesFollow(a + before, last);
      NamesFollow(before, last);
      Associates(NameOf(a), NameOf(before), OrEmpty(last.name));
      Associates(ArgumentsOf(a), ArgumentsOf(before), OrEmpty(last.arguments));
    }
  }

  lemma CutCallIsRebuilt(parts: seq<Part>, c: ToolCall, attempt: string, index: int)
    requires CutsCall(parts, c)
    ensures CallFrom(parts, attempt, index) == c
  {
    IdIsTheFirst(parts);
    KindIsTheLast(parts);
    assert forall k :: 0 <= k < |parts| ==> parts[k] in parts;
  }

  lemma {:induction false} SameMembersSameOrder(a: seq<int>, b: seq<int>)
    requires Increasing(a) && Increasing(b) && forall i :: i in a <==> i in b
    ensures a == b
  {
    assert forall i :: 0 <= i < |a| ==> a[i] in a;
    assert forall i :: 0 <= i < |b| ==> b[i] in b;
    if a != [] && b != [] {
      assert a[0] in b && b[0] in a;
      assert a[0] == b[0];
      forall i ensures i in a[1..] <==> i in b[1..] {
        assert i in a[1..] <==> i in a && i != a[0];
        assert i in b[1..] <==> i in b && i != b[0];
      }
      SameMembersSameOrder(a[1..], b[1..]);
    }
  }

  /** Whatever way a message is cut and its channels interleaved, the same message comes back -
      exactly when it does not carry an empty reasoning text, which comes back as none. */
  lemma RoundTrip(f: seq<Fragment>, m: Message, at: seq<int>, attempt: string, turn: Turn, rebuiltAt: seq<int>)
    requires Cuts(f, m, at) && Rebuilds(f, attempt, turn, rebuiltAt)
    ensures turn.message == m <==> m.reasoning != Some("")
  {
    SameMembersSameOrder(at, rebuiltAt);
    forall k | 0 <= k < |at| ensures turn.message.calls[k] == m.calls[k] {
      CutCallIsRebuilt(PartsFor(f, at[k]), m.calls[k], attempt, at[k]);
    }
    assert turn.message.calls == m.calls;
  }

  // -------------------------------------------------------------------- what chunks send

  // Only the first choice of a chunk counts.
  function DeltaOf(chunk: Chunk): Option<Delta> { if chunk.choices == [] then None else chunk.choices[0].delta }

  function ReasonOf(chunk: Chunk): Option<string> {
    if chunk.choices == [] then None else chunk.choices[0].finishReason
  }

  // The text a chunk adds.
  function ContentOf(chunk: Chunk): string {
    if DeltaOf(chunk).None? then "" else OrEmpty(DeltaOf(chunk).value.content)
  }

  function ThinkingOf(chunk: Chunk): string {
    if DeltaOf(chunk).None? then "" else OrEmpty(DeltaOf(chunk).value.reasoning)
  }

  function DeltasOf(chunk: Chunk): seq<CallDelta> {
    if DeltaOf(chunk).None? then [] else DeltaOf(chunk).value.calls
  }

  // A delta means the call it numbers, and without a number the call at its own position.
  predicate Addresses(d: CallDelta, position: nat, i: int) {
    d.index == Number(i) || (!d.index.Number? && position == i)
  }

  function AddressedParts(deltas: seq<CallDelta>, i: int): seq<Part> {
    if deltas == [] then []
    else
      var n := |deltas| - 1;
      AddressedParts(deltas[..n], i) + if Addresses(deltas[n], n, i) then [deltas[n].part] else []
  }

  function SentText(chunks: seq<Chunk>): string {
    if chunks == [] then "" else SentText(chunks[..|chunks| - 1]) + ContentOf(chunks[|chunks| - 1])
  }

  function SentReasoning(chunks: seq<Chunk>): string {
    if chunks == [] then "" else SentReasoning(chunks[..|chunks| - 1]) + ThinkingOf(chunks[|chunks| - 1])
  }

  function SentParts(chunks: seq<Chunk>, i: int): seq<Part> {
    if chunks == [] then []
    else SentParts(chunks[..|chunks| - 1], i) + AddressedParts(DeltasOf(chunks[|chunks| - 1]), i)
  }

  // The last of these that is there.
  ghost predicate LastGiven<T(!new)>(given: seq<Option<T>>, last: Option<T>) {
    if last.None? then forall k :: 0 <= k < |given| ==> given[k].None?
    else exists k: nat :: k < |given| && given[k] == last && forall j :: k < j < |given| ==> given[j].None?
  }

  function Reasons(chunks: seq<Chunk>): seq<Option<string>> {
    seq(|chunks|, k requires 0 <= k < |chunks| => ReasonOf(chunks[k]))
  }

  function Usages(chunks: seq<Chunk>): seq<Option<nat>> {
    seq(|chunks|, k requires 0 <= k < |chunks| => chunks[k].usage)
  }

  // The chunks are pieces of the message: its texts, and under one index each its calls in order.
  ghost predicate Carries(chunks: seq<Chunk>, m: Message, at: seq<int>) {
    && SentText(chunks) == m.content && SentReasoning(chunks) == OrEmpty(m.reasoning)
    && Increasing(at) && |at| == |m.calls|
    && (forall i :: i in at <==> SentParts(chunks, i) != [])
    && (forall k :: 0 <= k < |at| ==> CutsCall(SentParts(chunks, at[k]), m.calls[k]))
  }

  // The turn is the message the chunks carry, with the last reason and usage they give.
  ghost predicate Delivers(chunks: seq<Chunk>, turn: Turn) {
    && (forall m, at :: Carries(chunks, m, at) ==> (turn.message == m <==> m.reasoning != Some("")))
    && LastGiven(Usages(chunks), turn.usage)
    && (exists reason :: LastGiven(Reasons(chunks), reason)
         && turn.finishReason == if reason.None? || reason.value == "" then "stop" else reason.value)
  }

  // -------------------------------------------------------------------- sending it whole

  predicate Sendable(m: Message, at: seq<int>) {
    && |at| == |m.calls| && Increasing(at)
    && forall k :: 0 <= k < |m.calls| ==> m.calls[k].id != "" && m.calls[k].kind != ""
  }

  function WholeCall(c: ToolCall, index: int): Fragment {
    Call(index, Part(Some(c.id), Some(c.kind), Some(c.name), Some(c.arguments)))
  }

  function WholeCalls(calls: seq<ToolCall>, at: seq<int>): seq<Fragment>
    requires |at| == |calls|
  {
    seq(|calls|, k requires 0 <= k < |calls| => WholeCall(calls[k], at[k]))
  }

  lemma {:induction false} WholeParts(calls: seq<ToolCall>, at: seq<int>, index: int)
    requires |at| == |calls| && Increasing(at)
    ensures index !in at ==> PartsFor(WholeCalls(calls, at), index) == []
    ensures forall k :: 0 <= k < |at| && at[k] == index ==>
              PartsFor(WholeCalls(calls, at), index) == [WholeCall(calls[k], index).part]
  {
    if calls != [] {
      var n := |calls| - 1;
      WholeParts(calls[..n], at[..n], index);
      assert WholeCalls(calls, at)[..n] == WholeCalls(calls[..n], at[..n]);
      if at[n] == index {
        assert index !in at[..n];
      } else {
        assert forall k :: 0 <= k < n ==> at[k] == at[..n][k];
        assert index in at ==> index in at[..n];
      }
    }
  }

  lemma {:induction false} PartsOfSum(f: seq<Fragment>, g: seq<Fragment>, index: int)
    ensures PartsFor(f + g, index) == PartsFor(f, index) + PartsFor(g, index)
  {
    if g == [] {
      assert f + g == f;
    } else {
      hide PartsFor;
      var before, last := g[..|g| - 1], g[|g| - 1];
      assert g == before + [last] && f + g == (f + before) + [last];
      PartsOfSum(f, before, index);
      FragmentGrows(f + before, last);
      FragmentGrows(before, last);
    }
  }

  function Whole(m: Message, at: seq<int>): seq<Fragment>
    requires |at| == |m.calls|
  {
    [Text(m.content), Reasoning(OrEmpty(m.reasoning))] + WholeCalls(m.calls, at)
  }

  lemma WholeTexts(m: Message, at: seq<int>)
    requires |at| == |m.calls|
    ensures TextOf(Whole(m, at)) == m.content && ReasoningOf(Whole(m, at)) == OrEmpty(m.reasoning)
  {
    hide TextOf, ReasoningOf;
    var text, reasoning := Text(m.content), Reasoning(OrEmpty(m.reasoning));
    Alone(text);
    Alone(reasoning);
    TextsOfSum([text], [reasoning]);
    assert [text] + [reasoning] == [text, reasoning];
    NoTexts(WholeCalls(m.calls, at));
    TextsOfSum([text, reasoning], WholeCalls(m.calls, at));
  }

  lemma WholeIndices(m: Message, at: seq<int>, i: int)
    requires Sendable(m, at)
    ensures PartsFor(Whole(m, at), i) == PartsFor(WholeCalls(m.calls, at), i)
    ensures i in at <==> PartsFor(Whole(m, at), i) != []
  {
    hide PartsFor, WholeCalls;
    var texts := [Text(m.content), Reasoning(OrEmpty(m.reasoning))];
    NoCalls(texts, i);
    PartsOfSum(texts, WholeCalls(m.calls, at), i);
    WholeParts(m.calls, at, i);
    if i in at {
      var k: nat :| k < |at| && at[k] == i;
      assert PartsFor(WholeCalls(m.calls, at), i) == [WholeCall(m.calls[k], i).part];
    }
  }

  /** Every message has at least the cut that sends each channel in one piece. */
  lemma SentWhole(m: Message, at: seq<int>)
    requires Sendable(m, at)
    ensures Cuts(Whole(m, at), m, at)
  {
    hide TextOf, ReasoningOf, PartsFor, CutsCall, Whole, WholeCalls;
    WholeTexts(m, at);
    forall i ensures i in at <==> PartsFor(Whole(m, at), i) != [] {
      WholeIndices(m, at, i);
    }
    forall k | 0 <= k < |at| ensures CutsCall(PartsFor(Whole(m, at), at[k]), m.calls[k]) {
      WholeIndices(m, at, at[k]);
      WholeParts(m.calls, at, at[k]);
      WholeCallCuts(m.calls[k], at[k]);
    }
  }

  lemma WholeCallCuts(c: ToolCall, index: int)
    requires c.id != "" && c.kind != ""
    ensures CutsCall([WholeCall(c, index).part], c)
  {
    var parts := [WholeCall(c, index).part];
    assert parts[..0] == [] && parts[0] in parts;
  }

  // -------------------------------------------------------------------- interleaving

  datatype Channel = UsageLane | FinishLane | TextLane | ReasoningLane | CallLane(index: int)

  function ChannelOf(x: Fragment): Channel {
    match x
    case Usage(_) => UsageLane
    case Finish(_) => FinishLane
    case Text(_) => TextLane
    case Reasoning(_) => ReasoningLane
    case Call(index, _) => CallLane(index)
  }

  function Lane(f: seq<Fragment>, c: Channel): seq<Fragment> {
    if f == [] then []
    else Lane(f[..|f| - 1], c) + if ChannelOf(f[|f| - 1]) == c then [f[|f| - 1]] else []
  }

  lemma LaneGrows(f: seq<Fragment>, x: Fragment, c: Channel)
    ensures Lane(f + [x], c) == if ChannelOf(x) == c then Lane(f, c) + [x] else Lane(f, c)
  {
    assert (f + [x])[..|f|] == f;
  }

  lemma {:induction false} TextsReadTheirLane(f: seq<Fragment>)
    ensures TextOf(f) == TextOf(Lane(f, TextLane))
    ensures ReasoningOf(f) == ReasoningOf(Lane(f, ReasoningLane))
  {
    if f != [] {
      hide TextOf, ReasoningOf, Lane;
      var before, x := f[..|f| - 1], f[|f| - 1];
      assert f == before + [x];
      TextsReadTheirLane(before);
      LaneGrows(before, x, TextLane);
      LaneGrows(before, x, ReasoningLane);
      FragmentGrows(before, x);
      FragmentGrows(Lane(before, TextLane), x);
      FragmentGrows(Lane(before, ReasoningLane), x);
    }
  }

  lemma {:induction false} EndsReadTheirLane(f: seq<Fragment>)
    ensures FinishOf(f) == FinishOf(Lane(f, FinishLane))
    ensures UsageOf(f) == UsageOf(Lane(f, UsageLane))
  {
    if f != [] {
      hide FinishOf, UsageOf, Lane;
      var before, x := f[..|f| - 1], f[|f| - 1];
      assert f == before + [x];
      EndsReadTheirLane(before);
      LaneGrows(before, x, FinishLane);
      LaneGrows(before, x, UsageLane);
      FragmentGrows(before, x);
      FragmentGrows(Lane(before, FinishLane), x);
      FragmentGrows(Lane(before, UsageLane), x);
    }
  }

  lemma {:induction false} PartsReadTheirLane(f: seq<Fragment>, index: int)
    ensures PartsFor(f, index) == PartsFor(Lane(f, CallLane(index)), index)
  {
    if f != [] {
      hide PartsFor, Lane;
      var before, x := f[..|f| - 1], f[|f| - 1];
      assert f == before + [x];
      PartsReadTheirLane(before, index);
      LaneGrows(before, x, CallLane(index));
      FragmentGrows(before, x);
      FragmentGrows(Lane(before, CallLane(index)), x);
    }
  }

  /** Only the order within each channel matters: two interleavings of the same lanes rebuild the
      same turn. */
  lemma InterleavingIsIrrelevant(f: seq<Fragment>, g: seq<Fragment>, attempt: string,
                                 s: Turn, sAt: seq<int>, t: Turn, tAt: seq<int>)
    requires forall c :: Lane(f, c) == Lane(g, c)
    requires Rebuilds(f, attempt, s, sAt) && Rebuilds(g, attempt, t, tAt)
    ensures s == t
  {
    hide CallFrom, TextOf, ReasoningOf, FinishOf, UsageOf, PartsFor, Lane;
    TextsReadTheirLane(f);
    TextsReadTheirLane(g);
    EndsReadTheirLane(f);
    EndsReadTheirLane(g);
    forall i ensures PartsFor(f, i) == PartsFor(g, i) {
      PartsReadTheirLane(f, i);
      PartsReadTheirLane(g, i);
    }
    SameMembersSameOrder(sAt, tAt);
    assert s.message.calls == t.message.calls;
  }

  /** Ids made up for one attempt never clash. */
  lemma FallbackIdsAreDistinct(attempt: string, i: int, j: int)
    requires FallbackId(attempt, i) == FallbackId(attempt, j)
    ensures i == j
  {
    var prefix := "call_stream_" + attempt + "_";
    assert FallbackId(attempt, i)[|prefix|..] == IntText(i);
    assert FallbackId(attempt, j)[|prefix|..] == IntText(j);
    IntTextIsInjective(i, j);
  }

  // -------------------------------------------------------------------- the accumulator

  datatype Parts = Parts(id: Option<string>, kind: Option<string>, names: seq<string>, arguments: seq<string>)

  predicate Holds(held: Parts, parts: seq<Part>) {
    && parts != []
    && held.id == IdOf(parts) && (held.id.Some? ==> held.id.value != "")
    && held.kind == KindOf(parts)
    && Join(held.names) == NameOf(parts) && Join(held.arguments) == ArgumentsOf(parts)
  }

  lemma PartGrows(parts: seq<Part>, p: Part)
    ensures IdOf(parts + [p]) == if IdOf(parts).None? && NamesItself(p) then p.id else IdOf(parts)
    ensures KindOf(parts + [p]) == if p.kind.Some? then p.kind else KindOf(parts)
    ensures NameOf(parts + [p]) == if p.name.Some? then NameOf(parts) + p.name.value else NameOf(parts)
    ensures ArgumentsOf(parts + [p])
         == if p.arguments.Some? then ArgumentsOf(parts) + p.arguments.value else ArgumentsOf(parts)
  {
    assert (parts + [p])[..|parts|] == parts;
  }

  lemma FragmentGrows(f: seq<Fragment>, x: Fragment)
    ensures TextOf(f + [x]) == if x.Text? then TextOf(f) + x.text else TextOf(f)
    ensures ReasoningOf(f + [x]) == if x.Reasoning? then ReasoningOf(f) + x.text else ReasoningOf(f)
    ensures FinishOf(f + [x]) == if x.Finish? then Some(x.reason) else FinishOf(f)
    ensures UsageOf(f + [x]) == if x.Usage? then Some(x.usage) else UsageOf(f)
    ensures forall i :: PartsFor(f + [x], i)
                     == if x.Call? && x.index == i then PartsFor(f, i) + [x.part] else PartsFor(f, i)
  {
    assert (f + [x])[..|f|] == f;
  }

  // What one chunk adds to each channel: its texts, its call pieces where they are addressed to, and
  // its reason and usage in place of earlier ones.
  ghost predicate Adds(before: seq<Fragment>, after: seq<Fragment>, chunk: Chunk) {
    && TextOf(after) == TextOf(before) + ContentOf(chunk)
    && ReasoningOf(after) == ReasoningOf(before) + ThinkingOf(chunk)
    && FinishOf(after) == (if ReasonOf(chunk).Some? then ReasonOf(chunk) else FinishOf(before))
    && UsageOf(after) == (if chunk.usage.Some? then chunk.usage else UsageOf(before))
    && forall i :: PartsFor(after, i) == PartsFor(before, i) + AddressedParts(DeltasOf(chunk), i)
  }

  lemma AddsItsPieces(before: seq<Fragment>, chunk: Chunk)
    ensures Adds(before, before + Unpack(chunk), chunk)
  {
    hide TextOf, ReasoningOf, FinishOf, UsageOf, PartsFor, AddressedParts, Unpack, ContentOf, ThinkingOf, ReasonOf,
      DeltasOf;
    TextsOfSum(before, Unpack(chunk));
    UnpackTexts(chunk);
    EndsOfSum(before, Unpack(chunk));
    UnpackEnds(chunk);
    forall i ensures PartsFor(before + Unpack(chunk), i) == PartsFor(before, i) + AddressedParts(DeltasOf(chunk), i) {
      PartsOfSum(before, Unpack(chunk), i);
      UnpackParts(chunk, i);
    }
  }

  lemma JoinGrows(parts: seq<string>, more: string)
    ensures Join(parts + [more]) == Join(parts) + more
  {
    JoinOfSum(parts, [more]);
    assert [more][1..] == [];
  }

  const NoParts := Parts(None, None, [], [])

  method GrowParts(held: Parts, ghost before: seq<Part>, part: Part) returns (grown: Parts)
    requires if before == [] then held == NoParts else Holds(held, before)
    ensures Holds(grown, before + [part])
  {
    PartGrows(before, part);
    grown := held;
    if part.id.Some? && part.id.value != "" && held.id.None? {
      grown := grown.(id := part.id);
    }
    if part.kind.Some? {
      grown := grown.(kind := part.kind);
    }
    if part.name.Some? {
      JoinGrows(held.names, part.name.value);
      grown := grown.(names := held.names + [part.name.value]);
    }
    if part.arguments.Some? {
      JoinGrows(held.arguments, part.arguments.value);
      grown := grown.(arguments := held.arguments + [part.arguments.value]);
    }
  }

  class StreamAccumulator {
    const attempt: string
    var contents: seq<string>
    var reasonings: seq<string>
    var calls: map<int, Parts>
    var finish: Option<string>
    var usage: Option<nat>
    ghost var seen: seq<Fragment>

    // The parts hold exactly what was seen so far.
    ghost predicate Valid()
      reads this
    {
      && Join(contents) == TextOf(seen) && Join(reasonings) == ReasoningOf(seen)
      && finish == FinishOf(seen) && usage == UsageOf(seen)
      && (forall i :: i in calls <==> PartsFor(seen, i) != [])
      && (forall i :: i in calls ==> Holds(calls[i], PartsFor(seen, i)))
    }

    constructor (attempt: string)
      ensures Valid() && seen == [] && this.attempt == attempt
    {
      this.attempt := attempt;
      contents, reasonings, calls, finish, usage, seen := [], [], map[], None, None, [];
    }

    method AddText(text: string)
      requires Valid()
      modifies this`contents, this`seen
      ensures Valid() && seen == old(seen) + [Text(text)]
    {
      hide TextOf, ReasoningOf, FinishOf, UsageOf, PartsFor, Join, Holds;
      FragmentGrows(seen, Text(text));
      JoinGrows(contents, text);
      if text != "" {
        contents := contents + [text];
      }
      seen := seen + [Text(text)];
    }

    method AddReasoning(text: string)
      requires Valid()
      modifies this`reasonings, this`seen
      ensures Valid() && seen == old(seen) + [Reasoning(text)]
    {
      hide TextOf, ReasoningOf, FinishOf, UsageOf, PartsFor, Join, Holds;
      FragmentGrows(seen, Reasoning(text));
      JoinGrows(reasonings, text);
      if text != "" {
        reasonings := reasonings + [text];
      }
      seen := seen + [Reasoning(text)];
    }

    method AddToolCallDelta(position: nat, delta: CallDelta)
      requires Valid()
      modifies this`calls, this`seen
      ensures Valid() && seen == old(seen) + [Call(Resolve(delta.index, position), delta.part)]
      ensures Addresses(delta, position, seen[|old(seen)|].index)
    {
      hide TextOf, ReasoningOf, FinishOf, UsageOf, PartsFor, Join, Holds;
      var index := if delta.index.Number? then delta.index.n else position;
      FragmentGrows(seen, Call(index, delta.part));
      var parts := if index in calls then calls[index] else NoParts;
      parts := GrowParts(parts, PartsFor(seen, index), delta.part);
      calls := calls[index := parts];
      seen := seen + [Call(index, delta.part)];
    }

    method AddUsage(reported: nat)
      requires Valid()
      modifies this`usage, this`seen
      ensures Valid() && seen == old(seen) + [Usage(reported)]
    {
      hide TextOf, ReasoningOf, FinishOf, UsageOf, PartsFor, Join, Holds;
      FragmentGrows(seen, Usage(reported));
      usage := Some(reported);
      seen := seen + [Usage(reported)];
    }

    method AddFinish(reason: string)
      requires Valid()
      modifies this`finish, this`seen
      ensures Valid() && seen == old(seen) + [Finish(reason)]
    {
      hide TextOf, ReasoningOf, FinishOf, UsageOf, PartsFor, Join, Holds;
      FragmentGrows(seen, Finish(reason));
      finish := Some(reason);
      seen := seen + [Finish(reason)];
    }

    method AddChunk(chunk: Chunk) returns (text: string, reasoning: string)
      requires Valid()
      modifies this
      ensures Valid() && seen == old(seen) + Unpack(chunk)
      ensures text == ContentOf(chunk) && reasoning == ThinkingOf(chunk)
      ensures Adds(old(seen), seen, chunk)
    {
      AddsItsPieces(seen, chunk);
      hide Valid, ChoiceFragments, Adds;
      if chunk.usage.Some? {
        AddUsage(chunk.usage.value);
      }
      if chunk.choices == [] {
        return "", "";
      }
      text, reasoning := AddChoice(chunk.choices[0]);
    }

    method AddChoice(choice: Choice) returns (text: string, reasoning: string)
      requires Valid()
      modifies this
      ensures Valid() && seen == old(seen) + ChoiceFragments(choice)
      ensures text == (if choice.delta.None? then "" else OrEmpty(choice.delta.value.content))
      ensures reasoning == (if choice.delta.None? then "" else OrEmpty(choice.delta.value.reasoning))
    {
      hide Valid, DeltaFragments;
      if choice.finishReason.Some? {
        AddFinish(choice.finishReason.value);
      }
      if choice.delta.None? {
        return "", "";
      }
      text, reasoning := AddDelta(choice.delta.value);
    }

    method AddDelta(delta: Delta) returns (text: string, reasoning: string)
      requires Valid()
      modifies this
      ensures Valid() && seen == old(seen) + DeltaFragments(delta)
      ensures text == OrEmpty(delta.content) && reasoning == OrEmpty(delta.reasoning)
    {
      hide Valid;
      text := if delta.content.None? then "" else delta.content.value;
      reasoning := if delta.reasoning.None? then "" else delta.reasoning.value;
      AddText(text);
      AddReasoning(reasoning);
      ghost var before := seen;
      for position := 0 to |delta.calls|
        invariant Valid() && seen == before + CallFragments(delta.calls)[..position]
      {
        AddToolCallDelta(position, delta.calls[position]);
      }
    }

    method RebuildCalls(order: seq<int>) returns (rebuilt: seq<ToolCall>)
      requires Valid() && forall k :: 0 <= k < |order| ==> order[k] in calls
      ensures |rebuilt| == |order|
      ensures forall k :: 0 <= k < |order| ==> rebuilt[k] == CallFrom(PartsFor(seen, order[k]), attempt, order[k])
    {
      hide TextOf, ReasoningOf, FinishOf, UsageOf, PartsFor, CallFrom, Join;
      rebuilt := [];
      for k := 0 to |order|
        invariant |rebuilt| == k
        invariant forall j :: 0 <= j < k ==> rebuilt[j] == CallFrom(PartsFor(seen, order[j]), attempt, order[j])
      {
        var index := order[k];
        var call := RebuildCall(calls[index], attempt, index, PartsFor(seen, index));
        rebuilt := rebuilt + [call];
      }
    }

    /** The complete turn, its tool calls by increasing index. */
    method Result() returns (turn: Turn)
      requires Valid()
      ensures exists at :: Rebuilds(seen, attempt, turn, at)
      ensures forall chunks :: seen == UnpackAll(chunks) ==> Delivers(chunks, turn)
    {
      hide TextOf, ReasoningOf, FinishOf, UsageOf, PartsFor, CallFrom, Join, Holds;
      var order := Sorted(calls.Keys);
      forall k | 0 <= k < |order| ensures order[k] in calls {
        assert order[k] in order;
      }
      var rebuilt := RebuildCalls(order);
      forall i ensures i in order <==> PartsFor(seen, i) != [] {
        assert i in order <==> i in calls;
      }
      var reasoning := Join(reasonings);
      turn := Turn(
        Message(Join(contents), if reasoning == "" then None else Some(reasoning), rebuilt),
        if finish.None? || finish.value == "" then "stop" else finish.value,
        usage);
      assert Rebuilds(seen, attempt, turn, order);
      forall chunks | seen == UnpackAll(chunks) ensures Delivers(chunks, turn) {
        ChunkRoundTrip(chunks, attempt, turn, order);
      }
    }
  }

  method RebuildCall(held: Parts, attempt: string, index: int, ghost parts: seq<Part>) returns (call: ToolCall)
    requires Holds(held, parts)
    ensures call == CallFrom(parts, attempt, index)
  {
    call := ToolCall(
      if held.id.Some? then held.id.value else FallbackId(attempt, index),
      if held.kind.Some? && held.kind.value != "" then held.kind.value else "function",
      Join(held.names),
      Join(held.arguments));
  }

  lemma Associates(a: string, b: string, c: string)
    ensures (a + b) + c == a + (b + c)
  {
  }

  lemma {:induction false} TextsOfSum(f: seq<Fragment>, g: seq<Fragment>)
    ensures TextOf(f + g) == TextOf(f) + TextOf(g) && ReasoningOf(f + g) == ReasoningOf(f) + ReasoningOf(g)
  {
    if g == [] {
      assert f + g == f;
    } else {
      hide TextOf, ReasoningOf;
      var n := |g| - 1;
      var before, last := g[..n], g[n];
      assert g == before + [last] && f + g == (f + before) + [last];
      TextsOfSum(f, before);
      FragmentGrows(f + before, last);
      FragmentGrows(before, last);
      if last.Text? {
        Associates(TextOf(f), TextOf(before), last.text);
      } else if last.Reasoning? {
        Associates(ReasoningOf(f), ReasoningOf(before), last.text);
      }
    }
  }

  lemma {:induction false} NoTexts(f: seq<Fragment>)
    requires forall k :: 0 <= k < |f| ==> !f[k].Text? && !f[k].Reasoning?
    ensures TextOf(f) == "" && ReasoningOf(f) == ""
  {
    if f != [] {
      hide TextOf, ReasoningOf;
      var n := |f| - 1;
      NoTexts(f[..n]);
      assert f == f[..n] + [f[n]];
      FragmentGrows(f[..n], f[n]);
    }
  }

  lemma Alone(x: Fragment)
    ensures TextOf([x]) == (if x.Text? then x.text else "")
    ensures ReasoningOf([x]) == (if x.Reasoning? then x.text else "")
    ensures FinishOf([x]) == (if x.Finish? then Some(x.reason) else None)
    ensures UsageOf([x]) == (if x.Usage? then Some(x.usage) else None)
  {
    FragmentGrows([], x);
    assert [] + [x] == [x];
  }

  lemma {:induction false} EndsOfSum(f: seq<Fragment>, g: seq<Fragment>)
    ensures FinishOf(f + g) == if FinishOf(g).Some? then FinishOf(g) else FinishOf(f)
    ensures UsageOf(f + g) == if UsageOf(g).Some? then UsageOf(g) else UsageOf(f)
  {
    if g == [] {
      assert f + g == f;
    } else {
      hide FinishOf, UsageOf;
      var n := |g| - 1;
      var before, last := g[..n], g[n];
      assert g == before + [last] && f + g == (f + before) + [last];
      EndsOfSum(f, before);
      FragmentGrows(f + before, last);
      FragmentGrows(before, last);
    }
  }

  lemma {:induction false} NoEnds(calls: seq<Fragment>)
    requires forall k :: 0 <= k < |calls| ==> !calls[k].Finish? && !calls[k].Usage?
    ensures FinishOf(calls).None? && UsageOf(calls).None?
  {
    if calls != [] {
      NoEnds(calls[..|calls| - 1]);
    }
  }

  lemma {:induction false} NoCalls(f: seq<Fragment>, i: int)
    requires forall k :: 0 <= k < |f| ==> !f[k].Call?
    ensures PartsFor(f, i) == []
  {
    if f != [] {
      NoCalls(f[..|f| - 1], i);
    }
  }

  lemma {:induction false} FragmentsAreAddressed(deltas: seq<CallDelta>, i: int)
    ensures PartsFor(CallFragments(deltas), i) == AddressedParts(deltas, i)
  {
    if deltas != [] {
      var n := |deltas| - 1;
      FragmentsAreAddressed(deltas[..n], i);
      assert CallFragments(deltas)[..n] == CallFragments(deltas[..n]);
    }
  }

  // The pieces of a chunk by channel.
  function Ends(chunk: Chunk): seq<Fragment> {
    (if chunk.usage.Some? then [Usage(chunk.usage.value)] else [])
    + if ReasonOf(chunk).Some? then [Finish(ReasonOf(chunk).value)] else []
  }

  function Texts(chunk: Chunk): seq<Fragment> {
    if DeltaOf(chunk).None? then [] else [Text(ContentOf(chunk)), Reasoning(ThinkingOf(chunk))]
  }

  lemma UnpackSplits(chunk: Chunk)
    ensures Unpack(chunk) == (Ends(chunk) + Texts(chunk)) + CallFragments(DeltasOf(chunk))
    ensures Unpack(chunk) == Ends(chunk) + (Texts(chunk) + CallFragments(DeltasOf(chunk)))
  {
  }

  lemma TextsSay(chunk: Chunk)
    ensures TextOf(Texts(chunk)) == ContentOf(chunk) && ReasoningOf(Texts(chunk)) == ThinkingOf(chunk)
  {
    hide TextOf, ReasoningOf;
    if DeltaOf(chunk).None? {
      NoTexts([]);
    } else {
      var text, reasoning := Text(ContentOf(chunk)), Reasoning(ThinkingOf(chunk));
      Alone(text);
      Alone(reasoning);
      TextsOfSum([text], [reasoning]);
      assert [text] + [reasoning] == [text, reasoning];
    }
  }

  /** What the accumulator reports for a chunk is the text that chunk contributes. */
  lemma UnpackTexts(chunk: Chunk)
    ensures TextOf(Unpack(chunk)) == ContentOf(chunk) && ReasoningOf(Unpack(chunk)) == ThinkingOf(chunk)
  {
    hide TextOf, ReasoningOf, Texts, Unpack, DeltasOf, ContentOf, ThinkingOf;
    UnpackSplits(chunk);
    NoTexts(Ends(chunk));
    TextsSay(chunk);
    NoTexts(CallFragments(DeltasOf(chunk)));
    TextsOfSum(Ends(chunk), Texts(chunk));
    TextsOfSum(Ends(chunk) + Texts(chunk), CallFragments(DeltasOf(chunk)));
  }

  /** The tool-call pieces of a chunk go to the calls its deltas address. */
  lemma UnpackParts(chunk: Chunk, i: int)
    ensures PartsFor(Unpack(chunk), i) == AddressedParts(DeltasOf(chunk), i)
  {
    hide PartsFor, AddressedParts, Unpack, DeltasOf;
    UnpackSplits(chunk);
    NoCalls(Ends(chunk) + Texts(chunk), i);
    FragmentsAreAddressed(DeltasOf(chunk), i);
    PartsOfSum(Ends(chunk) + Texts(chunk), CallFragments(DeltasOf(chunk)), i);
  }

  lemma EndsSay(chunk: Chunk)
    ensures FinishOf(Ends(chunk)) == ReasonOf(chunk) && UsageOf(Ends(chunk)) == chunk.usage
  {
    var usage: seq<Fragment> := if chunk.usage.Some? then [Usage(chunk.usage.value)] else [];
    var reason: seq<Fragment> := if ReasonOf(chunk).Some? then [Finish(ReasonOf(chunk).value)] else [];
    hide FinishOf, UsageOf, ReasonOf;
    NoEnds([]);
    if chunk.usage.Some? {
      Alone(Usage(chunk.usage.value));
    }
    if ReasonOf(chunk).Some? {
      Alone(Finish(ReasonOf(chunk).value));
    }
    EndsOfSum(usage, reason);
  }

  lemma UnpackEnds(chunk: Chunk)
    ensures FinishOf(Unpack(chunk)) == ReasonOf(chunk) && UsageOf(Unpack(chunk)) == chunk.usage
  {
    hide FinishOf, UsageOf, Ends, Unpack, DeltasOf, ReasonOf;
    UnpackSplits(chunk);
    EndsSay(chunk);
    NoEnds(Texts(chunk) + CallFragments(DeltasOf(chunk)));
    EndsOfSum(Ends(chunk), Texts(chunk) + CallFragments(DeltasOf(chunk)));
  }

  lemma {:induction false} StreamTexts(chunks: seq<Chunk>)
    ensures TextOf(UnpackAll(chunks)) == SentText(chunks)
    ensures ReasoningOf(UnpackAll(chunks)) == SentReasoning(chunks)
  {
    if chunks != [] {
      hide Unpack, TextOf, ReasoningOf, ContentOf, ThinkingOf;
      var n := |chunks| - 1;
      StreamTexts(chunks[..n]);
      UnpackTexts(chunks[n]);
      TextsOfSum(UnpackAll(chunks[..n]), Unpack(chunks[n]));
    }
  }

  lemma {:induction false} StreamParts(chunks: seq<Chunk>, i: int)
    ensures PartsFor(UnpackAll(chunks), i) == SentParts(chunks, i)
  {
    if chunks != [] {
      hide Unpack, PartsFor, AddressedParts, DeltasOf;
      var n := |chunks| - 1;
      StreamParts(chunks[..n], i);
      UnpackParts(chunks[n], i);
      PartsOfSum(UnpackAll(chunks[..n]), Unpack(chunks[n]), i);
    }
  }

  lemma LastGivenGrows<T(!new)>(given: seq<Option<T>>, last: Option<T>, next: Option<T>)
    requires LastGiven(given, last)
    ensures LastGiven(given + [next], if next.Some? then next else last)
  {
    var more := given + [next];
    assert forall k :: 0 <= k < |given| ==> more[k] == given[k];
    assert more[|given|] == next;
  }

  lemma GivenGrows(chunks: seq<Chunk>)
    requires chunks != []
    ensures Reasons(chunks) == Reasons(chunks[..|chunks| - 1]) + [ReasonOf(chunks[|chunks| - 1])]
    ensures Usages(chunks) == Usages(chunks[..|chunks| - 1]) + [chunks[|chunks| - 1].usage]
  {
  }

  lemma {:induction false} StreamEnds(chunks: seq<Chunk>)
    ensures LastGiven(Reasons(chunks), FinishOf(UnpackAll(chunks)))
    ensures LastGiven(Usages(chunks), UsageOf(UnpackAll(chunks)))
  {
    if chunks != [] {
      hide Unpack, FinishOf, UsageOf, LastGiven, ReasonOf, Reasons, Usages;
      var n := |chunks| - 1;
      StreamEnds(chunks[..n]);
      GivenGrows(chunks);
      UnpackEnds(chunks[n]);
      EndsOfSum(UnpackAll(chunks[..n]), Unpack(chunks[n]));
      LastGivenGrows(Reasons(chunks[..n]), FinishOf(UnpackAll(chunks[..n])), ReasonOf(chunks[n]));
      LastGivenGrows(Usages(chunks[..n]), UsageOf(UnpackAll(chunks[..n])), chunks[n].usage);
    }
  }

  lemma CarriedIsCut(chunks: seq<Chunk>, m: Message, at: seq<int>)
    requires Carries(chunks, m, at)
    ensures Cuts(UnpackAll(chunks), m, at)
  {
    hide TextOf, ReasoningOf, PartsFor, CutsCall, SentText, SentReasoning, SentParts, UnpackAll;
    StreamTexts(chunks);
    forall i ensures PartsFor(UnpackAll(chunks), i) == SentParts(chunks, i) {
      StreamParts(chunks, i);
    }
  }

  /** Streams and their chunks: however a message is spread over chunks, its call pieces addressed by
      an index of their own or by their position, the rebuilt turn is that message - exactly when
      it carries no empty reasoning text - with the last reason and the last usage reported. */
  lemma ChunkRoundTrip(chunks: seq<Chunk>, attempt: string, turn: Turn, at: seq<int>)
    requires Rebuilds(UnpackAll(chunks), attempt, turn, at)
    ensures Delivers(chunks, turn)
  {
    hide Carries, Cuts, LastGiven, CutsCall, CallFrom, Reasons, Usages, TextOf, ReasoningOf, PartsFor, UnpackAll;
    forall m, sentAt | Carries(chunks, m, sentAt) ensures turn.message == m <==> m.reasoning != Some("") {
      CarriedIsCut(chunks, m, sentAt);
      RoundTrip(UnpackAll(chunks), m, sentAt, attempt, turn, at);
    }
    StreamEnds(chunks);
  }

  // A message in one chunk; a call keeps its index when its delta addresses it.
  function InOneChunk(m: Message, raw: seq<RawIndex>): Chunk
    requires |raw| == |m.calls|
  {
    Chunk(None, [Choice(None, Some(Delta(Some(m.content), m.reasoning, seq(|raw|,
      k requires 0 <= k < |raw| => CallDelta(raw[k], WholeCall(m.calls[k], 0).part)))))])
  }

  lemma {:induction false} AddressedNowhere(deltas: seq<CallDelta>, i: int)
    requires forall k :: 0 <= k < |deltas| ==> !Addresses(deltas[k], k, i)
    ensures AddressedParts(deltas, i) == []
  {
    if deltas != [] {
      AddressedNowhere(deltas[..|deltas| - 1], i);
    }
  }

  lemma {:induction false} AddressedOnce(deltas: seq<CallDelta>, i: int, k: nat)
    requires k < |deltas| && Addresses(deltas[k], k, i)
    requires forall j :: 0 <= j < |deltas| && j != k ==> !Addresses(deltas[j], j, i)
    ensures AddressedParts(deltas, i) == [deltas[k].part]
  {
    var n := |deltas| - 1;
    if k == n {
      AddressedNowhere(deltas[..n], i);
    } else {
      AddressedOnce(deltas[..n], i, k);
    }
  }

  lemma OneChunkSends(chunk: Chunk)
    ensures SentText([chunk]) == ContentOf(chunk) && SentReasoning([chunk]) == ThinkingOf(chunk)
    ensures forall i :: SentParts([chunk], i) == AddressedParts(DeltasOf(chunk), i)
  {
    hide AddressedParts, ContentOf, ThinkingOf, DeltasOf;
    assert [chunk][..0] == [];
  }

  lemma OneChunkHolds(m: Message, raw: seq<RawIndex>)
    requires |raw| == |m.calls|
    ensures ContentOf(InOneChunk(m, raw)) == m.content && ThinkingOf(InOneChunk(m, raw)) == OrEmpty(m.reasoning)
    ensures |DeltasOf(InOneChunk(m, raw))| == |raw|
    ensures forall k :: 0 <= k < |raw| ==>
              DeltasOf(InOneChunk(m, raw))[k] == CallDelta(raw[k], WholeCall(m.calls[k], 0).part)
  {
  }

  lemma {:induction false} AddressedWhole(m: Message, at: seq<int>, deltas: seq<CallDelta>)
    requires Sendable(m, at) && |deltas| == |at|
    requires forall k :: 0 <= k < |at| ==> Addresses(deltas[k], k, at[k])
    requires forall k :: 0 <= k < |at| ==> deltas[k].part == WholeCall(m.calls[k], 0).part
    ensures forall i :: i in at <==> AddressedParts(deltas, i) != []
    ensures forall k :: 0 <= k < |at| ==> CutsCall(AddressedParts(deltas, at[k]), m.calls[k])
  {
    hide AddressedParts, CutsCall;
    forall k | 0 <= k < |at|
      ensures AddressedParts(deltas, at[k]) != [] && CutsCall(AddressedParts(deltas, at[k]), m.calls[k])
    {
      AddressedOnce(deltas, at[k], k);
      WholeCallCuts(m.calls[k], 0);
    }
    forall i | i !in at ensures AddressedParts(deltas, i) == [] {
      AddressedNowhere(deltas, i);
    }
  }

  /** Every message can be sent: in one chunk, its calls addressed by number or by position. */
  lemma ChunkCarriesAll(m: Message, at: seq<int>, raw: seq<RawIndex>)
    requires Sendable(m, at) && |raw| == |at|
    requires forall k :: 0 <= k < |at| ==> raw[k] == Number(at[k]) || (!raw[k].Number? && at[k] == k)
    ensures Carries([InOneChunk(m, raw)], m, at)
  {
    hide InOneChunk, DeltasOf, ContentOf, ThinkingOf, SentText, SentReasoning, SentParts, AddressedParts, CutsCall;
    var chunk := InOneChunk(m, raw);
    OneChunkHolds(m, raw);
    OneChunkSends(chunk);
    AddressedWhole(m, at, DeltasOf(chunk));
  }

  method Sorted(keys: set<int>) returns (at: seq<int>)
    ensures Increasing(at) && forall i :: i in at <==> i in keys
  {
    at := [];
    var rest := keys;
    while rest != {}
      invariant rest <= keys && Increasing(at)
      invariant forall i :: i in at <==> i in keys && i !in rest
      invariant forall i, j :: i in at && j in rest ==> i < j
      decreases |rest|
    {
      var least := Least(rest);
      forall k | 0 <= k < |at| ensures at[k] < least {
        assert at[k] in at;
      }
      at := at + [least];
      rest := rest - {least};
    }
  }

  lemma SomeKey(keys: set<int>)
    ensures keys == {} || exists i :: i in keys
  {
    assert (forall i :: i !in keys) ==> keys == {};
  }

  method Least(keys: set<int>) returns (least: int)
    requires keys != {}
    ensures least in keys && forall i :: i in keys ==> least <= i
  {
    SomeKey(keys);
    var key :| key in keys;
    least := key;
    var rest := keys;
    while rest != {}
      invariant least in keys && rest <= keys
      invariant forall i :: i in keys && i !in rest ==> least <= i
      decreases |rest|
    {
      SomeKey(rest);
      var i :| i in rest;
      if i < least {
        least := i;
      }
      rest := rest - {i};
    }
  }
}
