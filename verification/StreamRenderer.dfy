/**
 The terminal renderer of model-turn events, and the model call that feeds it: per chunk, what the
 accumulator reports is emitted as events while the turn is rebuilt.
 */
module StreamRenderer {
  import opened Common
  import opened Fragments

  datatype Kind = Started | TextDelta | ReasoningDelta | Interrupted | Completed

  datatype Event = Event(kind: Kind, attempt: string, delta: string)

  datatype Display = Display(parts: seq<string>, displayed: bool, lineTerminated: bool)

  datatype Screen = Screen(
    attempts: map<string, Display>,
    current: Option<string>,
    lastCompleted: Option<string>,
    lastContent: string)

  predicate Concerns(s: Screen, e: Event) { s.current == Some(e.attempt) && e.attempt in s.attempts }

  function ShowText(d: Display, text: string): Display {
    if text == "" then d else Display(d.parts + [text], true, false)
  }

  function BreakLine(d: Display): Display { if d.displayed then d.(lineTerminated := true) else d }

  function Handle(s: Screen, e: Event): Screen {
    if e.kind.Started? then
      s.(attempts := s.attempts[e.attempt := Display([], false, false)], current := Some(e.attempt))
    else if e.kind.ReasoningDelta? || !Concerns(s, e) then s
    else if e.kind.TextDelta? then
      s.(attempts := s.attempts[e.attempt := ShowText(s.attempts[e.attempt], e.delta)])
    else if e.kind.Interrupted? then s.(attempts := s.attempts[e.attempt := BreakLine(s.attempts[e.attempt])])
    else
      s.(attempts := s.attempts[e.attempt := BreakLine(s.attempts[e.attempt])],
         lastCompleted := Some(e.attempt),
         lastContent := Join(s.attempts[e.attempt].parts))
  }

  function HandleAll(s: Screen, events: seq<Event>): Screen {
    if events == [] then s else Handle(HandleAll(s, events[..|events| - 1]), events[|events| - 1])
  }

  // The text one attempt has sent.
  function TextSent(events: seq<Event>, attempt: string): string {
    if events == [] then ""
    else
      var before, e := TextSent(events[..|events| - 1], attempt), events[|events| - 1];
      if e.kind.TextDelta? && e.attempt == attempt then before + e.delta else before
  }

  predicate Streams(s: Screen, final: string) {
    s.lastCompleted.Some? && s.lastCompleted == s.current && s.lastContent != "" && s.lastContent == final
  }

  predicate Shows(s: Screen, attempt: string, text: string) {
    s.current == Some(attempt) && attempt in s.attempts && Join(s.attempts[attempt].parts) == text
  }

  lemma {:induction false} ShownIsSent(s: Screen, attempt: string, events: seq<Event>)
    requires s.current == Some(attempt) && attempt in s.attempts && s.attempts[attempt].parts == []
    requires forall k :: 0 <= k < |events| ==> !events[k].kind.Started?
    ensures var t := HandleAll(s, events);
            Shows(t, attempt, TextSent(events, attempt))
  {
    if events != [] {
      var before, e := events[..|events| - 1], events[|events| - 1];
      ShownIsSent(s, attempt, before);
      EventShows(HandleAll(s, before), attempt, e, TextSent(before, attempt));
    }
  }

  lemma EventShows(s: Screen, attempt: string, e: Event, text: string)
    requires Shows(s, attempt, text) && !e.kind.Started?
    ensures Shows(Handle(s, e), attempt, if e.kind.TextDelta? && e.attempt == attempt then text + e.delta else text)
  {
    hide Join;
    JoinGrows(s.attempts[attempt].parts, e.delta);
    if e.delta == "" {
      assert text + e.delta == text;
    }
  }

  /** Between the start and the completion of an attempt - with any late events of other attempts in
      between - the completed text is exactly what this attempt sent; it then counts as streamed for
      the equal final response only. */
  lemma CompletedTextIsWhatWasSent(s: Screen, attempt: string, events: seq<Event>, final: string)
    requires forall k :: 0 <= k < |events| ==> !events[k].kind.Started?
    ensures var t := Handle(HandleAll(Handle(s, Event(Started, attempt, "")), events), Event(Completed, attempt, ""));
            && t.lastCompleted == t.current == Some(attempt)
            && t.lastContent == TextSent(events, attempt)
            && (Streams(t, final) <==> final == TextSent(events, attempt) && final != "")
  {
    ShownIsSent(Handle(s, Event(Started, attempt, "")), attempt, events);
  }

  class CLIStreamRenderer {
    var attempts: map<string, Display>
    var current: Option<string>
    var lastCompleted: Option<string>
    var lastContent: string
    ghost var handled: seq<Event>

    ghost function View(): Screen
      reads this
    {
      Screen(attempts, current, lastCompleted, lastContent)
    }

    constructor ()
      ensures View() == Screen(map[], None, None, "") && handled == []
    {
      handled := [];
      attempts, current, lastCompleted, lastContent := map[], None, None, "";
    }

    method HandleEvent(e: Event)
      modifies this
      ensures View() == Handle(old(View()), e) && handled == old(handled) + [e]
      ensures e.kind.Started? ==>
                current == Some(e.attempt) && attempts == old(attempts)[e.attempt := Display([], false, false)]
      ensures !e.kind.Started? && (e.kind.ReasoningDelta? || !Concerns(old(View()), e)) ==> View() == old(View())
      ensures Concerns(old(View()), e) && e.kind.TextDelta? ==>
                && Join(attempts[e.attempt].parts) == Join(old(attempts)[e.attempt].parts) + e.delta
                && (e.delta != "" ==> attempts[e.attempt].displayed && !attempts[e.attempt].lineTerminated)
                && (e.delta == "" ==> attempts == old(attempts))
      ensures Concerns(old(View()), e) && (e.kind.Interrupted? || e.kind.Completed?) ==>
                && attempts[e.attempt].parts == old(attempts)[e.attempt].parts
                && attempts[e.attempt].displayed == old(attempts)[e.attempt].displayed
                && (attempts[e.attempt].lineTerminated <==>
                      old(attempts)[e.attempt].lineTerminated || old(attempts)[e.attempt].displayed)
      ensures !e.kind.Started? ==> current == old(current) && attempts.Keys == old(attempts.Keys)
      ensures lastCompleted == (if e.kind.Completed? && Concerns(old(View()), e) then current else old(lastCompleted))
    {
      handled := handled + [e];
      if Concerns(View(), e) {
        JoinGrows(attempts[e.attempt].parts, e.delta);
        assert Join(attempts[e.attempt].parts) + "" == Join(attempts[e.attempt].parts);
      }
      hide Join;
      if e.kind.Started? {
        attempts := attempts[e.attempt := Display([], false, false)];
        current := Some(e.attempt);
        return;
      }
      if e.kind.ReasoningDelta? {
        return;
      }
      if Some(e.attempt) != current || e.attempt !in attempts {
        return;
      }
      var attempt := attempts[e.attempt];
      match e.kind {
        case TextDelta =>
          if e.delta != "" {
            attempt := Display(attempt.parts + [e.delta], true, false);
          }
        case Interrupted =>
          if attempt.displayed {
            attempt := attempt.(lineTerminated := true);
          }
        case Completed =>
          lastCompleted := Some(e.attempt);
          lastContent := Join(attempt.parts);
          if attempt.displayed {
            attempt := attempt.(lineTerminated := true);
          }
      }
      attempts := attempts[e.attempt := attempt];
    }

    method WasFinalResponseStreamed(final: string) returns (streamed: bool)
      ensures streamed <==> Streams(View(), final)
    {
      streamed := lastCompleted.Some? && lastCompleted == current && lastContent != "" && lastContent == final;
    }
  }

  lemma ContentIsText(f: seq<Fragment>, attempt: string, turn: Turn, at: seq<int>)
    requires Rebuilds(f, attempt, turn, at)
    ensures turn.message.content == TextOf(f)
  {
  }

  // The events of a chunk: its text, then its reasoning, as far as there is any.
  function ChunkEvents(chunk: Chunk, attempt: string): seq<Event> {
    (if ContentOf(chunk) != "" then [Event(TextDelta, attempt, ContentOf(chunk))] else [])
    + if ThinkingOf(chunk) != "" then [Event(ReasoningDelta, attempt, ThinkingOf(chunk))] else []
  }

  function StreamEvents(chunks: seq<Chunk>, attempt: string): seq<Event> {
    if chunks == [] then []
    else StreamEvents(chunks[..|chunks| - 1], attempt) + ChunkEvents(chunks[|chunks| - 1], attempt)
  }

  // The looks at the cancel flag from one up to another found nothing.
  predicate AllClear(cancels: nat -> bool, from: nat, to: nat) { forall k: nat :: from <= k < to ==> !cancels(k) }

  // The last look was the first that said cancel.
  predicate CancelledAt(cancels: nat -> bool, from: nat, looks: nat) {
    from < looks && AllClear(cancels, from, looks - 1) && cancels(looks - 1)
  }

  datatype CallResult = Complete(turn: Turn) | Stopped

  /** A streamed model call.  `breaks` is whether the stream fails or times out behind these chunks, `cancels` what
      each look at the cancel flag finds.  It completes exactly when neither stops it; then the turn is the
      one the chunks carry, every piece of it was announced in order, and the renderer holds its content as
      the last completed text.  When it is stopped, no turn is exposed, the interruption is announced behind
      what was announced so far, and nothing counts as completed. */
  method CallModelStream(chunks: seq<Chunk>, breaks: bool, cancels: nat -> bool, attempt: string,
                         renderer: CLIStreamRenderer)
    returns (result: CallResult, looks: nat)
    modifies renderer
    ensures renderer.current == Some(attempt)
    ensures result.Complete? ==> !breaks && AllClear(cancels, 0, looks) && looks == |chunks| + |StreamEvents(chunks, attempt)| + 2
    ensures result.Stopped? ==> breaks || CancelledAt(cancels, 0, looks)
    ensures result.Complete? ==> exists at :: Rebuilds(UnpackAll(chunks), attempt, result.turn, at)
    ensures result.Complete? ==> Delivers(chunks, result.turn)
    ensures result.Complete? ==> renderer.lastContent == result.turn.message.content
    ensures result.Complete? ==> renderer.lastCompleted == Some(attempt)
    ensures result.Complete? ==>
              renderer.handled == old(renderer.handled) + [Event(Started, attempt, "")] + StreamEvents(chunks, attempt)
                                  + [Event(Completed, attempt, "")]
    ensures result.Stopped? ==> renderer.lastCompleted == old(renderer.lastCompleted)
    ensures result.Stopped? ==>
              exists announced :: announced <= StreamEvents(chunks, attempt)
                && renderer.handled == old(renderer.handled) + [Event(Started, attempt, "")] + announced
                                       + [Event(Interrupted, attempt, "")]
  {
    assert TextOf([]) == "" && Join([]) == "";
    hide Rebuilds, Delivers, TextOf, ReasoningOf, Join, Unpack, UnpackAll, Carries, StreamEvents, AllClear;
    var accumulator := new StreamAccumulator(attempt);
    renderer.HandleEvent(Event(Started, attempt, ""));
    var stopped;
    ghost var announced;
    stopped, looks, announced := ConsumeAll(chunks, breaks, cancels, attempt, accumulator, renderer);
    if stopped {
      renderer.HandleEvent(Event(Interrupted, attempt, ""));
      return Stopped, looks;
    }
    var turn := CompleteCall(chunks, attempt, accumulator, renderer);
    return Complete(turn), looks;
  }

  // The end of a stream that was not stopped.
  method CompleteCall(ghost chunks: seq<Chunk>, attempt: string, accumulator: StreamAccumulator,
      renderer: CLIStreamRenderer)
    returns (turn: Turn)
    requires accumulator.Valid() && accumulator.seen == UnpackAll(chunks) && accumulator.attempt == attempt
    requires Shows(renderer.View(), attempt, TextOf(accumulator.seen))
    modifies renderer
    ensures exists at :: Rebuilds(UnpackAll(chunks), attempt, turn, at)
    ensures Delivers(chunks, turn)
    ensures renderer.current == renderer.lastCompleted == Some(attempt)
    ensures renderer.lastContent == turn.message.content
    ensures renderer.handled == old(renderer.handled) + [Event(Completed, attempt, "")]
  {
    hide Rebuilds, Delivers, TextOf, ReasoningOf, Join, Unpack, UnpackAll;
    turn := accumulator.Result();
    ghost var at :| Rebuilds(accumulator.seen, attempt, turn, at);
    ContentIsText(accumulator.seen, attempt, turn, at);
    renderer.HandleEvent(Event(Completed, attempt, ""));
  }

  lemma EventsGrow(chunks: seq<Chunk>, attempt: string, i: nat)
    requires i < |chunks|
    ensures StreamEvents(chunks[..i + 1], attempt) == StreamEvents(chunks[..i], attempt) + ChunkEvents(chunks[i], attempt)
  {
    assert chunks[..i + 1][..i] == chunks[..i];
  }

  lemma {:induction false} EventsArePrefix(chunks: seq<Chunk>, attempt: string, i: nat)
    requires i <= |chunks|
    ensures StreamEvents(chunks[..i], attempt) <= StreamEvents(chunks, attempt)
    decreases |chunks| - i
  {
    if i == |chunks| {
      assert chunks[..i] == chunks;
    } else {
      EventsGrow(chunks, attempt, i);
      EventsArePrefix(chunks, attempt, i + 1);
    }
  }

  // The stream up to its end, a failure, a timeout or a cancellation; two more looks stand behind its end.
  method ConsumeAll(chunks: seq<Chunk>, breaks: bool, cancels: nat -> bool, attempt: string,
                    accumulator: StreamAccumulator, renderer: CLIStreamRenderer)
    returns (stopped: bool, looks: nat, ghost announced: seq<Event>)
    requires accumulator.Valid() && accumulator.seen == [] && accumulator.attempt == attempt
    requires Shows(renderer.View(), attempt, TextOf([]))
    modifies accumulator, renderer
    ensures renderer.current == Some(attempt) && renderer.lastCompleted == old(renderer.lastCompleted)
    ensures attempt in renderer.attempts
    ensures renderer.handled == old(renderer.handled) + announced && announced <= StreamEvents(chunks, attempt)
    ensures !stopped ==> announced == StreamEvents(chunks, attempt)
    ensures if stopped then breaks || CancelledAt(cancels, 0, looks) else !breaks && AllClear(cancels, 0, looks)
    ensures !stopped ==> looks == |chunks| + |announced| + 2
    ensures !stopped ==> accumulator.Valid() && accumulator.seen == UnpackAll(chunks)
    ensures !stopped ==> Shows(renderer.View(), attempt, TextOf(accumulator.seen))
  {
    hide TextOf, ReasoningOf, Join, Unpack, ChunkEvents, Shows, AllClear, CancelledAt, StreamAccumulator.Valid;
    looks, announced := 0, [];
    NothingLooked(cancels, 0);
    for i := 0 to |chunks|
      invariant accumulator.Valid() && accumulator.seen == UnpackAll(chunks[..i]) && accumulator.attempt == attempt
      invariant Shows(renderer.View(), attempt, TextOf(accumulator.seen))
      invariant renderer.lastCompleted == old(renderer.lastCompleted)
      invariant announced == StreamEvents(chunks[..i], attempt)
      invariant renderer.handled == old(renderer.handled) + announced
      invariant AllClear(cancels, 0, looks) && looks == i + |announced|
    {
      ghost var more, mid := [], looks;
      stopped, looks, more := ConsumeChunk(chunks[i], cancels, looks, attempt, accumulator, renderer);
      announced := announced + more;
      assert chunks[..i + 1][..i] == chunks[..i];
      EventsGrow(chunks, attempt, i);
      EventsArePrefix(chunks, attempt, i + 1);
      ClearJoins(cancels, mid, looks, stopped);
      if stopped {
        return;
      }
    }
    assert chunks[..|chunks|] == chunks;
    ShownIsCurrent(renderer, attempt, accumulator.seen);
    if breaks {
      return true, looks, announced;
    }
    LooksOnce(cancels, looks);
    stopped, looks := cancels(looks), looks + 1;
    if !stopped {
      LooksOnce(cancels, looks);
      stopped, looks := cancels(looks), looks + 1;
    }
  }

  lemma ClearJoins(cancels: nat -> bool, mid: nat, looks: nat, stopped: bool)
    requires AllClear(cancels, 0, mid) && mid <= looks
    requires if stopped then CancelledAt(cancels, mid, looks) else AllClear(cancels, mid, looks)
    ensures if stopped then CancelledAt(cancels, 0, looks) else AllClear(cancels, 0, looks)
  {
  }

  lemma LooksOnce(cancels: nat -> bool, looks: nat)
    requires AllClear(cancels, 0, looks)
    ensures if cancels(looks) then CancelledAt(cancels, 0, looks + 1) else AllClear(cancels, 0, looks + 1)
  {
  }

  lemma ShownIsCurrent(renderer: CLIStreamRenderer, attempt: string, seen: seq<Fragment>)
    requires Shows(renderer.View(), attempt, TextOf(seen))
    ensures renderer.current == Some(attempt) && attempt in renderer.attempts
  {
  }

  // A piece of the current attempt reaches the renderer.
  method Announce(e: Event, renderer: CLIStreamRenderer, ghost text: string)
    requires Shows(renderer.View(), e.attempt, text) && (e.kind.TextDelta? || e.kind.ReasoningDelta?)
    modifies renderer
    ensures Shows(renderer.View(), e.attempt, if e.kind.TextDelta? then text + e.delta else text)
    ensures renderer.lastCompleted == old(renderer.lastCompleted) && renderer.handled == old(renderer.handled) + [e]
    ensures renderer.current == Some(e.attempt) && e.attempt in renderer.attempts
  {
    hide Join;
    EventShows(renderer.View(), e.attempt, e, text);
    renderer.HandleEvent(e);
  }

  lemma NothingLooked(cancels: nat -> bool, n: nat)
    ensures AllClear(cancels, n, n)
  {
  }

  lemma ClearGrows(cancels: nat -> bool, from: nat, n: nat)
    requires AllClear(cancels, from, n) && !cancels(n)
    ensures AllClear(cancels, from, n + 1)
  {
  }

  // on_chunk: accumulate, then emit what is new, looking for a cancellation before each step.
  method ConsumeChunk(chunk: Chunk, cancels: nat -> bool, from: nat, attempt: string, accumulator: StreamAccumulator,
                      renderer: CLIStreamRenderer)
    returns (stopped: bool, looks: nat, ghost announced: seq<Event>)
    requires accumulator.Valid() && Shows(renderer.View(), attempt, TextOf(accumulator.seen))
    modifies accumulator, renderer
    ensures renderer.current == Some(attempt) && renderer.lastCompleted == old(renderer.lastCompleted)
    ensures attempt in renderer.attempts
    ensures renderer.handled == old(renderer.handled) + announced && announced <= ChunkEvents(chunk, attempt)
    ensures !stopped ==> announced == ChunkEvents(chunk, attempt) && looks == from + 1 + |announced|
    ensures looks > from && if stopped then CancelledAt(cancels, from, looks) else AllClear(cancels, from, looks)
    ensures !stopped ==> accumulator.Valid() && accumulator.seen == old(accumulator.seen) + Unpack(chunk)
    ensures !stopped ==> Shows(renderer.View(), attempt, TextOf(accumulator.seen))
  {
    hide TextOf, ReasoningOf, Join, Unpack, ContentOf, ThinkingOf, Shows, Adds, AllClear, StreamAccumulator.Valid;
    NothingLooked(cancels, from);
    announced := [];
    ShownIsCurrent(renderer, attempt, accumulator.seen);
    stopped, looks := cancels(from), from + 1;
    if stopped {
      return;
    }
    ClearGrows(cancels, from, from);
    ghost var before := accumulator.seen;
    var text, reasoning := accumulator.AddChunk(chunk);
    TextsOfSum(before, Unpack(chunk));
    UnpackTexts(chunk);
    assert TextOf(before) + "" == TextOf(before);
    if text != "" {
      stopped, looks := cancels(looks), looks + 1;
      if stopped {
        return;
      }
      ClearGrows(cancels, from, looks - 1);
      announced := announced + [Event(TextDelta, attempt, text)];
      Announce(Event(TextDelta, attempt, text), renderer, TextOf(before));
    }
    if reasoning != "" {
      stopped, looks := cancels(looks), looks + 1;
      if stopped {
        return;
      }
      ClearGrows(cancels, from, looks - 1);
      announced := announced + [Event(ReasoningDelta, attempt, reasoning)];
      Announce(Event(ReasoningDelta, attempt, reasoning), renderer, TextOf(accumulator.seen));
    }
  }
}
