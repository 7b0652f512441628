/**
 The rolling output log of a process record and a client that follows its cursors.

 `history` is the whole output stream ever committed: a cell per position, `None` where the backend
 reported a discarded character.  The log keeps only a suffix of it.
 */
module ProcessLog {
  import opened Common

  type Stream = seq<Option<char>>

  const MaxReadChars := 20_000

  function Kept(text: string): (cells: Stream)
    ensures |cells| == |text|
    ensures forall i :: 0 <= i < |text| ==> cells[i] == Some(text[i])
  {
    seq(|text|, i requires 0 <= i < |text| => Some(text[i]))
  }

  function Dropped(count: nat): (cells: Stream)
    ensures |cells| == count
    ensures forall i :: 0 <= i < count ==> cells[i] == None
  {
    seq(count, _ => None)
  }

  datatype Log = Log(history: Stream, base: nat)

  ghost predicate WellFormed(log: Log, max: nat) {
    && log.base <= |log.history| <= log.base + max
    && forall i :: log.base <= i < |log.history| ==> log.history[i].Some?
  }

  function Max(a: int, b: int): int { if a < b then b else a }

  function Min(a: int, b: int): int { if a < b then a else b }

  // A discarded stretch cuts everything before it off; what is left over is trimmed to `max`.
  function Appended(log: Log, max: nat, text: string, discarded: nat): Log {
    var history := log.history + Dropped(discarded) + Kept(text);
    var kept := if discarded > 0 then |log.history| + discarded else log.base;
    Log(history, Max(kept, |history| - max))
  }

  lemma AppendedIsWellFormed(log: Log, max: nat, text: string, discarded: nat)
    requires WellFormed(log, max)
    ensures WellFormed(Appended(log, max, text, discarded), max)
    ensures log.base <= Appended(log, max, text, discarded).base
    ensures log.history <= Appended(log, max, text, discarded).history
  {
  }

  /** An append puts the discarded positions in front of the text, and then gives up no more than it has to:
      it keeps the longest suffix that fits and has none discarded in it. */
  lemma AppendedKeepsAllItMay(log: Log, max: nat, text: string, discarded: nat, base: nat)
    requires WellFormed(log, max)
    ensures var history := Appended(log, max, text, discarded).history;
            && history == log.history + Dropped(discarded) + Kept(text)
            && (log.base <= base && WellFormed(Log(history, base), max) ==>
                  Appended(log, max, text, discarded).base <= base)
  {
    var history := log.history + Dropped(discarded) + Kept(text);
    if discarded > 0 {
      assert history[|log.history| + discarded - 1] == None;
    }
  }

  datatype Chunk = Chunk(start: nat, text: string, truncated: bool)

  // Where a read from `cursor` starts and stops.
  function ReadStart(log: Log, cursor: int): (start: nat)
    requires log.base <= |log.history|
    ensures log.base <= start <= |log.history|
  {
    Min(Max(cursor, log.base), |log.history|)
  }

  // The chunk is exactly the stream from the clamped cursor on, cut at the limit.
  ghost predicate IsRead(log: Log, cursor: int, limit: nat, c: Chunk)
    requires log.base <= |log.history|
  {
    && c.start == ReadStart(log, cursor)
    && |c.text| == Min(limit, |log.history| - c.start)
    && Kept(c.text) == log.history[c.start..c.start + |c.text|]
    && (c.truncated <==> cursor < log.base)
  }

  datatype ReadResult = LimitOutOfRange | Read(chunk: Chunk, availableFrom: nat, next: nat)

  class OutputLog {
    const maxOutputChars: nat
    var outputBuffer: string
    var outputBaseCursor: nat
    var outputEndCursor: nat
    ghost var history: Stream

    ghost predicate Valid()
      reads this
    {
      && 0 < maxOutputChars
      && outputEndCursor == |history|
      && outputBaseCursor <= outputEndCursor
      && Kept(outputBuffer) == history[outputBaseCursor..]
      && |outputBuffer| <= maxOutputChars
    }

    ghost function View(): Log
      reads this
    {
      Log(history, outputBaseCursor)
    }

    constructor (maxOutputChars: nat)
      requires maxOutputChars > 0
      ensures Valid() && View() == Log([], 0) && this.maxOutputChars == maxOutputChars
    {
      this.maxOutputChars := maxOutputChars;
      outputBuffer, outputBaseCursor, outputEndCursor, history := "", 0, 0, [];
    }

    // `Valid` but for the bound on the buffer.
    ghost predicate Holds()
      reads this
    {
      && 0 < maxOutputChars
      && outputEndCursor == |history|
      && outputBaseCursor <= outputEndCursor
      && Kept(outputBuffer) == history[outputBaseCursor..]
    }

    // Characters the backend reports as discarded cut off everything buffered so far.
    method Discard(count: nat)
      requires Valid()
      modifies this
      ensures Valid() && history == old(history) + Dropped(count)
      ensures outputBaseCursor == if count > 0 then |history| else old(outputBaseCursor)
    {
      history := history + Dropped(count);
      if count > 0 {
        outputEndCursor := outputEndCursor + count;
        outputBuffer := "";
        outputBaseCursor := outputEndCursor;
      }
    }

    method AppendText(text: string)
      requires Valid()
      modifies this
      ensures Holds() && history == old(history) + Kept(text) && outputBaseCursor == old(outputBaseCursor)
    {
      ghost var before := history;
      history := before + Kept(text);
      assert history[outputBaseCursor..] == before[outputBaseCursor..] + Kept(text);
      outputBuffer := outputBuffer + text;
      outputEndCursor := outputEndCursor + |text|;
    }

    method Trim()
      requires Holds()
      modifies this`outputBuffer, this`outputBaseCursor
      ensures Valid() && outputBaseCursor == Max(old(outputBaseCursor), |history| - maxOutputChars)
    {
      assert |outputBuffer| == |Kept(outputBuffer)|;
      var excess := |outputBuffer| - maxOutputChars;
      if excess > 0 {
        assert Kept(outputBuffer[excess..]) == Kept(outputBuffer)[excess..];
        outputBuffer := outputBuffer[excess..];
        outputBaseCursor := outputBaseCursor + excess;
      }
    }

    method AppendOutput(output: string, discardedChars: nat)
      requires Valid()
      modifies this
      ensures Valid()
      ensures View() == Appended(old(View()), maxOutputChars, output, discardedChars)
    {
      if output == "" && discardedChars == 0 {
        assert history + Dropped(0) + Kept("") == history;
        assert |outputBuffer| == |Kept(outputBuffer)|;
        return;
      }
      Discard(discardedChars);
      AppendText(output);
      Trim();
    }

    method ReadLog(cursor: int, limit: int) returns (r: ReadResult)
      requires Valid()
      ensures r.LimitOutOfRange? <==> limit <= 0 || limit > MaxReadChars
      ensures r.Read? ==> IsRead(View(), cursor, limit, r.chunk)
                          && r.next == r.chunk.start + |r.chunk.text|
                          && r.availableFrom == outputBaseCursor
      ensures r.Read? && cursor < outputBaseCursor ==> r.chunk.start == outputBaseCursor
      ensures r.Read? && outputBaseCursor <= cursor <= |history| ==> r.chunk.start == cursor
      ensures r.Read? && cursor > |history| ==> r.chunk.start == |history| && r.chunk.text == ""
    {
      if limit <= 0 || limit > MaxReadChars {
        return LimitOutOfRange;
      }
      var effective := Min(Max(cursor, outputBaseCursor), outputEndCursor);
      var startIndex := effective - outputBaseCursor;
      var stop := Min(startIndex + limit, |outputBuffer|);
      var output := outputBuffer[startIndex..stop];
      assert Kept(output) == Kept(outputBuffer)[startIndex..stop];
      return Read(Chunk(effective, output, cursor < outputBaseCursor),
                  outputBaseCursor, effective + |output|);
    }
  }

  // -------------------------------------------------------------------- following the cursor

  datatype Event = Append(text: string, discarded: nat) | Poll(limit: nat)

  // What a client that always asks from the cursor it was given last may see: one chunk per poll.
  ghost predicate Follows(log: Log, max: nat, cursor: nat, events: seq<Event>, chunks: seq<Chunk>)
    requires WellFormed(log, max)
    decreases |events|
  {
    if events == [] then chunks == []
    else match events[0]
      case Append(text, discarded) =>
        AppendedIsWellFormed(log, max, text, discarded);
        Follows(Appended(log, max, text, discarded), max, cursor, events[1..], chunks)
      case Poll(limit) =>
        && chunks != []
        && IsRead(log, cursor, limit, chunks[0])
        && Follows(log, max, chunks[0].start + |chunks[0].text|, events[1..], chunks[1..])
  }

  function Final(log: Log, max: nat, events: seq<Event>): Log
    decreases |events|
  {
    if events == [] then log
    else if events[0].Poll? then Final(log, max, events[1..])
    else Final(Appended(log, max, events[0].text, events[0].discarded), max, events[1..])
  }

  // No position twice, none out of order, and a gap before a chunk exactly when it says truncated.
  predicate InOrder(from: nat, chunks: seq<Chunk>)
    decreases |chunks|
  {
    chunks != [] ==>
      && from <= chunks[0].start
      && (chunks[0].truncated <==> from < chunks[0].start)
      && InOrder(chunks[0].start + |chunks[0].text|, chunks[1..])
  }

  predicate Faithful(history: Stream, c: Chunk) {
    c.start + |c.text| <= |history| && history[c.start..c.start + |c.text|] == Kept(c.text)
  }

  lemma {:induction false} HistoryOnlyGrows(log: Log, max: nat, events: seq<Event>)
    requires WellFormed(log, max)
    ensures log.history <= Final(log, max, events).history
    decreases |events|
  {
    if events != [] {
      if events[0].Append? {
        AppendedIsWellFormed(log, max, events[0].text, events[0].discarded);
        HistoryOnlyGrows(Appended(log, max, events[0].text, events[0].discarded), max, events[1..]);
      } else {
        HistoryOnlyGrows(log, max, events[1..]);
      }
    }
  }

  /** Whatever is appended, discarded and trimmed in between, the client gets stream positions at
      most once and in order, with their own characters, and learns of every gap. */
  lemma {:induction false} FollowerSeesTheStream(
      log: Log, max: nat, cursor: nat, events: seq<Event>, chunks: seq<Chunk>)
    requires WellFormed(log, max) && cursor <= |log.history|
    requires Follows(log, max, cursor, events, chunks)
    ensures InOrder(cursor, chunks)
    ensures forall c :: c in chunks ==> Faithful(Final(log, max, events).history, c)
    decreases |events|
  {
    if events != [] {
      match events[0] {
        case Append(text, discarded) =>
          AppendedIsWellFormed(log, max, text, discarded);
          FollowerSeesTheStream(Appended(log, max, text, discarded), max, cursor, events[1..], chunks);
        case Poll(limit) =>
          var c := chunks[0];
          FollowerSeesTheStream(log, max, c.start + |c.text|, events[1..], chunks[1..]);
          HistoryOnlyGrows(log, max, events[1..]);
          var whole := Final(log, max, events).history;
          assert log.history == whole[..|log.history|];
          assert whole[c.start..c.start + |c.text|] == log.history[c.start..c.start + |c.text|];
      }
    }
  }

  function Received(chunks: seq<Chunk>): string {
    if chunks == [] then "" else chunks[0].text + Received(chunks[1..])
  }

  lemma KeptOfSum(a: string, b: string)
    ensures Kept(a + b) == Kept(a) + Kept(b)
  {
  }

  lemma Glue(history: Stream, from: nat, a: string, b: string)
    requires from + |a| + |b| <= |history|
    requires history[from..from + |a|] == Kept(a)
    requires history[from + |a|..from + |a| + |b|] == Kept(b)
    ensures history[from..from + |a + b|] == Kept(a + b)
  {
    KeptOfSum(a, b);
    var mid := from + |a|;
    assert history[from..mid + |b|] == history[from..mid] + history[mid..mid + |b|];
  }

  // What it holds reaches to the end of the last chunk.
  lemma {:induction false} UntruncatedReachesTheEnd(from: nat, chunks: seq<Chunk>)
    requires chunks != [] && InOrder(from, chunks) && forall c :: c in chunks ==> !c.truncated
    ensures from + |Received(chunks)| == chunks[|chunks| - 1].start + |chunks[|chunks| - 1].text|
    decreases |chunks|
  {
    if |chunks| > 1 {
      assert forall c :: c in chunks[1..] ==> c in chunks;
      UntruncatedReachesTheEnd(chunks[0].start + |chunks[0].text|, chunks[1..]);
    }
  }

  /** A client that was never told of a truncation holds the stream from its first cursor on. */
  lemma {:induction false} UntruncatedIsComplete(history: Stream, from: nat, chunks: seq<Chunk>)
    requires from <= |history| && InOrder(from, chunks)
    requires forall c :: c in chunks ==> Faithful(history, c) && !c.truncated
    ensures from + |Received(chunks)| <= |history|
    ensures Kept(Received(chunks)) == history[from..from + |Received(chunks)|]
    decreases |chunks|
  {
    if chunks != [] {
      var c := chunks[0];
      assert c in chunks && forall d :: d in chunks[1..] ==> d in chunks;
      UntruncatedIsComplete(history, c.start + |c.text|, chunks[1..]);
      Glue(history, from, c.text, Received(chunks[1..]));
    }
  }
}
