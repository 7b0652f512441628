/**
 Interruptible consumption of a model stream: one daemon thread pulls chunks and puts them in a
 bounded queue, the calling thread hands them to a callback and may stop at any moment, and either
 side may ask for the stream to be closed.

 The steps are the lock sections and the single queue, event or stream operations of the two threads.
 */
module StreamDelivery {
  import opened Common

  type Chunk = nat

  datatype Outcome = Success | Failure(error: nat)

  // Where the daemon thread is.
  datatype Pc =
    | Creating                     // in the stream factory
    | Storing                      // has a stream, not yet stored
    | Handing                      // stored it and saw an earlier close request
    | Checking                     // before the first look at the stop event
    | Pulling                      // in next(stream)
    | Holding(chunk: Chunk)        // before the look at the stop event
    | Putting(chunk: Chunk)        // in the retry loop around the bounded queue
    | Stored                       // put it; before the last look at the stop event
    | Ended(outcome: Outcome)      // the stream is over; before the look at the stop event
    | Reporting(outcome: Outcome)
    | Leaving                      // in the finally block
    | Done

  // `hand` and `got` are what the caller took out of the two queues; `produced` is what the stream
  // yielded, `delivered` what the callback was given, `closes` the closer threads started.
  datatype Pipe = Pipe(
    size: nat,
    queue: seq<Chunk>,
    outcome: Option<Outcome>,
    stop: bool,
    stream: bool,
    closeRequested: bool,
    closeStarted: bool,
    clock: int,
    pc: Pc,
    gaveUp: bool,
    produced: seq<Chunk>,
    ended: Option<Outcome>,
    delivered: seq<Chunk>,
    hand: Option<Chunk>,
    got: Option<Outcome>,
    closes: nat,
    lastReturn: int)

  function NewPipe(size: nat): Pipe {
    Pipe(size, [], None, false, false, false, false, 0, Creating, false, [], None, [], None, None, 0, 0)
  }

  datatype Step =
    // the daemon thread
    | FactoryReturns | FactoryRaises(error: nat) | StoreStream | HandClose
    | Pass | Quit | Yield(chunk: Chunk) | Exhaust | StreamRaises(error: nat)
    | TryPut | Report | FinalClose
    // the calling thread
    | TakeChunk | Deliver | CallbackReturns | TakeOutcome | SetStop | AskClose
    // either may see time pass
    | Tick(seconds: nat)

  // request_close: one lock section.
  function RequestClose(p: Pipe): Pipe {
    if !p.stream || p.closeStarted then p.(closeRequested := true)
    else p.(closeRequested := true, closeStarted := true, closes := p.closes + 1)
  }

  function NextPc(pc: Pc): Pc {
    match pc
    case Checking => Pulling
    case Holding(chunk) => Putting(chunk)
    case Stored => Pulling
    case Ended(outcome) => Reporting(outcome)
    case other => other
  }

  function Apply(p: Pipe, s: Step): Pipe {
    match s
    case FactoryReturns => p.(pc := Storing)
    case FactoryRaises(error) => p.(pc := Ended(Failure(error)), ended := Some(Failure(error)))
    case StoreStream => p.(stream := true, pc := if p.closeRequested then Handing else Checking)
    case HandClose => RequestClose(p).(pc := Checking)
    case Pass => p.(pc := NextPc(p.pc))
    case Quit => p.(pc := Leaving, gaveUp := true)
    case Yield(chunk) => p.(pc := Holding(chunk), produced := p.produced + [chunk])
    case Exhaust => p.(pc := Ended(Success), ended := Some(Success))
    case StreamRaises(error) => p.(pc := Ended(Failure(error)), ended := Some(Failure(error)))
    case TryPut =>
      if p.pc.Putting? && |p.queue| < p.size then p.(queue := p.queue + [p.pc.chunk], pc := Stored) else p
    case Report =>
      if !p.pc.Reporting? then p
      else p.(outcome := if p.outcome.None? then Some(p.pc.outcome) else p.outcome, pc := Leaving)
    case FinalClose => RequestClose(p).(pc := Done)
    case TakeChunk => if p.queue == [] then p else p.(hand := Some(p.queue[0]), queue := p.queue[1..])
    case Deliver => if p.hand.None? then p else p.(delivered := p.delivered + [p.hand.value], hand := None)
    case CallbackReturns => p.(lastReturn := p.clock)
    case TakeOutcome => p.(got := p.outcome, outcome := None)
    case SetStop => p.(stop := true)
    case AskClose => RequestClose(p)
    case Tick(seconds) => p.(clock := p.clock + seconds)
  }

  predicate LooksAtStop(pc: Pc) { pc.Checking? || pc.Holding? || pc.Putting? || pc.Stored? || pc.Ended? }

  predicate Enabled(p: Pipe, s: Step) {
    match s
    case FactoryReturns => p.pc.Creating?
    case FactoryRaises(_) => p.pc.Creating?
    case StoreStream => p.pc.Storing?
    case HandClose => p.pc.Handing?
    case Pass => LooksAtStop(p.pc) && !p.pc.Putting? && !p.stop
    case Quit => LooksAtStop(p.pc) && p.stop
    case Yield(_) => p.pc.Pulling?
    case Exhaust => p.pc.Pulling?
    case StreamRaises(_) => p.pc.Pulling?
    case TryPut => p.pc.Putting?
    case Report => p.pc.Reporting?
    case FinalClose => p.pc.Leaving?
    case TakeChunk => !p.stop && p.hand.None? && p.queue != []
    case Deliver => !p.stop && p.hand.Some?
    case CallbackReturns => true
    case TakeOutcome => !p.stop && p.got.None? && p.outcome.Some?
    case SetStop => true
    case AskClose => true
    case Tick(_) => true
  }

  function InHand(hand: Option<Chunk>): seq<Chunk> { if hand.Some? then [hand.value] else [] }

  function InWorker(pc: Pc): seq<Chunk> {
    match pc
    case Holding(chunk) => [chunk]
    case Putting(chunk) => [chunk]
    case _ => []
  }

  // Every chunk on its way, oldest first.
  function Flow(p: Pipe): seq<Chunk> { p.delivered + InHand(p.hand) + p.queue + InWorker(p.pc) }

  predicate FlowInv(p: Pipe) {
    && |p.queue| <= p.size
    && (if p.gaveUp then Flow(p) <= p.produced else Flow(p) == p.produced)
  }

  predicate OutcomeInv(p: Pipe) {
    && (p.gaveUp ==> p.stop && (p.pc.Leaving? || p.pc.Done?) && p.outcome.None? && p.got.None?)
    && (p.outcome.Some? ==> p.got.None? && p.outcome == p.ended)
    && (p.got.Some? ==> p.got == p.ended)
    && (p.outcome.Some? || p.got.Some? <==> !p.gaveUp && (p.pc.Leaving? || p.pc.Done?))
    && (p.pc.Ended? || p.pc.Reporting? ==> p.ended == Some(p.pc.outcome))
    && (p.ended.Some? ==> p.pc.Ended? || p.pc.Reporting? || p.pc.Leaving? || p.pc.Done?)
  }

  predicate CloseInv(p: Pipe) {
    && p.closes == (if p.closeStarted then 1 else 0)
    && (p.closeStarted ==> p.stream && p.closeRequested)
    && (p.stream && p.closeRequested && !p.pc.Handing? ==> p.closeStarted)
    && (p.pc.Creating? || p.pc.Storing? ==> !p.stream)
    && (!p.stream ==> p.pc.Creating? || p.pc.Storing? || p.pc.Ended? || p.pc.Reporting? || p.pc.Leaving? || p.pc.Done?)
    && (p.pc.Done? || p.pc.Handing? ==> p.closeRequested)
  }

  predicate Inv(p: Pipe) { FlowInv(p) && OutcomeInv(p) && CloseInv(p) }

  datatype Role = Worker | Caller

  predicate IsWorkers(s: Step) {
    s.FactoryReturns? || s.FactoryRaises? || s.StoreStream? || s.HandClose? || s.Pass? || s.Quit? || s.Yield?
    || s.Exhaust? || s.StreamRaises? || s.TryPut? || s.Report? || s.FinalClose?
  }

  // What the thread `me` may see others do while it holds no lock.
  predicate ByOthers(me: Role, s: Step) { s.Tick? || (if me.Worker? then !IsWorkers(s) else IsWorkers(s)) }

  /** What no step undoes. */
  predicate Keeps(a: Pipe, b: Pipe) {
    && a.size == b.size && a.clock <= b.clock
    && a.produced <= b.produced && a.delivered <= b.delivered
    && (a.stop ==> b.stop && b.delivered == a.delivered)
    && (a.closeRequested ==> b.closeRequested) && (a.stream ==> b.stream)
    && (a.ended.Some? ==> b.ended == a.ended && b.produced == a.produced)
  }

  // The close was at most requested by the daemon thread, on its own way out.
  predicate Unasked(p: Pipe) { p.closeRequested ==> p.pc.Done? }

  // What the other thread leaves alone.
  predicate KeepsFor(me: Role, a: Pipe, b: Pipe) {
    if me.Worker? then
      && b.pc == a.pc && b.produced == a.produced && b.ended == a.ended && b.gaveUp == a.gaveUp
      && b.stream == a.stream && (a.outcome.None? ==> b.outcome.None?)
    else
      && a.clock <= b.clock
      && b.delivered == a.delivered && b.hand == a.hand && b.got == a.got && b.stop == a.stop
      && b.lastReturn == a.lastReturn && a.queue <= b.queue
      && (a.outcome.Some? ==> b.outcome == a.outcome)
      && (a.outcome.Some? || a.got.Some? ==> b.queue == a.queue && b.outcome == a.outcome)
      && (Unasked(a) ==> Unasked(b))
  }

  // -------------------------------------------------------------------- one step

  lemma WorkerKeepsFlow(p: Pipe, s: Step)
    requires FlowInv(p) && OutcomeInv(p) && Enabled(p, s) && IsWorkers(s)
    ensures FlowInv(Apply(p, s))
  {
    var q := Apply(p, s);
    if s.Yield? {
      assert Flow(q) == Flow(p) + [s.chunk];
    } else if s.Quit? {
      assert Flow(q) <= Flow(p);
    } else {
      assert Flow(q) == Flow(p);
    }
  }

  lemma CallerKeepsFlow(p: Pipe, s: Step)
    requires FlowInv(p) && Enabled(p, s) && !IsWorkers(s)
    ensures FlowInv(Apply(p, s))
  {
    var q := Apply(p, s);
    if s.TakeChunk? {
      assert p.queue == [p.queue[0]] + p.queue[1..];
    }
    assert s.TakeChunk? || s.Deliver? || (q.queue == p.queue && q.hand == p.hand && q.delivered == p.delivered);
    assert Flow(q) == Flow(p);
  }

  lemma StepKeepsOutcome(p: Pipe, s: Step)
    requires OutcomeInv(p) && Enabled(p, s)
    ensures OutcomeInv(Apply(p, s))
  {
  }

  lemma StepKeepsClose(p: Pipe, s: Step)
    requires CloseInv(p) && Enabled(p, s)
    ensures CloseInv(Apply(p, s))
  {
  }

  lemma StepInv(p: Pipe, s: Step)
    requires Inv(p) && Enabled(p, s)
    ensures Inv(Apply(p, s))
  {
    hide FlowInv, OutcomeInv, CloseInv, Apply, Enabled;
    if IsWorkers(s) {
      WorkerKeepsFlow(p, s);
    } else {
      CallerKeepsFlow(p, s);
    }
    StepKeepsOutcome(p, s);
    StepKeepsClose(p, s);
  }

  lemma StepKeeps(p: Pipe, s: Step)
    requires Inv(p) && Enabled(p, s)
    ensures Keeps(p, Apply(p, s))
  {
    hide FlowInv, CloseInv;
  }

  lemma WorkerLeaves(p: Pipe, s: Step)
    requires CloseInv(p) && Enabled(p, s) && IsWorkers(s)
    ensures Unasked(p) ==> Unasked(Apply(p, s))
  {
  }

  lemma StepKeepsFor(me: Role, p: Pipe, s: Step)
    requires Inv(p) && Enabled(p, s) && ByOthers(me, s)
    ensures KeepsFor(me, p, Apply(p, s))
  {
    hide FlowInv, CloseInv;
    if IsWorkers(s) {
      WorkerLeaves(p, s);
    }
  }

  lemma KeepsChains(me: Role, a: Pipe, b: Pipe, c: Pipe)
    requires Keeps(a, b) && Keeps(b, c)
    ensures Keeps(a, c)
    ensures KeepsFor(me, a, b) && KeepsFor(me, b, c) ==> KeepsFor(me, a, c)
  {
  }

  // The same step, for a thread that still relates to an earlier state.
  lemma SharedStep(start: Pipe, p: Pipe, s: Step)
    requires Inv(p) && Keeps(start, p) && Enabled(p, s)
    ensures Inv(Apply(p, s)) && Keeps(start, Apply(p, s))
  {
    hide Inv, Keeps, Apply, Enabled;
    StepInv(p, s);
    StepKeeps(p, s);
    KeepsChains(Worker, start, p, Apply(p, s));
  }

  // -------------------------------------------------------------------- whole runs

  function Run(p: Pipe, trace: seq<Step>): Pipe
    decreases |trace|
  {
    if trace == [] then p else Run(Apply(p, trace[0]), trace[1..])
  }

  predicate Feasible(p: Pipe, trace: seq<Step>)
    decreases |trace|
  {
    trace != [] ==> Enabled(p, trace[0]) && Feasible(Apply(p, trace[0]), trace[1..])
  }

  predicate AllByOthers(me: Role, trace: seq<Step>) {
    forall i :: 0 <= i < |trace| ==> ByOthers(me, trace[i])
  }

  lemma {:induction false} RunKeeps(p: Pipe, trace: seq<Step>)
    requires Inv(p) && Feasible(p, trace)
    ensures Inv(Run(p, trace)) && Keeps(p, Run(p, trace))
    decreases |trace|
  {
    hide Inv, Keeps, Apply, Enabled;
    if trace == [] {
      KeepsItself(Worker, p);
    } else {
      var q := Apply(p, trace[0]);
      StepInv(p, trace[0]);
      StepKeeps(p, trace[0]);
      RunKeeps(q, trace[1..]);
      KeepsChains(Worker, p, q, Run(p, trace));
    }
  }

  lemma KeepsItself(me: Role, p: Pipe)
    ensures Keeps(p, p) && KeepsFor(me, p, p)
  {
  }

  lemma {:induction false} RunKeepsFor(me: Role, p: Pipe, trace: seq<Step>)
    requires Inv(p) && Feasible(p, trace) && AllByOthers(me, trace)
    ensures KeepsFor(me, p, Run(p, trace))
    decreases |trace|
  {
    hide Inv, Keeps, KeepsFor, Apply, Enabled, ByOthers;
    KeepsItself(me, p);
    if trace != [] {
      var q := Apply(p, trace[0]);
      StepInv(p, trace[0]);
      StepKeeps(p, trace[0]);
      StepKeepsFor(me, p, trace[0]);
      RunKeepsFor(me, q, trace[1..]);
      RunKeeps(q, trace[1..]);
      KeepsChains(me, p, q, Run(p, trace));
    }
  }

  ghost predicate Reach(me: Role, a: Pipe, b: Pipe) {
    exists trace :: Feasible(a, trace) && AllByOthers(me, trace) && b == Run(a, trace)
  }

  lemma ReachKeeps(me: Role, a: Pipe, b: Pipe)
    requires Inv(a) && Reach(me, a, b)
    ensures Inv(b) && Keeps(a, b) && KeepsFor(me, a, b)
  {
    var trace :| Feasible(a, trace) && AllByOthers(me, trace) && b == Run(a, trace);
    RunKeeps(a, trace);
    RunKeepsFor(me, a, trace);
  }

  lemma NewPipeInv(size: nat)
    ensures Inv(NewPipe(size))
  {
  }

  /** Under any interleaving the callback has been given a prefix of what the stream yielded, and
      nothing more after a stop; the queue never holds more than its size. */
  lemma DeliveredIsPrefix(size: nat, before: seq<Step>, after: seq<Step>)
    requires Feasible(NewPipe(size), before) && Feasible(Run(NewPipe(size), before), after)
    ensures var p, q := Run(NewPipe(size), before), Run(Run(NewPipe(size), before), after);
            && q.delivered <= q.produced && |q.queue| <= size
            && p.delivered <= q.delivered && p.produced <= q.produced
            && (p.stop ==> q.delivered == p.delivered)
  {
    NewPipeInv(size);
    RunKeeps(NewPipe(size), before);
    RunKeeps(Run(NewPipe(size), before), after);
    var q := Run(Run(NewPipe(size), before), after);
    assert q.delivered <= Flow(q);
  }

  /** A caller that took the terminal outcome and drained the queue has delivered everything the
      stream ever yields, and the outcome is the stream's own end. */
  lemma OutcomeComesLast(size: nat, before: seq<Step>, after: seq<Step>)
    requires Feasible(NewPipe(size), before) && Feasible(Run(NewPipe(size), before), after)
    requires var p := Run(NewPipe(size), before); p.got.Some? && p.queue == [] && p.hand.None?
    ensures var p, q := Run(NewPipe(size), before), Run(Run(NewPipe(size), before), after);
            && p.delivered == q.produced == q.delivered && p.got == q.ended
  {
    NewPipeInv(size);
    RunKeeps(NewPipe(size), before);
    var p := Run(NewPipe(size), before);
    RunKeeps(p, after);
    Drained(p);
    var q := Run(p, after);
    assert q.delivered <= Flow(q);
  }

  lemma PrefixNow(p: Pipe)
    requires Inv(p)
    ensures p.delivered <= p.produced
  {
    assert p.delivered <= Flow(p);
  }

  lemma ClosesAtTheEnd(p: Pipe)
    requires Inv(p) && p.pc.Done?
    ensures p.closes == if p.stream then 1 else 0
  {
  }

  lemma EndKnown(p: Pipe)
    requires Inv(p)
    ensures p.pc.Ended? ==> p.ended == Some(p.pc.outcome)
    ensures p.pc.Done? && !p.gaveUp ==> p.ended.Some? && (p.outcome == p.ended || p.got == p.ended)
  {
  }

  lemma NoStreamYet(p: Pipe)
    requires Inv(p) && p.pc.Creating?
    ensures !p.stream
  {
  }

  lemma Drained(p: Pipe)
    requires Inv(p) && p.got.Some? && p.queue == [] && p.hand.None?
    ensures p.delivered == p.produced && p.ended == p.got
  {
    assert Flow(p) == p.delivered;
  }

  /** Whatever the interleaving of the stream being stored and any number of close requests: never
      two closes, one as soon as both have happened, and one at the latest when the thread ends. */
  lemma ClosedExactlyOnce(size: nat, trace: seq<Step>)
    requires Feasible(NewPipe(size), trace)
    ensures var p := Run(NewPipe(size), trace);
            && p.closes <= 1
            && (!p.pc.Handing? ==> (p.closes == 1 <==> p.stream && p.closeRequested))
            && (p.pc.Done? && p.stream ==> p.closes == 1)
  {
    NewPipeInv(size);
    RunKeeps(NewPipe(size), trace);
  }

  // -------------------------------------------------------- when nobody stops the thread

  // Nobody takes chunks any more and nobody has stopped the thread.
  predicate Stuck(p: Pipe) { p.pc.Putting? && |p.queue| == p.size && !p.stop && !p.closeRequested }

  /** After an exit that stops nothing, a thread in front of a full queue tries again for as long as it
      runs, and its stream is never closed. */
  lemma {:induction false} StuckForever(p: Pipe, trace: seq<Step>)
    requires Inv(p) && Stuck(p) && Feasible(p, trace) && AllByOthers(Caller, trace)
    ensures var q := Run(p, trace); Stuck(q) && q.closes == 0 && q.queue == p.queue && q.pc == p.pc
    decreases |trace|
  {
    if trace != [] {
      StepInv(p, trace[0]);
      StuckForever(Apply(p, trace[0]), trace[1..]);
    }
  }

  lemma ReachStep(me: Role, a: Pipe, s: Step, c: Pipe)
    requires Enabled(a, s) && ByOthers(me, s) && Reach(me, Apply(a, s), c)
    ensures Reach(me, a, c)
  {
    hide Enabled, Apply, ByOthers;
    var rest :| Feasible(Apply(a, s), rest) && AllByOthers(me, rest) && c == Run(Apply(a, s), rest);
    var trace := [s] + rest;
    assert trace[0] == s && trace[1..] == rest;
    assert Feasible(a, trace) && AllByOthers(me, trace) && c == Run(a, trace);
  }

  lemma ReachItself(me: Role, p: Pipe)
    ensures Reach(me, p, p)
  {
    var nothing: seq<Step> := [];
    assert Feasible(p, nothing) && AllByOthers(me, nothing) && Run(p, nothing) == p;
  }

  // A queue of one, after the first of two chunks has been put.
  const OneQueued :=
    Pipe(1, [0], None, false, true, false, false, 0, Stored, false, [0], None, [], None, None, 0, 0)

  const TwoPulled :=
    Pipe(1, [0], None, false, true, false, false, 0, Putting(1), false, [0, 1], None, [], None, None, 0, 0)

  lemma FirstIsQueued(c: Pipe)
    requires Reach(Caller, OneQueued, c)
    ensures Reach(Caller, NewPipe(1), c)
  {
    hide Reach;
    var p1 := Apply(NewPipe(1), FactoryReturns);
    var p2 := Apply(p1, StoreStream);
    var p3 := Apply(p2, Pass);
    var p4 := Apply(p3, Yield(0));
    var p5 := Apply(p4, Pass);
    assert Apply(p5, TryPut) == OneQueued;
    ReachStep(Caller, p5, TryPut, c);
    ReachStep(Caller, p4, Pass, c);
    ReachStep(Caller, p3, Yield(0), c);
    ReachStep(Caller, p2, Pass, c);
    ReachStep(Caller, p1, StoreStream, c);
    ReachStep(Caller, NewPipe(1), FactoryReturns, c);
  }

  /** Such a state is reached with the caller doing nothing but leave. */
  lemma StuckIsReached() returns (p: Pipe)
    ensures Reach(Caller, NewPipe(1), p) && Stuck(p)
  {
    hide Reach;
    p := TwoPulled;
    var p1 := Apply(OneQueued, Pass);
    var p2 := Apply(p1, Yield(1));
    ReachItself(Caller, p);
    assert Apply(p2, Pass) == p;
    ReachStep(Caller, p2, Pass, p);
    ReachStep(Caller, p1, Yield(1), p);
    ReachStep(Caller, OneQueued, Pass, p);
    FirstIsQueued(p);
  }

  // -------------------------------------------------------------------- the two threads

  // What the caller's cancel checker does.
  datatype Check = Clear | Cancels | Raises

  datatype Result =
    | Returned
    | ProducerRaised(error: nat)
    | Cancelled
    | TimedOut
    | CallbackRaised
    | CheckerRaised  // the cancel checker itself raised
    | StillWaiting   // the poll loop has not ended within the rounds looked at

  datatype PutResult = Put | SawStop | StillFull

  class StreamExecution {
    const size: nat
    var queue: seq<Chunk>
    var outcome: Option<Outcome>
    var stop: bool
    var stream: bool
    var closeRequested: bool
    var closeStarted: bool
    var clock: int
    ghost var pc: Pc
    ghost var gaveUp: bool
    ghost var produced: seq<Chunk>
    ghost var ended: Option<Outcome>
    var delivered: seq<Chunk>       // what the callback has got
    ghost var hand: Option<Chunk>
    ghost var got: Option<Outcome>
    ghost var closes: nat
    ghost var lastReturn: int

    // What the cancel checker answers when it is asked for the k-th time, and how often it was.
    const checker: nat -> Check
    var asked: nat

    // Which chunk, counted from the first delivered, the callback raises on.
    const callbackRaises: nat -> bool

    ghost predicate NoneRaised(n: nat) { forall k: nat :: k < n ==> !callbackRaises(k) }

    // The callback raised on no chunk, unless that is why the thread leaves.
    ghost predicate Calm(failed: Option<Result>)
      reads this`delivered
    {
      if failed.Some? && failed.value.CallbackRaised? then
        delivered != [] && NoneRaised(|delivered| - 1) && callbackRaises(|delivered| - 1)
      else NoneRaised(|delivered|)
    }

    ghost predicate AllClear(from: nat, to: nat) { forall k: nat :: from <= k < to ==> checker(k) == Clear }

    // Since `from` the checker saw nothing to stop for, unless its last answer is why the thread leaves.
    ghost predicate Heeded(failed: Option<Result>, from: nat)
      reads this`asked
    {
      && from <= asked
      && if failed.Some? && (failed.value.Cancelled? || failed.value.CheckerRaised?) then
           && from < asked && AllClear(from, asked - 1)
           && checker(asked - 1) == if failed.value.Cancelled? then Cancels else Raises
         else AllClear(from, asked)
    }

    ghost function View(): Pipe
      reads this
    {
      Pipe(size, queue, outcome, stop, stream, closeRequested, closeStarted, clock, pc, gaveUp, produced, ended,
           delivered, hand, got, closes, lastReturn)
    }

    constructor (size: nat, checker: nat -> Check, callbackRaises: nat -> bool)
      requires size > 0
      ensures View() == NewPipe(size) && this.checker == checker && asked == 0
      ensures this.callbackRaises == callbackRaises
    {
      this.size, this.checker, this.callbackRaises, asked := size, checker, callbackRaises, 0;
      queue, outcome, stop := [], None, false;
      stream, closeRequested, closeStarted, clock := false, false, false, 0;
      pc, gaveUp, produced, ended, delivered, hand, got := Creating, false, [], None, [], None, None;
      closes, lastReturn := 0, 0;
    }

    // Any run of the other thread.  `start` is a state the caller of this method still relates to.
    method Interfere(ghost me: Role, ghost start: Pipe)
      requires Inv(View()) && Keeps(start, View())
      modifies this
      ensures Reach(me, old(View()), View())
      ensures Inv(View()) && Keeps(start, View()) && KeepsFor(me, old(View()), View())
      ensures asked == old(asked)
    {
      ghost var nothing: seq<Step> := [];
      assert Feasible(View(), nothing) && AllByOthers(me, nothing) && Run(View(), nothing) == View();
      KeepsItself(me, View());
    }

    method AskForClose(ghost start: Pipe)
      requires Inv(View()) && Keeps(start, View())
      modifies this
      ensures View() == RequestClose(old(View()))
      ensures Inv(View()) && Keeps(start, View()) && asked == old(asked)
    {
      hide Inv, Keeps;
      SharedStep(start, View(), AskClose);
      closeRequested := true;
      if !stream || closeStarted {
        return;
      }
      closeStarted := true;
      closes := closes + 1;
    }

    // ------------------------------------------------------------ the calling thread

    method Stop(ghost start: Pipe)
      requires Inv(View()) && Keeps(start, View())
      modifies this
      ensures View() == Apply(old(View()), SetStop) && Inv(View()) && Keeps(start, View()) && asked == old(asked)
    {
      hide Inv, Keeps;
      SharedStep(start, View(), SetStop);
      stop := true;
    }

    method StopAndClose(ghost start: Pipe)
      requires Inv(View()) && Keeps(start, View())
      modifies this
      ensures Inv(View()) && Keeps(start, View())
      ensures stop && closeRequested && delivered == old(delivered) && lastReturn == old(lastReturn)
      ensures clock >= old(clock) && asked == old(asked)
    {
      hide Inv, Keeps;
      Stop(start);
      Interfere(Caller, start);
      AskForClose(start);
    }

    method AskChecker() returns (answer: Check)
      modifies this`asked
      ensures asked == old(asked) + 1 && answer == checker(old(asked))
    {
      answer := checker(asked);
      asked := asked + 1;
    }

    // A checker that raises goes through: nothing is stopped and no close is asked for.
    method RaiseIfCancelled(ghost start: Pipe) returns (failed: Option<Result>)
      requires Inv(View()) && Keeps(start, View()) && !stop
      modifies this
      ensures Inv(View()) && Keeps(start, View())
      ensures lastReturn == old(lastReturn) && delivered == old(delivered) && clock >= old(clock)
      ensures failed.Some? ==> failed.value.CheckerRaised? || (failed.value.Cancelled? && stop && closeRequested)
      ensures failed.None? || failed.value.CheckerRaised? ==> KeepsFor(Caller, old(View()), View())
      ensures asked == old(asked) + 1 && Heeded(failed, old(asked))
      ensures failed.Some? ==> failed.value.Cancelled? || failed.value.CheckerRaised?
    {
      hide Inv, Keeps;
      Interfere(Caller, start);
      var check := AskChecker();
      if check == Raises {
        return Some(CheckerRaised);
      }
      if check == Cancels {
        StopAndClose(start);
        return Some(Cancelled);
      }
      return None;
    }

    method TakeChunkNoWait(ghost start: Pipe) returns (chunk: Option<Chunk>)
      requires Inv(View()) && Keeps(start, View()) && !stop && hand.None?
      modifies this`queue, this`hand
      ensures Inv(View()) && Keeps(start, View())
      ensures View() == if old(queue) == [] then old(View()) else Apply(old(View()), TakeChunk)
      ensures chunk == hand
    {
      hide Inv, Keeps;
      if queue == [] {
        return None;
      }
      SharedStep(start, View(), TakeChunk);
      chunk := Some(queue[0]);
      queue := queue[1..];
      hand := chunk;
    }

    method TakeOutcomeNoWait(ghost start: Pipe) returns (taken: Option<Outcome>)
      requires Inv(View()) && Keeps(start, View()) && !stop && got.None?
      modifies this`got, this`outcome
      ensures Inv(View()) && Keeps(start, View())
      ensures View() == if old(outcome).None? then old(View()) else Apply(old(View()), TakeOutcome)
      ensures taken == got
    {
      hide Inv, Keeps;
      if outcome.None? {
        return None;
      }
      SharedStep(start, View(), TakeOutcome);
      taken := outcome;
      got := taken;
      outcome := None;
    }

    method GiveToCallback(ghost start: Pipe, chunk: Chunk)
      requires Inv(View()) && Keeps(start, View()) && !stop && hand == Some(chunk)
      modifies this`delivered, this`hand
      ensures Inv(View()) && Keeps(start, View()) && View() == Apply(old(View()), Deliver)
      ensures delivered == old(delivered) + [chunk] && hand.None?
    {
      hide Inv, Keeps;
      SharedStep(start, View(), Deliver);
      delivered := delivered + [chunk];
      hand := None;
    }

    ghost method NoteReturn(start: Pipe)
      requires Inv(View()) && Keeps(start, View())
      modifies this`lastReturn
      ensures Inv(View()) && Keeps(start, View()) && View() == Apply(old(View()), CallbackReturns)
      ensures lastReturn == clock
    {
      hide Inv, Keeps;
      SharedStep(start, View(), CallbackReturns);
      lastReturn := clock;
    }

    lemma HeedJoins(from: nat, mid: nat, failed: Option<Result>)
      requires from <= mid && AllClear(from, mid) && Heeded(failed, mid)
      ensures Heeded(failed, from)
    {
    }

    lemma NothingAsked(n: nat)
      ensures AllClear(n, n)
    {
    }

    // The callback has just got another chunk.
    lemma CalmGrows()
      requires delivered != [] && NoneRaised(|delivered| - 1)
      ensures Calm(if callbackRaises(|delivered| - 1) then Some(CallbackRaised) else None)
    {
    }

    // What a consumer that left the loop guarantees.
    ghost predicate Outcomes(result: Result, timeout: Option<int>)
      reads this
    {
      match result
      case Returned => delivered == produced && ended == Some(Success)
      case ProducerRaised(error) => delivered == produced && ended == Some(Failure(error))
      case TimedOut => stop && closeRequested && timeout.Some? && clock - lastReturn >= timeout.value
      case CheckerRaised => !stop && Unasked(View())
      case StillWaiting => !stop && Unasked(View())
      case _ => stop && closeRequested
    }

    // The callback is given the chunk; cancellation is looked at before and after.
    method DeliverChunk(ghost start: Pipe, chunk: Chunk) returns (failed: Option<Result>)
      requires Inv(View()) && Keeps(start, View()) && !stop && Unasked(View()) && hand == Some(chunk)
      requires Calm(None)
      modifies this
      ensures Inv(View()) && Keeps(start, View())
      ensures failed.Some? ==> failed.value.Cancelled? || failed.value.CallbackRaised? || failed.value.CheckerRaised?
      ensures Heeded(failed, old(asked)) && asked - old(asked) >= |delivered| - |old(delivered)|
      ensures Calm(failed) && (failed.None? ==> asked == old(asked) + 2)
      ensures failed.Some? ==> Outcomes(failed.value, None)
      ensures failed.None? ==> !stop && Unasked(View()) && hand.None? && delivered == old(delivered) + [chunk]
      ensures failed.None? ==> got == old(got) && old(clock) <= lastReturn <= clock
      ensures failed.None? && got.Some? ==> queue == old(queue)
    {
      hide Inv, Keeps, Apply, AllClear, NoneRaised, Outcomes;
      failed := RaiseIfCancelled(start);
      if failed.Some? {
        RaisedOutcome(failed.value, None);
        return;
      }
      GiveToCallback(start, chunk);
      Interfere(Caller, start);  // the callback runs
      CalmGrows();
      if callbackRaises(|delivered| - 1) {
        StopAndClose(start);
        StoppedOutcome(CallbackRaised, None);
        return Some(CallbackRaised);
      }
      NoteReturn(start);
      ghost var mid := asked;
      failed := RaiseIfCancelled(start);
      HeedJoins(old(asked), mid, failed);
      if failed.Some? {
        RaisedOutcome(failed.value, None);
      }
    }

    // One queued chunk goes to the callback after the outcome has arrived.
    method DrainOne(ghost start: Pipe, ghost taken: Outcome) returns (drained: bool, failed: Option<Result>)
      requires Inv(View()) && Keeps(start, View()) && !stop && Unasked(View()) && hand.None? && got == Some(taken)
      requires Calm(None)
      modifies this
      ensures Inv(View()) && Keeps(start, View())
      ensures failed.Some? ==> failed.value.Cancelled? || failed.value.CallbackRaised? || failed.value.CheckerRaised?
      ensures failed.Some? ==> Outcomes(failed.value, None)
      ensures failed.None? ==> !stop && Unasked(View()) && hand.None? && got == Some(taken)
      ensures failed.None? ==> if drained then queue == [] else |queue| < |old(queue)|
      ensures Calm(failed)
      ensures Heeded(failed, old(asked)) && asked - old(asked) >= |delivered| - |old(delivered)|
    {
      hide Inv, Keeps, AllClear, NoneRaised;
      drained := false;
      failed := RaiseIfCancelled(start);
      if failed.Some? {
        return;
      }
      var chunk := TakeChunkNoWait(start);
      if chunk.None? {
        return true, None;
      }
      ghost var mid := asked;
      failed := DeliverChunk(start, chunk.value);
      HeedJoins(old(asked), mid, failed);
    }

    // The terminal outcome has arrived: what is still queued goes to the callback first.
    method DrainAndFinish(ghost start: Pipe, taken: Outcome) returns (result: Result)
      requires Inv(View()) && Keeps(start, View()) && !stop && Unasked(View()) && hand.None? && got == Some(taken)
      requires Calm(None)
      modifies this
      ensures Inv(View()) && Keeps(start, View())
      ensures !result.TimedOut? && !result.StillWaiting? && Outcomes(result, None)
      ensures Calm(Some(result))
      ensures Heeded(Some(result), old(asked)) && asked - old(asked) >= |delivered| - |old(delivered)|
    {
      hide Inv, Keeps, AllClear, NoneRaised;
      var drained := false;
      NothingAsked(asked);
      while !drained
        invariant Inv(View()) && Keeps(start, View()) && !stop && Unasked(View()) && hand.None? && got == Some(taken)
        invariant Calm(None)
        invariant Heeded(None, old(asked)) && asked - old(asked) >= |delivered| - |old(delivered)|
        invariant drained ==> queue == []
        decreases !drained, |queue|
      {
        var failed;
        ghost var mid := asked;
        drained, failed := DrainOne(start, taken);
        HeedJoins(old(asked), mid, failed);
        if failed.Some? {
          return failed.value;
        }
      }
      ghost var mid := asked;
      var failed := RaiseIfCancelled(start);
      HeedJoins(old(asked), mid, failed);
      if failed.Some? {
        return failed.value;
      }
      Drained(View());
      return if taken.Success? then Returned else ProducerRaised(taken.error);
    }

    // One look into the chunk queue.
    method TakeAndDeliver(ghost start: Pipe) returns (found: bool, failed: Option<Result>)
      requires Inv(View()) && Keeps(start, View()) && !stop && Unasked(View()) && hand.None?
      requires Calm(None)
      modifies this
      ensures Inv(View()) && Keeps(start, View())
      ensures !found ==> View() == old(View()) && queue == []
      ensures failed.Some? ==> found && !failed.value.TimedOut? && !failed.value.StillWaiting?
      ensures failed.Some? ==> !failed.value.Returned? && !failed.value.ProducerRaised? && Outcomes(failed.value, None)
      ensures failed.None? ==> !stop && Unasked(View()) && hand.None? && got == old(got)
      ensures found && failed.None? ==> old(clock) <= lastReturn <= clock
      ensures found <==> old(queue) != []
      ensures found && failed.None? ==> delivered == old(delivered) + [old(queue)[0]]
      ensures Calm(failed)
      ensures Heeded(failed, old(asked)) && asked - old(asked) >= |delivered| - |old(delivered)|
    {
      hide Inv, Keeps, AllClear, NoneRaised;
      NothingAsked(asked);
      var chunk := TakeChunkNoWait(start);
      found := chunk.Some?;
      failed := None;
      if found {
        failed := DeliverChunk(start, chunk.value);
      }
    }

    // Neither a chunk nor the outcome is there: the idle window is checked, then the thread waits.
    method AwaitChunk(ghost start: Pipe, timeout: Option<int>, idle: Option<int>)
      returns (result: Result, next: Option<int>)
      requires Inv(View()) && Keeps(start, View()) && !stop && Unasked(View()) && hand.None? && got.None?
      requires lastReturn <= clock && (idle.Some? ==> lastReturn <= idle.value)
      requires Calm(None)
      modifies this
      ensures Inv(View()) && Keeps(start, View()) && Outcomes(result, timeout)
      ensures result.StillWaiting? ==> hand.None? && got.None?
      ensures result.StillWaiting? ==> lastReturn <= clock && (next.Some? ==> lastReturn <= next.value)
      ensures Calm(Some(result))
      ensures timeout.Some? && idle.Some? && old(clock) - idle.value >= timeout.value ==> !result.StillWaiting?
      ensures Heeded(Some(result), old(asked)) && asked - old(asked) >= |delivered| - |old(delivered)|
    {
      hide Inv, Keeps, AllClear, NoneRaised;
      Interfere(Caller, start);
      next := if idle.None? then Some(clock) else idle;
      if timeout.Some? && timeout.value - (clock - next.value) <= 0 {
        var failed := RaiseIfCancelled(start);
        if failed.Some? {
          return failed.value, next;
        }
        StopAndClose(start);
        return TimedOut, next;
      }
      Interfere(Caller, start);  // the bounded wait for a chunk
      var found, failed := TakeAndDeliver(start);
      return if failed.Some? then failed.value else StillWaiting, if found then None else next;
    }

    // Behind an empty queue: the outcome if it is there, and another wait otherwise.
    method FinishOrWait(ghost start: Pipe, timeout: Option<int>, idle: Option<int>)
      returns (result: Result, next: Option<int>)
      requires Inv(View()) && Keeps(start, View()) && !stop && Unasked(View()) && hand.None? && got.None?
      requires lastReturn <= clock && (idle.Some? ==> lastReturn <= idle.value)
      requires Calm(None)
      modifies this
      ensures Inv(View()) && Keeps(start, View()) && Outcomes(result, timeout)
      ensures result.StillWaiting? ==> hand.None? && got.None?
      ensures result.StillWaiting? ==> lastReturn <= clock && (next.Some? ==> lastReturn <= next.value)
      ensures Calm(Some(result)) && (old(outcome).Some? ==> !result.StillWaiting?)
      ensures Heeded(Some(result), old(asked)) && asked - old(asked) >= |delivered| - |old(delivered)|
    {
      hide Inv, Keeps, AllClear, NoneRaised;
      Interfere(Caller, start);
      var taken := TakeOutcomeNoWait(start);
      if taken.Some? {
        result := DrainAndFinish(start, taken.value);
        return result, None;
      }
      result, next := AwaitChunk(start, timeout, idle);
    }

    // One turn of the consumer loop.
    method Round(ghost start: Pipe, timeout: Option<int>, idle: Option<int>)
      returns (result: Result, next: Option<int>)
      requires Inv(View()) && Keeps(start, View()) && !stop && Unasked(View()) && hand.None? && got.None?
      requires lastReturn <= clock && (idle.Some? ==> lastReturn <= idle.value)
      requires Calm(None)
      modifies this
      ensures Inv(View()) && Keeps(start, View()) && Outcomes(result, timeout)
      ensures result.StillWaiting? ==> hand.None? && got.None?
      ensures result.StillWaiting? ==> lastReturn <= clock && (next.Some? ==> lastReturn <= next.value)
      ensures Calm(Some(result)) && asked > old(asked)
      ensures old(queue) == [] && old(outcome).Some? ==> !result.StillWaiting?
      ensures old(queue) != [] && result.StillWaiting? ==> delivered == old(delivered) + [old(queue)[0]] && next.None?
      ensures Heeded(Some(result), old(asked)) && asked - old(asked) >= |delivered| - |old(delivered)|
    {
      hide Inv, Keeps, AllClear, NoneRaised, Outcomes, Unasked;
      next := None;
      var failed := RaiseIfCancelled(start);
      if failed.Some? {
        RaisedOutcome(failed.value, timeout);
        return failed.value, next;
      }
      ghost var mid := asked;
      var found;
      found, failed := TakeAndDeliver(start);
      HeedJoins(old(asked), mid, failed);
      if found {
        if failed.Some? {
          TimeoutIsFree(failed.value, timeout);
          return failed.value, None;
        }
        StillWaits(timeout);
        return StillWaiting, None;
      }
      mid := asked;
      result, next := FinishOrWait(start, timeout, idle);
      HeedJoins(old(asked), mid, Some(result));
    }

    lemma RaisedOutcome(result: Result, timeout: Option<int>)
      requires result.Cancelled? || result.CheckerRaised?
      requires if result.Cancelled? then stop && closeRequested else !stop && Unasked(View())
      ensures Outcomes(result, timeout)
    {
    }

    lemma StoppedOutcome(result: Result, timeout: Option<int>)
      requires stop && closeRequested && (result.Cancelled? || result.CallbackRaised?)
      ensures Outcomes(result, timeout)
    {
    }

    lemma TimeoutIsFree(result: Result, timeout: Option<int>)
      requires Outcomes(result, None) && !result.TimedOut?
      ensures Outcomes(result, timeout)
    {
    }

    lemma StillWaits(timeout: Option<int>)
      requires !stop && Unasked(View())
      ensures Outcomes(StillWaiting, timeout)
    {
    }

    /** The consumer loop.  A normal return means every chunk of the stream went to the callback, in
        order and once; a producer's error comes out only after all chunks before it.  Any other way
        out has stopped the thread and asked for the close exactly when it is not the cancel checker
        that raised; after a raising checker nothing has.  Time spent in callbacks never counts
        towards the idle timeout. */
    method Consume(timeout: Option<int>, rounds: nat) returns (result: Result)
      requires Inv(View()) && !stop && Unasked(View()) && hand.None? && got.None?
      requires delivered == [] && lastReturn <= clock
      modifies this
      ensures Inv(View()) && Keeps(old(View()), View()) && delivered <= produced
      ensures match result {
                case Returned => delivered == produced && ended == Some(Success)
                case ProducerRaised(error) => delivered == produced && ended == Some(Failure(error))
                case TimedOut => stop && closeRequested && timeout.Some? && clock - lastReturn >= timeout.value
                case StillWaiting => !stop
                case CheckerRaised => !stop && Unasked(View())
                case _ => stop && closeRequested
              }
      ensures Heeded(Some(result), old(asked)) && asked - old(asked) >= |delivered|
      ensures Calm(Some(result)) && (result.StillWaiting? ==> asked - old(asked) >= rounds)
    {
      hide Inv, Keeps, AllClear;
      NothingAsked(asked);
      ghost var start := View();
      KeepsItself(Caller, start);
      var idle: Option<int> := None;
      result := StillWaiting;
      for round := 0 to rounds
        invariant Inv(View()) && Keeps(start, View()) && !stop && Unasked(View()) && hand.None? && got.None?
        invariant lastReturn <= clock && (idle.Some? ==> lastReturn <= idle.value)
        invariant result.StillWaiting?
        invariant Heeded(None, old(asked)) && asked - old(asked) >= |delivered|
        invariant Calm(None) && asked - old(asked) >= round
      {
        ghost var mid := asked;
        result, idle := Round(start, timeout, idle);
        HeedJoins(old(asked), mid, Some(result));
        if !result.StillWaiting? {
          break;
        }
      }
      PrefixNow(View());
    }

    // ------------------------------------------------------------ the daemon thread

    // The thread's own moves, which touch nothing shared.
    ghost method Advance(s: Step)
      requires Inv(View()) && Enabled(View(), s)
      requires s.FactoryReturns? || s.FactoryRaises? || s.Pass? || s.Quit? || s.Yield? || s.Exhaust? || s.StreamRaises?
      modifies this`pc, this`gaveUp, this`produced, this`ended
      ensures View() == Apply(old(View()), s) && Inv(View())
    {
      hide Inv;
      StepInv(View(), s);
      var p := Apply(View(), s);
      pc, gaveUp, produced, ended := p.pc, p.gaveUp, p.produced, p.ended;
    }

    // set_stream: a lock section, then the close that was asked for too early.
    method SetStream()
      requires Inv(View()) && pc.Storing?
      modifies this
      ensures Inv(View()) && pc.Checking? && stream
      ensures produced == old(produced) && gaveUp == old(gaveUp) && ended == old(ended)
    {
      hide Inv, Keeps;
      StepInv(View(), StoreStream);
      stream := true;
      pc := if closeRequested then Handing else Checking;
      if closeRequested {
        KeepsItself(Worker, View());
        Interfere(Worker, View());
        StepInv(View(), HandClose);
        AskForCloseFrom(Checking);
      }
    }

    // request_close as the thread's own step to `next`.
    method AskForCloseFrom(ghost next: Pc)
      modifies this
      ensures View() == RequestClose(old(View())).(pc := next)
    {
      closeRequested := true;
      pc := next;
      if !stream || closeStarted {
        return;
      }
      closeStarted := true;
      closes := closes + 1;
    }

    method TryPutChunk(chunk: Chunk) returns (put: bool)
      requires Inv(View()) && pc == Putting(chunk)
      modifies this
      ensures Inv(View()) && View() == Apply(old(View()), TryPut)
      ensures put <==> pc.Stored?
    {
      hide Inv;
      StepInv(View(), TryPut);
      put := |queue| < size;
      if put {
        queue := queue + [chunk];
        pc := Stored;
      }
    }

    // One look at the stop event: true ends the thread's work.
    method SeesStop() returns (stopped: bool)
      requires Inv(View()) && LooksAtStop(pc)
      modifies this
      ensures Inv(View()) && produced == old(produced) && ended == old(ended) && stream == old(stream)
      ensures stopped ==> pc.Leaving? && gaveUp
      ensures old(stop) ==> stopped
      ensures !stopped ==> pc == NextPc(old(pc)) && gaveUp == old(gaveUp)
    {
      hide Inv, Keeps;
      KeepsItself(Worker, View());
      Interfere(Worker, View());
      stopped := stop;
      if stopped {
        Advance(Quit);
      } else if !View().pc.Putting? {
        Advance(Pass);
      }
    }

    // One chunk: the checks around it and the bounded put, retried while the queue is full.
    method Enqueue(chunk: Chunk, retries: nat) returns (result: PutResult)
      requires Inv(View()) && pc == Holding(chunk)
      modifies this
      ensures Inv(View()) && produced == old(produced) && ended == old(ended) && stream == old(stream)
      ensures match result {
                case Put => pc.Pulling? && gaveUp == old(gaveUp)
                case SawStop => pc.Leaving? && gaveUp
                case StillFull => pc.Putting?
              }
      ensures old(stop) ==> result.SawStop?
    {
      hide Inv, Keeps;
      var stopped := SeesStop();
      if stopped {
        return SawStop;
      }
      for retry := 0 to retries
        invariant Inv(View()) && pc == Putting(chunk) && produced == old(produced) && ended == old(ended)
        invariant stream == old(stream) && gaveUp == old(gaveUp)
      {
        stopped := SeesStop();
        if stopped {
          return SawStop;
        }
        var put := TryPutChunk(chunk);
        if put {
          stopped := SeesStop();
          return if stopped then SawStop else Put;
        }
      }
      return StillFull;
    }

    // The end of the try block and its finally part.
    method ReportAndLeave(end: Outcome)
      requires Inv(View()) && pc == Ended(end)
      modifies this
      ensures Inv(View()) && pc.Done? && produced == old(produced) && ended == old(ended) && stream == old(stream)
      ensures gaveUp || outcome == Some(end) || got == Some(end)
    {
      hide Inv, Keeps;
      EndKnown(View());
      var stopped := SeesStop();
      if !stopped {
        Report(end);
      }
      Leave();
      EndKnown(View());
    }

    method Report(end: Outcome)
      requires Inv(View()) && pc == Reporting(end)
      modifies this
      ensures Inv(View()) && pc.Leaving? && produced == old(produced) && ended == old(ended) && stream == old(stream)
    {
      hide Inv, Keeps;
      KeepsItself(Worker, View());
      Interfere(Worker, View());
      StepInv(View(), Step.Report);
      if outcome.None? {
        outcome := Some(end);
      }
      pc := Leaving;
    }

    method Leave()
      requires Inv(View()) && pc.Leaving?
      modifies this
      ensures Inv(View()) && pc.Done? && produced == old(produced) && ended == old(ended) && stream == old(stream)
      ensures gaveUp == old(gaveUp)
    {
      hide Inv, Keeps;
      KeepsItself(Worker, View());
      Interfere(Worker, View());
      StepInv(View(), FinalClose);
      AskForCloseFrom(Done);
    }

    // The for loop over the stream.
    method Pump(chunks: seq<Chunk>, retries: nat) returns (result: PutResult)
      requires Inv(View()) && pc.Pulling? && produced == [] && !gaveUp && stream
      modifies this
      ensures Inv(View()) && produced <= chunks && stream
      ensures match result {
                case Put => pc.Pulling? && !gaveUp && produced == chunks
                case SawStop => pc.Leaving? && gaveUp
                case StillFull => pc.Putting?
              }
    {
      hide Inv, Keeps;
      for i := 0 to |chunks|
        invariant Inv(View()) && produced == chunks[..i] && stream && pc.Pulling? && !gaveUp
      {
        KeepsItself(Worker, View());
        Interfere(Worker, View());
        Advance(Yield(chunks[i]));
        result := Enqueue(chunks[i], retries);
        if !result.Put? {
          return;
        }
      }
      return Put;
    }

    /** The daemon thread over a stream of the given chunks and end: what it produced is a prefix of
        them, all of them unless it was stopped, and a stream that was made is closed exactly once. */
    method WorkerThread(factoryError: Option<nat>, chunks: seq<Chunk>, end: Outcome, retries: nat)
      requires Inv(View()) && pc.Creating? && produced == [] && !gaveUp
      modifies this
      ensures Inv(View()) && produced <= chunks && (pc.Done? || pc.Putting?)
      ensures pc.Done? && !gaveUp && factoryError.None? ==> produced == chunks && ended == Some(end)
      ensures pc.Done? && !gaveUp && factoryError.Some? ==> produced == [] && ended == Some(Failure(factoryError.value))
      ensures pc.Done? ==> closes == if factoryError.None? then 1 else 0
    {
      hide Inv, Keeps;
      NoStreamYet(View());
      if factoryError.Some? {
        Advance(FactoryRaises(factoryError.value));
        ReportAndLeave(Failure(factoryError.value));
        ClosesAtTheEnd(View());
        return;
      }
      Advance(FactoryReturns);
      SetStream();
      var stopped := SeesStop();
      if !stopped {
        var pumped := Pump(chunks, retries);
        if pumped.StillFull? {
          return;
        }
        stopped := pumped.SawStop?;
      }
      if stopped {
        Leave();
      } else {
        Advance(if end.Success? then Exhaust else StreamRaises(end.error));
        ReportAndLeave(end);
      }
      ClosesAtTheEnd(View());
    }
  }
}
