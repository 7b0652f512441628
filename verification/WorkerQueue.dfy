/**
 The browser worker: callers queue requests for one fixed thread; closing, idle reclaim, timeouts
 and crashes race with it.  `None` in the queue is the close sentinel.

 The steps are the state-lock sections and the single queue or future operations between them.
 */
module WorkerQueue {
  import opened Common

  type Item = nat

  // Where the worker thread is.
  datatype Pc =
    | Starting
    | StartFailed          // the session never came up; the thread is gone
    | Waiting              // about to take from the queue
    | Taken(item: Item)    // taken, the counters not yet updated
    | Serving(item: Item)
    | Answered             // the future is resolved, the busy flag still up
    | Crashed              // a target raised something that is not an Exception
    | Unwinding            // the failure is recorded, the closed flag not yet set
    | Draining
    | Rejecting(item: Item)
    | Stopped

  datatype Worker = Worker(
    queue: seq<Option<Item>>,
    queued: nat,
    busy: bool,
    closed: bool,
    failed: bool,
    published: bool,
    pc: Pc,
    evicted: seq<Item>,    // taken out by an invalidation that has not answered them yet
    accepted: seq<Item>,
    resolved: seq<Item>,
    lost: seq<Item>)

  const NewWorker := Worker([], 0, false, false, false, false, Starting, [], [], [], [])

  datatype Step =
    | Publish                       // the constructor returns
    | Call(item: Item)
    | Close
    | CloseIfIdle(timedOut: bool)
    | MarkFailed
    | Evict                         // the second half of an invalidation
    | RejectEvicted
    | StartOk
    | StartRaises
    | Take
    | Begin
    | Answer
    | Finish
    | Crash
    | RecordCrash
    | Unwind
    | DrainTake
    | DrainReject

  function Jobs(queue: seq<Option<Item>>): seq<Item> {
    if queue == [] then []
    else if queue[0].Some? then [queue[0].value] + Jobs(queue[1..])
    else Jobs(queue[1..])
  }

  predicate IdleNow(w: Worker, timedOut: bool) {
    !w.closed && !w.busy && w.queued == 0 && timedOut
  }

  function Apply(w: Worker, s: Step): Worker {
    match s
    case Publish => w.(published := true)
    case Call(item) =>
      if w.closed || w.failed then w
      else w.(queued := w.queued + 1, queue := w.queue + [Some(item)], accepted := w.accepted + [item])
    case Close => if w.closed then w else w.(closed := true, queue := w.queue + [None])
    case CloseIfIdle(timedOut) =>
      if IdleNow(w, timedOut) then w.(closed := true, queue := w.queue + [None]) else w
    case MarkFailed => w.(failed := true)
    case Evict => w.(closed := true, evicted := w.evicted + Jobs(w.queue), queued := 0, queue := [None])
    case RejectEvicted =>
      if w.evicted == [] then w
      else w.(evicted := w.evicted[1..], resolved := w.resolved + [w.evicted[0]])
    case StartOk => w.(pc := Waiting)
    case StartRaises => w.(failed := true, pc := StartFailed)
    case Take =>
      if w.queue == [] then w
      else w.(queue := w.queue[1..],
              pc := if w.queue[0].Some? then Taken(w.queue[0].value) else Draining,
              closed := w.closed || w.queue[0].None?)
    case Begin =>
      if !w.pc.Taken? then w
      else w.(queued := if w.queued > 0 then w.queued - 1 else 0, busy := true, pc := Serving(w.pc.item))
    case Answer => if !w.pc.Serving? then w else w.(resolved := w.resolved + [w.pc.item], pc := Answered)
    case Finish => w.(busy := false, pc := Waiting)
    case Crash => if !w.pc.Serving? then w else w.(lost := w.lost + [w.pc.item], pc := Crashed)
    case RecordCrash => w.(failed := true, pc := Unwinding)
    case Unwind => w.(closed := true, pc := Draining)
    case DrainTake =>
      if w.queue == [] then w.(pc := Stopped)
      else w.(queue := w.queue[1..],
              pc := if w.queue[0].Some? then Rejecting(w.queue[0].value) else Draining)
    case DrainReject =>
      if !w.pc.Rejecting? then w else w.(resolved := w.resolved + [w.pc.item], pc := Draining)
  }

  predicate Enabled(w: Worker, s: Step) {
    match s
    case Publish => !w.pc.Starting? || w.failed
    case Call(item) => w.published && item !in w.accepted
    case Evict => w.failed
    case StartOk => w.pc.Starting?
    case StartRaises => w.pc.Starting?
    case Take => w.pc.Waiting? && w.queue != []
    case Begin => w.pc.Taken?
    case Answer => w.pc.Serving?
    case Finish => w.pc.Answered?
    case Crash => w.pc.Serving?
    case RecordCrash => w.pc.Crashed?
    case Unwind => w.pc.Unwinding?
    case DrainTake => w.pc.Draining?
    case DrainReject => w.pc.Rejecting?
    case _ => true
  }

  function InHand(pc: Pc): seq<Item> {
    match pc
    case Taken(item) => [item]
    case Serving(item) => [item]
    case Rejecting(item) => [item]
    case _ => []
  }

  predicate OnlyJobs(queue: seq<Option<Item>>) { forall i :: 0 <= i < |queue| ==> queue[i].Some? }

  predicate SentinelsLast(queue: seq<Option<Item>>) {
    forall i, j :: 0 <= i < j < |queue| && queue[i].None? ==> queue[j].None?
  }

  function Times(items: seq<Item>, x: Item): nat { multiset(items)[x] }

  function Places(w: Worker, x: Item): nat {
    Times(Jobs(w.queue), x) + Times(InHand(w.pc), x) + Times(w.evicted, x) + Times(w.resolved, x)
      + Times(w.lost, x)
  }

  /** Every accepted request is in exactly one place. */
  ghost predicate Conserved(w: Worker) {
    forall x :: Times(w.accepted, x) == Places(w, x)
  }

  predicate NoRepeats(items: seq<Item>) {
    forall i, j :: 0 <= i < j < |items| ==> items[i] != items[j]
  }

  predicate Serves(pc: Pc) { pc.Serving? || pc.Answered? || pc.Crashed? || pc.Unwinding? }

  predicate Ended(pc: Pc) { pc.Draining? || pc.Rejecting? || pc.Stopped? }

  // The counters of an open worker are exact.
  predicate OpenInv(w: Worker) {
    !w.closed ==>
      && OnlyJobs(w.queue) && w.evicted == []
      && w.queued == |w.queue| + (if w.pc.Taken? then 1 else 0)
      && (w.busy <==> Serves(w.pc))
      && (w.lost != [] ==> w.pc.Crashed? || w.pc.Unwinding?)
  }

  predicate PhaseInv(w: Worker) {
    && SentinelsLast(w.queue)
    && (w.closed && !Ended(w.pc) && !w.pc.StartFailed? ==> None in w.queue)
    && (Ended(w.pc) ==> w.closed)
    && (w.pc.Stopped? ==> Jobs(w.queue) == [])
    && (w.pc.StartFailed? || w.pc.Unwinding? ==> w.failed)
    && (!w.published || w.pc.StartFailed? || w.pc.Starting? ==> w.accepted == [])
    && (w.published && w.pc.Starting? ==> w.failed)
  }

  ghost predicate Inv(w: Worker) {
    Conserved(w) && OpenInv(w) && PhaseInv(w) && NoRepeats(w.accepted)
  }

  // -------------------------------------------------------------------- one step

  lemma {:induction false} JobsOfSum(a: seq<Option<Item>>, b: seq<Option<Item>>)
    ensures Jobs(a + b) == Jobs(a) + Jobs(b)
  {
    if a == [] {
      assert a + b == b;
    } else {
      assert (a + b)[0] == a[0] && (a + b)[1..] == a[1..] + b;
      JobsOfSum(a[1..], b);
    }
  }

  lemma JobsOfPut(queue: seq<Option<Item>>, entry: Option<Item>)
    ensures Jobs(queue + [entry]) == if entry.Some? then Jobs(queue) + [entry.value] else Jobs(queue)
  {
    JobsOfSum(queue, [entry]);
    assert [entry][1..] == [];
  }

  lemma TimesOfSum(a: seq<Item>, b: seq<Item>, x: Item)
    ensures Times(a + b, x) == Times(a, x) + Times(b, x)
    ensures Times([], x) == 0
  {
  }

  lemma TimesOfPop(items: seq<Item>, x: Item)
    requires items != []
    ensures Times(items, x) == Times([items[0]], x) + Times(items[1..], x)
  {
    assert items == [items[0]] + items[1..];
    TimesOfSum([items[0]], items[1..], x);
  }

  lemma QueueStepConserves(w: Worker, s: Step, x: Item)
    requires Enabled(w, s) && Times(w.accepted, x) == Places(w, x)
    requires s.Call? || s.Close? || s.CloseIfIdle? || s.Evict? || s.Take? || s.DrainTake?
    ensures Times(Apply(w, s).accepted, x) == Places(Apply(w, s), x)
  {
    hide Times;
    TimesOfSum([], [], x);
    match s {
      case Call(item) =>
        JobsOfPut(w.queue, Some(item));
        TimesOfSum(Jobs(w.queue), [item], x);
        TimesOfSum(w.accepted, [item], x);
      case Close => JobsOfPut(w.queue, None);
      case CloseIfIdle(_) => JobsOfPut(w.queue, None);
      case Evict => TimesOfSum(w.evicted, Jobs(w.queue), x);
      case Take => if w.queue[0].Some? { TimesOfPop(Jobs(w.queue), x); }
      case DrainTake => if w.queue != [] && w.queue[0].Some? { TimesOfPop(Jobs(w.queue), x); }
    }
  }

  lemma ThreadStepConserves(w: Worker, s: Step, x: Item)
    requires Enabled(w, s) && Times(w.accepted, x) == Places(w, x)
    requires !s.Call? && !s.Close? && !s.CloseIfIdle? && !s.Evict? && !s.Take? && !s.DrainTake?
    ensures Times(Apply(w, s).accepted, x) == Places(Apply(w, s), x)
  {
    hide Times;
    TimesOfSum([], [], x);
    match s {
      case RejectEvicted =>
        if w.evicted != [] {
          TimesOfPop(w.evicted, x);
          TimesOfSum(w.resolved, [w.evicted[0]], x);
        }
      case Answer => TimesOfSum(w.resolved, [w.pc.item], x);
      case DrainReject => TimesOfSum(w.resolved, [w.pc.item], x);
      case Crash => TimesOfSum(w.lost, [w.pc.item], x);
      case _ =>
    }
  }

  lemma StepConserves(w: Worker, s: Step)
    requires Conserved(w) && Enabled(w, s)
    ensures Conserved(Apply(w, s))
  {
    hide Times, Places, Enabled, Apply;
    forall x
      ensures Times(Apply(w, s).accepted, x) == Places(Apply(w, s), x)
    {
      if s.Call? || s.Close? || s.CloseIfIdle? || s.Evict? || s.Take? || s.DrainTake? {
        QueueStepConserves(w, s, x);
      } else {
        ThreadStepConserves(w, s, x);
      }
    }
  }

  lemma StepKeepsOpen(w: Worker, s: Step)
    requires OpenInv(w) && PhaseInv(w) && Enabled(w, s)
    ensures OpenInv(Apply(w, s))
  {
  }

  lemma StepKeepsAcceptance(w: Worker, s: Step)
    requires Inv(w) && Enabled(w, s)
    ensures NoRepeats(Apply(w, s).accepted)
  {
    hide Conserved, OpenInv, PhaseInv;
  }

  lemma QueueStepKeepsPhase(w: Worker, s: Step)
    requires OpenInv(w) && PhaseInv(w) && Enabled(w, s)
    requires s.Close? || s.CloseIfIdle? || s.Evict?
    ensures PhaseInv(Apply(w, s))
  {
    var only: seq<Option<Item>> := [None];
    assert only[0] == None;
    assert (w.queue + [None])[|w.queue|] == None;
  }

  lemma EntryStepKeepsPhase(w: Worker, s: Step)
    requires OpenInv(w) && PhaseInv(w) && Enabled(w, s)
    requires s.Call? || s.Take? || s.DrainTake?
    ensures PhaseInv(Apply(w, s))
  {
    if !s.Call? && w.queue != [] {
      assert w.queue == [w.queue[0]] + w.queue[1..];
    }
  }

  lemma ThreadStepKeepsPhase(w: Worker, s: Step)
    requires OpenInv(w) && PhaseInv(w) && Enabled(w, s)
    requires !s.Close? && !s.CloseIfIdle? && !s.Evict? && !s.Call? && !s.Take? && !s.DrainTake?
    ensures PhaseInv(Apply(w, s))
  {
    hide SentinelsLast;
    assert Apply(w, s).queue == w.queue && Apply(w, s).accepted == w.accepted;
  }

  lemma StepKeepsPhase(w: Worker, s: Step)
    requires OpenInv(w) && PhaseInv(w) && Enabled(w, s)
    ensures PhaseInv(Apply(w, s))
  {
    if s.Close? || s.CloseIfIdle? || s.Evict? {
      QueueStepKeepsPhase(w, s);
    } else if s.Call? || s.Take? || s.DrainTake? {
      EntryStepKeepsPhase(w, s);
    } else {
      ThreadStepKeepsPhase(w, s);
    }
  }

  // -------------------------------------------------------------------- whole runs

  function Run(w: Worker, trace: seq<Step>): Worker
    decreases |trace|
  {
    if trace == [] then w else Run(Apply(w, trace[0]), trace[1..])
  }

  predicate Feasible(w: Worker, trace: seq<Step>)
    decreases |trace|
  {
    trace != [] ==> Enabled(w, trace[0]) && Feasible(Apply(w, trace[0]), trace[1..])
  }

  lemma StepInv(w: Worker, s: Step)
    requires Inv(w) && Enabled(w, s)
    ensures Inv(Apply(w, s))
  {
    StepConserves(w, s);
    StepKeepsOpen(w, s);
    StepKeepsPhase(w, s);
    StepKeepsAcceptance(w, s);
  }

  lemma {:induction false} RunInv(w: Worker, trace: seq<Step>)
    requires Inv(w) && Feasible(w, trace)
    ensures Inv(Run(w, trace))
    decreases |trace|
  {
    if trace != [] {
      StepInv(w, trace[0]);
      RunInv(Apply(w, trace[0]), trace[1..]);
    }
  }

  lemma {:induction false} DistinctOnce(items: seq<Item>, x: Item)
    requires NoRepeats(items)
    ensures Times(items, x) == if x in items then 1 else 0
  {
    if items != [] {
      TimesOfPop(items, x);
      DistinctOnce(items[1..], x);
      if x == items[0] {
        assert x !in items[1..];
      }
    }
  }

  /** Under any interleaving of callers, close, idle reclaim, invalidation and the worker thread, a
      request that `call` accepted is in exactly one place, so it is answered at most once. */
  lemma ResolvedAtMostOnce(trace: seq<Step>, x: Item)
    requires Feasible(NewWorker, trace)
    ensures var w := Run(NewWorker, trace);
            Times(Jobs(w.queue), x) + Times(InHand(w.pc), x) + Times(w.evicted, x)
              + Times(w.resolved, x) + Times(w.lost, x) == if x in w.accepted then 1 else 0
  {
    RunInv(NewWorker, trace);
    DistinctOnce(Run(NewWorker, trace).accepted, x);
  }

  ghost predicate SameItems(a: seq<Item>, b: seq<Item>) { forall x :: Times(a, x) == Times(b, x) }

  // No target raised past Exception.
  predicate NoCrash(trace: seq<Step>) { forall i :: 0 <= i < |trace| ==> !trace[i].Crash? }

  lemma StepLoses(w: Worker, s: Step)
    requires Enabled(w, s)
    ensures |Apply(w, s).lost| == |w.lost| + if s.Crash? then 1 else 0
  {
  }

  lemma {:induction false} LostByCrashes(w: Worker, trace: seq<Step>)
    requires Feasible(w, trace)
    ensures |Run(w, trace).lost| >= |w.lost|
    ensures NoCrash(trace) <==> |Run(w, trace).lost| == |w.lost|
    decreases |trace|
  {
    hide Apply, Enabled;
    if trace != [] {
      StepLoses(w, trace[0]);
      LostByCrashes(Apply(w, trace[0]), trace[1..]);
      assert NoCrash(trace) <==> !trace[0].Crash? && NoCrash(trace[1..]);
    }
  }

  /** Once the thread has stopped and every invalidation has answered what it took out, each accepted
      request was answered exactly once - exactly when no target raised past Exception. */
  lemma ResolvedWhenStopped(trace: seq<Step>)
    requires Feasible(NewWorker, trace)
    requires var w := Run(NewWorker, trace); w.pc.Stopped? && w.evicted == []
    ensures var w := Run(NewWorker, trace); SameItems(w.resolved, w.accepted) <==> NoCrash(trace)
  {
    RunInv(NewWorker, trace);
    LostByCrashes(NewWorker, trace);
    var w := Run(NewWorker, trace);
    if w.lost != [] {
      assert Times(w.lost, w.lost[0]) > 0;
      assert Times(w.accepted, w.lost[0]) == Places(w, w.lost[0]);
    }
  }

  lemma PrependStep(w: Worker, s: Step, rest: seq<Step>) returns (trace: seq<Step>)
    requires Enabled(w, s) && Feasible(Apply(w, s), rest)
    ensures Feasible(w, trace) && Run(w, trace) == Run(Apply(w, s), rest)
  {
    hide Enabled, Apply;
    trace := [s] + rest;
    assert trace[0] == s && trace[1..] == rest;
  }

  // One request is being served, and nothing else is there.
  const ServingOne := Worker([], 0, true, false, false, true, Serving(0), [], [0], [], [])

  lemma ServeFirst(rest: seq<Step>) returns (trace: seq<Step>)
    requires Feasible(ServingOne, rest)
    ensures Feasible(NewWorker, trace) && Run(NewWorker, trace) == Run(ServingOne, rest)
  {
    var w1 := Apply(NewWorker, StartOk);
    var w2 := Apply(w1, Publish);
    var w3 := Apply(w2, Call(0));
    var w4 := Apply(w3, Take);
    assert w3.queue == [Some(0)] && w4.queue == [] && Apply(w4, Begin) == ServingOne;
    trace := PrependStep(w4, Begin, rest);
    trace := PrependStep(w3, Take, trace);
    trace := PrependStep(w2, Call(0), trace);
    trace := PrependStep(w1, Publish, trace);
    trace := PrependStep(NewWorker, StartOk, trace);
  }

  lemma CrashAndStop() returns (trace: seq<Step>)
    ensures Feasible(ServingOne, trace)
    ensures var w := Run(ServingOne, trace); w.pc.Stopped? && w.evicted == [] && w.lost == [0]
  {
    var w1 := Apply(ServingOne, Crash);
    var w2 := Apply(w1, RecordCrash);
    var w3 := Apply(w2, Unwind);
    trace := [];
    trace := PrependStep(w3, DrainTake, trace);
    trace := PrependStep(w2, Unwind, trace);
    trace := PrependStep(w1, RecordCrash, trace);
    trace := PrependStep(ServingOne, Crash, trace);
  }

  /** A run whose one accepted request is never answered. */
  lemma CrashLosesARequest() returns (trace: seq<Step>)
    ensures Feasible(NewWorker, trace) && !NoCrash(trace)
    ensures var w := Run(NewWorker, trace); w.pc.Stopped? && w.evicted == [] && !SameItems(w.resolved, w.accepted)
  {
    var rest := CrashAndStop();
    trace := ServeFirst(rest);
    LostByCrashes(NewWorker, trace);
    ResolvedWhenStopped(trace);
  }

  /** Idle reclaim says yes only while no accepted request is unanswered. */
  lemma IdleMeansAnswered(trace: seq<Step>)
    requires Feasible(NewWorker, trace) && IdleNow(Run(NewWorker, trace), true)
    ensures var w := Run(NewWorker, trace); SameItems(w.resolved, w.accepted)
  {
    RunInv(NewWorker, trace);
  }

  /** No request ever waits behind the close sentinel, and an unfinished thread finds the sentinel. */
  lemma JobsBeforeSentinel(trace: seq<Step>)
    requires Feasible(NewWorker, trace)
    ensures var w := Run(NewWorker, trace);
            && SentinelsLast(w.queue)
            && (w.closed && !Ended(w.pc) && !w.pc.StartFailed? ==> None in w.queue)
            && (None in w.queue ==> w.closed)
  {
    RunInv(NewWorker, trace);
  }

  // -------------------------------------------------------------------- what a waiting thread sees

  // The worker thread owns its place, the one invalidation owns what it evicted.
  datatype Role = TheWorker | TheInvalidation | Anyone

  predicate WorkerStep(s: Step) {
    s.StartOk? || s.StartRaises? || s.Take? || s.Begin? || s.Answer? || s.Finish? || s.Crash? || s.RecordCrash?
    || s.Unwind? || s.DrainTake? || s.DrainReject?
  }

  predicate ByOthers(me: Role, s: Step) {
    && (me.TheWorker? ==> !WorkerStep(s))
    && (me.TheInvalidation? ==> !s.Evict? && !s.RejectEvicted?)
  }

  predicate AllByOthers(me: Role, trace: seq<Step>) {
    forall i :: 0 <= i < |trace| ==> ByOthers(me, trace[i])
  }

  predicate KeepsFor(me: Role, a: Worker, b: Worker) {
    && (a.failed ==> b.failed) && (a.closed ==> b.closed) && (a.published ==> b.published)
    && a.accepted <= b.accepted && a.resolved <= b.resolved
    && (a.closed || a.failed ==> b.accepted == a.accepted)
    && (me.TheWorker? ==> b.pc == a.pc && b.lost == a.lost && (a.queue != [] ==> b.queue != []))
    && (me.TheInvalidation? ==> b.evicted == a.evicted)
  }

  lemma StepKeepsFor(me: Role, w: Worker, s: Step)
    requires Enabled(w, s) && ByOthers(me, s)
    ensures KeepsFor(me, w, Apply(w, s))
  {
    hide Jobs;
  }

  lemma {:induction false} RunKeepsFor(me: Role, w: Worker, trace: seq<Step>)
    requires Feasible(w, trace) && AllByOthers(me, trace)
    ensures KeepsFor(me, w, Run(w, trace))
    decreases |trace|
  {
    hide Enabled, Apply, ByOthers;
    if trace != [] {
      StepKeepsFor(me, w, trace[0]);
      RunKeepsFor(me, Apply(w, trace[0]), trace[1..]);
    }
  }

  // Once the thread has stopped, what was accepted is answered, lost, or with the invalidation.
  ghost predicate AllAccounted(w: Worker) {
    forall x :: Times(w.accepted, x) == Times(w.evicted, x) + Times(w.resolved, x) + Times(w.lost, x)
  }

  lemma StoppedAccounts(w: Worker)
    requires Inv(w) && w.pc.Stopped?
    ensures AllAccounted(w) && w.closed
  {
    forall x
      ensures Times(w.accepted, x) == Times(w.evicted, x) + Times(w.resolved, x) + Times(w.lost, x)
    {
      assert Times(w.accepted, x) == Places(w, x);
    }
  }

  // -------------------------------------------------------------------- the worker object

  class BrowserWorker {
    var queue: seq<Option<Item>>
    var queued: nat
    var busy: bool
    var closed: bool
    var failed: bool
    ghost var published: bool
    ghost var pc: Pc
    ghost var evicted: seq<Item>
    ghost var accepted: seq<Item>
    ghost var resolved: seq<Item>
    ghost var lost: seq<Item>
    const crashes: Item -> bool   // which requests' targets raise past Exception

    ghost function View(): Worker
      reads this
    {
      Worker(queue, queued, busy, closed, failed, published, pc, evicted, accepted, resolved, lost)
    }

    constructor (crashes: Item -> bool)
      ensures View() == NewWorker && this.crashes == crashes
    {
      this.crashes := crashes;
      queue, queued, busy, closed, failed := [], 0, false, false, false;
      published, pc, evicted, accepted, resolved, lost := false, Starting, [], [], [], [];
    }

    method Call(item: Item) returns (accepts: bool)
      requires Enabled(View(), Step.Call(item))
      modifies this
      ensures View() == Apply(old(View()), Step.Call(item))
      ensures accepts <==> item in accepted
      ensures accepts <==> !old(closed) && !old(failed)
      ensures queue == if accepts then old(queue) + [Some(item)] else old(queue)
    {
      if closed || failed {
        return false;
      }
      queued := queued + 1;
      queue := queue + [Some(item)];
      accepted := accepted + [item];
      return true;
    }

    method Close()
      modifies this
      ensures View() == Apply(old(View()), Step.Close)
      ensures closed && queue == if old(closed) then old(queue) else old(queue) + [None]
    {
      if !closed {
        closed := true;
        queue := queue + [None];
      }
    }

    method CloseIfIdle(timedOut: bool) returns (idle: bool)
      requires Inv(View())
      modifies this
      ensures View() == Apply(old(View()), Step.CloseIfIdle(timedOut))
      ensures idle ==> SameItems(resolved, accepted)
      ensures idle <==> !old(closed) && !old(busy) && old(queued) == 0 && timedOut
      ensures idle ==> closed && queue == old(queue) + [None]
    {
      if closed || busy || queued != 0 || !timedOut {
        return false;
      }
      closed := true;
      queue := queue + [None];
      return true;
    }

    method MarkFailed() returns (first: bool)
      modifies this
      ensures View() == Apply(old(View()), Step.MarkFailed)
      ensures failed && (first <==> !old(failed))
    {
      first := !failed;
      failed := true;
    }

    // The lock section of an invalidation: empties the queue and leaves one sentinel.
    method Evict() returns (pending: seq<Item>)
      requires Enabled(View(), Step.Evict)
      modifies this
      ensures View() == Apply(old(View()), Step.Evict)
      ensures pending == Jobs(old(queue)) && queue == [None] && closed && queued == 0
    {
      closed := true;
      pending := [];
      while queue != []
        invariant pending + Jobs(queue) == Jobs(old(queue))
        invariant unchanged(`queued, `busy, `failed, `published, `pc, `evicted, `accepted, `resolved, `lost)
        invariant closed
        decreases |queue|
      {
        if queue[0].Some? {
          pending := pending + [queue[0].value];
        }
        queue := queue[1..];
      }
      queued := 0;
      queue := [None];
      evicted := evicted + pending;
    }

    method TakeNext() returns (entry: Option<Item>)
      requires Inv(View()) && pc.Waiting? && queue != []
      modifies this`queue, this`closed, this`pc
      ensures Inv(View()) && View() == Apply(old(View()), Step.Take)
      ensures entry == old(queue)[0] && (if entry.Some? then pc == Taken(entry.value) else pc.Draining?)
    {
      hide Inv;
      StepInv(View(), Step.Take);
      entry := queue[0];
      queue := queue[1..];
      match entry {
        case Some(item) => pc := Taken(item);
        case None => closed, pc := true, Draining;
      }
    }

    method BeginItem()
      requires Inv(View()) && pc.Taken?
      modifies this`queued, this`busy, this`pc
      ensures Inv(View()) && View() == Apply(old(View()), Step.Begin) && pc == Serving(old(pc).item)
    {
      hide Inv;
      StepInv(View(), Step.Begin);
      queued := if queued > 0 then queued - 1 else 0;
      busy := true;
      pc := Serving(pc.item);
    }

    method FinishItem()
      requires Inv(View()) && pc.Answered?
      modifies this`busy, this`pc
      ensures Inv(View()) && View() == Apply(old(View()), Step.Finish) && pc.Waiting?
    {
      hide Inv;
      StepInv(View(), Step.Finish);
      busy := false;
      pc := Waiting;
    }

    method DrainTake() returns (entry: Option<Option<Item>>)
      requires Inv(View()) && pc.Draining?
      modifies this`queue, this`pc
      ensures Inv(View()) && View() == Apply(old(View()), Step.DrainTake)
      ensures entry == if old(queue) == [] then None else Some(old(queue)[0])
      ensures if entry.None? then pc.Stopped? else if entry.value.Some? then pc.Rejecting? else pc.Draining?
    {
      hide Inv;
      StepInv(View(), Step.DrainTake);
      if queue == [] {
        pc := Stopped;
        return None;
      }
      entry := Some(queue[0]);
      queue := queue[1..];
      pc := if entry.value.Some? then Rejecting(entry.value.value) else Draining;
    }

    // ------------------------------------------------------------ whole threads

    // Any run of the other threads.
    method Interfere(ghost me: Role)
      requires Inv(View())
      modifies this
      ensures exists trace ::
                Feasible(old(View()), trace) && AllByOthers(me, trace) && View() == Run(old(View()), trace)
      ensures Inv(View()) && KeepsFor(me, old(View()), View())
    {
      ghost var nothing: seq<Step> := [];
      assert Feasible(View(), nothing) && AllByOthers(me, nothing) && View() == Run(View(), nothing);
      RunKeepsFor(me, View(), nothing);
    }

    // The thread's own moves outside the lock sections: the session is up, a future is resolved, a
    // target breaks the thread.
    ghost method ComeUp()
      requires Inv(View()) && pc.Starting?
      modifies this`pc
      ensures Inv(View()) && View() == Apply(old(View()), Step.StartOk) && pc.Waiting?
    {
      hide Inv;
      StepInv(View(), Step.StartOk);
      pc := Waiting;
    }

    ghost method ResolveServed()
      requires Inv(View()) && pc.Serving?
      modifies this`pc, this`resolved
      ensures Inv(View()) && View() == Apply(old(View()), Step.Answer) && pc.Answered?
    {
      hide Inv;
      StepInv(View(), Step.Answer);
      resolved := resolved + [pc.item];
      pc := Answered;
    }

    ghost method Break()
      requires Inv(View()) && pc.Serving?
      modifies this`pc, this`lost
      ensures Inv(View()) && View() == Apply(old(View()), Step.Crash) && pc.Crashed?
      ensures lost == old(lost) + [old(pc).item]
    {
      hide Inv;
      StepInv(View(), Step.Crash);
      lost := lost + [pc.item];
      pc := Crashed;
    }

    ghost method ResolveRejected()
      requires Inv(View()) && pc.Rejecting?
      modifies this`pc, this`resolved
      ensures Inv(View()) && View() == Apply(old(View()), Step.DrainReject) && pc.Draining?
    {
      hide Inv;
      StepInv(View(), Step.DrainReject);
      resolved := resolved + [pc.item];
      pc := Draining;
    }

    method FailStartup()
      requires Inv(View()) && pc.Starting?
      modifies this
      ensures Inv(View()) && pc.StartFailed? && failed && lost == old(lost)
    {
      hide Inv;
      StepInv(View(), Step.StartRaises);
      failed := true;
      pc := StartFailed;
    }

    // A target raised past Exception: the failure is recorded, then the worker closes.
    method UnwindCrash()
      requires Inv(View()) && pc.Crashed?
      modifies this
      ensures Inv(View()) && pc.Draining? && failed && closed && lost == old(lost)
    {
      hide Inv;
      RecordCrash();
      Interfere(TheWorker);
      StepInv(View(), Step.Unwind);
      closed := true;
      pc := Draining;
    }

    method RecordCrash()
      requires Inv(View()) && pc.Crashed?
      modifies this`failed, this`pc
      ensures Inv(View()) && pc.Unwinding? && failed
    {
      hide Inv;
      StepInv(View(), Step.RecordCrash);
      failed := true;
      pc := Unwinding;
    }

    lemma EndedIsClosed(w: Worker)
      requires Inv(w) && Ended(w.pc)
      ensures w.closed
    {
    }

    /** What the thread does on its way out: everything still queued is rejected. */
    method Drain(rounds: nat) returns (stopped: bool)
      requires Inv(View()) && pc.Draining?
      modifies this
      ensures Inv(View()) && lost == old(lost) && closed && (old(failed) ==> failed)
      ensures if stopped then pc.Stopped? else pc.Draining?
      ensures stopped ==> AllAccounted(View())
    {
      EndedIsClosed(View());
      hide Inv, Apply, AllAccounted;
      stopped := false;
      for round := 0 to rounds
        invariant Inv(View()) && pc.Draining? && lost == old(lost) && closed && (old(failed) ==> failed)
      {
        Interfere(TheWorker);
        var entry := DrainTake();
        if entry.None? {
          StoppedAccounts(View());
          return true;
        }
        if entry.value.Some? {
          Interfere(TheWorker);
          ResolveRejected();
        }
      }
    }

    // One request, from taking it to being free again; the worker may crash on it.
    method ServeOne(item: Item) returns (crashed: bool)
      requires Inv(View()) && pc == Taken(item)
      modifies this
      ensures Inv(View()) && (crashed <==> crashes(item))
      ensures if crashed then pc.Crashed? && lost == old(lost) + [item] else pc.Waiting? && lost == old(lost)
    {
      hide Inv, Apply;
      Interfere(TheWorker);
      BeginItem();
      Interfere(TheWorker);  // the target runs
      crashed := crashes(item);
      if crashed {
        Break();
        return;
      }
      ResolveServed();
      Interfere(TheWorker);
      FinishItem();
    }

    /** The worker thread.  When it has ended it either never came up, or it is closed with every accepted
        request answered or with the invalidation that evicted it - except one whose target raised
        past Exception. */
    method RunThread(starts: bool, rounds: nat) returns (ended: bool, crashed: bool)
      requires Inv(View()) && pc.Starting? && lost == []
      modifies this
      ensures Inv(View())
      ensures if starts then !pc.StartFailed? else ended && pc.StartFailed?
      ensures crashed ==> failed && closed && Ended(pc) && |lost| == 1 && crashes(lost[0])
      ensures ended ==> (pc.StartFailed? && failed) || (pc.Stopped? && closed && AllAccounted(View()))
      ensures !crashed ==> lost == []
    {
      hide Inv, Apply, AllAccounted;
      ended, crashed := false, false;
      Interfere(TheWorker);
      if !starts {
        FailStartup();
        return true, false;
      }
      ComeUp();
      for round := 0 to rounds
        invariant Inv(View()) && pc.Waiting? && lost == [] && !ended && !crashed
      {
        Interfere(TheWorker);
        if queue != [] {
          var entry := TakeNext();
          if entry.None? {
            ended := Drain(rounds);
            return;
          }
          crashed := ServeOne(entry.value);
          if crashed {
            Interfere(TheWorker);
            UnwindCrash();
            ended := Drain(rounds);
            return;
          }
        }
      }
    }

    /** An invalidation: only the first failure evicts, and everything it evicted is rejected. */
    method Invalidate() returns (first: bool)
      requires Inv(View()) && evicted == []
      modifies this
      ensures Inv(View()) && failed
      ensures (first <==> !old(failed)) && (!first ==> View() == old(View()))
      ensures first ==> closed && evicted == [] && old(accepted) <= accepted
    {
      hide Inv;
      StepInv(View(), Step.MarkFailed);
      first := MarkFailed();
      if !first {
        return;
      }
      Interfere(TheInvalidation);
      StepInv(View(), Step.Evict);
      var pending := Evict();
      while pending != []
        invariant Inv(View()) && evicted == pending && failed && closed && old(accepted) <= accepted
        decreases |pending|
      {
        Interfere(TheInvalidation);
        RejectFirst();
        pending := pending[1..];
      }
    }

    ghost method RejectFirst()
      requires Inv(View()) && evicted != []
      modifies this`evicted, this`resolved
      ensures Inv(View()) && View() == Apply(old(View()), Step.RejectEvicted)
    {
      hide Inv;
      StepInv(View(), Step.RejectEvicted);
      resolved := resolved + [evicted[0]];
      evicted := evicted[1..];
    }
  }
}
