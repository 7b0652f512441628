/**
 The CLI controller's deferred release of sessions the user has left: a deque with a membership set,
 one maintenance worker that runs a single task at a time, and fair retry at the tail.

 One step is one controller event, or the worker thread finishing its task in between.
 */
module DeferredRelease {
  import opened Common

  type SessionId = nat

  datatype Task =
    | Cleanup(now: Option<SessionId>, deferred: Option<SessionId>)   // idle_cleanup
    | Resume(target: SessionId, left: Option<SessionId>)
    | Turn(on: Option<SessionId>)                               // every other kind

  datatype Release = Release(session: SessionId, completed: bool, retry: bool)

  datatype TaskResult =
    | CleanupDone(release: Option<Release>)
    | ResumeFailed
    | Resumed(session: SessionId, prior: Option<Release>)
    | TurnDone(reported: Option<SessionId>)

  // The ledger: every deferral is entered once, and once more when it is settled.
  datatype Entry =
    | Deferred(id: SessionId)
    | Released(id: SessionId)
    | BecameCurrent(id: SessionId)
    | Dropped(id: SessionId)

  datatype Controller = Controller(
    queue: seq<SessionId>,
    members: set<SessionId>,
    current: Option<SessionId>,
    running: bool,
    shuttingDown: bool,
    accepting: bool,
    busy: bool,
    tasks: seq<Task>,
    results: seq<TaskResult>,
    log: seq<Entry>)

  const NewController := Controller([], {}, None, false, false, true, false, [], [], [])

  // -------------------------------------------------------------------- the operations on values

  function Without(queue: seq<SessionId>, id: SessionId): seq<SessionId> {
    if queue == [] then []
    else if queue[0] == id then Without(queue[1..], id)
    else [queue[0]] + Without(queue[1..], id)
  }

  function Forget(c: Controller, id: SessionId): Controller {
    c.(queue := Without(c.queue, id), members := c.members - {id})
  }

  predicate Defers(c: Controller, id: SessionId) { c.current != Some(id) && id !in c.members }

  function Defer(c: Controller, id: SessionId): Controller {
    if c.current == Some(id) then Forget(c, id)
    else if id in c.members then c
    else c.(queue := c.queue + [id], members := c.members + {id})
  }

  function Noted(c: Controller, note: bool, entry: Entry): Controller {
    if note then c.(log := c.log + [entry]) else c
  }

  // A release that comes back from maintenance settles a deferral; one from a resume may start one.
  function ApplyRelease(c: Controller, release: Option<Release>, fromResume: bool): Controller {
    if release.None? then c
    else
      var id := release.value.session;
      if c.shuttingDown then
        Noted(Forget(c, id), !fromResume, if release.value.completed then Released(id) else Dropped(id))
      else if c.current == Some(id) then Noted(Forget(c, id), !fromResume, BecameCurrent(id))
      else if release.value.completed then Noted(Forget(c, id), !fromResume, Released(id))
      else if !release.value.retry then Forget(c, id)
      else Noted(Defer(c, id), fromResume && Defers(c, id), Deferred(id))
  }

  function Become(c: Controller, id: SessionId): Controller {
    Noted(Forget(c.(current := Some(id)), id), id in c.members, BecameCurrent(id))
  }

  function Handle(c: Controller, r: TaskResult): Controller {
    match r
    case CleanupDone(release) => ApplyRelease(c, release, false)
    case ResumeFailed => c
    case Resumed(session, prior) => ApplyRelease(Become(c, session), prior, true)
    case TurnDone(session) => if session.None? then c else Become(c, session.value)
  }

  function HandleAll(c: Controller, results: seq<TaskResult>): Controller
    decreases |results|
  {
    if results == [] then c else HandleAll(Handle(c.(running := false), results[0]), results[1..])
  }

  predicate Submits(c: Controller) { !c.shuttingDown && !c.running && c.accepting && !c.busy }

  function Submit(c: Controller, task: Task): Controller {
    if Submits(c) then c.(busy := true, running := true, tasks := c.tasks + [task]) else c
  }

  // What take_next yields and leaves, skipping entries that are no members or are current by now.
  function TakeNext(queue: seq<SessionId>, members: set<SessionId>, current: Option<SessionId>)
    : (Option<SessionId>, seq<SessionId>, set<SessionId>)
  {
    if queue == [] then (None, queue, members)
    else if queue[0] !in members then TakeNext(queue[1..], members, current)
    else if Some(queue[0]) == current then TakeNext(queue[1..], members - {queue[0]}, current)
    else (Some(queue[0]), queue[1..], members - {queue[0]})
  }

  // The tick gets as far as taking from the deque.
  predicate Maintains(c: Controller, ready: bool) { !c.shuttingDown && ready && !c.running }

  function Tick(c: Controller, ready: bool, foreground: bool): Controller {
    if !Maintains(c, ready) then c
    else
      var (deferred, queue, members) := TakeNext(c.queue, c.members, c.current);
      var taken := c.(queue := queue, members := members);
      var idle := if foreground then None else c.current;
      if idle.None? && deferred.None? then taken
      else if Submits(taken) then Submit(taken, Cleanup(c.current, deferred))
      else if deferred.Some? then Defer(taken, deferred.value)
      else taken
  }

  // What the worker thread may answer; an exception inside a cleanup still answers with a retry.
  function Answer(task: Task, completed: bool, fails: bool, created: Option<SessionId>): TaskResult {
    match task
    case Cleanup(now, deferred) =>
      CleanupDone(
        if deferred.None? then None
        else if deferred == now then Some(Release(deferred.value, false, false))
        else Some(Release(deferred.value, completed && !fails, !completed || fails)))
    case Resume(target, left) =>
      if fails then ResumeFailed
      else Resumed(target, if left.Some? && left.value != target then Some(Release(left.value, completed, !completed))
                           else None)
    case Turn(session) => TurnDone(if session.Some? then session else created)
  }

  function DroppedEntries(queue: seq<SessionId>): seq<Entry> {
    seq(|queue|, i requires 0 <= i < |queue| => Dropped(queue[i]))
  }

  // -------------------------------------------------------------------- the machine

  datatype Step =
    | MaintenanceTick(ready: bool, foreground: bool)
    | UserSubmits(task: Task)
    | ResetCurrent
    | DrainResults
    | BeginShutdown
    | StopWorker
    | WorkerRuns(completed: bool, fails: bool, created: Option<SessionId>)

  // Tasks are built from the current session.
  predicate Enabled(c: Controller, s: Step) {
    match s
    case UserSubmits(task) =>
      (match task
       case Cleanup(_, _) => false
       case Resume(_, left) => left == c.current
       case Turn(session) => c.current.Some? ==> session == c.current)
    case ResetCurrent => !c.running
    case WorkerRuns(_, _, _) => c.tasks != []
    case _ => true
  }

  function Apply(c: Controller, s: Step): Controller {
    match s
    case MaintenanceTick(ready, foreground) => Tick(c, ready, foreground)
    case UserSubmits(task) => Submit(c, task)
    case ResetCurrent =>
      if c.current.None? then c else Forget(c.(current := None), c.current.value)
    case DrainResults =>
      HandleAll(c.(results := [], busy := c.busy && c.results == []), c.results)
    case BeginShutdown =>
      if c.shuttingDown then c
      else c.(shuttingDown := true, queue := [], members := {}, log := c.log + DroppedEntries(c.queue))
    case StopWorker => c.(accepting := false)
    case WorkerRuns(completed, fails, created) =>
      if c.tasks == [] then c
      else c.(tasks := c.tasks[1..], results := c.results + [Answer(c.tasks[0], completed, fails, created)])
  }

  predicate NoRepeats(queue: seq<SessionId>) {
    forall i, j :: 0 <= i < j < |queue| ==> queue[i] != queue[j]
  }

  ghost predicate QueueInv(c: Controller) {
    && NoRepeats(c.queue)
    && (forall id :: id in c.members <==> id in c.queue)
    && (c.current.Some? ==> c.current.value !in c.members)
    && (c.shuttingDown ==> c.queue == [])
  }

  // The single flight: what is outstanding was built from the session that still is current.
  predicate FlightInv(c: Controller) {
    && |c.tasks| + |c.results| == (if c.busy then 1 else 0)
    && c.running == c.busy
    && (c.tasks != [] ==> TaskFits(c, c.tasks[0]))
    && (c.results != [] ==> ResultFits(c, c.results[0]))
  }

  predicate TaskFits(c: Controller, t: Task) {
    match t
    case Cleanup(now, deferred) =>
      now == c.current && (deferred.Some? ==> deferred != now && deferred.value !in c.members)
    case Resume(_, left) => left == c.current
    case Turn(_) => true
  }

  predicate ResultFits(c: Controller, r: TaskResult) {
    match r
    case CleanupDone(release) =>
      release.Some? ==>
        && c.current != Some(release.value.session) && release.value.session !in c.members
        && release.value.retry == !release.value.completed
    case Resumed(session, prior) =>
      prior.Some? ==>
        && c.current == Some(prior.value.session) && prior.value.session != session
        && prior.value.retry == !prior.value.completed
    case _ => true
  }

  // The deferred session the outstanding task was submitted with.
  function InFlight(c: Controller): Option<SessionId> {
    if c.tasks != [] && c.tasks[0].Cleanup? then c.tasks[0].deferred
    else if c.results != [] then Carried(c.results[0])
    else None
  }

  function Carried(r: TaskResult): Option<SessionId> {
    if r.CleanupDone? && r.release.Some? then Some(r.release.value.session) else None
  }

  function Pending(c: Controller, id: SessionId): nat {
    (if id in c.members then 1 else 0) + (if InFlight(c) == Some(id) then 1 else 0)
  }

  function Weight(e: Entry, id: SessionId): int {
    if e.id != id then 0 else if e.Deferred? then 1 else -1
  }

  // Deferrals of a session minus their settlements.
  function Open(log: seq<Entry>, id: SessionId): int {
    if log == [] then 0 else Open(log[..|log| - 1], id) + Weight(log[|log| - 1], id)
  }

  ghost predicate Balanced(c: Controller) {
    forall id :: Open(c.log, id) == Pending(c, id)
  }

  ghost predicate Inv(c: Controller) { QueueInv(c) && FlightInv(c) && Balanced(c) }

  // -------------------------------------------------------------------- facts about the deque

  lemma {:induction false} WithoutFacts(queue: seq<SessionId>, id: SessionId)
    ensures id !in Without(queue, id)
    ensures forall x :: x in Without(queue, id) <==> x in queue && x != id
    ensures NoRepeats(queue) ==> NoRepeats(Without(queue, id))
    ensures id !in queue ==> Without(queue, id) == queue
  {
    if queue != [] {
      WithoutFacts(queue[1..], id);
      assert queue == [queue[0]] + queue[1..];
      if NoRepeats(queue) && queue[0] != id {
        assert queue[0] !in queue[1..];
      }
    }
  }

  lemma TakeNextFacts(c: Controller)
    requires QueueInv(c)
    ensures var (deferred, queue, members) := TakeNext(c.queue, c.members, c.current);
            if c.queue == [] then deferred.None? && queue == [] && members == c.members
            else deferred == Some(c.queue[0]) && queue == c.queue[1..] && members == c.members - {c.queue[0]}
  {
    if c.queue != [] {
      assert c.queue[0] in c.members;
    }
  }

  lemma OpenOfNote(log: seq<Entry>, e: Entry, id: SessionId)
    ensures Open(log + [e], id) == Open(log, id) + Weight(e, id)
  {
    assert (log + [e])[..|log|] == log;
  }

  lemma DroppedGrows(log: seq<Entry>, queue: seq<SessionId>, last: SessionId)
    ensures log + DroppedEntries(queue + [last]) == (log + DroppedEntries(queue)) + [Dropped(last)]
  {
    assert DroppedEntries(queue + [last]) == DroppedEntries(queue) + [Dropped(last)];
  }

  lemma {:induction false} OpenOfDropped(log: seq<Entry>, queue: seq<SessionId>, id: SessionId)
    requires NoRepeats(queue)
    ensures Open(log + DroppedEntries(queue), id) == Open(log, id) - (if id in queue then 1 else 0)
    decreases |queue|
  {
    if queue == [] {
      assert log + DroppedEntries(queue) == log;
    } else {
      hide Open, DroppedEntries;
      var front, last := queue[..|queue| - 1], queue[|queue| - 1];
      assert queue == front + [last];
      OpenOfDropped(log, front, id);
      DroppedGrows(log, front, last);
      OpenOfNote(log + DroppedEntries(front), Dropped(last), id);
      assert id in front + [last] <==> id in front || id == last;
      assert last !in front;
    }
  }

  // -------------------------------------------------------------------- one step

  lemma DeferKeeps(c: Controller, id: SessionId)
    requires QueueInv(c) && !c.shuttingDown
    ensures QueueInv(Defer(c, id))
    ensures forall x :: x in Defer(c, id).members <==> x in c.members || (x == id && c.current != Some(id))
  {
    WithoutFacts(c.queue, id);
  }

  // What the ledger says of a session beyond its being queued.
  function Owed(c: Controller, id: SessionId): int { Open(c.log, id) - if id in c.members then 1 else 0 }

  lemma BecomeKeeps(c: Controller, id: SessionId)
    requires QueueInv(c)
    ensures QueueInv(Become(c, id))
    ensures forall x: SessionId :: Owed(Become(c, id), x) == Owed(c, x)
  {
    WithoutFacts(c.queue, id);
    forall x: SessionId ensures Owed(Become(c, id), x) == Owed(c, x) {
      OpenOfNote(c.log, BecameCurrent(id), x);
    }
  }

  lemma SettleKeeps(c: Controller, note: bool, entry: Entry)
    requires QueueInv(c) && entry.id !in c.members && !entry.Deferred?
    ensures var d := Noted(Forget(c, entry.id), note, entry);
            QueueInv(d) && forall x: SessionId :: Owed(d, x) == Owed(c, x) - (if note && x == entry.id then 1 else 0)
  {
    WithoutFacts(c.queue, entry.id);
    assert Forget(c, entry.id) == c;
    hide NoRepeats, Forget;
    var d := Noted(Forget(c, entry.id), note, entry);
    forall x: SessionId
      ensures Owed(d, x) == Owed(c, x) - (if note && x == entry.id then 1 else 0)
    {
      OpenOfNote(c.log, entry, x);
    }
  }

  lemma DeferralKeeps(c: Controller, id: SessionId, fromResume: bool)
    requires QueueInv(c) && !c.shuttingDown && Defers(c, id)
    ensures var d := Noted(Defer(c, id), fromResume, Deferred(id));
            QueueInv(d) && forall x: SessionId :: Owed(d, x) == Owed(c, x) - (if !fromResume && x == id then 1 else 0)
  {
    DeferKeeps(c, id);
    hide NoRepeats;
    var d := Noted(Defer(c, id), fromResume, Deferred(id));
    forall x: SessionId
      ensures Owed(d, x) == Owed(c, x) - (if !fromResume && x == id then 1 else 0)
    {
      OpenOfNote(c.log, Deferred(id), x);
    }
  }

  // A release in hand that carries a deferral settles it or puts it back; one from a resume may
  // open a new one.
  lemma ReleaseKeeps(c: Controller, r: Release, fromResume: bool)
    requires QueueInv(c) && r.session !in c.members && r.retry == !r.completed && c.current != Some(r.session)
    ensures var d := ApplyRelease(c, Some(r), fromResume);
            QueueInv(d) && forall x: SessionId :: Owed(d, x) == Owed(c, x) - (if !fromResume && x == r.session then 1 else 0)
  {
    hide Owed, QueueInv, Noted, Forget, Defer;
    if c.shuttingDown {
      SettleKeeps(c, !fromResume, if r.completed then Released(r.session) else Dropped(r.session));
    } else if r.completed {
      SettleKeeps(c, !fromResume, Released(r.session));
    } else {
      DeferralKeeps(c, r.session, fromResume);
    }
  }

  lemma HandleKeeps(c: Controller, r: TaskResult)
    requires QueueInv(c) && ResultFits(c, r)
    ensures var d := Handle(c, r);
            QueueInv(d) && forall x: SessionId :: Owed(d, x) == Owed(c, x) - (if Carried(r) == Some(x) then 1 else 0)
  {
    hide Owed, Noted;
    match r {
      case CleanupDone(release) => if release.Some? { ReleaseKeeps(c, release.value, false); }
      case ResumeFailed =>
      case Resumed(session, prior) =>
        BecomeKeeps(c, session);
        if prior.Some? {
          BecomeFrees(c, session);
          ReleaseKeeps(Become(c, session), prior.value, true);
        }
      case TurnDone(session) => if session.Some? { BecomeKeeps(c, session.value); }
    }
  }

  lemma BecomeFrees(c: Controller, id: SessionId)
    ensures Become(c, id).members <= c.members && Become(c, id).current == Some(id)
  {
  }

  // Results change nothing of the flight itself.
  predicate SameFlight(c: Controller, d: Controller) {
    && d.tasks == c.tasks && d.results == c.results && d.busy == c.busy && d.running == c.running
    && d.accepting == c.accepting && d.shuttingDown == c.shuttingDown
  }

  lemma ReleaseFrame(c: Controller, release: Option<Release>, fromResume: bool)
    ensures SameFlight(c, ApplyRelease(c, release, fromResume))
  {
    hide Without;
  }

  lemma HandleFrame(c: Controller, r: TaskResult)
    ensures SameFlight(c, Handle(c, r))
  {
    hide Without, ApplyRelease;
    match r {
      case CleanupDone(release) => ReleaseFrame(c, release, false);
      case Resumed(session, prior) => ReleaseFrame(Become(c, session), prior, true);
      case _ =>
    }
  }

  lemma SameFits(c: Controller, d: Controller, r: TaskResult)
    requires c.members == d.members && c.current == d.current
    ensures ResultFits(c, r) <==> ResultFits(d, r)
  {
  }

  lemma DrainKeeps(c: Controller)
    requires Inv(c)
    ensures Inv(Apply(c, DrainResults))
  {
    hide Open, Handle, ResultFits;
    if c.results != [] {
      var a := c.(results := [], busy := false, running := false);
      assert QueueInv(a);
      hide QueueInv;
      var d := Handle(a, c.results[0]);
      assert c.results[1..] == [] && HandleAll(d, []) == d;
      SameFits(c, a, c.results[0]);
      HandleKeeps(a, c.results[0]);
      HandleFrame(a, c.results[0]);
    }
  }

  lemma TickKeeps(c: Controller, ready: bool, foreground: bool)
    requires Inv(c)
    ensures Inv(Tick(c, ready, foreground))
  {
    hide Open;
    TakeNextFacts(c);
    if Maintains(c, ready) && c.queue != [] {
      var head := c.queue[0];
      assert c.queue == [head] + c.queue[1..];
      assert head in c.members && head !in c.queue[1..];
      forall id ensures id in c.members - {head} <==> id in c.queue[1..] {
        assert id in c.queue <==> id == head || id in c.queue[1..];
      }
    }
  }

  lemma AnswerKeeps(c: Controller, completed: bool, fails: bool, created: Option<SessionId>)
    requires Inv(c) && c.tasks != []
    ensures Inv(Apply(c, WorkerRuns(completed, fails, created)))
  {
    hide Open, NoRepeats;
    assert |c.tasks| == 1 && c.results == [];
    var d := Apply(c, WorkerRuns(completed, fails, created));
    assert d.tasks == [] && d.results == [Answer(c.tasks[0], completed, fails, created)];
  }

  lemma ShutdownKeeps(c: Controller)
    requires Inv(c)
    ensures Inv(Apply(c, BeginShutdown))
  {
    var d := Apply(c, BeginShutdown);
    if !c.shuttingDown {
      forall id ensures Open(d.log, id) == Pending(d, id) {
        OpenOfDropped(c.log, c.queue, id);
      }
    }
  }

  lemma ResetKeeps(c: Controller)
    requires Inv(c) && !c.running
    ensures Inv(Apply(c, ResetCurrent))
  {
    hide Open;
    if c.current.Some? {
      WithoutFacts(c.queue, c.current.value);
    }
  }

  lemma StepInv(c: Controller, s: Step)
    requires Inv(c) && Enabled(c, s)
    ensures Inv(Apply(c, s))
  {
    match s {
      case MaintenanceTick(ready, foreground) => TickKeeps(c, ready, foreground);
      case UserSubmits(_) => hide Open;
      case ResetCurrent => ResetKeeps(c);
      case DrainResults => DrainKeeps(c);
      case BeginShutdown => ShutdownKeeps(c);
      case StopWorker => hide Open;
      case WorkerRuns(completed, fails, created) => AnswerKeeps(c, completed, fails, created);
    }
  }

  // -------------------------------------------------------------------- whole runs

  predicate Feasible(c: Controller, trace: seq<Step>)
    decreases |trace|
  {
    trace != [] ==> Enabled(c, trace[0]) && Feasible(Apply(c, trace[0]), trace[1..])
  }

  function Run(c: Controller, trace: seq<Step>): Controller
    decreases |trace|
  {
    if trace == [] then c else Run(Apply(c, trace[0]), trace[1..])
  }

  lemma {:induction false} RunInv(c: Controller, trace: seq<Step>)
    requires Inv(c) && Feasible(c, trace)
    ensures Inv(Run(c, trace))
    decreases |trace|
  {
    hide Inv, Apply, Enabled;
    if trace != [] {
      StepInv(c, trace[0]);
      RunInv(Apply(c, trace[0]), trace[1..]);
    }
  }

  lemma NewControllerInv()
    ensures Inv(NewController)
  {
  }

  /** The deque lists each member of the set once, never the current session, and nothing once
      shutdown began. */
  lemma DequeMatchesSet(trace: seq<Step>)
    requires Feasible(NewController, trace)
    ensures var c := Run(NewController, trace);
            && NoRepeats(c.queue) && (forall id :: id in c.members <==> id in c.queue)
            && (c.current.Some? ==> c.current.value !in c.queue)
            && (c.shuttingDown ==> c.queue == [])
  {
    NewControllerInv();
    RunInv(NewController, trace);
  }

  /** Never two worker tasks at once, counting results nobody has read; both busy flags say so. */
  lemma SingleFlight(trace: seq<Step>)
    requires Feasible(NewController, trace)
    ensures var c := Run(NewController, trace);
            && |c.tasks| + |c.results| <= 1
            && (c.running <==> |c.tasks| + |c.results| == 1) && (c.busy <==> c.running)
  {
    NewControllerInv();
    RunInv(NewController, trace);
  }

  /** A deferral is open exactly while its session is queued or in flight - never both - and every
      other deferral was settled once: released, become current, or dropped at shutdown. */
  lemma EachDeferralSettledOnce(trace: seq<Step>, id: SessionId)
    requires Feasible(NewController, trace)
    ensures var c := Run(NewController, trace);
            && Open(c.log, id) == (if id in c.queue then 1 else 0) + (if InFlight(c) == Some(id) then 1 else 0)
            && 0 <= Open(c.log, id) <= 1
  {
    NewControllerInv();
    RunInv(NewController, trace);
    var c := Run(NewController, trace);
    assert Open(c.log, id) == Pending(c, id);
    if InFlight(c) == Some(id) {
      assert id !in c.members;
    }
  }

  /** No result the controller receives makes it forget a session that was neither released nor
      current: the give-up answer never arrives. */
  lemma NoGiveUpArrives(trace: seq<Step>)
    requires Feasible(NewController, trace)
    ensures var c := Run(NewController, trace);
            c.results != [] && c.results[0].CleanupDone? && c.results[0].release.Some? ==>
              && c.results[0].release.value.retry == !c.results[0].release.value.completed
              && c.current != Some(c.results[0].release.value.session)
  {
    NewControllerInv();
    RunInv(NewController, trace);
  }

  // -------------------------------------------------------------------- what the worker's answer decides

  function Entered(log: seq<Entry>, e: Entry): nat {
    if log == [] then 0 else Entered(log[..|log| - 1], e) + if log[|log| - 1] == e then 1 else 0
  }

  lemma EnteredGrows(log: seq<Entry>, last: Entry, e: Entry)
    ensures Entered(log + [last], e) == Entered(log, e) + if last == e then 1 else 0
  {
    assert (log + [last])[..|log|] == log;
  }

  // The worker gets done with a deferred session in this step.
  predicate Completes(c: Controller, s: Step, id: SessionId) {
    && s.WorkerRuns? && s.completed && !s.fails
    && c.tasks != [] && c.tasks[0].Cleanup? && c.tasks[0].deferred == Some(id)
  }

  function Completions(c: Controller, trace: seq<Step>, id: SessionId): nat
    decreases |trace|
  {
    if trace == [] then 0
    else (if Completes(c, trace[0], id) then 1 else 0) + Completions(Apply(c, trace[0]), trace[1..], id)
  }

  // A completed answer nobody has read.
  function Unread(c: Controller, id: SessionId): nat {
    if c.results != [] && Carried(c.results[0]) == Some(id) && c.results[0].release.value.completed then 1 else 0
  }

  lemma {:induction false} NoneReleased(log: seq<Entry>, queue: seq<SessionId>, id: SessionId)
    ensures Entered(log + DroppedEntries(queue), Released(id)) == Entered(log, Released(id))
    decreases |queue|
  {
    if queue == [] {
      assert log + DroppedEntries(queue) == log;
    } else {
      hide Entered, DroppedEntries;
      var front, last := queue[..|queue| - 1], queue[|queue| - 1];
      assert queue == front + [last];
      NoneReleased(log, front, id);
      DroppedGrows(log, front, last);
      EnteredGrows(log + DroppedEntries(front), Dropped(last), Released(id));
    }
  }

  lemma NoteEnters(c: Controller, note: bool, entry: Entry, id: SessionId)
    ensures Entered(Noted(c, note, entry).log, Released(id))
         == Entered(c.log, Released(id)) + if note && entry == Released(id) then 1 else 0
  {
    hide Entered;
    EnteredGrows(c.log, entry, Released(id));
  }

  lemma ReleaseEnters(c: Controller, release: Option<Release>, fromResume: bool, id: SessionId)
    requires release.Some? ==> c.current != Some(release.value.session)
    ensures Entered(ApplyRelease(c, release, fromResume).log, Released(id))
         == Entered(c.log, Released(id))
            + if release.Some? && !fromResume && release.value.completed && release.value.session == id then 1 else 0
  {
    hide Entered, Noted;
    if release.Some? {
      var r := release.value;
      var forgotten := Forget(c, r.session);
      NoteEnters(forgotten, !fromResume, Released(r.session), id);
      NoteEnters(forgotten, !fromResume, Dropped(r.session), id);
      NoteEnters(Defer(c, r.session), fromResume && Defers(c, r.session), Deferred(r.session), id);
    }
  }

  lemma HandleEnters(c: Controller, r: TaskResult, id: SessionId)
    requires ResultFits(c, r)
    ensures Entered(Handle(c, r).log, Released(id))
         == Entered(c.log, Released(id))
            + if Carried(r) == Some(id) && r.release.value.completed then 1 else 0
  {
    hide Entered, Noted, ApplyRelease;
    match r {
      case CleanupDone(release) => ReleaseEnters(c, release, false, id);
      case ResumeFailed =>
      case Resumed(session, prior) =>
        BecomeEnters(c, session, id);
        BecomeFrees(c, session);
        ReleaseEnters(Become(c, session), prior, true, id);
      case TurnDone(session) =>
        if session.Some? {
          BecomeEnters(c, session.value, id);
        }
    }
  }

  lemma BecomeEnters(c: Controller, session: SessionId, id: SessionId)
    ensures Entered(Become(c, session).log, Released(id)) == Entered(c.log, Released(id))
  {
    hide Entered, Noted;
    NoteEnters(Forget(c.(current := Some(session)), session), session in c.members, BecameCurrent(session), id);
  }

  lemma DrainEnters(c: Controller, id: SessionId)
    requires Inv(c)
    ensures Entered(Apply(c, DrainResults).log, Released(id)) == Entered(c.log, Released(id)) + Unread(c, id)
    ensures Apply(c, DrainResults).results == []
  {
    hide Entered, Handle, ResultFits;
    if c.results != [] {
      var a := c.(results := [], busy := false, running := false);
      var d := Handle(a, c.results[0]);
      assert c.results[1..] == [] && HandleAll(d, []) == d;
      SameFits(c, a, c.results[0]);
      HandleEnters(a, c.results[0], id);
      HandleFrame(a, c.results[0]);
    }
  }

  lemma TickEnters(c: Controller, ready: bool, foreground: bool)
    requires Inv(c)
    ensures Tick(c, ready, foreground).log == c.log && Tick(c, ready, foreground).results == c.results
  {
    hide Without, TakeNext;
  }

  lemma StepEnters(c: Controller, s: Step, id: SessionId)
    requires Inv(c) && Enabled(c, s)
    ensures Entered(Apply(c, s).log, Released(id)) + Unread(Apply(c, s), id)
         == Entered(c.log, Released(id)) + Unread(c, id) + if Completes(c, s, id) then 1 else 0
  {
    hide Entered, Balanced, QueueInv;
    match s {
      case MaintenanceTick(ready, foreground) => TickEnters(c, ready, foreground);
      case DrainResults => DrainEnters(c, id);
      case BeginShutdown => NoneReleased(c.log, c.queue, id);
      case WorkerRuns(completed, fails, created) =>
        assert |c.tasks| == 1 && c.results == [];
        assert Apply(c, s).results == [Answer(c.tasks[0], completed, fails, created)];
      case _ =>
    }
  }

  lemma {:induction false} ReleasesFollow(c: Controller, trace: seq<Step>, id: SessionId)
    requires Inv(c) && Feasible(c, trace)
    ensures var d := Run(c, trace);
            Entered(d.log, Released(id)) + Unread(d, id)
              == Entered(c.log, Released(id)) + Unread(c, id) + Completions(c, trace, id)
    decreases |trace|
  {
    hide Inv, Apply, Enabled, Entered, Unread, Completes;
    if trace != [] {
      StepInv(c, trace[0]);
      StepEnters(c, trace[0], id);
      ReleasesFollow(Apply(c, trace[0]), trace[1..], id);
    }
  }

  /** Nothing counts as released that the worker did not get done with: the ledger has one entry for
      every completed cleanup of the session whose answer was read, and no other. */
  lemma ReleasedExactlyWhenCompleted(trace: seq<Step>, id: SessionId)
    requires Feasible(NewController, trace)
    ensures var c := Run(NewController, trace);
            Entered(c.log, Released(id)) + Unread(c, id) == Completions(NewController, trace, id)
  {
    hide Inv, Run, Feasible, Completions;
    NewControllerInv();
    ReleasesFollow(NewController, trace, id);
  }

  predicate Undrained(trace: seq<Step>) { forall k :: 0 <= k < |trace| ==> !trace[k].DrainResults? }

  // While an answer lies unread, nothing happens but shutdown.
  lemma {:induction false} AnswerLies(c: Controller, trace: seq<Step>)
    requires Inv(c) && c.results != [] && Feasible(c, trace) && Undrained(trace)
    ensures var e := Run(c, trace);
            && Inv(e) && e.results == c.results && e.current == c.current
            && e.queue == (if e.shuttingDown then [] else c.queue)
            && (c.shuttingDown ==> e.shuttingDown)
    decreases |trace|
  {
    if trace != [] {
      hide QueueInv, Balanced;
      StepInv(c, trace[0]);
      StepLeavesAnswer(c, trace[0]);
      AnswerLies(Apply(c, trace[0]), trace[1..]);
    }
    assert QueueInv(c);
  }

  lemma StepLeavesAnswer(c: Controller, s: Step)
    requires Inv(c) && c.results != [] && Enabled(c, s) && !s.DrainResults?
    ensures var d := Apply(c, s);
            && d.results == c.results && d.current == c.current
            && d.queue == (if d.shuttingDown then [] else c.queue)
            && (c.shuttingDown ==> d.shuttingDown)
  {
    assert c.running && c.tasks == [];
  }

  lemma DrainHandles(c: Controller)
    requires Inv(c) && c.results != []
    ensures Apply(c, DrainResults) == Handle(c.(results := [], busy := false, running := false), c.results[0])
  {
    hide Handle;
    var d := Handle(c.(results := [], busy := false, running := false), c.results[0]);
    assert |c.results| == 1 && c.results[1..] == [] && HandleAll(d, []) == d;
  }

  /** The answer to a cleanup decides: whatever happens until it is read, a completed one releases the
      deferred session for good, any other puts it back at the tail - or drops it if shutdown began. */
  lemma CleanupAnswerDecides(c: Controller, answer: Step, later: seq<Step>, id: SessionId)
    requires Inv(c) && c.tasks != [] && c.tasks[0].Cleanup? && c.tasks[0].deferred == Some(id) && answer.WorkerRuns?
    requires Feasible(Apply(c, answer), later) && Undrained(later)
    ensures var e := Run(Apply(c, answer), later);
            var d := Apply(e, DrainResults);
            if answer.completed && !answer.fails then d.log == e.log + [Released(id)] && id !in d.queue
            else if e.shuttingDown then d.log == e.log + [Dropped(id)] && id !in d.queue
            else d.log == e.log && d.queue == c.queue + [id]
  {
    var a := Apply(c, answer);
    assert |c.tasks| == 1 && a.queue == c.queue;
    assert a.results == [Answer(c.tasks[0], answer.completed, answer.fails, answer.created)];
    StepInv(c, answer);
    AnswerLies(a, later);
    var e := Run(a, later);
    hide Run, Feasible, Balanced;
    assert ResultFits(e, e.results[0]);
    DrainHandles(e);
    WithoutFacts(e.queue, id);
  }

  lemma ResumedSays(c: Controller, target: SessionId, prior: Option<Release>)
    requires QueueInv(c) && ResultFits(c, Resumed(target, prior))
    ensures var d := Handle(c, Resumed(target, prior));
            var waits := prior.Some? && !prior.value.completed && !c.shuttingDown;
            && d.current == Some(target)
            && (waits ==> d.queue != [] && d.queue[|d.queue| - 1] == prior.value.session)
            && forall x :: x in d.queue <==> (x in c.queue && x != target) || (waits && x == prior.value.session)
  {
    hide NoRepeats, Without;
    WithoutFacts(c.queue, target);
    if prior.Some? {
      WithoutFacts(Without(c.queue, target), prior.value.session);
    }
  }

  /** The answer to a resume decides: a failed one changes nothing, any other makes the target the
      current session, and the session left waits at the tail exactly when it could not be
      released and shutdown has not begun. */
  lemma ResumeAnswerDecides(c: Controller, answer: Step, later: seq<Step>)
    requires Inv(c) && c.tasks != [] && c.tasks[0].Resume? && answer.WorkerRuns?
    requires Feasible(Apply(c, answer), later) && Undrained(later)
    ensures var (target, left) := (c.tasks[0].target, c.tasks[0].left);
            var e := Run(Apply(c, answer), later);
            var d := Apply(e, DrainResults);
            if answer.fails then d.queue == e.queue && d.log == e.log && d.current == c.current
            else
              && d.current == Some(target) && target !in d.queue
              && (left.Some? && left.value != target && !answer.completed && !e.shuttingDown ==>
                    d.queue != [] && d.queue[|d.queue| - 1] == left.value)
              && (forall x :: x in d.queue <==>
                    || (x in e.queue && x != target)
                    || (Some(x) == left && x != target && !answer.completed && !e.shuttingDown))
  {
    var a := Apply(c, answer);
    assert |c.tasks| == 1 && a.queue == c.queue;
    assert a.results == [Answer(c.tasks[0], answer.completed, answer.fails, answer.created)];
    StepInv(c, answer);
    AnswerLies(a, later);
    var e := Run(a, later);
    hide Run, Feasible, Balanced;
    assert ResultFits(e, e.results[0]);
    DrainHandles(e);
    hide Handle;
    var f := e.(results := [], busy := false, running := false);
    if answer.fails {
      FailedResumeSays(f);
    } else {
      SameFits(e, f, e.results[0]);
      ResumedSays(f, e.results[0].session, e.results[0].prior);
    }
  }

  lemma FailedResumeSays(c: Controller)
    ensures Handle(c, ResumeFailed) == c
  {
  }

  /** The answer to any other task decides who is current: its session, else one it created. */
  lemma TurnAnswerDecides(c: Controller, answer: Step, later: seq<Step>)
    requires Inv(c) && c.tasks != [] && c.tasks[0].Turn? && answer.WorkerRuns?
    requires Feasible(Apply(c, answer), later) && Undrained(later)
    ensures var on := if c.tasks[0].on.Some? then c.tasks[0].on else answer.created;
            var e := Run(Apply(c, answer), later);
            var d := Apply(e, DrainResults);
            && d.current == (if on.Some? then on else c.current)
            && forall x :: x in d.queue <==> x in e.queue && Some(x) != on
  {
    var a := Apply(c, answer);
    assert |c.tasks| == 1 && a.queue == c.queue;
    assert a.results == [Answer(c.tasks[0], answer.completed, answer.fails, answer.created)];
    StepInv(c, answer);
    AnswerLies(a, later);
    var e := Run(a, later);
    hide Run, Feasible, Balanced;
    DrainHandles(e);
    if a.results[0].reported.Some? {
      WithoutFacts(e.queue, a.results[0].reported.value);
    }
  }

  /** A tick that gets to the deque hands its first session to the worker, and back to the tail if
      the worker takes no more; with an empty deque it only looks after an idle current session. */
  lemma TickTakesTheFirst(c: Controller, ready: bool, foreground: bool)
    requires Inv(c) && Maintains(c, ready)
    ensures var d := Tick(c, ready, foreground);
            if c.queue == [] then
              && d.queue == []
              && d.tasks == (if c.accepting && c.current.Some? && !foreground then [Cleanup(c.current, None)] else [])
            else
              && d.queue == (if c.accepting then c.queue[1..] else c.queue[1..] + [c.queue[0]])
              && d.tasks == (if c.accepting then [Cleanup(c.current, Some(c.queue[0]))] else [])
  {
    hide Balanced;
    TakeNextFacts(c);
    assert c.queue != [] ==> c.queue[0] in c.members;
  }

  /** A task of the user goes to the worker exactly when nothing is outstanding, shutdown has not begun and the
      worker takes tasks. */
  lemma UserTaskIsTaken(c: Controller, task: Task)
    requires Inv(c)
    ensures var d := Apply(c, UserSubmits(task));
            if !c.running && !c.shuttingDown && c.accepting then d.tasks == [task] && d.running
            else d == c
  {
  }

  /** A worker told to stop is given no task any more. */
  lemma {:induction false} StoppedTakesNothing(c: Controller, trace: seq<Step>)
    requires Feasible(Apply(c, StopWorker), trace)
    ensures var d := Run(Apply(c, StopWorker), trace); |d.tasks| <= |c.tasks|
  {
    NoTasksAdded(Apply(c, StopWorker), trace);
  }

  lemma {:induction false} NoTasksAdded(c: Controller, trace: seq<Step>)
    requires !c.accepting && Feasible(c, trace)
    ensures |Run(c, trace).tasks| <= |c.tasks|
    decreases |trace|
  {
    if trace != [] {
      NoTaskAdded(c, trace[0]);
      NoTasksAdded(Apply(c, trace[0]), trace[1..]);
    }
  }

  lemma NoTaskAdded(c: Controller, s: Step)
    requires !c.accepting
    ensures !Apply(c, s).accepting && |Apply(c, s).tasks| <= |c.tasks|
  {
    hide Handle, Without, TakeNext;
    if s.DrainResults? {
      AllFrame(c.(results := [], busy := c.busy && c.results == []), c.results);
    }
  }

  lemma {:induction false} AllFrame(c: Controller, results: seq<TaskResult>)
    ensures HandleAll(c, results).tasks == c.tasks && HandleAll(c, results).accepting == c.accepting
    decreases |results|
  {
    if results != [] {
      HandleFrame(c.(running := false), results[0]);
      AllFrame(Handle(c.(running := false), results[0]), results[1..]);
    }
  }

  // -------------------------------------------------------------------- fairness

  // The maintenance takes of a run, and whether a session waits in the deque all through it.
  function Takes(c: Controller, trace: seq<Step>): nat
    decreases |trace|
  {
    if trace == [] then 0
    else
      (if trace[0].MaintenanceTick? && Maintains(c, trace[0].ready) then 1 else 0)
        + Takes(Apply(c, trace[0]), trace[1..])
  }

  predicate Waits(c: Controller, trace: seq<Step>, id: SessionId)
    decreases |trace|
  {
    id in c.queue && !TakenBy(c, trace, id) && (trace != [] ==> Waits(Apply(c, trace[0]), trace[1..], id))
  }

  // The next step takes this very session, even if it goes back to the tail at once.
  predicate TakenBy(c: Controller, trace: seq<Step>, id: SessionId) {
    trace != [] && trace[0].MaintenanceTick? && Maintains(c, trace[0].ready) && c.queue != [] && c.queue[0] == id
  }

  function Position(queue: seq<SessionId>, id: SessionId): nat
    requires id in queue
    ensures Position(queue, id) < |queue| && queue[Position(queue, id)] == id
  {
    if queue[0] == id then 0 else 1 + Position(queue[1..], id)
  }

  lemma {:induction false} PositionInWithout(queue: seq<SessionId>, other: SessionId, id: SessionId)
    requires id in queue && id != other
    ensures id in Without(queue, other) && Position(Without(queue, other), id) <= Position(queue, id)
  {
    WithoutFacts(queue, other);
    if queue[0] != id {
      PositionInWithout(queue[1..], other, id);
    }
  }

  lemma {:induction false} PositionInSum(queue: seq<SessionId>, more: seq<SessionId>, id: SessionId)
    requires id in queue
    ensures id in queue + more && Position(queue + more, id) == Position(queue, id)
  {
    assert (queue + more)[0] == queue[0];
    if queue[0] != id {
      assert (queue + more)[1..] == queue[1..] + more;
      PositionInSum(queue[1..], more, id);
    }
  }

  lemma ForgetMovesUp(c: Controller, other: SessionId, id: SessionId)
    requires id in c.queue && id in Forget(c, other).queue
    ensures id != other && Position(Forget(c, other).queue, id) <= Position(c.queue, id)
  {
    WithoutFacts(c.queue, other);
    PositionInWithout(c.queue, other, id);
  }

  lemma DeferMovesUp(c: Controller, other: SessionId, id: SessionId)
    requires id in c.queue && id in Defer(c, other).queue
    ensures Position(Defer(c, other).queue, id) <= Position(c.queue, id)
  {
    if c.current == Some(other) {
      ForgetMovesUp(c, other, id);
    } else if other !in c.members {
      PositionInSum(c.queue, [other], id);
    }
  }

  lemma ReleaseMovesUp(c: Controller, release: Option<Release>, fromResume: bool, id: SessionId)
    requires id in c.queue && id in ApplyRelease(c, release, fromResume).queue
    ensures Position(ApplyRelease(c, release, fromResume).queue, id) <= Position(c.queue, id)
  {
    hide Position, Forget, Defer;
    if release.Some? {
      var other := release.value.session;
      if c.shuttingDown || c.current == Some(other) || release.value.completed || !release.value.retry {
        ForgetMovesUp(c, other, id);
      } else {
        DeferMovesUp(c, other, id);
      }
    }
  }

  lemma BecomeMovesUp(c: Controller, other: SessionId, id: SessionId)
    requires id in c.queue && id in Become(c, other).queue
    ensures id != other && Position(Become(c, other).queue, id) <= Position(c.queue, id)
  {
    hide Position;
    ForgetMovesUp(c.(current := Some(other)), other, id);
  }

  // Nothing brings back a session that just became current.
  lemma StaysOut(c: Controller, release: Option<Release>, id: SessionId)
    requires id !in c.queue && (release.Some? ==> release.value.session != id)
    ensures id !in ApplyRelease(c, release, true).queue
  {
    if release.Some? {
      WithoutFacts(c.queue, release.value.session);
    }
  }

  lemma HandleMovesUp(c: Controller, r: TaskResult, id: SessionId)
    requires ResultFits(c, r) && id in c.queue && id in Handle(c, r).queue
    ensures Position(Handle(c, r).queue, id) <= Position(c.queue, id)
  {
    hide Position, ApplyRelease, Become;
    match r {
      case CleanupDone(release) => ReleaseMovesUp(c, release, false, id);
      case ResumeFailed =>
      case Resumed(session, prior) =>
        if id !in Become(c, session).queue {
          OnlyItLeaves(c, session, id);
          StaysOut(Become(c, session), prior, id);
        } else {
          BecomeMovesUp(c, session, id);
          ReleaseMovesUp(Become(c, session), prior, true, id);
        }
      case TurnDone(session) => if session.Some? { BecomeMovesUp(c, session.value, id); }
    }
  }

  lemma OnlyItLeaves(c: Controller, session: SessionId, id: SessionId)
    requires id in c.queue && id !in Become(c, session).queue
    ensures id == session
  {
    WithoutFacts(c.queue, session);
  }

  lemma TickMovesUp(c: Controller, ready: bool, foreground: bool, id: SessionId)
    requires Inv(c) && Maintains(c, ready) && id in c.queue && c.queue[0] != id
    ensures id in Tick(c, ready, foreground).queue
    ensures Position(Tick(c, ready, foreground).queue, id) == Position(c.queue, id) - 1
  {
    hide Balanced, FlightInv;
    TakeNextFacts(c);
    assert c.queue == [c.queue[0]] + c.queue[1..];
    PositionInSum(c.queue[1..], [c.queue[0]], id);
  }

  lemma StepMovesUp(c: Controller, s: Step, id: SessionId)
    requires Inv(c) && Enabled(c, s) && id in c.queue && id in Apply(c, s).queue
    requires s.MaintenanceTick? && Maintains(c, s.ready) ==> c.queue[0] != id
    ensures Position(Apply(c, s).queue, id)
         <= Position(c.queue, id) - (if s.MaintenanceTick? && Maintains(c, s.ready) then 1 else 0)
  {
    hide Position, Balanced;
    match s {
      case MaintenanceTick(ready, foreground) =>
        if Maintains(c, ready) {
          TickMovesUp(c, ready, foreground, id);
        }
      case ResetCurrent => if c.current.Some? { ForgetMovesUp(c.(current := None), c.current.value, id); }
      case DrainResults =>
        if c.results != [] {
          var a := c.(results := [], busy := false, running := false);
          SameFits(c, a, c.results[0]);
          assert c.results[1..] == [] && HandleAll(Handle(a, c.results[0]), []) == Handle(a, c.results[0]);
          HandleMovesUp(a, c.results[0], id);
        }
      case _ =>
    }
  }

  /** A waiting session moves up with every maintenance take, so it waits for no more of them than
      its position in the deque. */
  lemma {:induction false} FairRetry(c: Controller, trace: seq<Step>, id: SessionId)
    requires Inv(c) && Feasible(c, trace) && Waits(c, trace, id)
    ensures id in Run(c, trace).queue
    ensures Takes(c, trace) + Position(Run(c, trace).queue, id) <= Position(c.queue, id)
    decreases |trace|
  {
    hide Inv, Apply, Enabled, Position;
    if trace != [] {
      StepInv(c, trace[0]);
      StepMovesUp(c, trace[0], id);
      FairRetry(Apply(c, trace[0]), trace[1..], id);
    }
  }

  // -------------------------------------------------------------------- the two objects

  class CLIWorker {
    var accepting: bool
    var busy: bool
    var tasks: seq<Task>
    var results: seq<TaskResult>

    constructor ()
      ensures accepting && !busy && tasks == [] && results == []
    {
      accepting, busy, tasks, results := true, false, [], [];
    }

    method Submit(task: Task) returns (accepted: bool)
      modifies this
      ensures accepted <==> old(accepting) && !old(busy)
      ensures accepting == old(accepting) && results == old(results)
      ensures busy == (old(busy) || accepted) && tasks == if accepted then old(tasks) + [task] else old(tasks)
    {
      if !accepting || busy {
        return false;
      }
      busy := true;
      tasks := tasks + [task];
      return true;
    }

    method DrainResults() returns (drained: seq<TaskResult>)
      modifies this
      ensures drained == old(results) && results == []
      ensures busy == (old(busy) && drained == []) && tasks == old(tasks) && accepting == old(accepting)
    {
      drained := [];
      while results != []
        invariant drained + results == old(results)
        invariant busy == old(busy) && tasks == old(tasks) && accepting == old(accepting)
        decreases |results|
      {
        drained, results := drained + [results[0]], results[1..];
      }
      if drained != [] {
        busy := false;
      }
    }

    // The worker thread: whatever happens inside, one task yields one result.
    method RunOne(completed: bool, fails: bool, created: Option<SessionId>)
      requires tasks != []
      modifies this`tasks, this`results
      ensures tasks == old(tasks)[1..]
      ensures results == old(results) + [Answer(old(tasks)[0], completed, fails, created)]
      ensures old(tasks)[0].Cleanup? && old(tasks)[0].deferred.Some? ==>
                var (id, done) := (old(tasks)[0].deferred.value, completed && !fails);
                results[|results| - 1] == CleanupDone(Some(
                  if Some(id) == old(tasks)[0].now then Release(id, false, false) else Release(id, done, !done)))
    {
      var task := tasks[0];
      tasks := tasks[1..];
      results := results + [Answer(task, completed, fails, created)];
    }
  }

  class CLIController {
    const worker: CLIWorker
    var queue: seq<SessionId>
    var members: set<SessionId>
    var current: Option<SessionId>
    var running: bool
    var shuttingDown: bool
    ghost var log: seq<Entry>

    ghost function View(): Controller
      reads this, worker
    {
      Controller(queue, members, current, running, shuttingDown, worker.accepting, worker.busy, worker.tasks,
                 worker.results, log)
    }

    constructor ()
      ensures View() == NewController && fresh(worker)
    {
      worker := new CLIWorker();
      queue, members, current, running, shuttingDown, log := [], {}, None, false, false, [];
    }

    method ForgetDeferredSession(id: SessionId) returns (removed: bool)
      modifies this`queue, this`members
      ensures View() == Forget(old(View()), id)
      ensures removed <==> id in old(members) || id in old(queue)
    {
      removed := id in members;
      members := members - {id};
      while id in queue
        invariant Without(queue, id) == Without(old(queue), id)
        invariant members == old(members) - {id}
        invariant removed || id in queue <==> id in old(members) || id in old(queue)
        decreases |queue|
      {
        var at := IndexOf(queue, id);
        WithoutOne(queue, at);
        queue := queue[..at] + queue[at + 1..];
        removed := true;
      }
      WithoutFacts(queue, id);
    }

    method DeferSessionRelease(id: SessionId) returns (added: bool)
      modifies this`queue, this`members
      ensures View() == Defer(old(View()), id)
      ensures added <==> Defers(old(View()), id)
    {
      if Some(id) == current {
        var _ := ForgetDeferredSession(id);
        return false;
      }
      if id in members {
        return false;
      }
      queue := queue + [id];
      members := members + {id};
      return true;
    }

    method TakeNextDeferredSession() returns (taken: Option<SessionId>)
      modifies this`queue, this`members
      ensures (taken, queue, members) == TakeNext(old(queue), old(members), current)
      ensures |queue| <= |old(queue)| && queue == old(queue)[|old(queue)| - |queue|..]
      ensures var passed := |old(queue)| - |queue| - (if taken.Some? then 1 else 0);
              && (taken.Some? ==> 0 <= passed && taken == Some(old(queue)[passed]))
              && (taken.Some? ==> taken.value in old(members) && taken != current)
              && (taken.None? ==> queue == [])
              && forall i :: 0 <= i < passed ==> old(queue)[i] !in old(members) || Some(old(queue)[i]) == current
    {
      while queue != []
        invariant TakeNext(queue, members, current) == TakeNext(old(queue), old(members), current)
        invariant |queue| <= |old(queue)| && queue == old(queue)[|old(queue)| - |queue|..]
        invariant members <= old(members) && forall x :: x in old(members) && Some(x) != current ==> x in members
        invariant forall i :: 0 <= i < |old(queue)| - |queue| ==>
                    old(queue)[i] !in old(members) || Some(old(queue)[i]) == current
        decreases |queue|
      {
        var id := queue[0];
        queue := queue[1..];
        if id !in members {
          continue;
        }
        members := members - {id};
        if Some(id) == current {
          continue;
        }
        return Some(id);
      }
      return None;
    }

    method ClearDeferredSessions()
      modifies this`queue, this`members
      ensures queue == [] && members == {}
    {
      queue, members := [], {};
    }

    method SubmitTask(task: Task) returns (submitted: bool)
      modifies this`running, worker
      ensures View() == Submit(old(View()), task)
      ensures submitted <==> Submits(old(View()))
    {
      if shuttingDown || running {
        return false;
      }
      submitted := worker.Submit(task);
      if submitted {
        running := true;
      }
    }

    /** The maintenance tick takes at most one deferred session; if the worker refuses it, it goes
        back to the tail. */
    method HandleMaintenanceTick(ready: bool, foreground: bool)
      modifies this, worker
      ensures View() == Tick(old(View()), ready, foreground)
    {
      if shuttingDown || !ready || running {
        return;
      }
      var now := current;
      var deferred := TakeNextDeferredSession();
      var idle := if foreground then None else now;
      if idle.None? && deferred.None? {
        return;
      }
      var submitted := SubmitTask(Cleanup(now, deferred));
      if !submitted && deferred.Some? {
        var _ := DeferSessionRelease(deferred.value);
      }
    }

    method ApplySessionReleaseResult(release: Option<Release>, fromResume: bool)
      modifies this`queue, this`members, this`log
      ensures View() == ApplyRelease(old(View()), release, fromResume)
      ensures release.Some? && (shuttingDown || current == Some(release.value.session) || release.value.completed) ==>
                release.value.session !in queue && release.value.session !in members
      ensures release.Some? && !shuttingDown && current != Some(release.value.session)
              && !release.value.completed && release.value.retry ==>
                && members == old(members) + {release.value.session}
                && queue == if release.value.session in old(members) then old(queue)
                            else old(queue) + [release.value.session]
      ensures forall x :: release.None? || x != release.value.session ==>
                (x in queue <==> x in old(queue)) && (x in members <==> x in old(members))
    {
      if release.Some? {
        WithoutFacts(queue, release.value.session);
      }
      if release.None? {
        return;
      }
      var id := release.value.session;
      if shuttingDown {
        var _ := ForgetDeferredSession(id);
        log := if fromResume then log else log + [if release.value.completed then Released(id) else Dropped(id)];
        return;
      }
      if current == Some(id) {
        var _ := ForgetDeferredSession(id);
        log := if fromResume then log else log + [BecameCurrent(id)];
        return;
      }
      if release.value.completed {
        var _ := ForgetDeferredSession(id);
        log := if fromResume then log else log + [Released(id)];
        return;
      }
      if !release.value.retry {
        var _ := ForgetDeferredSession(id);
        return;
      }
      var added := DeferSessionRelease(id);
      log := if fromResume && added then log + [Deferred(id)] else log;
    }

    method BecomeCurrentSession(id: SessionId)
      modifies this`queue, this`members, this`log, this`current
      ensures View() == Become(old(View()), id)
    {
      current := Some(id);
      log := if id in members then log + [Entry.BecameCurrent(id)] else log;
      var _ := ForgetDeferredSession(id);
    }

    method ApplyWorkerResult(result: TaskResult)
      modifies this`queue, this`members, this`log, this`current
      ensures View() == Handle(old(View()), result)
    {
      match result {
        case CleanupDone(release) => ApplySessionReleaseResult(release, false);
        case ResumeFailed =>
        case Resumed(session, prior) =>
          BecomeCurrentSession(session);
          ApplySessionReleaseResult(prior, true);
        case TurnDone(session) =>
          if session.Some? {
            BecomeCurrentSession(session.value);
          }
      }
    }

    method HandleWorkerResults()
      modifies this, worker
      ensures View() == Apply(old(View()), Step.DrainResults)
    {
      var results := worker.DrainResults();
      ghost var drained := View();
      for i := 0 to |results|
        invariant HandleAll(View(), results[i..]) == HandleAll(drained, results)
      {
        assert results[i..][0] == results[i] && results[i..][1..] == results[i + 1..];
        running := false;
        ApplyWorkerResult(results[i]);
      }
      assert results[|results|..] == [];
    }

    method ResetCurrentSession()
      requires !running
      modifies this`queue, this`members, this`current
      ensures View() == Apply(old(View()), Step.ResetCurrent)
      ensures current.None? && (old(current).Some? ==> old(current).value !in queue)
    {
      if current.Some? {
        var id := current.value;
        WithoutFacts(queue, id);
        current := None;
        var _ := ForgetDeferredSession(id);
      }
    }

    method ShutDown()
      modifies this`queue, this`members, this`shuttingDown, this`log
      ensures View() == Apply(old(View()), Step.BeginShutdown)
      ensures shuttingDown && (!old(shuttingDown) ==> queue == [] && members == {})
      ensures |log| == |old(log)| + (if old(shuttingDown) then 0 else |old(queue)|)
    {
      if shuttingDown {
        return;
      }
      shuttingDown := true;
      log := log + DroppedEntries(queue);
      ClearDeferredSessions();
    }
  }

  method IndexOf(queue: seq<SessionId>, id: SessionId) returns (at: nat)
    requires id in queue
    ensures at < |queue| && queue[at] == id
  {
    at := 0;
    while queue[at] != id
      invariant at < |queue| && id in queue[at..]
      decreases |queue| - at
    {
      at := at + 1;
    }
  }

  lemma {:induction false} WithoutOne(queue: seq<SessionId>, at: nat)
    requires at < |queue|
    ensures Without(queue[..at] + queue[at + 1..], queue[at]) == Without(queue, queue[at])
  {
    if at == 0 {
      assert queue[..0] + queue[1..] == queue[1..];
    } else {
      WithoutOne(queue[1..], at - 1);
      var rest := queue[..at] + queue[at + 1..];
      assert rest[0] == queue[0] && rest[1..] == queue[1..][..at - 1] + queue[1..][at..];
    }
  }
}
