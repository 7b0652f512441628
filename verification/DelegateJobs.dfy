/**
 The in-process manager of background delegate jobs: submission in two lock sections with a
 rollback, worker threads, cooperative cancel and shutdown.
 */
module DelegateJobs {
  import opened Common

  type JobId = nat

  datatype Status = Queued | Running | Completed | Failed | Cancelled

  datatype Thread = NoThread | Alive | Dead

  // `began` is whether started_at was ever written.
  datatype Job = Job(status: Status, cancelRequested: bool, thread: Thread, began: bool)

  predicate Active(j: Job) { j.status.Queued? || j.status.Running? }

  // `jobs` holds every job object ever made, `listed` the ids the manager's dictionary still has.
  datatype Manager = Manager(jobs: map<JobId, Job>, listed: set<JobId>, accepting: bool)

  datatype Section =
    | Reserve(id: JobId)
    | Rollback(id: JobId)
    | Launch(id: JobId, starts: bool)
    | Cancel(id: JobId)
    | StopAccepting
    | BeginWork(id: JobId)
    | EndWork(id: JobId, result: Status)
    | ThreadEnds(id: JobId)

  function ActiveIds(m: Manager): set<JobId> {
    set id | id in m.listed && id in m.jobs && Active(m.jobs[id])
  }

  function RolledBack(m: Manager, id: JobId): Manager
    requires id in m.jobs
  {
    m.(jobs := m.jobs[id := m.jobs[id].(status := Failed, thread := NoThread)], listed := m.listed - {id})
  }

  function Apply(m: Manager, max: nat, s: Section): Manager
    requires s.Rollback? || s.Launch? || s.BeginWork? || s.EndWork? || s.ThreadEnds? ==> s.id in m.jobs
  {
    match s
    case Reserve(id) =>
      if !m.accepting || |ActiveIds(m)| >= max then m
      else m.(jobs := m.jobs[id := Job(Queued, false, NoThread, false)], listed := m.listed + {id})
    case Rollback(id) => RolledBack(m, id)
    case Launch(id, starts) =>
      if !m.accepting || !starts then RolledBack(m, id)
      else m.(jobs := m.jobs[id := m.jobs[id].(thread := Alive)])
    case Cancel(id) =>
      if id !in m.listed || id !in m.jobs || !Active(m.jobs[id]) then m
      else m.(jobs := m.jobs[id := m.jobs[id].(cancelRequested := true)])
    case StopAccepting =>
      m.(accepting := false,
         jobs := map id | id in m.jobs ::
                   if id in m.listed && Active(m.jobs[id]) then m.jobs[id].(cancelRequested := true)
                   else m.jobs[id])
    case BeginWork(id) => m.(jobs := m.jobs[id := m.jobs[id].(status := Running, began := true)])
    case EndWork(id, result) => m.(jobs := m.jobs[id := m.jobs[id].(status := result)])
    case ThreadEnds(id) => m.(jobs := m.jobs[id := m.jobs[id].(thread := Dead)])
  }

  predicate Enabled(m: Manager, s: Section) {
    match s
    case Reserve(id) => id !in m.jobs
    case Rollback(id) => Waits(m, id)
    case Launch(id, _) => Waits(m, id)
    case BeginWork(id) => id in m.jobs && m.jobs[id].thread.Alive? && m.jobs[id].status.Queued?
    case EndWork(id, result) =>
      && id in m.jobs && m.jobs[id].thread.Alive? && m.jobs[id].status.Running?
      && !result.Queued? && !result.Running?
    case ThreadEnds(id) => id in m.jobs && m.jobs[id].thread.Alive? && !m.jobs[id].status.Queued?
    case _ => true
  }

  // Reserved, but its thread not started yet: only the submitting thread may decide about it.
  predicate Waits(m: Manager, id: JobId) {
    id in m.listed && id in m.jobs && m.jobs[id].status.Queued? && m.jobs[id].thread.NoThread?
  }

  predicate JobInv(j: Job, listed: bool) {
    if j.thread.NoThread? then
      !j.began && (if listed then j.status.Queued? else j.status.Failed?)
    else listed && (j.began <==> !j.status.Queued?)
  }

  ghost predicate TableInv(m: Manager) {
    m.listed <= m.jobs.Keys && forall id :: id in m.jobs ==> JobInv(m.jobs[id], id in m.listed)
  }

  ghost predicate Inv(m: Manager, max: nat) {
    TableInv(m) && |ActiveIds(m)| <= max
  }

  predicate StatusLeads(a: Status, b: Status) {
    && (a.Running? ==> !b.Queued?)
    && (a.Completed? || a.Failed? || a.Cancelled? ==> b == a)
  }

  // A job that never ran ends without one only by being rolled back.
  predicate JobLeads(a: Job, b: Job) {
    && StatusLeads(a.status, b.status)
    && (a.cancelRequested ==> b.cancelRequested)
    && (a.thread.Dead? ==> b.thread.Dead?)
    && (a.thread.Alive? ==> !b.thread.NoThread?)
    && (a.began ==> b.began)
    && (a.status.Failed? && a.thread.NoThread? ==> b.thread.NoThread? && b.began == a.began)
  }

  /** What no section undoes; after shutdown no thread starts. */
  ghost predicate Keeps(a: Manager, b: Manager) {
    && a.jobs.Keys <= b.jobs.Keys
    && (!a.accepting ==> !b.accepting)
    && (forall id :: id in a.jobs ==> JobLeads(a.jobs[id], b.jobs[id]))
    && (forall id :: id in a.jobs && id !in a.listed ==> id !in b.listed)
    && (!a.accepting ==> forall id :: Started(b, id) ==> Started(a, id))
  }

  // What a look at a started worker's thread finds.
  predicate Looked(m: Manager, id: JobId, alive: bool) {
    Started(m, id) && (alive <==> m.jobs[id].thread.Alive?)
  }

  predicate Started(m: Manager, id: JobId) { id in m.jobs && !m.jobs[id].thread.NoThread? }

  // On whose behalf a thread waits: others neither decide an open submission nor run its worker.
  datatype Me = Anyone | Submitter(id: JobId) | WorkerOf(id: JobId)

  predicate Permitted(me: Me, s: Section) {
    && (me.Submitter? ==> s != Rollback(me.id) && (s.Launch? ==> s.id != me.id))
    && (me.WorkerOf? ==> (s.BeginWork? || s.EndWork? || s.ThreadEnds? ==> s.id != me.id))
  }

  ghost predicate KeepsMine(me: Me, a: Manager, b: Manager) {
    && (me.Submitter? && Waits(a, me.id) ==> Waits(b, me.id))
    && (me.WorkerOf? && me.id in a.jobs && a.jobs[me.id].thread.Alive? ==>
          && me.id in b.jobs && b.jobs[me.id].thread.Alive?
          && b.jobs[me.id].status == a.jobs[me.id].status)
  }

  lemma SubsetSize(a: set<JobId>, b: set<JobId>)
    requires a <= b
    ensures |a| <= |b|
  {
    assert b == a + (b - a);
  }

  lemma SectionKeepsTable(m: Manager, max: nat, s: Section)
    requires TableInv(m) && Enabled(m, s)
    ensures TableInv(Apply(m, max, s))
  {
  }

  lemma ActiveStep(m: Manager, max: nat, s: Section)
    requires TableInv(m) && Enabled(m, s)
    ensures s.Reserve? && m.accepting && |ActiveIds(m)| < max ==>
              ActiveIds(Apply(m, max, s)) == ActiveIds(m) + {s.id}
    ensures !(s.Reserve? && m.accepting && |ActiveIds(m)| < max) ==>
              ActiveIds(Apply(m, max, s)) <= ActiveIds(m)
  {
  }

  lemma SectionInv(m: Manager, max: nat, s: Section)
    requires Inv(m, max) && Enabled(m, s)
    ensures Inv(Apply(m, max, s), max)
  {
    hide ActiveIds, TableInv;
    SectionKeepsTable(m, max, s);
    ActiveStep(m, max, s);
    if !(s.Reserve? && m.accepting && |ActiveIds(m)| < max) {
      SubsetSize(ActiveIds(Apply(m, max, s)), ActiveIds(m));
    }
  }

  lemma SectionKeepsJobs(m: Manager, max: nat, s: Section)
    requires TableInv(m) && Enabled(m, s)
    ensures Keeps(m, Apply(m, max, s))
  {
    hide ActiveIds;
  }

  lemma SectionKeepsMine(me: Me, m: Manager, max: nat, s: Section)
    requires TableInv(m) && Enabled(m, s) && Permitted(me, s)
    ensures KeepsMine(me, m, Apply(m, max, s))
  {
    hide ActiveIds;
  }

  lemma SectionKeeps(me: Me, m: Manager, max: nat, s: Section)
    requires Inv(m, max) && Enabled(m, s) && Permitted(me, s)
    ensures Keeps(m, Apply(m, max, s)) && KeepsMine(me, m, Apply(m, max, s))
  {
    hide Keeps, KeepsMine, TableInv, ActiveIds;
    SectionKeepsJobs(m, max, s);
    SectionKeepsMine(me, m, max, s);
  }

  lemma KeepsChains(me: Me, a: Manager, b: Manager, c: Manager)
    requires Keeps(a, b) && Keeps(b, c) && KeepsMine(me, a, b) && KeepsMine(me, b, c)
    ensures Keeps(a, c) && KeepsMine(me, a, c)
  {
  }

  lemma KeepsChain(a: Manager, b: Manager, c: Manager)
    requires Keeps(a, b) && Keeps(b, c)
    ensures Keeps(a, c)
  {
    KeepsChains(Anyone, a, b, c);
  }

  lemma KeepsFacts(a: Manager, b: Manager, id: JobId)
    requires Keeps(a, b)
    ensures !a.accepting ==> !b.accepting && (Started(b, id) ==> Started(a, id))
    ensures Started(a, id) ==> Started(b, id)
    ensures Started(a, id) && a.jobs[id].thread.Dead? ==> b.jobs[id].thread.Dead?
  {
    if id in a.jobs {
      assert JobLeads(a.jobs[id], b.jobs[id]);
    }
  }

  ghost predicate Between(a: Manager, b: Manager, c: Manager) { Keeps(a, b) && Keeps(b, c) }

  lemma BetweenStarts(a: Manager, b: Manager)
    requires Keeps(a, b)
    ensures Between(a, b, b)
  {
  }

  lemma BetweenGrows(a: Manager, b: Manager, c: Manager, d: Manager)
    requires Between(a, b, c) && Keeps(c, d)
    ensures Between(a, b, d)
  {
    KeepsChain(b, c, d);
  }

  lemma StartedIsListed(m: Manager, max: nat, id: JobId)
    requires Inv(m, max) && Started(m, id)
    ensures id in m.listed && (m.jobs[id].began <==> !m.jobs[id].status.Queued?)
  {
  }

  lemma DeadStaysDead(a: Manager, b: Manager, c: Manager, id: JobId)
    requires Between(a, b, c) && Looked(b, id, false)
    ensures Started(c, id) && c.jobs[id].thread.Dead?
  {
    KeepsFacts(b, c, id);
  }

  // -------------------------------------------------------------------- runs

  predicate Feasible(me: Me, m: Manager, max: nat, trace: seq<Section>)
    decreases |trace|
  {
    trace != [] ==>
      && Enabled(m, trace[0]) && Permitted(me, trace[0])
      && Feasible(me, Apply(m, max, trace[0]), max, trace[1..])
  }

  function Run(me: Me, m: Manager, max: nat, trace: seq<Section>): Manager
    requires Feasible(me, m, max, trace)
    decreases |trace|
  {
    if trace == [] then m else Run(me, Apply(m, max, trace[0]), max, trace[1..])
  }

  lemma {:induction false} RunKeeps(me: Me, m: Manager, max: nat, trace: seq<Section>)
    requires Inv(m, max) && Feasible(me, m, max, trace)
    ensures var n := Run(me, m, max, trace); Inv(n, max) && Keeps(m, n) && KeepsMine(me, m, n)
    decreases |trace|
  {
    if trace != [] {
      var n := Apply(m, max, trace[0]);
      SectionInv(m, max, trace[0]);
      SectionKeeps(me, m, max, trace[0]);
      RunKeeps(me, n, max, trace[1..]);
      KeepsChains(me, m, n, Run(me, m, max, trace));
    }
  }

  ghost predicate Reach(me: Me, a: Manager, max: nat, b: Manager) {
    exists trace :: Feasible(me, a, max, trace) && b == Run(me, a, max, trace)
  }

  const NewManager := Manager(map[], {}, true)

  /** Never more active jobs than allowed, and a job that was rolled back never had a thread. */
  lemma CapacityHolds(max: nat, trace: seq<Section>)
    requires Feasible(Anyone, NewManager, max, trace)
    ensures var m := Run(Anyone, NewManager, max, trace);
            && |ActiveIds(m)| <= max
            && (forall id :: id in m.jobs && id !in m.listed ==> !m.jobs[id].began && !Started(m, id))
            && (forall id :: id in m.jobs && m.jobs[id].began ==> Started(m, id) && !m.jobs[id].status.Queued?)
            && (forall id :: id in m.jobs && !m.jobs[id].began && Started(m, id) ==> m.jobs[id].status.Queued?)
  {
    assert ActiveIds(NewManager) == {};
    RunKeeps(Anyone, NewManager, max, trace);
  }

  // -------------------------------------------------------------------- what a runner leads to

  // What the runner does: the status in the dictionary it returns, and whether that can be read; or an
  // exception, or something that is raised past Exception.
  datatype Runner = Answers(status: Option<string>, readable: bool) | Raises | RaisesPast

  function ResultOf(runner: Runner): (result: Option<Status>)
    ensures result.None? <==> runner.RaisesPast?
    ensures result.Some? ==> result.value.Completed? || result.value.Failed? || result.value.Cancelled?
  {
    match runner
    case RaisesPast => None
    case Raises => Some(Failed)
    case Answers(status, readable) =>
      Some(if !readable then Failed
           else if status == Some("completed") then Completed
           else if status == Some("cancelled") then Cancelled
           else Failed)
  }

  // The job says it is running and its thread is gone.
  predicate Orphaned(m: Manager, id: JobId) {
    id in m.listed && id in m.jobs && m.jobs[id].status.Running? && m.jobs[id].thread.Dead?
  }

  lemma SectionOrphans(m: Manager, max: nat, s: Section, id: JobId)
    requires Orphaned(m, id) && Enabled(m, s)
    ensures Orphaned(Apply(m, max, s), id)
  {
    hide ActiveIds;
  }

  /** An orphaned job takes one of the places for good. */
  lemma {:induction false} OrphanKeepsItsPlace(m: Manager, max: nat, trace: seq<Section>, id: JobId)
    requires Orphaned(m, id) && Feasible(Anyone, m, max, trace)
    ensures var n := Run(Anyone, m, max, trace); Orphaned(n, id) && id in ActiveIds(n)
    decreases |trace|
  {
    if trace != [] {
      SectionOrphans(m, max, trace[0], id);
      OrphanKeepsItsPlace(Apply(m, max, trace[0]), max, trace[1..], id);
    }
  }

  // -------------------------------------------------------------------- the manager object

  datatype SubmitResult = Submitted | Rejected | SubmitFailed

  class DelegateJobManager {
    const maxJobs: nat
    var jobs: map<JobId, Job>
    var listed: set<JobId>
    var accepting: bool

    ghost function View(): Manager
      reads this
    {
      Manager(jobs, listed, accepting)
    }

    ghost predicate Valid()
      reads this
    {
      Inv(View(), maxJobs)
    }

    constructor (maxJobs: nat)
      ensures Valid() && View() == NewManager && this.maxJobs == maxJobs
    {
      this.maxJobs := maxJobs;
      jobs, listed, accepting := map[], {}, true;
      new;
      assert ActiveIds(View()) == {};
    }

    // Any run of other threads while the manager lock is free.
    method Interfere(ghost me: Me)
      requires Valid()
      modifies this
      ensures Valid() && Reach(me, old(View()), maxJobs, View())
      ensures Keeps(old(View()), View()) && KeepsMine(me, old(View()), View())
    {
      ghost var nothing: seq<Section> := [];
      assert Feasible(me, View(), maxJobs, nothing) && Run(me, View(), maxJobs, nothing) == View();
      RunKeeps(me, View(), maxJobs, nothing);
    }

    method RollbackSubmission(id: JobId)
      requires Valid() && Waits(View(), id)
      modifies this
      ensures Valid() && View() == Apply(old(View()), maxJobs, Rollback(id))
    {
      SectionInv(View(), maxJobs, Rollback(id));
      jobs := jobs[id := jobs[id].(status := Failed, thread := NoThread)];
      listed := listed - {id};
    }

    method ReserveJob() returns (id: JobId, reserved: bool)
      requires Valid()
      modifies this
      ensures Valid() && id !in old(jobs)
      ensures View() == Apply(old(View()), maxJobs, Reserve(id))
      ensures reserved <==> old(accepting) && |ActiveIds(old(View()))| < maxJobs
      ensures reserved ==> Waits(View(), id) && jobs == old(jobs)[id := Job(Queued, false, NoThread, false)]
      ensures !reserved ==> jobs == old(jobs) && listed == old(listed)
    {
      id := FreshId(jobs.Keys);
      SectionInv(View(), maxJobs, Reserve(id));
      var active := set j | j in listed && Active(jobs[j]);
      assert active == ActiveIds(View());
      reserved := accepting && |active| < maxJobs;
      if reserved {
        jobs := jobs[id := Job(Queued, false, NoThread, false)];
        listed := listed + {id};
      }
    }

    // Publishing the thread and starting it are one section, so that shutdown either stops the
    // submission or finds the thread.
    method LaunchJob(id: JobId, starts: bool) returns (launched: bool)
      requires Valid() && Waits(View(), id)
      modifies this
      ensures Valid() && View() == Apply(old(View()), maxJobs, Launch(id, starts))
      ensures launched <==> old(accepting) && starts
    {
      SectionInv(View(), maxJobs, Launch(id, starts));
      if !accepting || !starts {
        jobs := jobs[id := jobs[id].(status := Failed, thread := NoThread)];
        listed := listed - {id};
        return false;
      }
      jobs := jobs[id := jobs[id].(thread := Alive)];
      return true;
    }

    /** A submission either starts a thread or leaves nothing behind that could ever run. */
    method Submit(setupSucceeds: bool, starts: bool) returns (result: SubmitResult, id: JobId)
      requires Valid()
      modifies this
      ensures Valid()
      ensures result.Submitted? ==> Started(View(), id) && id in listed
      ensures !result.Submitted? ==> id !in listed && (id in jobs ==> !Started(View(), id) && !jobs[id].began)
      ensures !old(accepting) ==> result.Rejected? && !accepting
      ensures result.Submitted? ==> setupSucceeds && starts
      ensures result.SubmitFailed? ==> !setupSucceeds || !starts
    {
      Interfere(Anyone);
      var reserved;
      id, reserved := ReserveJob();
      if !reserved {
        return Rejected, id;
      }
      Interfere(Submitter(id));
      if !setupSucceeds {
        RollbackSubmission(id);
        return SubmitFailed, id;
      }
      Interfere(Submitter(id));
      var wasAccepting := accepting;
      var launched := LaunchJob(id, starts);
      result := if launched then Submitted else if wasAccepting then SubmitFailed else Rejected;
    }

    method CancelJob(id: JobId)
      requires Valid()
      modifies this
      ensures Valid() && View() == Apply(old(View()), maxJobs, Cancel(id))
      ensures id in listed && Active(jobs[id]) ==> jobs[id] == old(jobs)[id].(cancelRequested := true)
      ensures id !in listed || !Active(jobs[id]) ==> jobs == old(jobs)
      ensures jobs.Keys == old(jobs).Keys && forall j :: j in jobs && j != id ==> jobs[j] == old(jobs)[j]
    {
      SectionInv(View(), maxJobs, Cancel(id));
      if id in listed && Active(jobs[id]) {
        jobs := jobs[id := jobs[id].(cancelRequested := true)];
      }
    }

    method SetRunning(id: JobId)
      requires Valid() && id in jobs && jobs[id].thread.Alive? && jobs[id].status.Queued?
      modifies this
      ensures Valid() && View() == Apply(old(View()), maxJobs, BeginWork(id))
    {
      hide Inv;
      SectionInv(View(), maxJobs, BeginWork(id));
      jobs := jobs[id := jobs[id].(status := Running, began := true)];
    }

    method SetResult(id: JobId, result: Status)
      requires Valid() && Enabled(View(), EndWork(id, result))
      modifies this
      ensures Valid() && View() == Apply(old(View()), maxJobs, EndWork(id, result))
    {
      hide Inv;
      SectionInv(View(), maxJobs, EndWork(id, result));
      jobs := jobs[id := jobs[id].(status := result)];
    }

    method LeaveThread(id: JobId)
      requires Valid() && Enabled(View(), ThreadEnds(id))
      modifies this
      ensures Valid() && View() == Apply(old(View()), maxJobs, ThreadEnds(id))
    {
      hide Inv;
      SectionInv(View(), maxJobs, ThreadEnds(id));
      jobs := jobs[id := jobs[id].(thread := Dead)];
    }

    /** The thread body: the job ends in the status its runner leads to, exactly when that raises nothing past
        Exception; otherwise it is orphaned.  Either way the thread is gone. */
    method Work(id: JobId, runner: Runner)
      requires Valid() && id in jobs && jobs[id].thread.Alive? && jobs[id].status.Queued?
      modifies this
      ensures Valid() && id in jobs && jobs[id].thread.Dead? && jobs[id].began
      ensures if runner.RaisesPast? then Orphaned(View(), id) else Some(jobs[id].status) == ResultOf(runner)
      ensures !Active(jobs[id]) <==> !runner.RaisesPast?
      ensures jobs[id].status.Completed? <==> runner == Answers(Some("completed"), true)
      ensures jobs[id].status.Cancelled? <==> runner == Answers(Some("cancelled"), true)
    {
      hide Inv, Keeps;
      Interfere(WorkerOf(id));
      SetRunning(id);
      Interfere(WorkerOf(id));
      var result := ResultOf(runner);
      if result.Some? {
        SetResult(id, result.value);
        Interfere(WorkerOf(id));
      }
      StartedIsListed(View(), maxJobs, id);
      LeaveThread(id);
    }

    method StopAcceptingJobs(current: Option<JobId>) returns (threads: set<JobId>)
      requires Valid()
      modifies this
      ensures Valid() && View() == Apply(old(View()), maxJobs, StopAccepting)
      ensures forall id :: id in threads <==> Started(View(), id) && Some(id) != current
      ensures !accepting && forall id :: id in listed && Active(jobs[id]) ==> jobs[id].cancelRequested
    {
      SectionInv(View(), maxJobs, StopAccepting);
      var before := jobs;
      accepting := false;
      jobs := map id | id in before ::
                if id in listed && Active(before[id]) then before[id].(cancelRequested := true) else before[id];
      threads := set id | id in listed && !jobs[id].thread.NoThread? && Some(id) != current;
    }

    // The liveness checks of the captured threads, other threads running in between; `checked`
    // keeps the state each of them was looked at in.
    method AliveAmong(threads: set<JobId>, ghost atStop: Manager)
      returns (alive: set<JobId>, ghost checked: map<JobId, Manager>)
      requires Valid() && Keeps(atStop, View()) && forall id :: id in threads ==> Started(atStop, id)
      modifies this
      ensures Valid() && Keeps(atStop, View()) && alive <= threads && checked.Keys == threads
      ensures forall id :: id in checked ==> Between(atStop, checked[id], View()) && Looked(checked[id], id, id in alive)
    {
      hide Inv, Keeps, Between;
      alive := {};
      checked := map[];
      var unchecked := threads;
      while unchecked != {}
        invariant Valid() && Keeps(atStop, View()) && unchecked <= threads
        invariant alive <= threads - unchecked && checked.Keys == threads - unchecked
        invariant forall id :: id in checked ==> Between(atStop, checked[id], View()) && Looked(checked[id], id, id in alive)
        decreases |unchecked|
      {
        var id :| id in unchecked;
        KeepsFacts(atStop, View(), id);
        if jobs[id].thread.Alive? {
          alive := alive + {id};
        }
        unchecked := unchecked - {id};
        ghost var b := View();
        checked := checked[id := b];
        BetweenStarts(atStop, b);
        Interfere(Anyone);
        KeepsChain(atStop, b, View());
        forall j | j in checked ensures Between(atStop, checked[j], View()) {
          BetweenGrows(atStop, checked[j], b, View());
        }
      }
    }

    /** Returns exactly the started workers other than the caller that are alive when looked at;
        nothing starts afterwards, so whoever is not returned has ended for good. */
    method Shutdown(current: Option<JobId>)
      returns (alive: set<JobId>, ghost atStop: Manager, ghost checked: map<JobId, Manager>)
      requires Valid()
      modifies this
      ensures Valid() && !accepting && !atStop.accepting && Keeps(atStop, View())
      ensures forall id :: id in checked <==> Started(atStop, id) && Some(id) != current
      ensures forall id :: id in checked ==> Between(atStop, checked[id], View()) && Looked(checked[id], id, id in alive)
      ensures alive <= checked.Keys
      ensures forall id :: Started(View(), id) && Some(id) != current && id !in alive ==> jobs[id].thread.Dead?
    {
      hide Inv, Keeps, Between;
      Interfere(Anyone);
      var threads := StopAcceptingJobs(current);
      atStop := View();
      Interfere(Anyone);  // joins up to the deadline
      alive, checked := AliveAmong(threads, atStop);
      forall id | Started(View(), id) && Some(id) != current && id !in alive ensures jobs[id].thread.Dead? {
        KeepsFacts(atStop, View(), id);
        assert Between(atStop, checked[id], View());
        DeadStaysDead(atStop, checked[id], View(), id);
      }
      KeepsFacts(atStop, View(), 0);
    }
  }

  method FreshId(used: set<JobId>) returns (id: JobId)
    ensures id !in used
  {
    id := 0;
    var left := used;
    while id in left
      invariant forall j :: j in used && j !in left ==> j < id
      invariant left <= used
      decreases |left|
    {
      left := left - {id};
      id := id + 1;
    }
  }
}
