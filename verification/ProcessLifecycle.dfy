/**
 The lifecycle of one background-process record, as a transition system whose steps are the
 record-lock and registry-lock sections of the manager.

 Every section is a total function on the record (`Apply`); `Enabled` says what the thread that
 runs it has already learnt at that point of its own code.  `ProcessThreads.dfy` holds the threads
 themselves and proves that they only ever run enabled sections.
 */
module ProcessLifecycle {
  import opened Common

  datatype Status = Starting | Running | Exited | Killed | Lost | FailedStart

  predicate Terminal(s: Status) { s.Exited? || s.Killed? || s.Lost? || s.FailedStart? }

  predicate Allowed(from: Status, to: Status) {
    || (from.Starting? && (to.Running? || to.FailedStart?))
    || (from.Running? && Terminal(to))
  }

  datatype Source = NoSource | Kill | SessionCleanup | GlobalCleanup | FailedStartCleanup

  // Where the manager's two dictionaries hold the record.
  datatype Place = InRunning | InFinished | Pruned

  // How far the spawning thread has come; only that thread moves it.
  datatype Phase =
    | StarterRuns    // the starter callable has not returned
    | Attached       // the handle is stored, the status is still STARTING
    | MarkedRunning  // RUNNING is written, no reader exists yet
    | Launched       // the reader runs, or was skipped because a termination was requested
    | Recovering     // the start failed with a handle in hand
    | Abandoned      // the start failed without a handle

  // The flag and the source as one observer of the exit read them, in the section that also marks the
  // handle for cleanup.
  datatype Reading = Reading(signal: bool, source: Source)

  // What the record has become, and how far its spawning has come.
  datatype Life = Life(status: Status, source: Source, exitCode: Option<int>, completed: bool, phase: Phase)

  // Where handle and record are; `committed` is the final output.
  datatype Hold = Hold(handle: bool, closed: bool, committed: bool, pending: bool, place: Place)

  // How terminators and the spawning thread meet: the termination lock and the progress flag, the
  // request, the startup event, whether a terminator ever found that event unset, and whether one did
  // and has not yet registered its request.
  datatype Sync = Sync(
    locked: bool, inProgress: bool, requested: bool, started: bool, foundUnset: bool, promise: bool)

  // The signal flag, every reading of it - an observer is known by its position among the readings -
  // and how often the handle was asked to signal.
  datatype Seen = Seen(signal: bool, readings: seq<Reading>, tries: nat)

  datatype Rec = Rec(life: Life, hold: Hold, sync: Sync, seen: Seen)

  const NewRecord := Rec(
    Life(Starting, NoSource, None, false, StarterRuns),
    Hold(false, false, false, false, InRunning),
    Sync(false, false, false, false, false, false),
    Seen(false, [], 0))

  predicate Marked(r: Rec) { r.life.status.Running? && r.life.source.FailedStartCleanup? }

  predicate Released(r: Rec) { r.hold.handle ==> r.hold.closed }

  predicate LostIsReleased(r: Rec) { r.life.status.Lost? ==> Released(r) }

  // Nothing is left to do with the handle; the record may leave the running table.
  predicate Settled(r: Rec) { Terminal(r.life.status) && Released(r) && !r.hold.pending }

  // Launched or failed with a handle: the spawning thread no longer decides the status alone.
  predicate Live(r: Rec) { r.life.phase.Launched? || r.life.phase.Recovering? }

  datatype Section =
    // spawning thread only
    | AttachHandle
    | EnterRunning
    | StartReader
    | PrepareFailedStart
    | AbandonStart
    // under the termination lock only
    | Unlock
    | SetInProgress(value: bool)
    | CheckStartup
    | RequestTermination(origin: Source)
    | RequestFailedStart
    | FailRecoveredStart
    | RequestLostCleanup(origin: Source)
    | ReleaseLost
    // any thread
    | Lock
    | SetStartupEvent
    | TrySignal
    | MarkSignal
    | ObserveExit
    | Finalize(observer: nat, code: int)
    | CompleteLost
    | CommitFinalOutput
    | SetClosed
    | ReleaseExited
    | MoveToFinished
    | Prune

  predicate SpawnerOnly(s: Section) {
    s.AttachHandle? || s.EnterRunning? || s.StartReader? || s.PrepareFailedStart? || s.AbandonStart?
  }

  predicate HolderOnly(s: Section) {
    || s.Unlock? || s.SetInProgress? || s.CheckStartup? || s.RequestTermination? || s.RequestFailedStart?
    || s.FailRecoveredStart? || s.RequestLostCleanup? || s.ReleaseLost?
  }

  // A terminal transition followed by setting the completion event.  Terminal statuses absorb; a
  // target outside the allowed table raises before anything is written.
  function Finish(l: Life, target: Status, code: Option<int>, source: Source): Life
    requires Terminal(target)
  {
    if Terminal(l.status) then l.(completed := true)
    else if !Allowed(l.status, target) then l
    else Life(target, source, code, true, l.phase)
  }

  function FinalizeTarget(sawSignal: bool): (s: Status)
    ensures Terminal(s)
  {
    if sawSignal then Killed else Exited
  }

  function FinalizeSource(sawSignal: bool, sawSource: Source): Source {
    if !sawSignal then NoSource else if sawSource.NoSource? then Kill else sawSource
  }

  // The effect of a section on each part of the record; the parts it does not name stay.
  function ApplyLife(r: Rec, s: Section): Life {
    var l := r.life;
    match s
    case AttachHandle => l.(phase := Attached)
    case EnterRunning => l.(status := Running, phase := MarkedRunning)
    case StartReader => l.(phase := Launched)
    case PrepareFailedStart =>
      if Terminal(l.status) then l.(phase := Recovering)
      else l.(status := Running, source := FailedStartCleanup, phase := Recovering)
    case AbandonStart => Finish(l, FailedStart, None, NoSource).(phase := Abandoned)
    case RequestTermination(origin) => if Terminal(l.status) || !l.source.NoSource? then l else l.(source := origin)
    case RequestFailedStart => if Terminal(l.status) then l else l.(source := FailedStartCleanup)
    case FailRecoveredStart => if !Released(r) then l else Finish(l, FailedStart, None, FailedStartCleanup)
    case RequestLostCleanup(origin) => if l.status.Lost? && r.hold.pending then l.(source := origin) else l
    case Finalize(observer, code) =>
      if observer >= |r.seen.readings| then l
      else
        var read := r.seen.readings[observer];
        Finish(l, FinalizeTarget(read.signal), Some(code), FinalizeSource(read.signal, read.source))
    case CompleteLost => if BecomesLost(r) then Finish(l, Lost, None, l.source) else l
    case _ => l
  }

  predicate BecomesLost(r: Rec) {
    !r.life.source.FailedStartCleanup? && !r.sync.inProgress && !Terminal(r.life.status)
  }

  function ApplyHold(r: Rec, s: Section): Hold {
    var h := r.hold;
    match s
    case AttachHandle => h.(handle := true)
    case ReleaseLost => if r.life.status.Lost? && h.closed then h.(pending := false) else h
    case ObserveExit => h.(pending := h.handle && !h.closed)
    case CompleteLost =>
      if BecomesLost(r) && !r.life.status.Starting? then h.(pending := h.handle && !h.closed) else h
    case CommitFinalOutput => h.(committed := true)
    case SetClosed => h.(closed := true)
    case ReleaseExited =>
      if (r.life.status.Exited? || r.life.status.Killed?) && Released(r) then h.(pending := false) else h
    case MoveToFinished => if h.place.InRunning? then h.(place := InFinished) else h
    case Prune => if h.place.InFinished? then h.(place := Pruned) else h
    case _ => h
  }

  function ApplySync(r: Rec, s: Section): Sync {
    var y := r.sync;
    match s
    case PrepareFailedStart => if Terminal(r.life.status) then y else y.(requested := true)
    case Lock => y.(locked := true)
    case Unlock => y.(locked := false)
    case SetInProgress(v) => y.(inProgress := v)
    case SetStartupEvent => y.(started := true)
    case CheckStartup => if y.started then y else y.(foundUnset := true, promise := true)
    case RequestTermination(_) => y.(promise := false, requested := y.requested || !Terminal(r.life.status))
    case RequestFailedStart => if Terminal(r.life.status) then y else y.(requested := true)
    case RequestLostCleanup(_) => if r.life.status.Lost? && r.hold.pending then y.(requested := true) else y
    case _ => y
  }

  function ApplySeen(r: Rec, s: Section): Seen {
    match s
    case TrySignal => r.seen.(tries := r.seen.tries + 1)
    case MarkSignal =>
      if !Terminal(r.life.status) || (r.life.status.Lost? && r.hold.pending) then r.seen.(signal := true) else r.seen
    case ObserveExit => r.seen.(readings := r.seen.readings + [Reading(r.seen.signal, r.life.source)])
    case _ => r.seen
  }

  function Apply(r: Rec, s: Section): Rec {
    Rec(ApplyLife(r, s), ApplyHold(r, s), ApplySync(r, s), ApplySeen(r, s))
  }

  // Set by `ObserveExit`: from here on the record cannot leave the running table unreleased.
  predicate Guarded(r: Rec) { r.hold.handle && (r.hold.pending || r.hold.closed) }

  predicate Enabled(r: Rec, s: Section) {
    match s
    case AttachHandle => r.life.phase.StarterRuns?
    case EnterRunning => r.life.phase.Attached?
    case StartReader => r.life.phase.MarkedRunning?
    case PrepareFailedStart => r.life.phase.Attached? || r.life.phase.MarkedRunning? || r.life.phase.Recovering?
    case AbandonStart => r.life.phase.StarterRuns?
    case Lock => !r.sync.locked
    case Unlock => r.sync.locked && !r.sync.inProgress
    case SetInProgress(v) => r.sync.locked && (v || !r.sync.promise)
    case CheckStartup => r.sync.inProgress
    case RequestTermination(origin) => r.sync.inProgress && !origin.NoSource? && !origin.FailedStartCleanup?
    case RequestLostCleanup(origin) => r.sync.inProgress && !origin.NoSource? && !origin.FailedStartCleanup?
    case RequestFailedStart => r.sync.inProgress && (r.life.phase.Recovering? || Terminal(r.life.status))
    case FailRecoveredStart => r.sync.inProgress && r.life.phase.Recovering?
    case ReleaseLost => r.sync.inProgress
    case SetStartupEvent => r.life.phase.Launched? || r.life.phase.Recovering? || r.life.phase.Abandoned?
    case TrySignal => r.hold.handle
    case MarkSignal => r.hold.handle
    case ObserveExit => r.life.phase.Launched? || Terminal(r.life.status)
    case Finalize(observer, _) => observer < |r.seen.readings|
    case CompleteLost => r.life.phase.Launched? || r.life.phase.Recovering? || Terminal(r.life.status)
    case CommitFinalOutput => r.hold.handle
    case SetClosed => r.hold.handle && r.hold.committed
    case MoveToFinished => Terminal(r.life.status) && Released(r)
    case Prune => Terminal(r.life.status)
    case _ => true
  }

  // The status and the handle as seen from the spawning thread's progress.
  predicate PhaseInv(r: Rec) {
    && (r.hold.handle <==> !r.life.phase.StarterRuns? && !r.life.phase.Abandoned?)
    && (r.life.status.Starting? <==> r.life.phase.StarterRuns? || r.life.phase.Attached?)
    && (r.life.phase.MarkedRunning? ==> r.life.status.Running?)
    && (r.life.status.FailedStart? ==> r.life.phase.Recovering? || r.life.phase.Abandoned?)
    && (r.life.status.Exited? || r.life.status.Killed? || r.life.status.Lost? ==> r.life.phase.Launched?)
    && (r.life.phase.Abandoned? ==> r.life.status.FailedStart?)
    && (r.sync.started ==> r.life.phase.Launched? || r.life.phase.Recovering? || r.life.phase.Abandoned?)
  }

  predicate SourceInv(r: Rec) {
    && (Marked(r) <==> r.life.phase.Recovering? && r.life.status.Running?)
    && (r.life.source.FailedStartCleanup? ==> r.life.phase.Recovering?)
    && (r.life.status.Exited? ==> r.life.source.NoSource?)
  }

  predicate StatusInv(r: Rec) {
    && (r.life.completed <==> Terminal(r.life.status))
    && (r.life.exitCode.Some? <==> r.life.status.Exited? || r.life.status.Killed?)
    && (r.life.status.Killed? ==> r.seen.signal)
  }

  predicate CustodyInv(r: Rec) {
    && (r.hold.closed ==> r.hold.handle && r.hold.committed)
    && (r.hold.pending ==> r.life.phase.Launched?)
    && (Terminal(r.life.status) && !r.hold.pending ==> Released(r))
    && (!r.hold.place.InRunning? ==> Terminal(r.life.status) && Released(r))
  }

  // A reading is of a launched record whose handle nobody can let go unreleased, or of a terminal one.
  predicate ReadsInv(r: Rec) {
    && (r.seen.readings != [] ==> Terminal(r.life.status) || (r.life.phase.Launched? && Guarded(r)))
    && (forall o :: 0 <= o < |r.seen.readings| && r.seen.readings[o].signal ==> r.seen.signal)
    && (forall o :: 0 <= o < |r.seen.readings| && r.seen.readings[o].source.FailedStartCleanup? ==>
          Terminal(r.life.status))
  }

  // Who found the startup event unset registers the request before letting go of the lock.
  predicate LockInv(r: Rec) {
    && (r.sync.promise ==> r.sync.inProgress) && (r.sync.inProgress ==> r.sync.locked)
    && (r.sync.foundUnset && !r.sync.promise ==> r.sync.requested || Terminal(r.life.status))
  }

  /** What every section keeps. */
  predicate Inv(r: Rec) {
    PhaseInv(r) && SourceInv(r) && StatusInv(r) && CustodyInv(r) && ReadsInv(r) && LockInv(r)
  }

  predicate PhaseLeads(a: Phase, b: Phase) {
    && (a.Attached? ==> !b.StarterRuns? && !b.Abandoned?)
    && (a.MarkedRunning? ==> b.MarkedRunning? || b.Launched? || b.Recovering?)
    && (a.Launched? ==> b.Launched?)
    && (a.Recovering? ==> b.Recovering?)
    && (a.Abandoned? ==> b.Abandoned?)
  }

  predicate PlaceLeads(a: Place, b: Place) {
    && (a.InFinished? ==> !b.InRunning?)
    && (a.Pruned? ==> b.Pruned?)
  }

  predicate StatusLeads(a: Rec, b: Rec) {
    && (Terminal(a.life.status) ==> b.life.status == a.life.status && b.life.exitCode == a.life.exitCode)
    && (a.life.status.Running? ==> !b.life.status.Starting?)
    && (Marked(a) ==> Marked(b) || b.life.status.FailedStart?)
  }

  predicate HoldLeads(a: Hold, b: Hold) {
    (a.handle ==> b.handle) && (a.closed ==> b.closed) && (a.committed ==> b.committed)
    && PlaceLeads(a.place, b.place)
  }

  predicate SyncLeads(a: Sync, b: Sync) {
    && (a.requested ==> b.requested) && (a.started ==> b.started)
    && (a.foundUnset ==> b.foundUnset) && (a.started ==> b.foundUnset == a.foundUnset)
  }

  predicate SeenLeads(a: Seen, b: Seen) {
    (a.signal ==> b.signal) && a.readings <= b.readings && a.tries <= b.tries
  }

  predicate CustodyLeads(a: Rec, b: Rec) {
    (Guarded(a) ==> Guarded(b)) && (Settled(a) ==> Settled(b))
  }

  /** What no later section undoes. */
  predicate Keeps(a: Rec, b: Rec) {
    && StatusLeads(a, b) && CustodyLeads(a, b) && PhaseLeads(a.life.phase, b.life.phase)
    && HoldLeads(a.hold, b.hold) && SyncLeads(a.sync, b.sync) && SeenLeads(a.seen, b.seen)
  }

  // The thread that is waiting while others run: is it the spawner, does it hold the termination lock?
  datatype Role = Role(spawner: bool, holder: bool)

  predicate Permitted(me: Role, s: Section) {
    && (me.spawner ==> !SpawnerOnly(s))
    && (me.holder ==> !HolderOnly(s))
  }

  // What the others cannot touch because of my role.
  predicate RoleKeeps(me: Role, a: Rec, b: Rec) {
    && (me.spawner ==> b.life.phase == a.life.phase && b.hold.handle == a.hold.handle)
    && (me.holder ==> b.sync.inProgress == a.sync.inProgress && b.sync.promise == a.sync.promise)
    && (me.holder && a.sync.locked ==> b.sync.locked)
    && (me.holder && a.sync.inProgress && b.life.status.Lost? ==> a.life.status.Lost?)
  }

  predicate KeepsFor(me: Role, a: Rec, b: Rec) { Keeps(a, b) && RoleKeeps(me, a, b) }

  // -------------------------------------------------------------------- one section

  lemma StepKeepsPhase(r: Rec, s: Section)
    requires PhaseInv(r) && SourceInv(r) && ReadsInv(r) && Enabled(r, s)
    ensures PhaseInv(Apply(r, s))
  {
  }

  lemma StepKeepsSource(r: Rec, s: Section)
    requires PhaseInv(r) && SourceInv(r) && ReadsInv(r) && Enabled(r, s)
    ensures SourceInv(Apply(r, s))
  {
  }

  lemma StepKeepsStatus(r: Rec, s: Section)
    requires PhaseInv(r) && SourceInv(r) && StatusInv(r) && ReadsInv(r) && Enabled(r, s)
    ensures StatusInv(Apply(r, s))
  {
  }

  lemma StepKeepsCustody(r: Rec, s: Section)
    requires PhaseInv(r) && SourceInv(r) && CustodyInv(r) && ReadsInv(r) && Enabled(r, s)
    ensures CustodyInv(Apply(r, s))
  {
  }

  lemma StepKeepsReads(r: Rec, s: Section)
    requires PhaseInv(r) && SourceInv(r) && CustodyInv(r) && ReadsInv(r) && Enabled(r, s)
    ensures ReadsInv(Apply(r, s))
  {
  }

  lemma StepKeepsLock(r: Rec, s: Section)
    requires PhaseInv(r) && LockInv(r) && Enabled(r, s)
    ensures LockInv(Apply(r, s))
  {
  }

  /** One section, by anyone allowed to run it, keeps the invariant. */
  lemma {:induction false} SectionInv(r: Rec, s: Section)
    requires Inv(r) && Enabled(r, s)
    ensures Inv(Apply(r, s))
  {
    hide PhaseInv, SourceInv, StatusInv, CustodyInv, ReadsInv, LockInv, Apply, Enabled;
    StepKeepsPhase(r, s);
    StepKeepsSource(r, s);
    StepKeepsStatus(r, s);
    StepKeepsCustody(r, s);
    StepKeepsReads(r, s);
    StepKeepsLock(r, s);
  }

  lemma StatusStepLeads(r: Rec, s: Section)
    requires PhaseInv(r) && SourceInv(r) && ReadsInv(r) && Enabled(r, s)
    ensures StatusLeads(r, Apply(r, s))
  {
  }

  lemma CustodyStepLeads(r: Rec, s: Section)
    requires PhaseInv(r) && CustodyInv(r) && Enabled(r, s)
    ensures CustodyLeads(r, Apply(r, s))
  {
  }

  lemma PhaseStepLeads(r: Rec, s: Section)
    requires Enabled(r, s)
    ensures PhaseLeads(r.life.phase, ApplyLife(r, s).phase)
  {
  }

  lemma PartsStepLead(r: Rec, s: Section)
    ensures HoldLeads(r.hold, ApplyHold(r, s)) && SyncLeads(r.sync, ApplySync(r, s)) && SeenLeads(r.seen, ApplySeen(r, s))
  {
  }

  lemma RoleStepKeeps(me: Role, r: Rec, s: Section)
    requires Enabled(r, s) && Permitted(me, s)
    ensures RoleKeeps(me, r, Apply(r, s))
  {
  }

  /** One section undoes nothing that a thread of the given role may rely on. */
  lemma {:induction false} SectionKeeps(me: Role, r: Rec, s: Section)
    requires Inv(r) && Enabled(r, s) && Permitted(me, s)
    ensures KeepsFor(me, r, Apply(r, s))
  {
    hide PhaseInv, SourceInv, StatusInv, CustodyInv, ReadsInv, LockInv, Enabled, Permitted;
    hide StatusLeads, CustodyLeads, PhaseLeads, HoldLeads, SyncLeads, SeenLeads, RoleKeeps;
    hide ApplyLife, ApplyHold, ApplySync, ApplySeen;
    StatusStepLeads(r, s);
    CustodyStepLeads(r, s);
    PhaseStepLeads(r, s);
    PartsStepLead(r, s);
    RoleStepKeeps(me, r, s);
  }

  // The only sections that touch the readings, the signal flag, and the exit of a record.
  lemma SectionEffects(r: Rec, s: Section)
    requires Inv(r) && Enabled(r, s)
    ensures var t := Apply(r, s);
            && t.seen.readings == (if s.ObserveExit? then r.seen.readings + [Reading(r.seen.signal, r.life.source)]
                                   else r.seen.readings)
            && (t.seen.signal && !r.seen.signal ==> s.MarkSignal? && (!Terminal(r.life.status) || r.life.status.Lost?))
  {
  }

  lemma ExitEffects(r: Rec, s: Section)
    requires Inv(r) && Enabled(r, s) && !r.life.status.Exited? && Apply(r, s).life.status.Exited?
    ensures s.Finalize? && !Terminal(r.life.status) && s.observer < |r.seen.readings|
    ensures !r.seen.readings[s.observer].signal
  {
  }

  lemma {:induction false} Stepped(me: Role, r: Rec, s: Section)
    requires Inv(r) && Enabled(r, s) && Permitted(me, s)
    ensures Inv(Apply(r, s)) && KeepsFor(me, r, Apply(r, s))
  {
    SectionInv(r, s);
    SectionKeeps(me, r, s);
  }

  lemma KeepsTransitive(me: Role, a: Rec, b: Rec, c: Rec)
    requires Inv(a) && Inv(b) && KeepsFor(me, a, b) && KeepsFor(me, b, c)
    ensures KeepsFor(me, a, c)
  {
  }

  // ------------------------------------------------ what the larger sections write

  lemma AbandonEffect(r: Rec)
    requires r.life.status.Starting?
    ensures Apply(r, AbandonStart) == r.(life := Life(FailedStart, NoSource, None, true, Abandoned))
  {
  }

  lemma FinalizeEffect(r: Rec, observer: nat, code: int)
    requires !r.life.status.Starting? && observer < |r.seen.readings|
    ensures var read := r.seen.readings[observer];
            Apply(r, Finalize(observer, code)) == r.(life :=
              if Terminal(r.life.status) then r.life.(completed := true)
              else Life(FinalizeTarget(read.signal), FinalizeSource(read.signal, read.source), Some(code), true, r.life.phase))
  {
  }

  lemma LostEffect(r: Rec)
    requires !r.life.status.Starting?
    ensures Apply(r, CompleteLost) ==
      if BecomesLost(r)
      then r.(life := Life(Lost, r.life.source, None, true, r.life.phase),
              hold := r.hold.(pending := r.hold.handle && !r.hold.closed))
      else r
  {
  }

  // ------------------------------------------------ single facts out of the invariant

  lemma SettledIsReleased(r: Rec)
    requires Inv(r) && Terminal(r.life.status) && !r.hold.pending
    ensures Released(r)
  {
  }

  lemma HandleKnown(r: Rec)
    requires Inv(r)
    ensures r.hold.handle <==> !r.life.phase.StarterRuns? && !r.life.phase.Abandoned?
    ensures r.sync.started ==> r.life.phase.Launched? || r.life.phase.Recovering? || r.life.phase.Abandoned?
    ensures r.life.status.Starting? <==> r.life.phase.StarterRuns? || r.life.phase.Attached?
    ensures r.life.phase.Abandoned? ==> r.life.status.FailedStart?
  {
  }

  // A live record that is not marked is either past its launch or already terminal.
  lemma UnmarkedLive(r: Rec)
    requires Inv(r) && Live(r) && !Marked(r)
    ensures r.life.phase.Launched? || Terminal(r.life.status)
    ensures r.life.phase.Launched? ==> !r.life.source.FailedStartCleanup?
  {
  }

  lemma LaunchedSource(r: Rec)
    requires Inv(r)
    ensures r.life.phase.Launched? ==> r.hold.handle && !r.life.source.FailedStartCleanup? && !r.life.status.Starting?
  {
  }

  lemma RecoveringStatus(r: Rec)
    requires Inv(r) && r.life.phase.Recovering?
    ensures r.hold.handle && (r.life.status.Running? || r.life.status.FailedStart?)
    ensures r.life.status.Running? ==> Marked(r)
  {
  }

  lemma LostWithoutPending(r: Rec)
    requires Inv(r) && !(r.life.status.Lost? && r.hold.pending)
    ensures LostIsReleased(r)
  {
  }

  lemma FailedStartSettled(r: Rec)
    requires Inv(r) && r.life.status.FailedStart?
    ensures Settled(r)
  {
  }

  lemma MarkedRecovers(r: Rec)
    requires Inv(r) && Marked(r)
    ensures r.life.phase.Recovering? && r.hold.handle
  {
  }

  lemma ExitedHasCode(r: Rec)
    requires Inv(r) && (r.life.status.Exited? || r.life.status.Killed? || r.life.status.Lost?)
    ensures r.life.phase.Launched? && r.hold.handle
    ensures !r.life.status.Lost? ==> r.life.exitCode.Some?
  {
  }

  lemma LockFacts(r: Rec)
    requires Inv(r)
    ensures (r.sync.promise ==> r.sync.inProgress) && (r.sync.inProgress ==> r.sync.locked)
    ensures r.sync.foundUnset && !r.sync.promise ==> r.sync.requested || Terminal(r.life.status)
  {
  }

  // While the termination lock is held with the in-progress flag up, no record newly becomes LOST.
  lemma LostStaysReleased(me: Role, a: Rec, b: Rec)
    requires Inv(a) && Inv(b) && KeepsFor(me, a, b)
    requires me.holder && a.sync.inProgress && LostIsReleased(a)
    ensures b.sync.inProgress && b.sync.promise == a.sync.promise && LostIsReleased(b)
  {
  }

  // -------------------------------------------------------------------- runs

  function Run(r: Rec, trace: seq<Section>): Rec
    decreases |trace|
  {
    if trace == [] then r else Run(Apply(r, trace[0]), trace[1..])
  }

  predicate Feasible(me: Role, r: Rec, trace: seq<Section>)
    decreases |trace|
  {
    trace != [] ==>
      && Enabled(r, trace[0]) && Permitted(me, trace[0])
      && Feasible(me, Apply(r, trace[0]), trace[1..])
  }

  const Nobody := Role(false, false)

  lemma {:induction false} RunKeeps(me: Role, r: Rec, trace: seq<Section>)
    requires Inv(r) && Feasible(me, r, trace)
    ensures Inv(Run(r, trace)) && KeepsFor(me, r, Run(r, trace))
    decreases |trace|
  {
    if trace != [] {
      SectionInv(r, trace[0]);
      SectionKeeps(me, r, trace[0]);
      RunKeeps(me, Apply(r, trace[0]), trace[1..]);
      KeepsTransitive(me, r, Apply(r, trace[0]), Run(r, trace));
    }
  }

  lemma {:induction false} RunSplits(me: Role, r: Rec, first: seq<Section>, rest: seq<Section>)
    requires Feasible(me, r, first + rest)
    ensures Feasible(me, r, first) && Feasible(me, Run(r, first), rest)
    ensures Run(r, first + rest) == Run(Run(r, first), rest)
    decreases |first|
  {
    if first == [] {
      assert first + rest == rest;
    } else {
      assert (first + rest)[0] == first[0] && (first + rest)[1..] == first[1..] + rest;
      RunSplits(me, Apply(r, first[0]), first[1..], rest);
    }
  }

  /** Others ran some sequence of sections. */
  ghost predicate Reach(me: Role, a: Rec, b: Rec) {
    exists trace: seq<Section> :: Feasible(me, a, trace) && b == Run(a, trace)
  }

  lemma ReachKeeps(me: Role, a: Rec, b: Rec)
    requires Inv(a) && Reach(me, a, b)
    ensures Inv(b) && KeepsFor(me, a, b)
  {
    var trace :| Feasible(me, a, trace) && b == Run(a, trace);
    RunKeeps(me, a, trace);
  }

  // Whoever holds the termination lock can let go of it: what it promised is registered first.
  function Cleared(r: Rec): Rec {
    if r.sync.inProgress then Apply(Apply(r, RequestTermination(Kill)), SetInProgress(false)) else r
  }

  function Freed(r: Rec): Rec {
    if r.sync.locked then Apply(Cleared(r), Unlock) else Cleared(r)
  }

  lemma LockCanBecomeFree(me: Role, r: Rec)
    requires Inv(r) && !me.holder
    ensures Reach(me, r, Freed(r)) && !Freed(r).sync.locked
  {
    LockFacts(r);
    var trace: seq<Section> := [];
    if r.sync.locked {
      trace := PrependFor(me, Cleared(r), Unlock, trace);
    }
    if r.sync.inProgress {
      var p := Apply(r, RequestTermination(Kill));
      trace := PrependFor(me, p, SetInProgress(false), trace);
      trace := PrependFor(me, r, RequestTermination(Kill), trace);
    }
    assert Feasible(me, r, trace) && Run(r, trace) == Freed(r);
  }

  lemma PrependFor(me: Role, r: Rec, s: Section, rest: seq<Section>) returns (trace: seq<Section>)
    requires Enabled(r, s) && Permitted(me, s) && Feasible(me, Apply(r, s), rest)
    ensures Feasible(me, r, trace) && Run(r, trace) == Run(Apply(r, s), rest)
  {
    trace := [s] + rest;
    assert trace[0] == s && trace[1..] == rest;
  }

  // ------------------------------------------------------- results over whole runs

  /** Handle custody: in every reachable state an attached handle is either still found through the
      running table, or it was closed after its final output had been committed. */
  lemma HandleCustody(trace: seq<Section>)
    requires Feasible(Nobody, NewRecord, trace)
    ensures var r := Run(NewRecord, trace);
            r.hold.handle ==> r.hold.place.InRunning? || (r.hold.closed && r.hold.committed)
  {
    RunKeeps(Nobody, NewRecord, trace);
  }

  /** The status machine over two points of any run. */
  lemma LifecycleSafety(first: seq<Section>, rest: seq<Section>)
    requires Feasible(Nobody, NewRecord, first + rest)
    ensures var a, b := Run(NewRecord, first), Run(NewRecord, first + rest);
            && (Terminal(a.life.status) ==> b.life.status == a.life.status && b.life.exitCode == a.life.exitCode)
            && (b.life.completed <==> Terminal(b.life.status))
            && (b.life.status.Killed? ==> b.seen.signal)
            && (b.life.status.Exited? ==> b.life.source.NoSource?)
            && (Marked(a) && Terminal(b.life.status) ==> b.life.status.FailedStart?)
            && (Marked(a) && !Terminal(b.life.status) ==> Marked(b))
            && (a.hold.place.InFinished? ==> !b.hold.place.InRunning?)
  {
    RunSplits(Nobody, NewRecord, first, rest);
    RunKeeps(Nobody, NewRecord, first);
    RunKeeps(Nobody, Run(NewRecord, first), rest);
  }

  // -------------------------------------------------------- when EXITED hides a signal

  // The record before section `i` of a run.
  function At(trace: seq<Section>, i: nat): Rec
    requires i <= |trace|
  {
    Run(NewRecord, trace[..i])
  }

  // Section `i` is the reading of this observer.
  predicate ReadsAt(trace: seq<Section>, i: nat, observer: nat) {
    i < |trace| && trace[i].ObserveExit? && |At(trace, i).seen.readings| == observer
  }

  // Section `j` is the one that marks the signal.
  predicate SignalsAt(trace: seq<Section>, j: nat) {
    j < |trace| && trace[j].MarkSignal? && !At(trace, j).seen.signal && At(trace, j + 1).seen.signal
  }

  // Section `k` decides the status, from the reading of this observer.
  predicate DecidesAt(trace: seq<Section>, k: nat, observer: nat) {
    && k < |trace| && trace[k].Finalize? && trace[k].observer == observer
    && !Terminal(At(trace, k).life.status) && Terminal(At(trace, k + 1).life.status)
  }

  // The signal is marked after the deciding observer has read and before it writes the status.
  ghost predicate SignalSlipsIn(trace: seq<Section>) {
    exists i: nat, j: nat, k: nat, observer: nat ::
      i < j < k && ReadsAt(trace, i, observer) && SignalsAt(trace, j) && DecidesAt(trace, k, observer)
  }

  lemma RunToPoint(trace: seq<Section>, i: nat, j: nat)
    requires Feasible(Nobody, NewRecord, trace) && i <= j <= |trace|
    ensures Inv(At(trace, i)) && Inv(At(trace, j)) && Keeps(At(trace, i), At(trace, j))
  {
    hide Inv, Keeps;
    assert trace[..j] == trace[..i] + trace[i..j] && trace == trace[..j] + trace[j..];
    RunSplits(Nobody, NewRecord, trace[..j], trace[j..]);
    RunSplits(Nobody, NewRecord, trace[..i], trace[i..j]);
    NewRecordInv();
    RunKeeps(Nobody, NewRecord, trace[..i]);
    RunKeeps(Nobody, At(trace, i), trace[i..j]);
    KeepsForKeeps(Nobody, At(trace, i), At(trace, j));
  }

  lemma NewRecordInv()
    ensures Inv(NewRecord)
  {
  }

  lemma KeepsForKeeps(me: Role, a: Rec, b: Rec)
    requires KeepsFor(me, a, b)
    ensures Keeps(a, b)
  {
  }

  lemma NextPoint(trace: seq<Section>, i: nat)
    requires Feasible(Nobody, NewRecord, trace) && i < |trace|
    ensures Enabled(At(trace, i), trace[i]) && At(trace, i + 1) == Apply(At(trace, i), trace[i])
  {
    hide Apply, Enabled;
    var step := [trace[i]];
    assert trace[..i + 1] == trace[..i] + step && trace == trace[..i + 1] + trace[i + 1..];
    RunSplits(Nobody, NewRecord, trace[..i + 1], trace[i + 1..]);
    RunSplits(Nobody, NewRecord, trace[..i], step);
    assert step[0] == trace[i] && step[1..] == [];
  }

  // Every reading was taken in some section, of the flag as it then was.
  lemma {:induction false} ReadingPoint(trace: seq<Section>, n: nat, observer: nat) returns (i: nat)
    requires Feasible(Nobody, NewRecord, trace) && n <= |trace| && observer < |At(trace, n).seen.readings|
    ensures i < n && ReadsAt(trace, i, observer)
    ensures At(trace, n).seen.readings[observer].signal == At(trace, i).seen.signal
  {
    hide Inv, Apply, Enabled, Keeps;
    assert n > 0;
    NextPoint(trace, n - 1);
    RunToPoint(trace, n - 1, n - 1);
    SectionEffects(At(trace, n - 1), trace[n - 1]);
    if observer < |At(trace, n - 1).seen.readings| {
      i := ReadingPoint(trace, n - 1, observer);
    } else {
      i := n - 1;
    }
  }

  lemma {:induction false} SignalPoint(trace: seq<Section>, n: nat) returns (j: nat)
    requires Feasible(Nobody, NewRecord, trace) && n <= |trace| && At(trace, n).seen.signal
    ensures j < n && SignalsAt(trace, j)
  {
    hide Inv, Apply, Enabled, Keeps;
    NextPoint(trace, n - 1);
    RunToPoint(trace, n - 1, n - 1);
    SectionEffects(At(trace, n - 1), trace[n - 1]);
    if At(trace, n - 1).seen.signal {
      j := SignalPoint(trace, n - 1);
    } else {
      j := n - 1;
    }
  }

  lemma {:induction false} DecisionPoint(trace: seq<Section>, n: nat) returns (k: nat, observer: nat)
    requires Feasible(Nobody, NewRecord, trace) && n <= |trace| && At(trace, n).life.status.Exited?
    ensures k < n && DecidesAt(trace, k, observer)
    ensures observer < |At(trace, k).seen.readings| && !At(trace, k).seen.readings[observer].signal
  {
    hide Inv, Apply, Enabled, Keeps;
    NextPoint(trace, n - 1);
    RunToPoint(trace, n - 1, n - 1);
    if At(trace, n - 1).life.status.Exited? {
      k, observer := DecisionPoint(trace, n - 1);
    } else {
      ExitEffects(At(trace, n - 1), trace[n - 1]);
      k, observer := n - 1, trace[n - 1].observer;
    }
  }

  // What the deciding observer read decides the status.
  lemma DecidedStatus(trace: seq<Section>, i: nat, k: nat, observer: nat)
    requires Feasible(Nobody, NewRecord, trace) && i < k
    requires ReadsAt(trace, i, observer) && DecidesAt(trace, k, observer)
    ensures At(trace, k + 1).life.status == FinalizeTarget(At(trace, i).seen.signal)
  {
    hide Inv, Enabled, StatusLeads, CustodyLeads, PhaseLeads, HoldLeads, SyncLeads;
    NextPoint(trace, i);
    NextPoint(trace, k);
    RunToPoint(trace, i + 1, k);
    assert At(trace, i + 1).seen.readings[observer].signal == At(trace, i).seen.signal;
    assert At(trace, k).seen.readings[observer] == At(trace, i + 1).seen.readings[observer];
  }

  /** Exactly when a record ends EXITED although a signal was sent: the signal was marked between the
      reading of the observer that decided the status and its writing it. */
  lemma ExitedWithSignalExactlyWhen(trace: seq<Section>)
    requires Feasible(Nobody, NewRecord, trace)
    ensures var r := Run(NewRecord, trace); r.life.status.Exited? && r.seen.signal <==> SignalSlipsIn(trace)
  {
    hide Inv, Enabled, Apply, At, ReadsAt, SignalsAt, DecidesAt;
    var n := |trace|;
    EndPoint(trace);
    if At(trace, n).life.status.Exited? && At(trace, n).seen.signal {
      SignalSlippedIn(trace);
    }
    if SignalSlipsIn(trace) {
      var i: nat, j: nat, k: nat, observer: nat :|
        i < j < k && ReadsAt(trace, i, observer) && SignalsAt(trace, j) && DecidesAt(trace, k, observer);
      SlippedSignalExits(trace, i, j, k, observer);
    }
  }

  lemma EndPoint(trace: seq<Section>)
    ensures At(trace, |trace|) == Run(NewRecord, trace)
  {
    assert trace[..|trace|] == trace;
  }

  lemma SignalSlippedIn(trace: seq<Section>)
    requires Feasible(Nobody, NewRecord, trace)
    requires At(trace, |trace|).life.status.Exited? && At(trace, |trace|).seen.signal
    ensures SignalSlipsIn(trace)
  {
    hide Inv, Enabled, Apply, At, Run;
    var n := |trace|;
    var k, observer := DecisionPoint(trace, n);
    var i := ReadingPoint(trace, k, observer);
    var j := SignalPoint(trace, n);
    if j <= i {
      RunToPoint(trace, j, i);
      AfterSignal(trace, j, i);
    }
    if k < j {
      ExitedStays(trace, k, j);
    }
    assert i < j < k;
  }

  lemma AfterSignal(trace: seq<Section>, j: nat, i: nat)
    requires Feasible(Nobody, NewRecord, trace) && SignalsAt(trace, j) && j <= i <= |trace|
    ensures j == i || At(trace, i).seen.signal
  {
    if j < i {
      RunToPoint(trace, j + 1, i);
    }
  }

  // An EXITED record takes no mark any more.
  lemma ExitedStays(trace: seq<Section>, k: nat, j: nat)
    requires Feasible(Nobody, NewRecord, trace) && k < j < |trace|
    requires At(trace, |trace|).life.status.Exited? && Terminal(At(trace, k + 1).life.status)
    ensures !SignalsAt(trace, j)
  {
    hide Inv, Apply, Enabled, CustodyLeads, PhaseLeads, HoldLeads, SyncLeads;
    RunToPoint(trace, k + 1, j);
    RunToPoint(trace, j, |trace|);
    NextPoint(trace, j);
    SectionEffects(At(trace, j), trace[j]);
  }

  lemma SlippedSignalExits(trace: seq<Section>, i: nat, j: nat, k: nat, observer: nat)
    requires Feasible(Nobody, NewRecord, trace) && i < j < k
    requires ReadsAt(trace, i, observer) && SignalsAt(trace, j) && DecidesAt(trace, k, observer)
    ensures At(trace, |trace|).life.status.Exited? && At(trace, |trace|).seen.signal
  {
    hide Inv, Apply, CustodyLeads, PhaseLeads, HoldLeads, SyncLeads;
    RunToPoint(trace, i, j);
    DecidedStatus(trace, i, k, observer);
    RunToPoint(trace, j + 1, |trace|);
    RunToPoint(trace, k + 1, |trace|);
  }

  const LaunchedRecord := Rec(
    Life(Running, NoSource, None, false, Launched),
    Hold(true, false, false, false, InRunning),
    Sync(false, false, false, false, false, false),
    Seen(false, [], 0))

  lemma LaunchFirst(rest: seq<Section>) returns (trace: seq<Section>)
    requires Feasible(Nobody, LaunchedRecord, rest)
    ensures Feasible(Nobody, NewRecord, trace) && Run(NewRecord, trace) == Run(LaunchedRecord, rest)
  {
    var r1 := Apply(NewRecord, AttachHandle);
    var r2 := Apply(r1, EnterRunning);
    trace := PrependFor(Nobody, r2, StartReader, rest);
    trace := PrependFor(Nobody, r1, EnterRunning, trace);
    trace := PrependFor(Nobody, NewRecord, AttachHandle, trace);
  }

  lemma SignalAfterReading() returns (trace: seq<Section>)
    ensures Feasible(Nobody, LaunchedRecord, trace)
    ensures var r := Run(LaunchedRecord, trace); r.life.status.Exited? && r.seen.signal
  {
    var r4 := Apply(LaunchedRecord, ObserveExit);
    var r5 := Apply(r4, MarkSignal);
    trace := [];
    trace := PrependFor(Nobody, r5, Finalize(0, 0), trace);
    trace := PrependFor(Nobody, r4, MarkSignal, trace);
    trace := PrependFor(Nobody, LaunchedRecord, ObserveExit, trace);
  }

  /** Such a run exists. */
  lemma ExitedAfterSignal() returns (trace: seq<Section>)
    ensures Feasible(Nobody, NewRecord, trace) && SignalSlipsIn(trace)
  {
    var rest := SignalAfterReading();
    trace := LaunchFirst(rest);
    ExitedWithSignalExactlyWhen(trace);
  }
}
