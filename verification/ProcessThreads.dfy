/**
 The threads that work on one process record: spawn, the reader, failed-start recovery,
 termination and batch cleanup.

 `Interfere` stands at every point where the running thread holds no record or registry lock: any
 sequence of sections of the other threads may happen there.  The handle is an environment: what
 its operations answer is chosen freely.
 */
module ProcessThreads {
  import opened Common
  import opened ProcessLifecycle

  datatype Outcome = Returned(status: Status) | Raised

  // What the starter callable did; `wellFormed` is the protocol check on a handed-over handle.
  datatype StarterResult = Started | Fails | FailsWithHandle(wellFormed: bool)

  datatype SignalResult = Sent | AlreadyGone(code: Option<int>) | SignalRaised

  predicate External(s: Source) { s.Kill? || s.SessionCleanup? || s.GlobalCleanup? }

  class ProcessRecord {
    var status: Status
    var handle: bool
    var closeCalled: bool
    var resourceCleanupPending: bool
    var terminationRequested: bool
    var terminationSource: Source
    var terminationSignalSent: bool
    var terminationLocked: bool
    var terminationInProgress: bool
    var completionEvent: bool
    var startupEvent: bool
    var exitCode: Option<int>
    var place: Place
    ghost var finalOutputCommitted: bool
    ghost var phase: Phase
    ghost var readings: seq<Reading>
    ghost var foundUnset: bool
    ghost var promise: bool
    ghost var tries: nat

    ghost function View(): Rec
      reads this
    {
      Rec(
        Life(status, terminationSource, exitCode, completionEvent, phase),
        Hold(handle, closeCalled, finalOutputCommitted, resourceCleanupPending, place),
        Sync(terminationLocked, terminationInProgress, terminationRequested, startupEvent, foundUnset, promise),
        Seen(terminationSignalSent, readings, tries))
    }

    constructor ()
      ensures View() == NewRecord
    {
      status, handle, closeCalled, resourceCleanupPending := Starting, false, false, false;
      terminationRequested, terminationSource := false, NoSource;
      terminationSignalSent, terminationLocked, terminationInProgress := false, false, false;
      readings, foundUnset, promise, tries := [], false, false, 0;
      completionEvent, startupEvent, exitCode, place := false, false, None, InRunning;
      finalOutputCommitted, phase := false, StarterRuns;
    }

    // ------------------------------------------------------------ the other threads

    method Interfere(ghost me: Role)
      requires Inv(View())
      modifies this
      ensures Reach(me, old(View()), View())
      ensures Inv(View()) && KeepsFor(me, old(View()), View())
    {
      ghost var nothing: seq<Section> := [];
      assert Feasible(me, View(), nothing) && Run(View(), nothing) == View();
      ReachKeeps(me, View(), View());
    }

    // ------------------------------------------------------------ sections

    method AttachHandle()
      modifies this`handle, this`phase
      ensures View() == Apply(old(View()), Section.AttachHandle)
    {
      handle := true;
      phase := Attached;
    }

    method EnterRunning() returns (requested: bool)
      modifies this`status, this`phase
      ensures View() == Apply(old(View()), Section.EnterRunning)
      ensures requested == old(terminationRequested)
    {
      requested := terminationRequested;
      status := Running;
      phase := MarkedRunning;
    }

    ghost method StartReader()
      modifies this`phase
      ensures View() == Apply(old(View()), Section.StartReader)
    {
      phase := Launched;
    }

    method PrepareFailedStart()
      modifies this`status, this`terminationRequested, this`terminationSource, this`phase
      ensures View() == Apply(old(View()), Section.PrepareFailedStart)
      ensures phase.Recovering? && !status.Starting?
      ensures !Terminal(status) ==> terminationRequested && terminationSource.FailedStartCleanup?
    {
      if status.Starting? {
        status := Running;
      }
      if status.Running? {
        terminationRequested := true;
        terminationSource := FailedStartCleanup;
      }
      phase := Recovering;
    }

    method AbandonStart()
      requires status.Starting?
      modifies this`status, this`exitCode, this`terminationSource, this`completionEvent, this`phase
      ensures View() == Apply(old(View()), Section.AbandonStart)
    {
      hide Apply;
      AbandonEffect(View());
      status, exitCode, terminationSource := FailedStart, None, NoSource;
      completionEvent := true;
      phase := Abandoned;
    }

    method SetTerminationInProgress(value: bool)
      modifies this`terminationInProgress
      ensures View() == Apply(old(View()), SetInProgress(value))
      ensures terminationInProgress == value
    {
      terminationInProgress := value;
    }

    method SetTerminationLocked(locked: bool)
      modifies this`terminationLocked
      ensures View() == Apply(old(View()), if locked then Lock else Unlock)
      ensures terminationLocked == locked
    {
      terminationLocked := locked;
    }

    // Some run of the other threads after which the lock is free; the body is the shortest one.
    method WaitUntilLockIsFree(ghost me: Role)
      requires Inv(View()) && !me.holder
      modifies this
      ensures Reach(me, old(View()), View()) && !terminationLocked
    {
      hide Inv, Apply, Reach;
      LockCanBecomeFree(me, View());
      LockFacts(View());
      var locked := terminationLocked;
      if terminationInProgress {
        RegisterRequest(Source.Kill);
        SetTerminationInProgress(false);
      }
      if locked {
        SetTerminationLocked(false);
      }
    }

    method AcquireTerminationLock(ghost me: Role)
      requires Inv(View()) && !me.holder
      modifies this
      ensures exists free :: Reach(me, old(View()), free) && !free.sync.locked && View() == Apply(free, Lock)
      ensures Inv(View()) && KeepsFor(me, old(View()), View())
      ensures terminationLocked && !terminationInProgress && !promise
    {
      hide Inv, Keeps, Apply, Reach, RoleKeeps;
      WaitUntilLockIsFree(me);
      ghost var free := View();
      ReachKeeps(me, old(View()), free);
      LockFacts(free);
      SetTerminationLocked(true);
      Stepped(me, free, Lock);
      KeepsTransitive(me, old(View()), free, View());
    }

    // Every terminator looks at the startup event before it acts.
    method FindStartupUnset() returns (unset: bool)
      modifies this`foundUnset, this`promise
      ensures View() == Apply(old(View()), CheckStartup)
      ensures unset <==> !startupEvent
    {
      unset := !startupEvent;
      foundUnset, promise := foundUnset || unset, promise || unset;
    }

    method RegisterRequest(source: Source)
      modifies this`terminationRequested, this`terminationSource, this`promise
      ensures View() == Apply(old(View()), Section.RequestTermination(source))
      ensures !Terminal(status) ==> terminationRequested
      ensures !Terminal(status) ==> terminationSource == if old(terminationSource).NoSource? then source else old(terminationSource)
    {
      promise := false;
      if Terminal(status) {
        return;
      }
      terminationRequested := true;
      if terminationSource.NoSource? {
        terminationSource := source;
      }
    }

    method RequestFailedStartCleanup()
      modifies this`terminationRequested, this`terminationSource
      ensures View() == Apply(old(View()), RequestFailedStart)
      ensures !Terminal(status) ==> terminationRequested && terminationSource.FailedStartCleanup?
    {
      if Terminal(status) {
        return;
      }
      terminationRequested := true;
      terminationSource := FailedStartCleanup;
    }

    method MarkRecoveredStartFailed() returns (ok: bool)
      requires !status.Starting?
      modifies this`status, this`exitCode, this`terminationSource, this`completionEvent
      ensures View() == Apply(old(View()), FailRecoveredStart)
      ensures ok <==> Released(old(View()))
    {
      if handle && !closeCalled {
        return false;
      }
      if !Terminal(status) {
        status, exitCode, terminationSource := FailedStart, None, FailedStartCleanup;
      }
      completionEvent := true;
      ok := true;
    }

    method RequestLostCleanup(source: Source) returns (cleanupPending: bool)
      modifies this`terminationRequested, this`terminationSource
      ensures View() == Apply(old(View()), Section.RequestLostCleanup(source))
      ensures cleanupPending <==> old(status).Lost? && old(resourceCleanupPending)
      ensures cleanupPending ==> terminationRequested && terminationSource == source
    {
      cleanupPending := status.Lost? && resourceCleanupPending;
      if cleanupPending {
        terminationRequested := true;
        terminationSource := source;
      }
    }

    method ReleaseLost() returns (ok: bool)
      modifies this`resourceCleanupPending
      ensures View() == Apply(old(View()), Section.ReleaseLost)
      ensures ok <==> old(status).Lost? && old(closeCalled)
    {
      if !status.Lost? || !closeCalled {
        return false;
      }
      resourceCleanupPending := false;
      ok := true;
    }

    method SetStartupEvent()
      modifies this`startupEvent
      ensures View() == Apply(old(View()), Section.SetStartupEvent)
    {
      startupEvent := true;
    }

    ghost method TrySignal()
      modifies this`tries
      ensures View() == Apply(old(View()), Section.TrySignal)
    {
      tries := tries + 1;
    }

    method MarkTerminationSignalSent()
      modifies this`terminationSignalSent
      ensures View() == Apply(old(View()), MarkSignal)
    {
      if !Terminal(status) || (status.Lost? && resourceCleanupPending) {
        terminationSignalSent := true;
      }
    }

    method ObserveExit() returns (signalSent: bool, source: Source, ghost observer: nat)
      modifies this`resourceCleanupPending, this`readings
      ensures View() == Apply(old(View()), Section.ObserveExit)
      ensures observer < |readings| && readings[observer] == Reading(signalSent, source)
      ensures signalSent == terminationSignalSent && source == old(terminationSource)
    {
      observer := |readings|;
      readings := readings + [Reading(terminationSignalSent, terminationSource)];
      signalSent, source := terminationSignalSent, terminationSource;
      resourceCleanupPending := handle && !closeCalled;
    }

    method FinalizeRecord(ghost observer: nat, sawSignal: bool, sawSource: Source, code: int)
      returns (transitioned: bool)
      requires !status.Starting? && observer < |readings| && readings[observer] == Reading(sawSignal, sawSource)
      modifies this`status, this`exitCode, this`terminationSource, this`completionEvent
      ensures View() == Apply(old(View()), Finalize(observer, code))
      ensures transitioned <==> !Terminal(old(status))
      ensures transitioned ==> status == (if sawSignal then Killed else Exited) && exitCode == Some(code)
      ensures transitioned && !sawSignal ==> terminationSource.NoSource?
      ensures transitioned && sawSignal ==> terminationSource == if sawSource.NoSource? then Source.Kill else sawSource
    {
      hide Apply;
      FinalizeEffect(View(), observer, code);
      transitioned := !Terminal(status);
      if transitioned {
        status := FinalizeTarget(sawSignal);
        exitCode := Some(code);
        terminationSource := FinalizeSource(sawSignal, sawSource);
      }
      completionEvent := true;
    }

    method WriteLost() returns (transitioned: bool, cleanupPending: bool)
      requires !status.Starting?
      modifies this`status, this`exitCode, this`completionEvent, this`resourceCleanupPending
      ensures View() == Apply(old(View()), Section.CompleteLost)
      ensures transitioned <==> !Terminal(old(status)) && status.Lost?
      ensures transitioned ==> cleanupPending == resourceCleanupPending
    {
      hide Apply;
      LostEffect(View());
      if terminationSource.FailedStartCleanup? || terminationInProgress || Terminal(status) {
        return false, false;
      }
      status, exitCode := Lost, None;
      completionEvent := true;
      resourceCleanupPending := handle && !closeCalled;
      return true, resourceCleanupPending;
    }

    ghost method CommitFinalOutput()
      modifies this`finalOutputCommitted
      ensures View() == Apply(old(View()), Section.CommitFinalOutput)
    {
      finalOutputCommitted := true;
    }

    method SetClosed()
      modifies this`closeCalled
      ensures View() == Apply(old(View()), Section.SetClosed)
    {
      closeCalled := true;
    }

    method ReleaseExited() returns (ok: bool)
      modifies this`resourceCleanupPending
      ensures View() == Apply(old(View()), Section.ReleaseExited)
      ensures ok <==> (old(status).Exited? || old(status).Killed?) && Released(old(View()))
    {
      if !(status.Exited? || status.Killed?) || (handle && !closeCalled) {
        return false;
      }
      resourceCleanupPending := false;
      ok := true;
    }

    method MoveEntry()
      modifies this`place
      ensures View() == Apply(old(View()), Section.MoveToFinished)
    {
      if place.InRunning? {
        place := InFinished;
      }
    }

    method PruneEntry()
      modifies this`place
      ensures View() == Apply(old(View()), Section.Prune)
    {
      if place.InFinished? {
        place := Pruned;
      }
    }

    // ------------------------------------------------------------ releasing the handle

    /** A settled record leaves the running table, whatever others do meanwhile. */
    method MoveToFinished(ghost me: Role)
      requires Inv(View())
      modifies this
      ensures Inv(View()) && KeepsFor(me, old(View()), View())
      ensures Settled(old(View())) ==> !place.InRunning?
    {
      hide Inv;
      Interfere(me);
      if !Terminal(status) || resourceCleanupPending {
        return;
      }
      SettledIsReleased(View());
      HandleKnown(View());
      ghost var a := View();
      Interfere(me);
      ghost var b := View();
      HandleKnown(b);
      KeepsTransitive(me, old(View()), a, b);
      MoveEntry();
      Stepped(me, b, Section.MoveToFinished);
      KeepsTransitive(me, old(View()), b, View());
    }

    // Closes the handle and commits its final output; only then is the closed flag written.
    method HandleClose(ghost me: Role) returns (ok: bool)
      requires Inv(View())
      modifies this
      ensures Inv(View()) && KeepsFor(me, old(View()), View())
      ensures ok && old(handle) ==> closeCalled
    {
      hide Inv;
      Interfere(me);
      if !handle {
        return true;
      }
      ghost var a := View();
      Interfere(me);
      KeepsTransitive(me, old(View()), a, View());
      if closeCalled {
        return true;
      }
      var closes: bool := *;  // close, the final read and its validation all succeed
      if !closes {
        return false;
      }
      ok := true;
      ghost var b := View();
      CommitAndMarkClosed(me);
      KeepsTransitive(me, old(View()), b, View());
    }

    method CommitAndMarkClosed(ghost me: Role)
      requires Inv(View()) && handle
      modifies this
      ensures Inv(View()) && KeepsFor(me, old(View()), View())
      ensures closeCalled
    {
      hide Inv;
      Interfere(me);
      ghost var a := View();
      CommitFinalOutput();
      Stepped(me, a, Section.CommitFinalOutput);
      KeepsTransitive(me, old(View()), a, View());
      ghost var b := View();
      Interfere(me);
      KeepsTransitive(me, old(View()), b, View());
      ghost var c := View();
      SetClosed();
      Stepped(me, c, Section.SetClosed);
      KeepsTransitive(me, old(View()), c, View());
    }

    method ReleaseConfirmedExit(ghost me: Role) returns (ok: bool)
      requires Inv(View())
      modifies this
      ensures Inv(View()) && KeepsFor(me, old(View()), View())
      ensures ok ==> (status.Exited? || status.Killed?) && closeCalled && !place.InRunning?
    {
      hide Inv;
      ok := HandleClose(me);
      if !ok {
        return;
      }
      ghost var a := View();
      Interfere(me);
      KeepsTransitive(me, old(View()), a, View());
      ghost var b := View();
      ok := ReleaseExited();
      Stepped(me, b, Section.ReleaseExited);
      KeepsTransitive(me, old(View()), b, View());
      if !ok {
        return;
      }
      ghost var c := View();
      ExitedHasCode(c);
      MoveToFinished(me);
      KeepsTransitive(me, old(View()), c, View());
    }

    // ------------------------------------------------------------ observing the exit

    // One serialized status query; a raising query counts as unconfirmed.
    method TryConfirmExit(ghost me: Role) returns (confirmed: bool, code: Option<int>)
      requires Inv(View())
      modifies this
      ensures Inv(View()) && KeepsFor(me, old(View()), View())
      ensures confirmed <==> code.Some?
    {
      Interfere(me);
      code := *;
      confirmed := code.Some?;
    }

    // Interrupt or kill: a signal that was really sent is recorded before anything else happens.
    method HandleSignal(ghost me: Role) returns (result: SignalResult)
      requires Inv(View()) && handle
      modifies this
      ensures Inv(View()) && KeepsFor(me, old(View()), View()) && tries > old(tries)
      ensures result.Sent? ==> terminationSignalSent || Terminal(status)
    {
      hide Inv;
      Interfere(me);
      ghost var a := View();
      TrySignal();
      Stepped(me, a, Section.TrySignal);
      KeepsTransitive(me, old(View()), a, View());
      ghost var b := View();
      result := *;
      if result.Sent? {
        MarkTerminationSignalSent();
        Stepped(me, b, MarkSignal);
        KeepsTransitive(me, old(View()), b, View());
      }
    }

    method WaitForExitConfirmation(ghost me: Role) returns (confirmed: bool, code: Option<int>)
      requires Inv(View())
      modifies this
      ensures Inv(View()) && KeepsFor(me, old(View()), View())
      ensures confirmed ==> code.Some?
    {
      hide Inv;
      var rounds: nat := *;  // how often the loop comes round before the deadline
      while rounds > 0
        invariant Inv(View()) && KeepsFor(me, old(View()), View())
      {
        ghost var a := View();
        Interfere(me);
        KeepsTransitive(me, old(View()), a, View());
        if status.Exited? || status.Killed? {
          ExitedHasCode(View());
          return true, exitCode;
        }
        if Terminal(status) {
          return false, None;
        }
        code := *;  // what handle.wait answers
        if code.Some? {
          return true, code;
        }
        ghost var b := View();
        confirmed, code := TryConfirmExit(me);
        KeepsTransitive(me, old(View()), b, View());
        if confirmed {
          return;
        }
        rounds := rounds - 1;
      }
      return false, None;
    }

    method ReadExitFlags(ghost me: Role) returns (sawSignal: bool, source: Source, ghost observer: nat)
      requires Inv(View()) && handle
      requires phase.Launched? || Terminal(status)
      modifies this
      ensures Inv(View()) && KeepsFor(me, old(View()), View())
      ensures observer < |readings| && readings[observer] == Reading(sawSignal, source)
      ensures sawSignal == terminationSignalSent
      ensures Terminal(status) || (phase.Launched? && Guarded(View()) && !source.FailedStartCleanup?)
    {
      hide Inv;
      Interfere(me);
      ghost var a := View();
      LaunchedSource(a);
      sawSignal, source, observer := ObserveExit();
      Stepped(me, a, Section.ObserveExit);
      KeepsTransitive(me, old(View()), a, View());
    }

    // The flag is read in one section and the status written in another.  `seen` is the record as it was
    // right after the reading: its flag, and nothing sent later, decides between KILLED and EXITED.
    method CompleteObservedExit(ghost me: Role, code: int) returns (transitioned: bool, sawSignal: bool, ghost seen: Rec)
      requires Inv(View()) && handle
      requires phase.Launched? || Terminal(status)
      modifies this
      ensures Inv(View()) && KeepsFor(me, old(View()), View()) && Terminal(status)
      ensures KeepsFor(me, old(View()), seen) && KeepsFor(me, seen, View())
      ensures sawSignal == seen.seen.signal
      ensures transitioned ==> !Terminal(seen.life.status)
      ensures transitioned ==> status == (if sawSignal then Killed else Exited) && exitCode == Some(code)
      ensures Settled(old(View())) ==> !place.InRunning?
    {
      hide Inv;
      var source: Source;
      ghost var observer: nat;
      sawSignal, source, observer := ReadExitFlags(me);
      seen := View();
      Interfere(me);
      KeepsTransitive(me, old(View()), seen, View());
      ghost var c := View();
      HandleKnown(c);
      transitioned := FinalizeRecord(observer, sawSignal, source, code);
      Stepped(me, c, Finalize(observer, code));
      KeepsTransitive(me, old(View()), c, View());
      KeepsTransitive(me, seen, c, View());
      ghost var d := View();
      MoveToFinished(me);
      KeepsTransitive(me, old(View()), d, View());
      KeepsTransitive(me, seen, d, View());
    }

    // A request that was made stays, and so does having nothing left to signal.
    ghost predicate Asked(requested: bool, givenUp: bool)
      reads this
    {
      (requested ==> terminationRequested) && (givenUp ==> GivenUp())
    }

    // There is nothing left for a termination to signal.
    ghost predicate GivenUp()
      reads this
    {
      Terminal(status) || Marked(View())
    }

    method FinishConfirmedExit(ghost me: Role, code: Option<int>) returns (out: Outcome)
      requires Inv(View()) && Live(View())
      modifies this
      ensures Inv(View()) && KeepsFor(me, old(View()), View())
      ensures out.Returned? ==> Terminal(out.status) && status == out.status
      ensures old(phase).Launched? && code.Some? ==> Terminal(status)
      ensures out.Raised? && code.Some? ==> GivenUp()
    {
      hide Inv;
      Interfere(me);
      if Terminal(status) {
        return Returned(status);
      }
      if code.None? {
        return Raised;
      }
      ghost var a := View();
      Interfere(me);
      KeepsTransitive(me, old(View()), a, View());
      if status.Running? && terminationSource.FailedStartCleanup? {
        MarkedRecovers(View());
        return Raised;
      }
      ghost var b := View();
      UnmarkedLive(b);
      LaunchedSource(b);
      HandleKnown(b);
      // the final output is drained here
      out := ClassifyAndRelease(me, code.value);
      KeepsTransitive(me, old(View()), b, View());
    }

    method ClassifyAndRelease(ghost me: Role, code: int) returns (out: Outcome)
      requires Inv(View()) && handle
      requires phase.Launched? || Terminal(status)
      modifies this
      ensures Inv(View()) && KeepsFor(me, old(View()), View())
      ensures Terminal(status) && (out.Returned? ==> status == out.status)
    {
      hide Inv;
      var transitioned, sawSignal, seen := CompleteObservedExit(me, code);
      ghost var a := View();
      Interfere(me);
      KeepsTransitive(me, old(View()), a, View());
      if !status.Exited? && !status.Killed? {
        return Raised;
      }
      ghost var b := View();
      var released := ReleaseConfirmedExit(me);  // a failure leaves the record for cleanup
      KeepsTransitive(me, old(View()), b, View());
      ghost var c := View();
      Interfere(me);
      KeepsTransitive(me, old(View()), c, View());
      return Returned(status);
    }

    // ------------------------------------------------------------ failed starts

    // At most two rounds of kill-and-wait; nothing but the handle's answers decides the result.
    method ConfirmFailedStartStopped(ghost me: Role) returns (ok: bool)
      requires Inv(View()) && handle
      modifies this
      ensures Inv(View()) && KeepsFor(me, old(View()), View())
      ensures ok ==> tries > old(tries)
    {
      hide Inv;
      var confirmed, code := TryConfirmExit(me);
      var answered := false;
      var rounds := 2;
      while rounds > 0
        invariant Inv(View()) && KeepsFor(me, old(View()), View())
        invariant answered ==> tries > old(tries)
      {
        ghost var a := View();
        var signal := HandleSignal(me);
        KeepsTransitive(me, old(View()), a, View());
        if !signal.SignalRaised? {
          answered := true;
          if signal.AlreadyGone? && signal.code.Some? {
            confirmed, code := true, signal.code;
          }
        }
        if !confirmed {
          ghost var b := View();
          confirmed, code := WaitForExitConfirmation(me);
          KeepsTransitive(me, old(View()), b, View());
        }
        rounds := if confirmed && answered then 0 else rounds - 1;
      }
      if !confirmed {
        ghost var c := View();
        confirmed, code := TryConfirmExit(me);
        KeepsTransitive(me, old(View()), c, View());
      }
      ok := confirmed && code.Some? && answered;
    }

    // Drain, close strictly, and only then write FAILED_START.
    method CompleteFailedStart(ghost me: Role) returns (ok: bool)
      requires Holding(me) && phase.Recovering?
      modifies this
      ensures Holding(me) && phase.Recovering? && (old(terminationRequested) ==> terminationRequested)
      ensures Terminal(old(status)) ==> Terminal(status)
      ensures ok ==> status.FailedStart? && !place.InRunning? && startupEvent
    {
      hide Inv;
      RecoveringStatus(View());
      ok := HandleClose(me);
      if !ok {
        return;
      }
      ok := WriteFailedStart(me);
      if !ok {
        return;
      }
      Interfere(me);
      ghost var b := View();
      SetStartupEvent();
      Stepped(Nobody, b, Section.SetStartupEvent);
      FailedStartSettled(View());
      MoveToFinished(me);
    }

    method WriteFailedStart(ghost me: Role) returns (ok: bool)
      requires Holding(me) && phase.Recovering?
      modifies this
      ensures Holding(me) && phase.Recovering? && (old(terminationRequested) ==> terminationRequested)
      ensures Terminal(old(status)) ==> Terminal(status)
      ensures ok ==> status.FailedStart?
    {
      hide Inv;
      Interfere(me);
      ghost var a := View();
      RecoveringStatus(a);
      ok := MarkRecoveredStartFailed();
      Stepped(Nobody, a, FailRecoveredStart);
    }

    // ------------------------------------------------------------ termination

    // With the termination lock held around the whole flow, whatever way it is left.
    method TerminateRecord(ghost spawner: bool, source: Source) returns (out: Outcome)
      requires Inv(View()) && External(source)
      modifies this
      ensures Inv(View()) && !terminationInProgress && !terminationLocked
      ensures out.Returned? ==> Terminal(out.status) && status == out.status && LostIsReleased(View())
    {
      hide Inv;
      BeginTermination(spawner);
      out := TerminateHolding(Role(spawner, true), source);
      EndTermination(spawner);
    }

    // This thread is inside a termination: it has the lock, the flag is up, and no request is owed.
    ghost predicate Holding(me: Role)
      reads this
    {
      Inv(View()) && me.holder && terminationInProgress && !promise
    }

    method BeginTermination(ghost spawner: bool)
      requires Inv(View())
      modifies this
      ensures Inv(View()) && KeepsFor(Role(spawner, false), old(View()), View())
      ensures terminationLocked && terminationInProgress && !promise
    {
      hide Inv;
      var me := Role(spawner, false);
      AcquireTerminationLock(me);
      ghost var a := View();
      SetTerminationInProgress(true);
      Stepped(Nobody, a, SetInProgress(true));
      Stepped(me, a, SetInProgress(true));
      KeepsTransitive(me, old(View()), a, View());
    }

    // Whatever way the flow is left.
    method EndTermination(ghost spawner: bool)
      requires Inv(View()) && terminationInProgress && !promise
      modifies this
      ensures Inv(View()) && KeepsFor(Role(spawner, false), old(View()), View())
      ensures LostIsReleased(old(View())) ==> LostIsReleased(View())
      ensures !terminationInProgress && !terminationLocked
    {
      hide Inv;
      var me, anyone := Role(spawner, true), Role(spawner, false);
      ghost var z := View();
      Interfere(me);
      if LostIsReleased(z) {
        LostStaysReleased(me, z, View());
      }
      ghost var c := View();
      LeaveTermination(anyone);
      KeepsTransitive(anyone, z, c, View());
    }

    method LeaveTermination(ghost anyone: Role)
      requires Inv(View()) && terminationInProgress && !promise && !anyone.holder
      modifies this`terminationInProgress, this`terminationLocked
      ensures Inv(View()) && KeepsFor(anyone, old(View()), View())
      ensures !terminationInProgress && !terminationLocked
    {
      hide Inv, Apply, Keeps, RoleKeeps;
      ghost var c := View();
      LockFacts(c);
      SetTerminationInProgress(false);
      Stepped(anyone, c, SetInProgress(false));
      ghost var d := View();
      SetTerminationLocked(false);
      Stepped(anyone, d, Unlock);
      KeepsTransitive(anyone, c, d, View());
    }

    method TerminateHolding(ghost me: Role, source: Source) returns (out: Outcome)
      requires Holding(me) && External(source)
      modifies this
      ensures Holding(me)
      ensures out.Returned? ==> Terminal(out.status) && status == out.status && LostIsReleased(View())
    {
      hide Inv;
      Interfere(me);
      if status.Running? && terminationSource.FailedStartCleanup? {
        MarkedRecovers(View());
        out := TerminateFailedStart(me);
        return;
      }
      Interfere(me);
      if status.Lost? && resourceCleanupPending {
        ghost var found;
        out, found := TerminateLost(me, source);
        return;
      }
      LostWithoutPending(View());
      out := TerminateUnlessSettled(me, source);
    }

    // `Interfere` while this thread holds the termination lock with the flag up.
    method Pause(ghost me: Role)
      requires Inv(View()) && terminationInProgress && me.holder && LostIsReleased(View())
      modifies this
      ensures Inv(View()) && KeepsFor(me, old(View()), View())
      ensures terminationInProgress && promise == old(promise) && LostIsReleased(View())
    {
      Interfere(me);
      LostStaysReleased(me, old(View()), View());
    }

    method TerminateUnlessSettled(ghost me: Role, source: Source) returns (out: Outcome)
      requires Holding(me) && External(source)
      requires LostIsReleased(View())
      modifies this
      ensures Holding(me)
      ensures out.Returned? ==> Terminal(out.status) && status == out.status && LostIsReleased(View())
    {
      hide Inv;
      Pause(me);
      if (status.Exited? || status.Killed?) && resourceCleanupPending {
        out := TerminateConfirmedExit(me, !source.Kill?);
        return;
      }
      Pause(me);
      var snapshot := status;
      if Terminal(snapshot) {
        return Returned(snapshot);
      }
      HandleKnown(View());
      Pause(me);
      var unset := CheckStartupEvent(me);
      if unset {
        var decided;
        decided, snapshot, out := AwaitStartup(me, source);
        if decided {
          return;
        }
      }
      HandleKnown(View());
      if snapshot.Starting? {
        return Raised;
      }
      out := TerminateRunning(me, source);
    }

    // Finding the event unset obliges this thread to register its request.
    method CheckStartupEvent(ghost me: Role) returns (unset: bool)
      requires Holding(me) && LostIsReleased(View())
      modifies this
      ensures Inv(View()) && KeepsFor(Role(me.spawner, false), old(View()), View())
      ensures terminationInProgress && LostIsReleased(View())
      ensures if unset then foundUnset else startupEvent && Holding(me)
    {
      hide Inv;
      ghost var a := View();
      unset := FindStartupUnset();
      Stepped(Role(me.spawner, false), a, CheckStartup);
    }

    // Registers the request while the start is still undecided, then waits for the startup event.
    method AwaitStartup(ghost me: Role, source: Source)
      returns (decided: bool, snapshot: Status, out: Outcome)
      requires Inv(View()) && terminationInProgress && me.holder && External(source)
      requires LostIsReleased(View())
      modifies this
      ensures Holding(me)
      ensures decided && out.Returned? ==>
                Terminal(out.status) && status == out.status && LostIsReleased(View())
      ensures !decided ==> startupEvent && LostIsReleased(View()) && !Terminal(snapshot)
      ensures !decided && snapshot.Running? ==> handle
    {
      hide Inv;
      Pause(me);
      ghost var a := View();
      RegisterRequest(source);
      Stepped(Nobody, a, Section.RequestTermination(source));
      Pause(me);  // up to the startup timeout
      snapshot := status;
      HandleKnown(View());
      Pause(me);
      // A LOST record with its handle still open is excluded here: this thread holds the flag.
      out := Raised;
      if Terminal(snapshot) {
        return true, snapshot, Returned(snapshot);
      }
      Pause(me);
      if status.Running? && terminationSource.FailedStartCleanup? {
        MarkedRecovers(View());
        out := TerminateFailedStart(me);
        return true, snapshot, out;
      }
      Pause(me);
      decided := !startupEvent;
    }

    method TerminateFailedStart(ghost me: Role) returns (out: Outcome)
      requires Holding(me) && phase.Recovering?
      modifies this
      ensures Holding(me)
      ensures out.Returned? ==> out.status.FailedStart? && status == out.status
      ensures out.Raised? ==> terminationRequested || Terminal(status)
    {
      hide Inv, Apply;
      Interfere(me);
      RecoveringStatus(View());
      if Terminal(status) {
        return Returned(status);
      }
      Interfere(me);
      ghost var a := View();
      RequestFailedStartCleanup();
      Stepped(Nobody, a, RequestFailedStart);
      RecoveringStatus(View());
      var stopped := ConfirmFailedStartStopped(me);
      if !stopped {
        return Raised;
      }
      var ok := CompleteFailedStart(me);
      if !ok {
        return Raised;
      }
      Interfere(me);
      return Returned(status);
    }

    method TerminateConfirmedExit(ghost me: Role, strict: bool) returns (out: Outcome)
      requires Holding(me)
      requires status.Exited? || status.Killed?
      modifies this
      ensures Holding(me)
      ensures out.Returned? ==> out.status == status == old(status)
      ensures out.Returned? && strict ==> closeCalled && !place.InRunning?
    {
      hide Inv;
      var ok := ReleaseConfirmedExit(me);
      if !ok && strict {
        return Raised;
      }
      Interfere(me);
      return Returned(status);
    }

    // `found` is whether the section that writes the source still finds the cleanup pending.
    method TerminateLost(ghost me: Role, source: Source) returns (out: Outcome, ghost found: bool)
      requires Holding(me) && External(source) && status.Lost?
      modifies this
      ensures Holding(me)
      ensures out.Returned? ==> out.status.Lost? && status == out.status && Released(View())
      ensures out.Returned? && found ==> !place.InRunning?
      ensures found ==> terminationRequested
    {
      hide Inv;
      Interfere(me);
      ghost var a := View();
      var cleanupPending := RequestLostCleanup(source);
      found := cleanupPending;
      Stepped(Nobody, a, Section.RequestLostCleanup(source));
      ExitedHasCode(View());
      if cleanupPending {
        out := CleanUpLost(me);
        return;
      }
      SettledIsReleased(View());
      ghost var b := View();
      Interfere(me);
      LostStaysReleased(me, b, View());
      return Returned(status), found;
    }

    // Kills, drains, closes strictly, and only then drops the pending mark and moves the record.
    method CleanUpLost(ghost me: Role) returns (out: Outcome)
      requires Holding(me) && status.Lost? && handle
      modifies this
      ensures Holding(me) && KeepsFor(Role(me.spawner, false), old(View()), View())
      ensures out.Returned? ==> out.status.Lost? && status == out.status && Released(View()) && !place.InRunning?
      ensures tries > old(tries)
    {
      hide Inv;
      var signal := HandleSignal(me);
      if signal.SignalRaised? {
        return Raised;
      }
      ghost var a := View();
      var closed := HandleClose(me);  // after the final drain
      KeepsTransitive(me, old(View()), a, View());
      if !closed {
        return Raised;
      }
      ghost var b := View();
      out := SettleLost(me);
      KeepsTransitive(Role(me.spawner, false), old(View()), b, View());
    }

    method SettleLost(ghost me: Role) returns (out: Outcome)
      requires Holding(me) && status.Lost? && closeCalled
      modifies this
      ensures Holding(me) && KeepsFor(Role(me.spawner, false), old(View()), View())
      ensures out.Returned? && out.status.Lost? && status == out.status
      ensures Released(View()) && !place.InRunning?
    {
      hide Inv;
      var anyone := Role(me.spawner, false);
      Interfere(me);
      ghost var a := View();
      var ok := ReleaseLost();
      Stepped(anyone, a, Section.ReleaseLost);
      KeepsTransitive(anyone, old(View()), a, View());
      ghost var b := View();
      MoveToFinished(me);
      KeepsTransitive(anyone, old(View()), b, View());
      ghost var c := View();
      Interfere(me);
      KeepsTransitive(anyone, old(View()), c, View());
      return Returned(status);
    }

    // The ordinary path: query, request, query again, interrupt, wait, kill, wait.  It gives up only after
    // two signals, or when there is nothing left to signal.
    method TerminateRunning(ghost me: Role, source: Source) returns (out: Outcome)
      requires Holding(me) && External(source)
      requires LostIsReleased(View()) && Live(View())
      modifies this
      ensures Holding(me)
      ensures out.Returned? ==> Terminal(out.status) && status == out.status && LostIsReleased(View())
      ensures out.Raised? ==> (tries >= old(tries) + 2 && terminationRequested) || GivenUp()
    {
      hide Inv;
      var decided;
      decided, out := FinishIfGone(me);
      if decided {
        return;
      }
      Pause(me);
      ghost var a := View();
      RegisterRequest(source);
      Stepped(Nobody, a, Section.RequestTermination(source));
      decided, out := FinishIfGone(me);
      if decided {
        return;
      }
      decided, out := TerminalResultOrRaise(me);
      if decided {
        return;
      }
      decided, out := SignalAndWait(me);  // interrupt, then the grace period
      if decided {
        return;
      }
      decided, out := SignalAndWait(me);  // kill, then the forced wait
      if decided {
        return;
      }
      return Raised;
    }

    method FinishIfGone(ghost me: Role) returns (decided: bool, out: Outcome)
      requires Holding(me)
      requires LostIsReleased(View()) && Live(View())
      modifies this
      ensures Holding(me) && LostIsReleased(View()) && Live(View()) && tries >= old(tries)
      ensures out.Returned? ==> Terminal(out.status) && status == out.status
      ensures decided && out.Raised? ==> GivenUp()
      ensures Asked(old(terminationRequested), old(GivenUp()))
    {
      hide Inv;
      out := Raised;
      ghost var a := View();
      var code;
      decided, code := TryConfirmExit(me);
      LostStaysReleased(me, a, View());
      if decided {
        a := View();
        out := FinishConfirmedExit(me, code);
        LostStaysReleased(me, a, View());
      }
    }

    // A confirmed terminal status, but LOST is never taken for a successful termination.
    method TerminalResultOrRaise(ghost me: Role) returns (decided: bool, out: Outcome)
      requires Holding(me)
      requires LostIsReleased(View()) && Live(View())
      modifies this
      ensures Holding(me) && LostIsReleased(View()) && Live(View()) && tries >= old(tries)
      ensures out.Returned? ==> Terminal(out.status) && status == out.status && !out.status.Lost?
      ensures decided ==> Terminal(status)
      ensures Asked(old(terminationRequested), old(GivenUp()))
    {
      hide Inv;
      Pause(me);
      decided := Terminal(status);
      out := if decided && !status.Lost? then Returned(status) else Raised;
    }

    method SignalAndWait(ghost me: Role) returns (decided: bool, out: Outcome)
      requires Holding(me)
      requires LostIsReleased(View()) && Live(View())
      modifies this
      ensures Holding(me) && LostIsReleased(View()) && Live(View()) && tries > old(tries)
      ensures out.Returned? ==> Terminal(out.status) && status == out.status
      ensures decided && out.Raised? ==> GivenUp()
      ensures Asked(old(terminationRequested), old(GivenUp()))
    {
      hide Inv;
      out := Raised;
      HandleKnown(View());
      ghost var a := View();
      var signal := HandleSignal(me);
      LostStaysReleased(me, a, View());
      if signal.AlreadyGone? && signal.code.Some? {
        a := View();
        out := FinishConfirmedExit(me, signal.code);
        LostStaysReleased(me, a, View());
        return true, out;
      }
      a := View();
      var code;
      decided, code := WaitForExitConfirmation(me);
      LostStaysReleased(me, a, View());
      if decided {
        a := View();
        out := FinishConfirmedExit(me, code);
        LostStaysReleased(me, a, View());
        return;
      }
      decided, out := TerminalResultOrRaise(me);
    }

    method Kill() returns (out: Outcome)
      requires Inv(View())
      modifies this
      ensures Inv(View())
      ensures out.Returned? ==> Terminal(out.status) && status == out.status && LostIsReleased(View())
    {
      out := TerminateRecord(false, Source.Kill);
    }

    // ------------------------------------------------------------ spawn

    /** From the moment the starter has returned.  The request of a terminator that found the startup
        event unset is never lost, whenever it is registered: the call then raises or reports a terminal
        status. */
    method FinishSpawn(result: StarterResult) returns (out: Outcome)
      requires Inv(View()) && phase.StarterRuns?
      modifies this
      ensures Inv(View())
      ensures out.Returned? && (foundUnset || old(terminationRequested)) ==> Terminal(out.status)
      ensures out.Returned? && !Terminal(out.status) ==> phase.Launched? && startupEvent
      ensures handle ==> place.InRunning? || (closeCalled && finalOutputCommitted)
    {
      if result.Fails? || (result.FailsWithHandle? && !result.wellFormed) {
        FailWithoutHandle();
        return Raised;
      }
      Interfere(Role(true, false));
      ghost var a := View();
      AttachHandle();
      Stepped(Nobody, a, Section.AttachHandle);
      if result.FailsWithHandle? {
        RetainFailedStart();
        return Raised;
      }
      out := Launch();
    }

    method FailWithoutHandle()
      requires Inv(View()) && phase.StarterRuns?
      modifies this
      ensures Inv(View()) && !handle && status.FailedStart? && !place.InRunning?
    {
      hide Inv;
      Interfere(Role(true, false));
      ghost var a := View();
      HandleKnown(a);
      AbandonStart();
      Stepped(Nobody, a, Section.AbandonStart);
      Interfere(Role(true, false));
      ghost var b := View();
      SetStartupEvent();
      Stepped(Nobody, b, Section.SetStartupEvent);
      FailedStartSettled(View());
      MoveToFinished(Role(true, false));
      HandleKnown(View());
    }

    method RetainFailedStart()
      requires Inv(View()) && (phase.Attached? || phase.MarkedRunning? || phase.Recovering?)
      modifies this
      ensures Inv(View()) && phase.Recovering?
    {
      hide Inv;
      Interfere(Role(true, false));
      ghost var a := View();
      PrepareFailedStart();
      Stepped(Nobody, a, Section.PrepareFailedStart);
      Interfere(Role(true, false));
      ghost var b := View();
      SetStartupEvent();
      Stepped(Nobody, b, Section.SetStartupEvent);
    }

    method Launch() returns (out: Outcome)
      requires Inv(View()) && phase.Attached?
      modifies this
      ensures Inv(View())
      ensures out.Returned? && (foundUnset || old(terminationRequested)) ==> Terminal(out.status)
      ensures out.Returned? && !Terminal(out.status) ==> phase.Launched? && startupEvent
    {
      hide Inv;
      var pidIsUsable: bool := *;
      if !pidIsUsable {
        FailStartWithHandle();
        return Raised;
      }
      Interfere(Role(true, false));
      ghost var a := View();
      var requested := EnterRunning();
      Stepped(Nobody, a, Section.EnterRunning);
      var readerStarts: bool := *;
      if !requested && !readerStarts {
        FailStartWithHandle();
        return Raised;
      }
      ghost var b := View();
      StartReader();
      Stepped(Nobody, b, Section.StartReader);
      out := ReportStarted();
    }

    method ReportStarted() returns (out: Outcome)
      requires Inv(View()) && phase.Launched?
      modifies this
      ensures Inv(View())
      ensures out.Returned? && (foundUnset || old(terminationRequested)) ==> Terminal(out.status)
      ensures out.Returned? && !Terminal(out.status) ==> phase.Launched? && startupEvent
    {
      hide Inv;
      Interfere(Role(true, false));
      ghost var a := View();
      SetStartupEvent();
      Stepped(Nobody, a, Section.SetStartupEvent);
      var requested, source := ReadRequestLocked();
      if requested {
        out := TerminateRecord(true, source);
        return;
      }
      Interfere(Role(true, false));
      return Returned(status);
    }

    // The termination lock serialises this read with an entering terminator: whoever found the startup
    // event unset has registered its request before the lock can be had.
    method ReadRequestLocked() returns (requested: bool, source: Source)
      requires Inv(View()) && phase.Launched? && startupEvent
      modifies this
      ensures Inv(View()) && KeepsFor(Role(true, false), old(View()), View())
      ensures (foundUnset ==> requested || Terminal(status)) && (old(terminationRequested) ==> requested)
      ensures External(source)
    {
      hide Inv;
      var me := Role(true, false);
      AcquireTerminationLock(me);
      ghost var a := View();
      Interfere(Role(true, true));
      KeepsTransitive(me, old(View()), a, View());
      ghost var b := View();
      LockFacts(b);
      LaunchedSource(b);
      requested := terminationRequested;
      source := if terminationSource.NoSource? then Source.Kill else terminationSource;
      Stepped(me, b, Unlock);
      SetTerminationLocked(false);
      KeepsTransitive(me, old(View()), b, View());
    }

    // Marks the record before anything is killed, so that no concurrent cleanup takes the ordinary
    // path, and keeps it for recovery when the handle could not be disposed of.
    method FailStartWithHandle()
      requires Inv(View()) && (phase.Attached? || phase.MarkedRunning?)
      modifies this
      ensures Inv(View()) && phase.Recovering?
    {
      hide Inv;
      RetainFailedStart();
      var disposed := DisposeFailedStartHandle();
      if !disposed {
        RetainFailedStart();
      }
    }

    method DisposeFailedStartHandle() returns (ok: bool)
      requires Inv(View()) && phase.Recovering?
      modifies this
      ensures Inv(View()) && phase.Recovering?
      ensures ok ==> status.FailedStart?
    {
      hide Inv;
      BeginTermination(true);
      ok := DisposeHolding(Role(true, true));
      EndTermination(true);
    }

    method DisposeHolding(ghost me: Role) returns (ok: bool)
      requires Holding(me) && phase.Recovering?
      modifies this
      ensures Holding(me) && phase.Recovering?
      ensures ok ==> status.FailedStart?
    {
      hide Inv;
      Interfere(me);
      RecoveringStatus(View());
      if Terminal(status) {
        return true;
      }
      Interfere(me);
      ghost var a := View();
      RequestFailedStartCleanup();
      Stepped(Nobody, a, RequestFailedStart);
      RecoveringStatus(View());
      ok := ConfirmFailedStartStopped(me);
      if ok {
        ok := CompleteFailedStart(me);
      }
    }

    // ------------------------------------------------------------ reader and recovery threads

    // `handedOver` is whether a termination was found in progress, which then decides the status;
    // `written` is the record right after the section that may write LOST.
    method CompleteLost() returns (ok: bool, ghost handedOver: bool, ghost written: Rec)
      requires Inv(View()) && Live(View())
      modifies this
      ensures Inv(View()) && KeepsFor(Nobody, old(View()), written) && KeepsFor(Nobody, written, View())
      ensures ok ==> status.Lost? && written.life.status.Lost?
      ensures ok ==> if written.hold.closed then !place.InRunning? else written.hold.pending
      ensures old(phase).Launched? && !ok ==> handedOver || Terminal(status)
    {
      hide Inv;
      Interfere(Nobody);
      ghost var a := View();
      HandleKnown(a);
      LaunchedSource(a);
      handedOver := terminationInProgress;
      var cleanupPending;
      ok, cleanupPending := WriteLost();
      Stepped(Nobody, a, Section.CompleteLost);
      written := View();
      KeepsTransitive(Nobody, old(View()), a, written);
      if ok && !cleanupPending {
        SettledIsReleased(written);
        MoveToFinished(Nobody);
      }
    }

    // `rounds` bounds how long the thread is watched; the source loops until it returns.
    method ReaderLoop(rounds: nat) returns (finished: bool)
      requires Inv(View()) && phase.Launched?
      modifies this
      ensures Inv(View()) && phase.Launched?
      ensures finished ==> Terminal(status)
    {
      hide Inv;
      var pollErrors := 0;
      finished := false;
      var n := rounds;
      while n > 0 && !finished
        invariant Inv(View()) && phase.Launched?
        invariant finished ==> Terminal(status)
      {
        finished, pollErrors := ReaderRound(pollErrors);
        n := n - 1;
      }
      if finished {
        ReaderExit();
      }
    }

    method ReaderRound(pollErrors: nat) returns (finished: bool, errors: nat)
      requires Inv(View()) && phase.Launched?
      modifies this
      ensures Inv(View()) && phase.Launched?
      ensures finished ==> Terminal(status)
    {
      hide Inv;
      errors := pollErrors;
      Interfere(Nobody);
      if Terminal(status) {
        return true, errors;
      }
      Interfere(Nobody);  // output is consumed, then the handle is polled
      var pollRaises: bool := *;
      if pollRaises {
        errors := errors + 1;
        if errors >= 3 {
          Interfere(Nobody);
          if !terminationInProgress {
            ghost var handedOver, written;
            finished, handedOver, written := CompleteLost();
            return;
          }
        }
        return false, errors;
      }
      errors := 0;
      var code: Option<int> := *;
      if !code.Some? {
        return false, errors;
      }
      // A launched record is never marked for failed-start cleanup, so only this branch remains; it
      // decides the status even when it raises.
      var out := FinishConfirmedExit(Nobody, code);
      return true, errors;
    }

    // What the loop runs on every way out: the status is terminal by then, whichever way it was.
    method ReaderExit()
      requires Inv(View()) && phase.Launched? && Terminal(status)
      modifies this
      ensures Inv(View()) && KeepsFor(Nobody, old(View()), View())
    {
      hide Inv;
      Interfere(Nobody);
      if !(status.Lost? && resourceCleanupPending) {
        ghost var a := View();
        var released := ReleaseConfirmedExit(Nobody);
        KeepsTransitive(Nobody, old(View()), a, View());
      }
    }

    // `left` is a failed strict close: the record stays RUNNING for an explicit cleanup.
    method FailedStartRecoveryLoop(rounds: nat) returns (finished: bool, left: bool)
      requires Inv(View()) && phase.Recovering?
      modifies this
      ensures Inv(View()) && phase.Recovering?
      ensures finished ==> status.FailedStart?
    {
      hide Inv;
      var n := rounds;
      while n > 0
        invariant Inv(View()) && phase.Recovering?
      {
        Interfere(Nobody);
        RecoveringStatus(View());
        if Terminal(status) {
          return true, false;
        }
        Interfere(Nobody);
        var polledExit: bool := *;
        if polledExit {
          finished, left := FinishFailedStartRecovery();
          if finished || left {
            return;
          }
        }
        n := n - 1;
      }
      return false, false;
    }

    method FinishFailedStartRecovery() returns (finished: bool, raised: bool)
      requires Inv(View()) && phase.Recovering?
      modifies this
      ensures Inv(View()) && phase.Recovering?
      ensures finished ==> status.FailedStart?
    {
      hide Inv;
      BeginTermination(false);
      finished, raised := RecoverHolding(Role(false, true));
      EndTermination(false);
    }

    method RecoverHolding(ghost me: Role) returns (finished: bool, raised: bool)
      requires Holding(me) && phase.Recovering?
      modifies this
      ensures Holding(me) && phase.Recovering?
      ensures finished ==> status.FailedStart?
    {
      hide Inv;
      Interfere(me);
      RecoveringStatus(View());
      if Terminal(status) {
        return true, false;
      }
      var confirmed, code := TryConfirmExit(me);
      if !confirmed {
        return false, false;
      }
      finished := CompleteFailedStart(me);
      raised := !finished;
    }

    // ------------------------------------------------------------ registry

    // The expiry test and the removal are two sections.
    method PruneRecord(expired: bool)
      requires Inv(View())
      modifies this
      ensures Inv(View())
      ensures place.Pruned? && !old(place).Pruned? ==> Terminal(status) && Released(View())
      ensures expired && Terminal(old(status)) && !old(place).InRunning? ==> place.Pruned?
    {
      Interfere(Nobody);
      if !Terminal(status) || !expired {
        return;
      }
      Interfere(Nobody);
      ghost var a := View();
      PruneEntry();
      Stepped(Nobody, a, Section.Prune);
    }

    // `look` is the record in the section that settled the answer.
    method CleanupRecordCompleted() returns (completed: bool, ghost look: Rec)
      requires Inv(View())
      modifies this
      ensures Inv(View()) && Inv(look) && Keeps(old(View()), look) && Keeps(look, View())
      ensures completed <==> Cleaned(look)
      ensures completed ==> Cleaned(View())
    {
      hide Inv;
      Interfere(Nobody);
      look := View();
      KeepsItself(look);
      if handle && !closeCalled {
        return false, look;
      }
      ghost var first := look;
      Interfere(Nobody);
      look := View();
      KeepsTransitive(Nobody, old(View()), first, look);
      KeepsItself(look);
      FinishedIsClean(look);
      completed := !place.InRunning?;
    }
  }

  // -------------------------------------------------------------------- batch cleanup

  predicate Cleaned(r: Rec) { !r.hold.place.InRunning? && Terminal(r.life.status) && Released(r) }

  lemma KeepsItself(r: Rec)
    ensures Keeps(r, r)
  {
  }

  lemma FinishedIsClean(r: Rec)
    requires Inv(r)
    ensures Cleaned(r) <==> !r.hold.place.InRunning?
  {
  }

  lemma CleanedIsKept(a: Rec, b: Rec)
    requires Inv(a) && Inv(b) && Keeps(a, b) && Cleaned(a)
    ensures Cleaned(b)
  {
  }

  // All records move on as well while one is being terminated.
  method InterfereAll(records: seq<ProcessRecord>)
    requires forall r :: r in records ==> Inv(r.View())
    modifies records
    ensures forall r :: r in records ==> Inv(r.View()) && Keeps(old(r.View()), r.View())
  {
    hide Inv, Keeps;
    forall r | r in records
      ensures Keeps(r.View(), r.View())
    {
      KeepsItself(r.View());
    }
  }

  // `part` are the elements of `records` at these places, in the order of capture.
  predicate PickedAt(part: seq<ProcessRecord>, records: seq<ProcessRecord>, at: seq<nat>) {
    && |at| == |part|
    && (forall i, j :: 0 <= i < j < |at| ==> at[i] < at[j])
    && (forall k :: 0 <= k < |at| ==> at[k] < |records| && part[k] == records[at[k]])
  }

  ghost predicate InOrder(part: seq<ProcessRecord>, records: seq<ProcessRecord>) {
    exists at: seq<nat> :: PickedAt(part, records, at)
  }

  // A termination that returned has reported the status that was found.
  predicate StatusKnown(out: Outcome, look: Rec) {
    out.Returned? ==> Terminal(out.status) && look.life.status == out.status
  }

  // The next record is taken, or passed over.
  lemma PickMore(part: seq<ProcessRecord>, records: seq<ProcessRecord>, r: ProcessRecord)
    requires InOrder(part, records)
    ensures InOrder(part + [r], records + [r]) && InOrder(part, records + [r])
  {
    var at: seq<nat> :| PickedAt(part, records, at);
    assert PickedAt(part + [r], records + [r], at + [|records|]);
    assert PickedAt(part, records + [r], at);
  }

  // The marks say on which side each record is.
  ghost predicate OnSide(
      completed: seq<ProcessRecord>, unresolved: seq<ProcessRecord>, records: seq<ProcessRecord>, marks: seq<bool>)
  {
    && |marks| == |records|
    && (forall i :: 0 <= i < |records| ==> if marks[i] then records[i] in completed else records[i] in unresolved)
    && (forall r :: r in completed ==> exists i :: 0 <= i < |records| && records[i] == r && marks[i])
  }

  ghost predicate SplitBy(
      completed: seq<ProcessRecord>, unresolved: seq<ProcessRecord>, records: seq<ProcessRecord>, marks: seq<bool>)
  {
    && OnSide(completed, unresolved, records, marks)
    && InOrder(completed, records) && InOrder(unresolved, records)
    && multiset(completed) + multiset(unresolved) == multiset(records)
  }

  lemma NothingSplit()
    ensures SplitBy([], [], [], [])
  {
    assert PickedAt([], [], []);
  }

  lemma TakenOnSide(completed: seq<ProcessRecord>, unresolved: seq<ProcessRecord>, records: seq<ProcessRecord>,
                    marks: seq<bool>, r: ProcessRecord)
    requires OnSide(completed, unresolved, records, marks)
    ensures OnSide(completed + [r], unresolved, records + [r], marks + [true])
  {
    var all, now := records + [r], marks + [true];
    assert all[|records|] == r && now[|records|];
    forall x | x in completed + [r]
      ensures exists i :: 0 <= i < |all| && all[i] == x && now[i]
    {
      if x in completed {
        var i :| 0 <= i < |records| && records[i] == x && marks[i];
        assert all[i] == x && now[i];
      }
    }
  }

  lemma LeftOnSide(completed: seq<ProcessRecord>, unresolved: seq<ProcessRecord>, records: seq<ProcessRecord>,
                   marks: seq<bool>, r: ProcessRecord)
    requires OnSide(completed, unresolved, records, marks)
    ensures OnSide(completed, unresolved + [r], records + [r], marks + [false])
  {
    var all, now := records + [r], marks + [false];
    forall x | x in completed
      ensures exists i :: 0 <= i < |all| && all[i] == x && now[i]
    {
      var i :| 0 <= i < |records| && records[i] == x && marks[i];
      assert all[i] == x && now[i];
    }
  }

  lemma MultisetMore(part: seq<ProcessRecord>, r: ProcessRecord)
    ensures multiset(part + [r]) == multiset(part) + multiset([r])
  {
  }

  lemma SplitMore(completed: seq<ProcessRecord>, unresolved: seq<ProcessRecord>, records: seq<ProcessRecord>,
                  marks: seq<bool>, r: ProcessRecord, mark: bool)
    requires SplitBy(completed, unresolved, records, marks)
    ensures mark ==> SplitBy(completed + [r], unresolved, records + [r], marks + [mark])
    ensures !mark ==> SplitBy(completed, unresolved + [r], records + [r], marks + [mark])
  {
    hide InOrder, OnSide;
    PickMore(completed, records, r);
    PickMore(unresolved, records, r);
    MultisetMore(records, r);
    if mark {
      TakenOnSide(completed, unresolved, records, marks, r);
      MultisetMore(completed, r);
    } else {
      LeftOnSide(completed, unresolved, records, marks, r);
      MultisetMore(unresolved, r);
    }
  }

  // One record: `look` is what was found once the termination had returned, or raised.
  method CleanUpOne(record: ProcessRecord, source: Source) returns (done: bool, ghost out: Outcome, ghost look: Rec)
    requires Inv(record.View()) && External(source)
    modifies record
    ensures Inv(record.View()) && Inv(look) && Keeps(look, record.View()) && StatusKnown(out, look)
    ensures done <==> out.Returned? && Cleaned(look)
  {
    hide Inv, Keeps, Cleaned;
    var outcome := record.TerminateRecord(false, source);
    out, done, look := outcome, false, record.View();
    KeepsItself(look);
    if outcome.Returned? {
      ghost var ended := record.View();
      done, look := record.CleanupRecordCompleted();
      StatusStays(ended, look);
    }
  }

  lemma StatusStays(a: Rec, b: Rec)
    requires Keeps(a, b) && Terminal(a.life.status)
    ensures b.life.status == a.life.status
  {
  }

  // The next record; all others move on meanwhile, and what they were found in before is kept.
  method CleanUpNext(records: seq<ProcessRecord>, n: nat, source: Source, ghost looks: seq<Rec>)
    returns (done: bool, ghost out: Outcome, ghost look: Rec)
    requires n < |records| && |looks| == n && External(source)
    requires forall i, j :: 0 <= i < j < |records| ==> records[i] != records[j]
    requires forall r :: r in records ==> Inv(r.View())
    requires forall i :: 0 <= i < n ==> Inv(looks[i]) && Keeps(looks[i], records[i].View())
    modifies records
    ensures forall r :: r in records ==> Inv(r.View())
    ensures forall i :: 0 <= i < n ==> Keeps(looks[i], records[i].View())
    ensures Inv(look) && Keeps(look, records[n].View()) && StatusKnown(out, look)
    ensures done <==> out.Returned? && Cleaned(look)
  {
    hide Inv, Keeps, Cleaned, StatusKnown;
    InterfereAll(records);
    forall i | 0 <= i < n
      ensures Keeps(looks[i], records[i].View())
    {
      LooksChain(looks[i], old(records[i].View()), records[i].View());
    }
    done, out, look := CleanUpOne(records[n], source);
  }

  /** The report holds every captured record once, in capture order on both sides.  Completed is exactly who was
      found released and out of the running table once its termination had returned, and still is; every
      other record is unresolved. */
  method CleanupRecords(records: seq<ProcessRecord>, source: Source)
    returns (completed: seq<ProcessRecord>, unresolved: seq<ProcessRecord>, ghost outs: seq<Outcome>, ghost looks: seq<Rec>)
    requires forall i, j :: 0 <= i < j < |records| ==> records[i] != records[j]
    requires External(source)
    requires forall r :: r in records ==> Inv(r.View())
    modifies records
    ensures multiset(completed) + multiset(unresolved) == multiset(records)
    ensures InOrder(completed, records) && InOrder(unresolved, records)
    ensures |outs| == |looks| == |records|
    ensures forall i :: 0 <= i < |records| ==>
              StatusKnown(outs[i], looks[i]) && Keeps(looks[i], records[i].View())
    ensures forall i :: 0 <= i < |records| ==>
              if outs[i].Returned? && Cleaned(looks[i]) then records[i] in completed else records[i] in unresolved
    ensures forall r :: r in records ==> Inv(r.View())
    ensures forall r :: r in completed ==> Cleaned(r.View())
  {
    hide Inv, Keeps, Cleaned, StatusKnown, SplitBy;
    completed, unresolved, outs, looks := [], [], [], [];
    ghost var marks: seq<bool> := [];
    NothingSplit();
    for n := 0 to |records|
      invariant |outs| == |looks| == |marks| == n && SplitBy(completed, unresolved, records[..n], marks)
      invariant forall r :: r in records ==> Inv(r.View())
      invariant forall i :: 0 <= i < n ==> Inv(looks[i]) && StatusKnown(outs[i], looks[i])
      invariant forall i :: 0 <= i < n ==> Keeps(looks[i], records[i].View())
      invariant forall i :: 0 <= i < n ==> (marks[i] <==> outs[i].Returned? && Cleaned(looks[i]))
    {
      var cleaned;
      ghost var out, look;
      cleaned, out, look := CleanUpNext(records, n, source, looks);
      SplitMore(completed, unresolved, records[..n], marks, records[n], cleaned);
      assert records[..n + 1] == records[..n] + [records[n]];
      outs, looks, marks := outs + [out], looks + [look], marks + [cleaned];
      if cleaned {
        completed := completed + [records[n]];
      } else {
        unresolved := unresolved + [records[n]];
      }
    }
    assert records[..|records|] == records;
    StillCleaned(completed, unresolved, records, marks, looks);
    SplitFacts(completed, unresolved, records, marks);
  }

  lemma SplitFacts(completed: seq<ProcessRecord>, unresolved: seq<ProcessRecord>, records: seq<ProcessRecord>, marks: seq<bool>)
    requires SplitBy(completed, unresolved, records, marks)
    ensures multiset(completed) + multiset(unresolved) == multiset(records)
    ensures InOrder(completed, records) && InOrder(unresolved, records)
    ensures |marks| == |records|
    ensures forall i :: 0 <= i < |records| ==> if marks[i] then records[i] in completed else records[i] in unresolved
  {
  }

  // What was clean when it was looked at still is.
  lemma StillCleaned(completed: seq<ProcessRecord>, unresolved: seq<ProcessRecord>, records: seq<ProcessRecord>,
                     marks: seq<bool>, looks: seq<Rec>)
    requires SplitBy(completed, unresolved, records, marks) && |looks| == |records|
    requires forall i :: 0 <= i < |records| ==> Inv(looks[i]) && Inv(records[i].View()) && Keeps(looks[i], records[i].View())
    requires forall i :: 0 <= i < |records| && marks[i] ==> Cleaned(looks[i])
    ensures forall r :: r in completed ==> Cleaned(r.View())
  {
    hide Inv, Keeps, Cleaned, InOrder;
    forall r | r in completed
      ensures Cleaned(r.View())
    {
      var i :| 0 <= i < |records| && records[i] == r && marks[i];
      CleanedIsKept(looks[i], records[i].View());
    }
  }

  lemma LooksChain(a: Rec, b: Rec, c: Rec)
    requires Inv(a) && Inv(b) && Keeps(a, b) && Keeps(b, c)
    ensures Keeps(a, c)
  {
    KeepsTransitive(Nobody, a, b, c);
  }
}
