/** A registered container from its start on: the monitor and any number of cancel calls under their shared lock, and
everyone who disposes of it, step by step. */
module SandboxProtocol {
  import opened Prelude
  import opened Records

  // ---------------------------------------------------------------- the shared state

  /** Why the container is not running. A confirmed kill is one the engine reported as successful. */
  datatype Cause = NotStopped | ItselfExited | KilledByMonitor | KilledByConfirmedCancel | KilledUnconfirmed

  datatype Container = Container(running: bool, oomKilled: bool, exitCode: int, cause: Cause)

  /** Where the monitor is. Before the container is started there is none; it holds the lock while `Locked`, `PastFlag`
      or `Saw`. */
  datatype MonitorAt =
    | NotStarted
    | Waiting
    | Locked
    | PastFlag
    | Saw(view: Container)
    | Answered(termination: SandboxTermination, exitCode: Option<int>)
  {
    predicate HoldsLock() {
      Locked? || PastFlag? || Saw?
    }
  }

  /** Where a cancel call is: it holds the lock while `CancelLocked`, `CancelPastFlag` or `CancelKilled`. */
  datatype CancelAt =
    | CancelWaiting
    | CancelLocked
    | CancelPastFlag
    | CancelKilled(success: bool)
    | CancelAnswered(confirmed: bool)
  {
    predicate HoldsLock() {
      CancelLocked? || CancelPastFlag? || CancelKilled?
    }
  }

  datatype Owner = Monitor | Canceller(call: nat)

  /** The final termination, exit code and cleanup of an execution. */
  datatype Final = Final(termination: SandboxTermination, exitCode: Option<int>, cleanup: SandboxCleanup)

  /** Where `execute_inner` is once the container runs: it waits for the monitor; its guard kills and removes the
      container; it collects the output paths and closes the temporary directory, which settles the result; it
      gives up the registration; and the guard, if it is not clean, kills and removes once more when dropped. */
  datatype ExecutorAt =
    | Monitoring
    | GuardKilled
    | GuardRemoved(cleanup: SandboxCleanup)
    | PathsCollected(cleanup: SandboxCleanup, ok: bool)
    | DirectoryClosed(final: Final, cleaned: bool)
    | Unregistered(final: Final, cleaned: bool)
    | DropKilled(final: Final)
    | Done(final: Final, removals: nat)
  {
    predicate HasFinal() {
      DirectoryClosed? || Unregistered? || DropKilled? || Done?
    }
  }

  /** Where the `cleanup` call of the backend is; taking the registration lets at most one such call go on. */
  datatype CleanupAt = NoCleanup | CleanupTook | CleanupKilled | CleanupAnswered(ok: bool)

  /** What the threads share: the lock and the flag under it, whether the engine has reported a successful kill of a
      container that was not started yet, the registration, the container, whether it still exists, whether the
      temporary directory does, and where every thread is. */
  datatype Shared = Shared(lock: Option<Owner>,
                           confirmed: bool,
                           killedEarly: bool,
                           registered: bool,
                           container: Container,
                           present: bool,
                           directory: bool,
                           attachmentFailed: bool,
                           monitor: MonitorAt,
                           cancels: map<nat, CancelAt>,
                           executor: ExecutorAt,
                           cleanup: CleanupAt)
  {
    predicate MonitorHoldsLock() {
      monitor.HoldsLock()
    }
  }

  /** The container was created and registered, and is about to be started. */
  predicate IsStart(s: Shared) {
    && s.lock.None? && !s.confirmed && !s.killedEarly && !s.container.running && s.container.cause.NotStopped?
    && s.registered && s.present && s.directory
    && !s.attachmentFailed && s.monitor.NotStarted? && s.cancels == map[]
    && s.executor.Monitoring? && s.cleanup.NoCleanup?
  }

  /** One atomic step of the container, the monitor, a cancel call, the executor or a cleanup call. The booleans
      are what the system answers: whether a command reports success, whether it stops the container or makes it
      go away all the same, whether inspection works. */
  datatype Step =
    | ContainerStarts
    | StartFails(runs: bool)
    | ContainerExits(oom: bool, code: int)
    | MonitorLocks
    | MonitorReadsFlag
    | MonitorTimesOut(success: bool, stops: bool)
    | MonitorHearsAttachment(failed: bool)
    | MonitorInspects
    | MonitorFailsToInspect(stops: bool)
    | MonitorDecides(stops: bool)
    | CancelArrives(call: nat)
    | CancelLocks(call: nat)
    | CancelReadsFlag(call: nat)
    | CancelKills(call: nat, success: bool, stops: bool)
    | CancelPublishes(call: nat)
    | GuardKills(stops: bool)
    | GuardRemoves(success: bool, gone: bool, failureCode: string)
    | ExecutorCollects(ok: bool)
    | ExecutorCloses(success: bool, gone: bool)
    | ExecutorUnregisters
    | DropKills(stops: bool)
    | DropRemoves(success: bool, gone: bool)
    | CleanupTakes
    | CleanupKills(stops: bool)
    | CleanupRemoves(success: bool, gone: bool)
  {
    predicate IsStarts() {
      ContainerStarts? || StartFails?
    }

    predicate IsMonitors() {
      || MonitorLocks? || MonitorReadsFlag? || MonitorTimesOut? || MonitorHearsAttachment?
      || MonitorInspects? || MonitorFailsToInspect? || MonitorDecides?
    }

    predicate IsCancels() {
      CancelArrives? || CancelLocks? || CancelReadsFlag? || CancelKills? || CancelPublishes?
    }

    /** The container's own end, or a step of someone who disposes of it. */
    predicate Disposes() {
      !IsStarts() && !IsMonitors() && !IsCancels()
    }
  }

  /** A kill that reports success leaves the container stopped; one that does not may have stopped it. */
  function Kill(c: Container, success: bool, stops: bool, killer: Cause): Container {
    if c.running && (success || stops)
    then c.(running := false, exitCode := 137, cause := if success then killer else KilledUnconfirmed)
    else c
  }

  /** A removal that reports success leaves no container; one that does not may have removed it. */
  function Remove(s: Shared, success: bool, gone: bool): Shared {
    if success || gone then s.(container := Kill(s.container, false, true, KilledUnconfirmed), present := false) else s
  }

  predicate Enabled(s: Shared, step: Step) {
    match step
    case ContainerStarts => s.monitor.NotStarted? && s.present
    case StartFails(runs) => s.monitor.NotStarted? && (runs ==> s.present)
    case ContainerExits(_, _) => s.container.running
    case MonitorLocks => s.monitor.Waiting? && s.lock.None?
    case MonitorReadsFlag => s.monitor.Locked?
    case MonitorTimesOut(success, _) => s.monitor.PastFlag? && (success ==> s.present)
    case MonitorHearsAttachment(_) => s.monitor.PastFlag?
    case MonitorInspects => s.monitor.PastFlag? && s.present
    case MonitorFailsToInspect(_) => s.monitor.PastFlag?
    case MonitorDecides(_) => s.monitor.Saw?
    case CancelArrives(call) => call !in s.cancels && s.registered
    case CancelLocks(call) => call in s.cancels && s.cancels[call].CancelWaiting? && s.lock.None?
    case CancelReadsFlag(call) => call in s.cancels && s.cancels[call].CancelLocked?
    case CancelKills(call, success, _) =>
      call in s.cancels && s.cancels[call].CancelPastFlag? && (success ==> s.present)
    case CancelPublishes(call) => call in s.cancels && s.cancels[call].CancelKilled?
    case GuardKills(_) => s.monitor.Answered? && s.executor.Monitoring?
    case GuardRemoves(_, _, _) => s.executor.GuardKilled?
    case ExecutorCollects(_) => s.executor.GuardRemoved?
    case ExecutorCloses(_, _) => s.monitor.Answered? && s.executor.PathsCollected?
    case ExecutorUnregisters => s.executor.DirectoryClosed?
    case DropKills(_) => s.executor.Unregistered? && !s.executor.cleaned
    case DropRemoves(_, _) => s.executor.DropKilled?
    case CleanupTakes => s.registered && s.cleanup.NoCleanup?
    case CleanupKills(_) => s.cleanup.CleanupTook?
    case CleanupRemoves(_, _) => s.cleanup.CleanupKilled?
  }

  /** A start that is reported as failed leaves no monitor, and may have started the container all the same. */
  function AfterStart(s: Shared, step: Step): Shared
    requires Enabled(s, step) && step.IsStarts()
  {
    match step
    case ContainerStarts => s.(container := Container(true, false, 0, NotStopped), monitor := Waiting)
    case StartFails(runs) =>
      s.(container := if runs then Container(true, false, 0, NotStopped) else s.container,
         monitor := Answered(SandboxTermination.Failed, None))
  }

  /** Where the monitor's step takes it. */
  function MonitorNext(s: Shared, step: Step): MonitorAt
    requires Enabled(s, step) && step.IsMonitors()
  {
    match step
    case MonitorLocks => Locked
    case MonitorReadsFlag => if s.confirmed then Answered(SandboxTermination.Cancelled, None) else PastFlag
    case MonitorTimesOut(success, _) =>
      Answered(if success then SandboxTermination.TimedOut else SandboxTermination.Failed, None)
    case MonitorHearsAttachment(_) => s.monitor
    case MonitorInspects => Saw(s.container)
    case MonitorFailsToInspect(_) => Answered(SandboxTermination.Failed, None)
    case MonitorDecides(_) =>
      var view := s.monitor.view;
      if view.running && s.attachmentFailed then Answered(SandboxTermination.Failed, None)
      else if view.running then Waiting
      else if view.oomKilled then Answered(OutOfMemory, None)
      else Answered(Exited, Some(view.exitCode))
  }

  /** What the monitor's step makes of the container: it kills it when it gives up on it. */
  function MonitorLeaves(s: Shared, step: Step): Container
    requires Enabled(s, step) && step.IsMonitors()
  {
    match step
    case MonitorTimesOut(success, stops) => Kill(s.container, success, stops, KilledByMonitor)
    case MonitorFailsToInspect(stops) => Kill(s.container, false, stops, KilledByMonitor)
    case MonitorDecides(stops) =>
      if s.monitor.view.running && s.attachmentFailed then Kill(s.container, false, stops, KilledByMonitor)
      else s.container
    case _ => s.container
  }

  function AfterMonitor(s: Shared, step: Step): Shared
    requires Enabled(s, step) && step.IsMonitors()
  {
    var next := MonitorNext(s, step);
    s.(monitor := next, lock := if next.HoldsLock() then Some(Monitor) else None, container := MonitorLeaves(s, step),
       attachmentFailed := s.attachmentFailed || (step.MonitorHearsAttachment? && step.failed))
  }

  function AfterCancel(s: Shared, step: Step): Shared
    requires Enabled(s, step) && step.IsCancels()
  {
    match step
    case CancelArrives(call) => s.(cancels := s.cancels[call := CancelWaiting])
    case CancelLocks(call) => s.(cancels := s.cancels[call := CancelLocked], lock := Some(Canceller(call)))
    case CancelReadsFlag(call) =>
      if s.confirmed then s.(cancels := s.cancels[call := CancelAnswered(true)], lock := None)
      else s.(cancels := s.cancels[call := CancelPastFlag])
    case CancelKills(call, success, stops) =>
      s.(container := Kill(s.container, success, stops, KilledByConfirmedCancel),
         killedEarly := s.killedEarly || (success && s.monitor.NotStarted?),
         cancels := s.cancels[call := CancelKilled(success)])
    case CancelPublishes(call) =>
      var success := s.cancels[call].success;
      s.(confirmed := s.confirmed || success, cancels := s.cancels[call := CancelAnswered(success)], lock := None)
  }

  /** The container's own end and the steps that dispose of it; none of them takes the lock. */
  function AfterDisposal(s: Shared, step: Step): Shared
    requires Enabled(s, step) && step.Disposes()
  {
    match step
    case ContainerExits(oom, code) => s.(container := Container(false, oom, code, ItselfExited))
    case GuardKills(stops) =>
      s.(container := Kill(s.container, false, stops, KilledUnconfirmed), executor := GuardKilled)
    case GuardRemoves(success, gone, failureCode) =>
      var cleanup := if success then CleanupSucceeded else CleanupFailed(failureCode);
      Remove(s, success, gone).(executor := GuardRemoved(cleanup))
    case ExecutorCollects(ok) => s.(executor := PathsCollected(s.executor.cleanup, ok))
    case ExecutorCloses(success, gone) =>
      var final := Concluded((s.monitor.termination, s.monitor.exitCode), s.executor.cleanup, s.executor.ok, success);
      s.(directory := s.directory && !success && !gone,
         executor := DirectoryClosed(final, s.executor.cleanup.CleanupSucceeded?))
    case ExecutorUnregisters =>
      s.(registered := false,
         executor := if s.executor.cleaned then Done(s.executor.final, 1) else Unregistered(s.executor.final, false))
    case DropKills(stops) =>
      s.(container := Kill(s.container, false, stops, KilledUnconfirmed), executor := DropKilled(s.executor.final))
    case DropRemoves(success, gone) => Remove(s, success, gone).(executor := Done(s.executor.final, 2))
    case CleanupTakes => s.(registered := false, cleanup := CleanupTook)
    case CleanupKills(stops) =>
      s.(container := Kill(s.container, false, stops, KilledUnconfirmed), cleanup := CleanupKilled)
    case CleanupRemoves(success, gone) => Remove(s, success, gone).(cleanup := CleanupAnswered(success))
  }

  function After(s: Shared, step: Step): Shared
    requires Enabled(s, step)
  {
    if step.IsStarts() then AfterStart(s, step)
    else if step.IsMonitors() then AfterMonitor(s, step)
    else if step.IsCancels() then AfterCancel(s, step)
    else AfterDisposal(s, step)
  }

  // ---------------------------------------------------------------- the final result

  const TEMPORARY_REMOVE_FAILED := "temporary.remove_failed"

  /** `combine_cleanup`. */
  function CombineCleanup(container: SandboxCleanup, closed: bool): SandboxCleanup {
    if container.CleanupFailed? then container
    else if closed then CleanupSucceeded
    else CleanupFailed(TEMPORARY_REMOVE_FAILED)
  }

  /** What the monitor's answer, the guard's cleanup, the collected paths and the closed directory come to. */
  function Concluded(answer: (SandboxTermination, Option<int>), removal: SandboxCleanup, pathsCollected: bool,
                     closed: bool): Final
  {
    var cleanup := CombineCleanup(removal, closed);
    if !pathsCollected || (answer.0.Cancelled? && !cleanup.CleanupSucceeded?)
    then Final(SandboxTermination.Failed, None, cleanup)
    else Final(answer.0, answer.1, cleanup)
  }

  /** How `execute_inner` turns the monitor's answer into the final one. */
  method Conclude(answer: (SandboxTermination, Option<int>), removal: SandboxCleanup, pathsCollected: bool,
                  closed: bool)
    returns (final: Final)
    ensures final == Concluded(answer, removal, pathsCollected, closed)
    ensures final.termination.Cancelled? <==>
            answer.0.Cancelled? && removal.CleanupSucceeded? && pathsCollected && closed
    ensures final.termination.Cancelled? ==> final.cleanup.CleanupSucceeded?
    ensures final.termination == answer.0 || final.termination == SandboxTermination.Failed
  {
    var termination, exitCode := answer.0, answer.1;
    if !pathsCollected { termination, exitCode := SandboxTermination.Failed, None; }
    var cleanup := CombineCleanup(removal, closed);
    if termination.Cancelled? && !cleanup.CleanupSucceeded? {
      termination, exitCode := SandboxTermination.Failed, None;
    }
    return Final(termination, exitCode, cleanup);
  }

  // ---------------------------------------------------------------- the invariant

  /** At most one section holds the lock. */
  ghost predicate Exclusive(s: Shared) {
    && (s.lock == Some(Monitor) <==> s.MonitorHoldsLock())
    && (forall call | call in s.cancels :: s.lock == Some(Canceller(call)) <==> s.cancels[call].HoldsLock())
    && (s.lock.Some? && s.lock.value.Canceller? ==> s.lock.value.call in s.cancels)
  }

  /** Some cancel call has killed the container and is about to publish it. */
  ghost predicate AboutToPublish(s: Shared) {
    s.lock.Some? && s.lock.value.Canceller? && s.lock.value.call in s.cancels
      && s.cancels[s.lock.value.call] == CancelKilled(true)
  }

  predicate ReportsOwnEnd(termination: SandboxTermination) {
    termination.Exited? || termination.OutOfMemory? || termination.TimedOut?
  }

  ghost predicate Safe(s: Shared) {
    && Exclusive(s)
    && (s.container.running ==> s.container.cause.NotStopped?)
    && (s.confirmed || AboutToPublish(s) ==> !s.container.running || s.killedEarly)
    && (s.monitor.NotStarted? ==> !s.container.running && s.container.cause.NotStopped?)
    && (s.monitor.NotStarted? && (s.confirmed || AboutToPublish(s)) ==> s.killedEarly)
    && (s.container.cause.KilledByConfirmedCancel? ==> s.confirmed || AboutToPublish(s))
    && (s.monitor.PastFlag? || s.monitor.Saw? ==> !s.confirmed)
    && (s.monitor.Saw? && !s.monitor.view.running ==> s.monitor.view == s.container)
    && (s.monitor.Answered? && s.monitor.termination.Cancelled? ==> s.confirmed && s.monitor.exitCode.None?)
    && (s.monitor.Answered? && ReportsOwnEnd(s.monitor.termination) ==>
          !s.container.running && !s.container.cause.KilledByConfirmedCancel?)
    && (forall call | call in s.cancels && s.cancels[call] == CancelAnswered(true) :: s.confirmed)
  }

  /** What is true of the result when the executor has one. */
  ghost predicate FinalIsTrue(s: Shared, final: Final) {
    && s.monitor.Answered? && (final.termination == s.monitor.termination || final.termination.Failed?)
    && (final.cleanup.CleanupSucceeded? ==> !s.present && !s.directory)
    && (final.termination.Cancelled? ==> s.confirmed && final.exitCode.None? && final.cleanup.CleanupSucceeded?)
  }

  /** What has been disposed of is gone, and whoever reports so is right. */
  ghost predicate Disposed(s: Shared) {
    && (!s.present ==> !s.container.running)
    && (!s.executor.Monitoring? ==> s.monitor.Answered?)
    && (s.executor.GuardRemoved? && s.executor.cleanup.CleanupSucceeded? ==> !s.present)
    && (s.executor.PathsCollected? && s.executor.cleanup.CleanupSucceeded? ==> !s.present)
    && (s.executor.DirectoryClosed? && s.executor.cleaned ==> !s.present)
    && (s.executor.Unregistered? ==> !s.executor.cleaned)
    && (s.executor.Unregistered? || s.executor.DropKilled? || s.executor.Done? ==> !s.registered)
    && (s.executor.Done? && s.executor.removals == 1 ==> !s.present)
    && (s.executor.Done? ==> 1 <= s.executor.removals <= 2)
    && (s.executor.HasFinal() ==> FinalIsTrue(s, s.executor.final))
    && (s.cleanup == CleanupAnswered(true) ==> !s.present)
  }

  lemma {:induction false} MonitorStepIsExclusive(s: Shared, step: Step)
    requires Exclusive(s) && Enabled(s, step) && step.IsMonitors()
    ensures Exclusive(AfterMonitor(s, step)) && !AboutToPublish(AfterMonitor(s, step)) && !AboutToPublish(s)
  {
    hide MonitorNext, MonitorLeaves;
    assert s.lock.None? || s.lock == Some(Monitor);
  }

  lemma {:induction false} MonitorStepIsSafe(s: Shared, step: Step)
    requires Safe(s) && Enabled(s, step) && step.IsMonitors()
    ensures Safe(After(s, step))
  {
    hide AfterStart, AfterCancel, AfterDisposal;
    MonitorStepIsExclusive(s, step);
    hide Exclusive, AboutToPublish;
  }

  /** The states differ at most in the monitor, its lock, the container and the attachment. */
  ghost predicate ApartFromDisposal(s: Shared, s': Shared) {
    s' == s.(monitor := s'.monitor, lock := s'.lock, container := s'.container, attachmentFailed := s'.attachmentFailed)
  }

  /** The monitor disposes of nothing and confirms nothing. */
  lemma {:induction false} MonitorIsApart(s: Shared, step: Step)
    requires Enabled(s, step) && step.IsMonitors()
    ensures ApartFromDisposal(s, AfterMonitor(s, step))
  {
    hide MonitorNext, MonitorLeaves;
  }

  /** Nor does it start the container again. */
  lemma {:induction false} MonitorOnlyStops(s: Shared, step: Step)
    requires Enabled(s, step) && step.IsMonitors() && AfterMonitor(s, step).container.running
    ensures s.container.running
  {
  }

  lemma {:induction false} MonitorStepKeepsDisposed(s: Shared, step: Step)
    requires Disposed(s) && Enabled(s, step) && step.IsMonitors()
    ensures Disposed(After(s, step))
  {
    hide AfterStart, AfterMonitor, AfterCancel, AfterDisposal, FinalIsTrue;
    assert s.executor.Monitoring?;
    MonitorIsApart(s, step);
    if AfterMonitor(s, step).container.running { MonitorOnlyStops(s, step); }
  }

  lemma {:induction false} CancelStepIsExclusive(s: Shared, step: Step)
    requires Exclusive(s) && Enabled(s, step) && step.IsCancels()
    ensures Exclusive(AfterCancel(s, step))
  {
  }

  lemma {:induction false} CancelStepIsSafe(s: Shared, step: Step)
    requires Safe(s) && Enabled(s, step) && step.IsCancels()
    ensures Safe(After(s, step))
  {
    hide AfterStart, AfterMonitor, AfterDisposal;
    assert step.CancelKills? || step.CancelPublishes? || step.CancelReadsFlag? ==> s.lock == Some(Canceller(step.call));
    assert s.lock == Some(Canceller(step.call)) ==> !s.MonitorHoldsLock();
    CancelStepIsExclusive(s, step);
    hide Exclusive;
  }

  lemma {:induction false} CancelStepKeepsDisposed(s: Shared, step: Step)
    requires Disposed(s) && Enabled(s, step) && step.IsCancels()
    ensures Disposed(After(s, step))
  {
    hide AfterStart, AfterMonitor, AfterDisposal;
  }

  /** The container is the same, or it has stopped, and not by a confirmed cancel. */
  predicate StaysOrStops(c: Container, c': Container) {
    c' == c || (c.running && !c'.running && !c'.cause.KilledByConfirmedCancel?)
  }

  lemma {:induction false} GuardStops(s: Shared, step: Step)
    requires Enabled(s, step)
    requires step.GuardKills? || step.GuardRemoves? || step.DropKills? || step.DropRemoves? || step.CleanupRemoves?
    ensures StaysOrStops(s.container, AfterDisposal(s, step).container)
  {
    hide Concluded;
  }

  lemma {:induction false} ExecutorStops(s: Shared, step: Step)
    requires Enabled(s, step)
    requires step.ContainerExits? || step.ExecutorCollects? || step.ExecutorCloses? || step.ExecutorUnregisters?
             || step.CleanupTakes? || step.CleanupKills?
    ensures StaysOrStops(s.container, AfterDisposal(s, step).container)
  {
    hide Concluded;
  }

  /** The states differ at most in what disposal is about, not in what the lock is for. */
  ghost predicate ApartFromLock(s: Shared, s': Shared) {
    s' == s.(container := s'.container, present := s'.present, directory := s'.directory,
             registered := s'.registered, executor := s'.executor, cleanup := s'.cleanup)
  }

  lemma {:induction false} GuardIsApart(s: Shared, step: Step)
    requires Enabled(s, step)
    requires step.GuardKills? || step.GuardRemoves? || step.DropKills? || step.DropRemoves? || step.CleanupRemoves?
    ensures ApartFromLock(s, AfterDisposal(s, step))
  {
    hide Concluded, Kill;
  }

  lemma {:induction false} ExecutorIsApart(s: Shared, step: Step)
    requires Enabled(s, step)
    requires step.ContainerExits? || step.ExecutorCollects? || step.ExecutorCloses? || step.ExecutorUnregisters?
             || step.CleanupTakes? || step.CleanupKills?
    ensures ApartFromLock(s, AfterDisposal(s, step))
  {
    hide Concluded, Kill;
  }

  /** Disposing of the container leaves alone what the lock is for. */
  lemma {:induction false} DisposalIsApart(s: Shared, step: Step)
    requires Enabled(s, step) && step.Disposes()
    ensures ApartFromLock(s, AfterDisposal(s, step)) && StaysOrStops(s.container, AfterDisposal(s, step).container)
  {
    hide AfterDisposal, StaysOrStops, ApartFromLock;
    if step.GuardKills? || step.GuardRemoves? || step.DropKills? || step.DropRemoves? || step.CleanupRemoves? {
      GuardIsApart(s, step);
      GuardStops(s, step);
    } else {
      ExecutorIsApart(s, step);
      ExecutorStops(s, step);
    }
  }

  lemma {:induction false} DisposalStepIsSafe(s: Shared, step: Step)
    requires Safe(s) && Enabled(s, step) && step.Disposes()
    ensures Safe(After(s, step))
  {
    hide AfterStart, AfterMonitor, AfterCancel, AfterDisposal;
    DisposalIsApart(s, step);
  }

  lemma {:induction false} DisposalStepKeepsDisposed(s: Shared, step: Step)
    requires Safe(s) && Disposed(s) && Enabled(s, step) && step.Disposes()
    ensures Disposed(After(s, step))
  {
    hide AfterStart, AfterMonitor, AfterCancel, Exclusive, AboutToPublish;
  }

  lemma {:induction false} StartStepIsSafe(s: Shared, step: Step)
    requires Safe(s) && Enabled(s, step) && step.IsStarts()
    ensures Safe(After(s, step))
  {
    hide AfterMonitor, AfterCancel, AfterDisposal;
  }

  lemma {:induction false} StartStepKeepsDisposed(s: Shared, step: Step)
    requires Disposed(s) && Enabled(s, step) && step.IsStarts()
    ensures Disposed(After(s, step))
  {
    hide AfterMonitor, AfterCancel, AfterDisposal, FinalIsTrue;
    assert s.executor.Monitoring?;
  }

  lemma {:induction false} StepIsSafe(s: Shared, step: Step)
    requires Safe(s) && Disposed(s) && Enabled(s, step)
    ensures Safe(After(s, step)) && Disposed(After(s, step))
  {
    hide Safe, Disposed, Enabled, After;
    if step.IsCancels() {
      CancelStepIsSafe(s, step);
      CancelStepKeepsDisposed(s, step);
    } else if step.IsMonitors() {
      MonitorStepIsSafe(s, step);
      MonitorStepKeepsDisposed(s, step);
    } else if step.IsStarts() {
      StartStepIsSafe(s, step);
      StartStepKeepsDisposed(s, step);
    } else {
      DisposalStepIsSafe(s, step);
      DisposalStepKeepsDisposed(s, step);
    }
  }

  // ---------------------------------------------------------------- all interleavings

  datatype Interleaving = Interleaving(states: seq<Shared>, steps: seq<Step>)
  {
    predicate StepAt(i: nat)
      requires i + 1 < |states| && i < |steps|
    {
      Enabled(states[i], steps[i]) && states[i + 1] == After(states[i], steps[i])
    }

    ghost predicate IsRun() {
      && |states| == |steps| + 1 && IsStart(states[0])
      && forall i | 0 <= i < |steps| :: StepAt(i)
    }
  }

  lemma {:induction false} EveryInterleavingIsSafe(t: Interleaving, i: nat)
    requires t.IsRun() && i < |t.states|
    ensures Safe(t.states[i]) && Disposed(t.states[i])
  {
    if i > 0 {
      EveryInterleavingIsSafe(t, i - 1);
      assert t.StepAt(i - 1);
      hide Safe, Disposed, Enabled, After;
      StepIsSafe(t.states[i - 1], t.steps[i - 1]);
    }
  }

  /** A container stopped by a confirmed cancel is never reported as exited, out of memory or timed out. */
  lemma {:induction false} ConfirmedCancelIsNeverMisreported(t: Interleaving, i: nat)
    requires t.IsRun() && i < |t.states|
    requires t.states[i].container.cause.KilledByConfirmedCancel? && t.states[i].monitor.Answered?
    ensures !ReportsOwnEnd(t.states[i].monitor.termination)
  {
    EveryInterleavingIsSafe(t, i);
  }

  /** The monitor has not begun its deciding turn. */
  predicate Undecided(s: Shared) {
    s.monitor.NotStarted? || s.monitor.Waiting? || s.monitor.Locked?
  }

  predicate AnswersCancelled(s: Shared) {
    s.monitor.Answered? && s.monitor.termination.Cancelled?
  }

  lemma {:induction false} ConfirmedStays(s: Shared, step: Step)
    requires Enabled(s, step) && !step.StartFails? && s.confirmed && (Undecided(s) || AnswersCancelled(s))
    ensures var s' := After(s, step); s'.confirmed && (Undecided(s') || AnswersCancelled(s'))
  {
    hide AfterDisposal, Kill;
    if step.Disposes() { DisposalIsApart(s, step); }
  }

  /** If a cancel is confirmed before the monitor reads the flag in its deciding turn, the monitor answers
      cancelled, whatever happens in between, unless it never comes to be because the start fails. */
  lemma {:induction false} ConfirmedCancelDecides(t: Interleaving, i: nat, j: nat)
    requires t.IsRun() && i <= j < |t.states| && t.states[i].confirmed && Undecided(t.states[i])
    ensures t.states[j].confirmed
    ensures Undecided(t.states[j]) || AnswersCancelled(t.states[j]) || exists k | i <= k < j :: t.steps[k].StartFails?
  {
    if i < j {
      ConfirmedCancelDecides(t, i, j - 1);
      assert t.StepAt(j - 1);
      StepStands(t.states[j - 1], t.steps[j - 1]);
      if !(exists k | i <= k < j :: t.steps[k].StartFails?) { ConfirmedStays(t.states[j - 1], t.steps[j - 1]); }
    }
  }

  /** A cancel call that answers success has stopped the container, unless the engine reported a kill of a container
      that was not started yet as successful; and the monitor and the calls never hold the lock together. */
  lemma {:induction false} SuccessfulCancelStopped(t: Interleaving, i: nat, call: nat)
    requires t.IsRun() && i < |t.states| && call in t.states[i].cancels
    ensures t.states[i].cancels[call] == CancelAnswered(true) ==>
              t.states[i].confirmed && (!t.states[i].container.running || t.states[i].killedEarly)
    ensures t.states[i].cancels[call].HoldsLock() ==> !t.states[i].MonitorHoldsLock()
    ensures forall other | other in t.states[i].cancels && other != call ::
              t.states[i].cancels[call].HoldsLock() ==> !t.states[i].cancels[other].HoldsLock()
  {
    EveryInterleavingIsSafe(t, i);
  }

  /** The engine reports, at that step, that a container which was not started yet has been killed. */
  predicate KillsEarly(s: Shared, step: Step) {
    step.CancelKills? && step.success && s.monitor.NotStarted?
  }

  lemma {:induction false} OnlyEarlyKills(s: Shared, step: Step)
    requires Enabled(s, step)
    ensures After(s, step).killedEarly <==> s.killedEarly || KillsEarly(s, step)
  {
    hide AfterStart, AfterMonitor, AfterDisposal, Kill, StaysOrStops;
    if step.IsStarts() {
      StartIsApart(s, step);
    } else if step.IsMonitors() {
      MonitorIsApart(s, step);
    } else if step.Disposes() {
      DisposalIsApart(s, step);
    }
  }

  /** That exception is exactly what it says: some cancel call's kill came before the start and was reported as
      successful. With an engine that refuses to kill what does not run, it never occurs. */
  lemma {:induction false} EarlyKillWasReported(t: Interleaving, i: nat)
    requires t.IsRun() && i < |t.states|
    ensures t.states[i].killedEarly <==> exists k | 0 <= k < i :: KillsEarly(t.states[k], t.steps[k])
  {
    if i > 0 {
      EarlyKillWasReported(t, i - 1);
      assert t.StepAt(i - 1);
      OnlyEarlyKills(t.states[i - 1], t.steps[i - 1]);
    }
  }

  /** The start, with one cancel call that has come so far. */
  function Early(lock: Option<Owner>, confirmed: bool, killed: bool, call: CancelAt): Shared {
    Shared(lock, confirmed, killed, true, Container(false, false, 0, NotStopped), true, true, false, NotStarted,
           map[0 := call], Monitoring, NoCleanup)
  }

  lemma {:induction false} EarlySteps()
    ensures var s, step := Early(None, false, false, CancelWaiting), CancelLocks(0);
            Enabled(s, step) && After(s, step) == Early(Some(Canceller(0)), false, false, CancelLocked)
    ensures var s, step := Early(Some(Canceller(0)), false, false, CancelLocked), CancelReadsFlag(0);
            Enabled(s, step) && After(s, step) == Early(Some(Canceller(0)), false, false, CancelPastFlag)
    ensures var s, step := Early(Some(Canceller(0)), false, false, CancelPastFlag), CancelKills(0, true, false);
            Enabled(s, step) && After(s, step) == Early(Some(Canceller(0)), false, true, CancelKilled(true))
    ensures var s, step := Early(Some(Canceller(0)), false, true, CancelKilled(true)), CancelPublishes(0);
            Enabled(s, step) && After(s, step) == Early(None, true, true, CancelAnswered(true))
  {
    hide AfterStart, AfterMonitor, AfterDisposal;
    assert forall a: CancelAt, b: CancelAt :: map[0 := a][0 := b] == map[0 := b];
  }

  lemma {:induction false} EarlyEnds()
    ensures var s := Early(None, false, false, CancelWaiting).(cancels := map[]);
            && IsStart(s) && Enabled(s, CancelArrives(0))
            && After(s, CancelArrives(0)) == Early(None, false, false, CancelWaiting)
    ensures var s := Early(None, true, true, CancelAnswered(true));
            Enabled(s, ContainerStarts)
            && After(s, ContainerStarts) == s.(container := Container(true, false, 0, NotStopped), monitor := Waiting)
  {
    hide AfterMonitor, AfterDisposal;
  }

  /** And it matters: a cancel call can answer success, and the container be started and run after that. */
  lemma {:induction false} RunningAfterSuccessfulCancel() returns (t: Interleaving)
    ensures t.IsRun() && |t.states| == 7 && 0 in t.states[6].cancels
    ensures t.states[6].cancels[0] == CancelAnswered(true) && t.states[6].container.running
  {
    hide After, Enabled, IsStart;
    EarlyEnds();
    EarlySteps();
    var answered := Early(None, true, true, CancelAnswered(true));
    t := Interleaving([Early(None, false, false, CancelWaiting).(cancels := map[]),
                       Early(None, false, false, CancelWaiting),
                       Early(Some(Canceller(0)), false, false, CancelLocked),
                       Early(Some(Canceller(0)), false, false, CancelPastFlag),
                       Early(Some(Canceller(0)), false, true, CancelKilled(true)), answered,
                       answered.(container := Container(true, false, 0, NotStopped), monitor := Waiting)],
                      [CancelArrives(0), CancelLocks(0), CancelReadsFlag(0), CancelKills(0, true, false),
                       CancelPublishes(0), ContainerStarts]);
    assert t.StepAt(0) && t.StepAt(1) && t.StepAt(2) && t.StepAt(3) && t.StepAt(4) && t.StepAt(5);
  }

  // ---------------------------------------------------------------- disposal

  /** What is gone stays gone, and a result stays as it is. */
  ghost predicate DisposalStands(s: Shared, s': Shared) {
    && (!s.present ==> !s'.present) && (!s.directory ==> !s'.directory) && (!s.registered ==> !s'.registered)
    && (s.confirmed ==> s'.confirmed)
    && (s.executor.HasFinal() ==> s'.executor.HasFinal() && s'.executor.final == s.executor.final)
  }

  lemma {:induction false} DisposalStepStands(s: Shared, step: Step)
    requires Enabled(s, step) && step.Disposes()
    ensures DisposalStands(s, AfterDisposal(s, step))
  {
    hide Concluded, Kill;
    match step
    case GuardRemoves(success, gone, _) =>
    case ExecutorCloses(success, gone) =>
    case ExecutorUnregisters =>
    case DropRemoves(success, gone) =>
    case CleanupRemoves(success, gone) =>
    case _ =>
  }

  lemma {:induction false} CancelStepStands(s: Shared, step: Step)
    requires Enabled(s, step) && step.IsCancels()
    ensures DisposalStands(s, AfterCancel(s, step))
  {
    hide Kill;
  }

  lemma {:induction false} StartIsApart(s: Shared, step: Step)
    requires Enabled(s, step) && step.IsStarts()
    ensures ApartFromDisposal(s, AfterStart(s, step))
  {
  }

  lemma {:induction false} StepStands(s: Shared, step: Step)
    requires Enabled(s, step)
    ensures DisposalStands(s, After(s, step))
  {
    hide AfterStart, AfterMonitor, AfterCancel, AfterDisposal;
    if step.IsStarts() {
      StartIsApart(s, step);
    } else if step.IsMonitors() {
      MonitorIsApart(s, step);
    } else if step.IsCancels() {
      CancelStepStands(s, step);
    } else {
      DisposalStepStands(s, step);
    }
  }

  lemma {:induction false} DisposalIsForever(t: Interleaving, i: nat, j: nat)
    requires t.IsRun() && i <= j < |t.states|
    ensures DisposalStands(t.states[i], t.states[j])
  {
    if i < j {
      DisposalIsForever(t, i, j - 1);
      assert t.StepAt(j - 1);
      StepStands(t.states[j - 1], t.steps[j - 1]);
    }
  }

  /** When the executor is done, nobody can reach the container through the registry, and the guard's first removal
      succeeded and the container is gone, or a second one was tried. */
  lemma {:induction false} GuardRemovesOrTriesAgain(t: Interleaving, i: nat)
    requires t.IsRun() && i < |t.states| && t.states[i].executor.Done?
    ensures !t.states[i].registered
    ensures t.states[i].executor.removals == 2 || !t.states[i].present
    ensures t.states[i].executor.final.cleanup.CleanupSucceeded? ==> !t.states[i].present && !t.states[i].directory
  {
    EveryInterleavingIsSafe(t, i);
  }

  /** From the moment a result says cancelled, whatever else happens: a kill was confirmed, the container is
      stopped and does not exist any more, and neither does the temporary directory. */
  lemma {:induction false} FinalCancelledMeansDisposed(t: Interleaving, i: nat, j: nat)
    requires t.IsRun() && i <= j < |t.states| && t.states[i].executor.HasFinal()
    requires t.states[i].executor.final.termination.Cancelled?
    ensures t.states[j].confirmed && !t.states[j].container.running && !t.states[j].present && !t.states[j].directory
    ensures t.states[j].executor.HasFinal() && t.states[j].executor.final == t.states[i].executor.final
  {
    EveryInterleavingIsSafe(t, i);
    EveryInterleavingIsSafe(t, j);
    DisposalIsForever(t, i, j);
  }

  /** A valid result of a run is evidence of cancellation for its lease exactly when it says cancelled, and then
      the sandbox it names is disposed of. */
  lemma {:induction false} EvidenceMeansDisposed(t: Interleaving, i: nat, lease: RunLease, result: SandboxResult)
    requires t.IsRun() && i < |t.states| && t.states[i].executor.HasFinal()
    requires Final(result.termination, result.exitCode, result.cleanup) == t.states[i].executor.final
    requires result.runId == lease.run.id && result.IsValid()
    ensures VerifyCancellation(lease, result).Ok? <==> result.termination.Cancelled?
    ensures VerifyCancellation(lease, result).Ok? ==>
              t.states[i].confirmed && !t.states[i].present && !t.states[i].directory
  {
    EveryInterleavingIsSafe(t, i);
  }

  /** A `cleanup` call that answers success has removed the container, for good. */
  lemma {:induction false} SuccessfulCleanupRemoved(t: Interleaving, i: nat, j: nat)
    requires t.IsRun() && i <= j < |t.states| && t.states[i].cleanup == CleanupAnswered(true)
    ensures !t.states[j].present && !t.states[j].container.running
  {
    EveryInterleavingIsSafe(t, i);
    EveryInterleavingIsSafe(t, j);
    DisposalIsForever(t, i, j);
  }
}
