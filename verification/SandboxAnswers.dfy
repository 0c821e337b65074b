/** What the monitor and the executor answer about a container, and that it is true of the container. */
module SandboxAnswers {
  import opened Prelude
  import opened Records
  import opened SandboxProtocol

  // ---------------------------------------------------------------- the steps that answer

  /** The monitor's turn ends with an answer. */
  predicate Ends(s: Shared, step: Step) {
    || step.StartFails? || step.MonitorTimesOut? || step.MonitorFailsToInspect?
    || (step.MonitorReadsFlag? && s.confirmed)
    || (step.MonitorDecides? && s.monitor.Saw? && (!s.monitor.view.running || s.attachmentFailed))
  }

  /** The answer is what the step has found out about the container itself. */
  predicate Earns(s: Shared, step: Step, termination: SandboxTermination, exitCode: Option<int>) {
    match termination
    case Exited =>
      step.MonitorDecides? && !s.container.running && !s.container.oomKilled && exitCode == Some(s.container.exitCode)
    case OutOfMemory => step.MonitorDecides? && !s.container.running && s.container.oomKilled && exitCode.None?
    case TimedOut => step.MonitorTimesOut? && step.success && exitCode.None?
    case Cancelled => step.MonitorReadsFlag? && s.confirmed && exitCode.None?
    case Failed =>
      && exitCode.None?
      && (|| step.StartFails? || step.MonitorFailsToInspect? || (step.MonitorTimesOut? && !step.success)
          || (step.MonitorDecides? && s.monitor.Saw? && s.monitor.view.running && s.attachmentFailed))
  }

  lemma {:induction false} MonitorAnswers(s: Shared, step: Step)
    requires Safe(s) && Enabled(s, step) && (step.IsMonitors() || step.IsStarts())
    ensures !s.monitor.Answered?
    ensures var m := After(s, step).monitor;
            && (m.Answered? <==> Ends(s, step)) && (m.Answered? ==> Earns(s, step, m.termination, m.exitCode))
  {
    hide Exclusive, AboutToPublish, Kill, AfterCancel, AfterDisposal;
  }

  lemma {:induction false} OthersDoNotAnswer(s: Shared, step: Step)
    requires Enabled(s, step) && (step.IsCancels() || step.Disposes())
    ensures After(s, step).monitor == s.monitor
  {
    hide AfterStart, AfterMonitor, AfterDisposal, Kill;
    if step.Disposes() { DisposalIsApart(s, step); }
  }

  /** In every safe state every step that makes the monitor answer earns the answer, and the answer never changes. */
  lemma {:induction false} EveryAnswerIsEarned(s: Shared, step: Step)
    requires Safe(s) && Enabled(s, step)
    ensures var m := After(s, step).monitor;
            if s.monitor.Answered? then m == s.monitor
            else (m.Answered? <==> Ends(s, step)) && (m.Answered? ==> Earns(s, step, m.termination, m.exitCode))
  {
    hide Safe, After, Enabled, Earns;
    if step.IsMonitors() || step.IsStarts() { MonitorAnswers(s, step); } else { OthersDoNotAnswer(s, step); }
  }

  /** In every interleaving the monitor's answer was earned by one step, and stands since. */
  lemma {:induction false} AnswerHasItsStep(t: Interleaving, i: nat) returns (j: nat)
    requires t.IsRun() && i < |t.states| && t.states[i].monitor.Answered?
    ensures j < i && t.StepAt(j) && !t.states[j].monitor.Answered? && t.states[j + 1].monitor == t.states[i].monitor
    ensures Earns(t.states[j], t.steps[j], t.states[i].monitor.termination, t.states[i].monitor.exitCode)
  {
    hide Safe, After, Enabled, Earns, Disposed;
    EveryInterleavingIsSafe(t, i - 1);
    assert t.StepAt(i - 1);
    EveryAnswerIsEarned(t.states[i - 1], t.steps[i - 1]);
    j := i - 1;
    if t.states[i - 1].monitor.Answered? { j := AnswerHasItsStep(t, i - 1); }
  }

  // ---------------------------------------------------------------- answers stay true

  /** The answer agrees with the container as it is. */
  predicate AnswersTruly(s: Shared) {
    s.monitor.Answered? ==>
      match s.monitor.termination
      case Exited => !s.container.running && !s.container.oomKilled && s.monitor.exitCode == Some(s.container.exitCode)
      case OutOfMemory => !s.container.running && s.container.oomKilled && s.monitor.exitCode.None?
      case _ => s.monitor.exitCode.None?
  }

  lemma {:induction false} StoppedStays(s: Shared, step: Step)
    requires Enabled(s, step) && s.monitor.Answered? && !s.container.running
    ensures After(s, step).container == s.container
  {
    hide AfterStart, AfterMonitor, AfterDisposal;
    if step.Disposes() { DisposalIsApart(s, step); }
  }

  lemma {:induction false} DecisionLeavesContainer(s: Shared, step: Step)
    requires Enabled(s, step) && step.MonitorDecides? && !s.container.running
    ensures After(s, step).container == s.container
  {
    hide AfterStart, AfterCancel, AfterDisposal;
  }

  lemma {:induction false} StepAnswersTruly(s: Shared, step: Step)
    requires Safe(s) && AnswersTruly(s) && Enabled(s, step)
    ensures AnswersTruly(After(s, step))
  {
    hide Safe, After, Enabled;
    EveryAnswerIsEarned(s, step);
    if s.monitor.Answered? {
      if !s.container.running { StoppedStays(s, step); }
    } else if step.MonitorDecides? && !s.container.running {
      DecisionLeavesContainer(s, step);
    }
  }

  /** In every state of every interleaving an answer of an exit is the container's exit code, an answer of lost memory
      is the container's own state, and no other answer has an exit code. */
  lemma {:induction false} EveryAnswerIsTrue(t: Interleaving, i: nat)
    requires t.IsRun() && i < |t.states|
    ensures AnswersTruly(t.states[i])
  {
    hide Safe, After, Enabled, Disposed;
    if i > 0 {
      EveryAnswerIsTrue(t, i - 1);
      EveryInterleavingIsSafe(t, i - 1);
      assert t.StepAt(i - 1);
      StepAnswersTruly(t.states[i - 1], t.steps[i - 1]);
    }
  }

  // ---------------------------------------------------------------- the final result

  /** The result is the monitor's answer, or a failure without an exit code. */
  predicate PassesOn(s: Shared) {
    s.executor.HasFinal() ==>
      && s.monitor.Answered?
      && var final := s.executor.final;
         || (final.termination == s.monitor.termination && final.exitCode == s.monitor.exitCode)
         || (final.termination.Failed? && final.exitCode.None?)
  }

  lemma {:induction false} ClosingPassesOn(s: Shared, step: Step)
    requires Enabled(s, step) && step.ExecutorCloses?
    ensures PassesOn(After(s, step))
  {
    hide AfterStart, AfterMonitor, AfterCancel, CombineCleanup;
  }

  /** Only closing the directory makes a result. */
  lemma {:induction false} OnlyClosingConcludes(s: Shared, step: Step)
    requires Enabled(s, step) && !step.ExecutorCloses? && After(s, step).executor.HasFinal()
    ensures s.executor.HasFinal() && After(s, step).executor.final == s.executor.final
  {
    hide AfterStart, AfterMonitor, Kill, Concluded;
    if step.IsStarts() { StartIsApart(s, step); }
    if step.IsMonitors() { MonitorIsApart(s, step); }
  }

  lemma {:induction false} StepPassesOn(s: Shared, step: Step)
    requires Safe(s) && PassesOn(s) && Enabled(s, step)
    ensures PassesOn(After(s, step))
  {
    hide Safe, After, Enabled;
    if step.ExecutorCloses? {
      ClosingPassesOn(s, step);
    } else if After(s, step).executor.HasFinal() {
      OnlyClosingConcludes(s, step);
      EveryAnswerIsEarned(s, step);
    }
  }

  lemma {:induction false} EveryResultIsPassedOn(t: Interleaving, i: nat)
    requires t.IsRun() && i < |t.states|
    ensures PassesOn(t.states[i])
  {
    hide Safe, After, Enabled, Disposed;
    if i > 0 {
      EveryResultIsPassedOn(t, i - 1);
      EveryInterleavingIsSafe(t, i - 1);
      assert t.StepAt(i - 1);
      StepPassesOn(t.states[i - 1], t.steps[i - 1]);
    }
  }

  /** A result of an exit has the container's exit code, of a container that stopped with memory left and by no
      confirmed cancel; no other result has an exit code. */
  lemma {:induction false} FinalExitIsTheContainers(t: Interleaving, i: nat)
    requires t.IsRun() && i < |t.states| && t.states[i].executor.HasFinal()
    ensures var (final, c) := (t.states[i].executor.final, t.states[i].container);
            && (final.exitCode.Some? <==> final.termination.Exited?)
            && (final.termination.Exited? ==> !c.running && !c.oomKilled && final.exitCode == Some(c.exitCode)
                                              && !c.cause.KilledByConfirmedCancel?)
            && (final.termination.OutOfMemory? ==> !c.running && c.oomKilled && !c.cause.KilledByConfirmedCancel?)
  {
    EveryAnswerIsTrue(t, i);
    EveryResultIsPassedOn(t, i);
    EveryInterleavingIsSafe(t, i);
  }

  /** What closing the directory makes of the monitor's answer: the cleanup is a success exactly when the guard's
      removal and the closing were, and the answer stands unless the paths were not collected or a cancelled run is
      not clean. */
  ghost predicate ConcludedBy(s: Shared, step: Step, final: Final) {
    && step.ExecutorCloses? && s.monitor.Answered? && s.executor.PathsCollected?
    && (final.cleanup.CleanupSucceeded? <==> s.executor.cleanup.CleanupSucceeded? && step.success)
    && (s.executor.cleanup.CleanupFailed? ==> final.cleanup == s.executor.cleanup)
    && if s.executor.ok && (s.monitor.termination.Cancelled? ==> final.cleanup.CleanupSucceeded?)
       then final.termination == s.monitor.termination && final.exitCode == s.monitor.exitCode
       else final.termination.Failed? && final.exitCode.None?
  }

  lemma {:induction false} ClosingConcludes(s: Shared, step: Step)
    requires Enabled(s, step) && step.ExecutorCloses?
    ensures After(s, step).executor.HasFinal() && ConcludedBy(s, step, After(s, step).executor.final)
  {
    hide AfterStart, AfterMonitor, AfterCancel;
  }

  /** In every interleaving the result was made by closing the directory, as that step says. */
  lemma {:induction false} ResultHasItsStep(t: Interleaving, i: nat) returns (j: nat)
    requires t.IsRun() && i < |t.states| && t.states[i].executor.HasFinal()
    ensures j < i && t.StepAt(j) && ConcludedBy(t.states[j], t.steps[j], t.states[i].executor.final)
  {
    hide After, Enabled, ConcludedBy;
    assert t.StepAt(i - 1);
    j := i - 1;
    if t.steps[i - 1].ExecutorCloses? {
      ClosingConcludes(t.states[i - 1], t.steps[i - 1]);
    } else {
      OnlyClosingConcludes(t.states[i - 1], t.steps[i - 1]);
      j := ResultHasItsStep(t, i - 1);
    }
  }

  // ---------------------------------------------------------------- cancel calls

  /** The call comes to its answer by finding the flag set, or by the engine's answer to its own kill. */
  ghost predicate AnswersCall(t: Interleaving, i: nat, call: nat, confirmed: bool)
    requires i < |t.states| == |t.steps| + 1
  {
    || (confirmed && exists j | 0 <= j < i :: t.steps[j] == CancelReadsFlag(call) && t.states[j].confirmed)
    || exists j | 0 <= j < i :: t.steps[j].CancelKills? && t.steps[j].call == call && t.steps[j].success == confirmed
  }

  lemma {:induction false} CallMoves(s: Shared, step: Step, call: nat)
    requires Enabled(s, step) && call in After(s, step).cancels
    ensures var c := After(s, step).cancels[call];
            || (call in s.cancels && c == s.cancels[call])
            || (c.CancelAnswered? && step == CancelReadsFlag(call) && s.confirmed && c.confirmed)
            || (c.CancelAnswered? && call in s.cancels && s.cancels[call] == CancelKilled(c.confirmed))
            || (c.CancelKilled? && step.CancelKills? && step.call == call && step.success == c.success)
            || (!c.CancelAnswered? && !c.CancelKilled?)
  {
    hide AfterStart, AfterMonitor, AfterDisposal, Kill;
    if step.IsStarts() { StartIsApart(s, step); }
    if step.IsMonitors() { MonitorIsApart(s, step); }
    if step.Disposes() { DisposalIsApart(s, step); }
  }

  lemma {:induction false} AnsweredCallStays(t: Interleaving, i: nat, call: nat, confirmed: bool)
    requires i + 1 < |t.states| == |t.steps| + 1 && AnswersCall(t, i, call, confirmed)
    ensures AnswersCall(t, i + 1, call, confirmed)
  {
  }

  /** In every interleaving a cancel call answers success exactly as the engine did to its kill, or because the flag was
      already set. */
  lemma {:induction false} CallIsAnsweredByItsKill(t: Interleaving, i: nat, call: nat)
    requires t.IsRun() && i < |t.states| && call in t.states[i].cancels
    ensures var c := t.states[i].cancels[call];
            && (c.CancelAnswered? ==> AnswersCall(t, i, call, c.confirmed))
            && (c.CancelKilled? ==> exists j | 0 <= j < i :: t.steps[j].CancelKills? && t.steps[j].call == call
                                                           && t.steps[j].success == c.success)
  {
    hide After, Enabled;
    if i > 0 {
      var s, step := t.states[i - 1], t.steps[i - 1];
      assert t.StepAt(i - 1);
      CallMoves(s, step, call);
      if call in s.cancels {
        CallIsAnsweredByItsKill(t, i - 1, call);
        if s.cancels[call].CancelAnswered? { AnsweredCallStays(t, i - 1, call, s.cancels[call].confirmed); }
      }
    }
  }

  // ---------------------------------------------------------------- the container and the directory

  /** The step starts the container. */
  predicate Starts(step: Step) {
    step.ContainerStarts? || (step.StartFails? && step.runs)
  }

  /** The step is a kill that stops a running container: at the deadline, when the monitor gives up on it, by a cancel
      call, or by someone who disposes of it. */
  predicate KillsIt(s: Shared, step: Step) {
    match step
    case MonitorTimesOut(success, stops) => success || stops
    case MonitorFailsToInspect(stops) => stops
    case MonitorDecides(stops) => stops && s.monitor.Saw? && s.monitor.view.running && s.attachmentFailed
    case CancelKills(_, success, stops) => success || stops
    case GuardKills(stops) => stops
    case DropKills(stops) => stops
    case CleanupKills(stops) => stops
    case _ => RemovesIt(step)
  }

  predicate RemovesIt(step: Step) {
    match step
    case GuardRemoves(success, gone, _) => success || gone
    case DropRemoves(success, gone) => success || gone
    case CleanupRemoves(success, gone) => success || gone
    case _ => false
  }

  /** Who has stopped the container, and with what exit code: itself, or a kill, confirmed or not. */
  function StoppedBy(c: Container, step: Step): Container {
    match step
    case ContainerExits(oom, code) => Container(false, oom, code, ItselfExited)
    case MonitorTimesOut(true, _) => Container(false, c.oomKilled, 137, KilledByMonitor)
    case CancelKills(_, true, _) => Container(false, c.oomKilled, 137, KilledByConfirmedCancel)
    case _ => Container(false, c.oomKilled, 137, KilledUnconfirmed)
  }

  lemma {:induction false} LockedStepOnContainer(s: Shared, step: Step)
    requires Enabled(s, step) && !step.Disposes()
    ensures After(s, step).container
            == if Starts(step) then Container(true, false, 0, NotStopped)
               else if s.container.running && KillsIt(s, step) then StoppedBy(s.container, step)
               else s.container
  {
    hide AfterDisposal;
  }

  /** The step kills or removes the container on someone's way out. */
  predicate IsGuards(step: Step) {
    step.GuardKills? || step.GuardRemoves? || step.DropKills? || step.DropRemoves? || step.CleanupRemoves?
  }

  lemma {:induction false} GuardOnContainer(s: Shared, step: Step)
    requires Enabled(s, step) && IsGuards(step)
    ensures AfterDisposal(s, step).container
            == if s.container.running && KillsIt(s, step) then StoppedBy(s.container, step) else s.container
  {
    match step
    case GuardKills(_) =>
    case GuardRemoves(_, _, _) =>
    case DropKills(_) =>
    case DropRemoves(_, _) =>
    case CleanupRemoves(_, _) =>
  }

  lemma {:induction false} ExecutorOnContainer(s: Shared, step: Step)
    requires Enabled(s, step) && step.Disposes() && !IsGuards(step)
    ensures AfterDisposal(s, step).container
            == if s.container.running && (step.ContainerExits? || KillsIt(s, step)) then StoppedBy(s.container, step)
               else s.container
  {
    hide Concluded;
    match step
    case ContainerExits(_, _) =>
    case ExecutorCollects(_) =>
    case ExecutorCloses(_, _) =>
    case ExecutorUnregisters =>
    case CleanupTakes =>
    case CleanupKills(_) =>
  }

  /** In any state and for any step: the container starts, stops and changes exactly so. */
  lemma {:induction false} ContainerStepIsExact(s: Shared, step: Step)
    requires Enabled(s, step)
    ensures After(s, step).container
            == if Starts(step) then Container(true, false, 0, NotStopped)
               else if s.container.running && (step.ContainerExits? || KillsIt(s, step))
                 then StoppedBy(s.container, step)
               else s.container
  {
    hide AfterStart, AfterMonitor, AfterCancel, AfterDisposal, Enabled, KillsIt, StoppedBy;
    if !step.Disposes() {
      LockedStepOnContainer(s, step);
    } else if IsGuards(step) {
      GuardOnContainer(s, step);
    } else {
      ExecutorOnContainer(s, step);
    }
  }

  lemma {:induction false} GuardOnWorld(s: Shared, step: Step)
    requires Enabled(s, step) && IsGuards(step)
    ensures var s' := AfterDisposal(s, step);
            && (s'.present <==> s.present && !RemovesIt(step))
            && s'.directory == s.directory && s'.registered == s.registered
  {
    hide Kill;
    match step
    case GuardKills(_) =>
    case GuardRemoves(_, _, _) =>
    case DropKills(_) =>
    case DropRemoves(_, _) =>
    case CleanupRemoves(_, _) =>
  }

  lemma {:induction false} ExecutorOnWorld(s: Shared, step: Step)
    requires Enabled(s, step) && step.Disposes() && !IsGuards(step)
    ensures var s' := AfterDisposal(s, step);
            && s'.present == s.present
            && (s'.directory <==> s.directory && !(step.ExecutorCloses? && (step.success || step.gone)))
            && (s'.registered <==> s.registered && !step.ExecutorUnregisters? && !step.CleanupTakes?)
  {
    hide Concluded, Kill;
    match step
    case ContainerExits(_, _) =>
    case ExecutorCollects(_) =>
    case ExecutorCloses(_, _) =>
    case ExecutorUnregisters =>
    case CleanupTakes =>
    case CleanupKills(_) =>
  }

  /** In any state and for any step: the container exists until a removal takes it, the temporary directory until
      closing does, and the registration until the executor or a cleanup call does. */
  lemma {:induction false} DisposalStepIsExact(s: Shared, step: Step)
    requires Enabled(s, step)
    ensures var s' := After(s, step);
            && (s'.present <==> s.present && !RemovesIt(step))
            && (s'.directory <==> s.directory && !(step.ExecutorCloses? && (step.success || step.gone)))
            && (s'.registered <==> s.registered && !step.ExecutorUnregisters? && !step.CleanupTakes?)
  {
    hide AfterStart, AfterMonitor, AfterDisposal, Kill;
    if step.IsStarts() {
      StartIsApart(s, step);
    } else if step.IsMonitors() {
      MonitorIsApart(s, step);
    } else if IsGuards(step) {
      GuardOnWorld(s, step);
    } else if step.Disposes() {
      ExecutorOnWorld(s, step);
    }
  }
}
