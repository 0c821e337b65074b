/** One interleaving, for any digests, in which both safeguards for a run without a prompt come to nothing. */
module PromptWitnesses {
  import opened Prelude
  import opened Text
  import opened Records
  import opened AuditChain
  import opened StoreState
  import opened History
  import opened Guarantees
  import opened RunMovement
  import opened Contracts
  import opened PromptHandOff
  import opened PromptRefusals
  import W = Witnesses

  // ---------------------------------------------------------------- the store, operation by operation

  /** The one run is queued since time 0, nobody holds it, and the last event of its chain is of that time. */
  ghost predicate QueuedUntil(s: State, last: Time) {
    && s.runs.Keys == {W.ID} && s.leases == map[] && s.cancels == map[]
    && s.runs[W.ID].id == W.ID && s.runs[W.ID].status.Queued? && s.runs[W.ID].revision == 0
    && s.runs[W.ID].createdAt == s.runs[W.ID].updatedAt == 0
    && W.ID in s.audits && 0 < |s.audits[W.ID]| <= 5 && LastTime(s.audits[W.ID]) == last
  }

  lemma {:induction false} CreationWorks(h: Hashes, prompt: Digest)
    ensures var r := CreateRun(h, EMPTY, W.Fresh(prompt), W.NOW, 0);
            r.Ok? && QueuedUntil(r.value.0, 0) && |r.value.0.audits[W.ID]| == 1
  {
    assert !IsBlank("r") && Utf8Length("r") == 1 by { assert !IsWhitespace("r"[0]); }
  }

  lemma {:induction false} AuditWorks(h: Hashes, s: State)
    requires QueuedUntil(s, 0) && |s.audits[W.ID]| == 1
    ensures var r := AppendAudit(h, s, W.ID, PolicyAllowed, Envelope(W.ACTOR, 5), 0);
            r.Ok? && QueuedUntil(r.value.0, 5)
  {
  }

  /** The run is leased as it is, from time 5 to time 15, and its chain ends then. */
  ghost predicate LeasedUntil(s: State, lease: RunLease, last: Time) {
    && W.ID in s.runs && W.ID in s.leases && s.leases[W.ID].expiresAt == 15
    && s.runs[W.ID].id == W.ID && s.runs[W.ID].status.Planning? && s.runs[W.ID].updatedAt == 5
    && lease.run == s.runs[W.ID] && lease.acquiredAt == 5
    && W.ID in s.audits && 0 < |s.audits[W.ID]| <= last + 1 && LastTime(s.audits[W.ID]) == last
  }

  lemma {:induction false} TransitionWorks(h: Hashes, s: State)
    requires QueuedUntil(s, 5)
    ensures var r := ApplyTransition(h, s, s.runs[W.ID], Planning, None, 5, W.ACTOR, RuntimeSelected, 0);
            && r.Ok? && r.value.0.cancels == s.cancels && r.value.1 == r.value.0.runs[W.ID]
            && LeasedUntil(r.value.0.(leases := map[W.ID := RunLease(r.value.1, 0, W.ACTOR, 5, 15, false)]),
                           RunLease(r.value.1, 0, W.ACTOR, 5, 15, false), 5)
  {
  }

  lemma {:induction false} ClaimWorks(h: Hashes, s: State) returns (lease: RunLease)
    requires QueuedUntil(s, 5)
    ensures lease.run.id == W.ID && lease.expiresAt == 15
    ensures var r := ClaimNextRun(h, s, W.ACTOR, 5, 10, 0, 0);
            && r.Ok? && r.value.1 == Some(lease) && LeasedUntil(r.value.0, lease, 5) && r.value.0.cancels == map[]
  {
    hide ApplyTransition, Extend, Advance;
    assert IsClaimable(s, W.ID);
    QueueIsNeverMissed(s);
    NextIsClaimable(s, NextInQueue(s).value);
    TransitionWorks(h, s);
    lease := RunLease(ApplyTransition(h, s, s.runs[W.ID], Planning, None, 5, W.ACTOR, RuntimeSelected, 0).value.1, 0,
                      W.ACTOR, 5, 15, false);
  }

  lemma {:induction false} IntentWorks(h: Hashes, s: State, lease: RunLease)
    requires LeasedUntil(s, lease, 5) && s.cancels == map[]
    ensures var r := RequestCancel(h, s, W.ID, W.ACTOR, 7, 0);
            r.Ok? && LeasedUntil(r.value.0, lease, 7)
  {
    hide ApplyTransition;
  }

  // ---------------------------------------------------------------- the interleaving

  ghost function Last(t: Interleaving): World
    requires t.worlds != []
  {
    t.worlds[|t.worlds| - 1]
  }

  /** The interleaving with one more step. */
  ghost function Then(h: Hashes, b: Broker, t: Interleaving, step: Step): Interleaving
    requires t.worlds != [] && Enabled(b, Last(t), step)
  {
    Interleaving(t.worlds + [After(h, b, Last(t), step)], t.steps + [step])
  }

  lemma {:induction false} ThenIsRun(h: Hashes, b: Broker, t: Interleaving, step: Step)
    requires t.IsRun(h, b) && Enabled(b, Last(t), step)
    ensures var t' := Then(h, b, t, step);
            && t'.IsRun(h, b) && Last(t') == After(h, b, Last(t), step) && |t'.steps| == |t.steps| + 1
            && t'.worlds[|t.steps|] == Last(t) && t'.steps[|t.steps|] == step
  {
    hide After;
    var t' := Then(h, b, t, step);
    forall i | 0 <= i < |t'.steps| ensures t'.StepAt(h, b, i) {
      if i < |t.steps| { assert t.StepAt(h, b, i); }
    }
  }

  const START: World := World(EMPTY, map[], Open, {}, map[], {}, {}, None)

  /** A broker that takes no prompts. */
  lemma {:induction false} RefusedAfterCreation(h: Hashes, b: Broker) returns (t: Interleaving)
    requires b.capacity == 0
    ensures t.IsRun(h, b) && QueuedUntil(Last(t).store, 0) && |Last(t).store.audits[W.ID]| == 1
    ensures Last(t).section == MustCancel(W.ID) && W.ID in Last(t).unpublished && Last(t).prompts == map[]
  {
    hide ClaimNextRun, Take, TransitionRun, AppendAudit, ReconcileExecution, RecordArtifacts, HeartbeatLease,
      TransitionLeasedRun, CompleteLeasedRun, AppendLeasedAudit, RecordLeasedArtifacts, LeaseCancelRequested,
      ConfirmCancel, RequestCancel, RecoverExpiredLeases, CreateApproval, DecideApproval, ExpireApproval,
      ConsumeApproval;
    t := Interleaving([START], []);
    ThenIsRun(h, b, t, HandlerEnters);
    t := Then(h, b, t, HandlerEnters);
    var run := W.Fresh(b.sha256([]));
    var step := HandlerCreates(run, [], W.NOW, 0);
    CreationWorks(h, b.sha256([]));
    ThenIsRun(h, b, t, step);
    t := Then(h, b, t, step);
    ThenIsRun(h, b, t, HandlerRegisters(0));
    t := Then(h, b, t, HandlerRegisters(0));
  }

  lemma {:induction false} OverheardAudit(h: Hashes, b: Broker, t: Interleaving) returns (t': Interleaving)
    requires t.IsRun(h, b) && QueuedUntil(Last(t).store, 0) && |Last(t).store.audits[W.ID]| == 1
    ensures t'.IsRun(h, b) && QueuedUntil(Last(t').store, 5) && |t'.steps| == |t.steps| + 1
    ensures Last(t') == Last(t).(store := Last(t').store)
  {
    hide Register, Take, CreateRun, TransitionRun, AppendAudit, ReconcileExecution, RecordArtifacts, ClaimNextRun,
      HeartbeatLease, TransitionLeasedRun, CompleteLeasedRun, AppendLeasedAudit, RecordLeasedArtifacts,
      LeaseCancelRequested, ConfirmCancel, RequestCancel, RecoverExpiredLeases, CreateApproval, DecideApproval,
      ExpireApproval, ConsumeApproval;
    var step := OtherOp(Audit(W.ID, PolicyAllowed, Envelope(W.ACTOR, 5), 0));
    AuditWorks(h, Last(t).store);
    ThenIsRun(h, b, t, step);
    t' := Then(h, b, t, step);
  }

  /** A run whose prompt was refused stays queued although the handler's cancel comes after its creation: somebody
      else wrote to its chain, with a later clock, in between. */
  lemma {:induction false} QueuedWithoutPromptIsReachable(h: Hashes, b: Broker) returns (t: Interleaving)
    requires b.capacity == 0
    ensures t.IsRun(h, b) && |t.steps| > 0 && Last(t).section.Open? && W.ID in Last(t).unpublished
    ensures W.ID in Last(t).store.runs && Last(t).store.runs[W.ID].status.Queued?
    ensures var step := t.steps[|t.steps| - 1]; step.HandlerCancels? && Last(t).store.runs[W.ID].createdAt <= step.now
    ensures Last(t).prompts == map[] && QueuedUntil(Last(t).store, 5)
  {
    hide Next, Register, Take, Takes, CreateRun, ClaimNextRun;
    t := RefusedAfterCreation(h, b);
    t := OverheardAudit(h, b, t);
    var before, j := Last(t), |t.steps|;
    var step := HandlerCancels(W.ACTOR, 3, 0);
    ThenIsRun(h, b, t, step);
    t := Then(h, b, t, step);
    HandlerCancelChangesNothing(h, before.store);
  }

  lemma {:induction false} HandlerCancelChangesNothing(h: Hashes, s: State)
    requires QueuedUntil(s, 5)
    ensures Next(h, s, Cancel(W.ID, W.ACTOR, 3, 0)) == s
  {
    hide CreateRun, TransitionRun, AppendAudit, ReconcileExecution, RecordArtifacts, ClaimNextRun, HeartbeatLease,
      TransitionLeasedRun, CompleteLeasedRun, AppendLeasedAudit, RecordLeasedArtifacts, LeaseCancelRequested,
      ConfirmCancel, RecoverExpiredLeases, CreateApproval, DecideApproval, ExpireApproval, ConsumeApproval;
  }

  // ---------------------------------------------------------------- and on to a lease

  lemma {:induction false} ClaimedNext(h: Hashes, b: Broker, t: Interleaving) returns (t': Interleaving)
    requires t.IsRun(h, b) && QueuedUntil(Last(t).store, 5) && Last(t).section.Open? && Last(t).prompts == map[]
    ensures t'.IsRun(h, b) && Last(t').section.ClaimedLease? && Last(t').prompts == map[]
    ensures Last(t').section.lease.run.id == W.ID && Last(t').unpublished == Last(t).unpublished
    ensures LeasedUntil(Last(t').store, Last(t').section.lease, 5) && Last(t').store.cancels == map[]
  {
    hide Register, Take, ClaimNextRun, QueuedUntil, LeasedUntil, CreateRun, TransitionRun, AppendAudit,
      ReconcileExecution, RecordArtifacts, HeartbeatLease, TransitionLeasedRun, CompleteLeasedRun, AppendLeasedAudit,
      RecordLeasedArtifacts, LeaseCancelRequested, ConfirmCancel, RequestCancel, RecoverExpiredLeases,
      CreateApproval, DecideApproval, ExpireApproval, ConsumeApproval;
    ThenIsRun(h, b, t, WorkerEnters);
    t' := Then(h, b, t, WorkerEnters);
    var step := WorkerClaims(W.ACTOR, 5, 10, 0, 0);
    var lease := ClaimWorks(h, Last(t').store);
    ThenIsRun(h, b, t', step);
    t' := Then(h, b, t', step);
  }

  lemma {:induction false} RefusedNext(h: Hashes, b: Broker, t: Interleaving) returns (t': Interleaving)
    requires t.IsRun(h, b) && Last(t).section.ClaimedLease? && Last(t).prompts == map[]
    ensures t'.IsRun(h, b) && Last(t').section == MustFail(Last(t).section.lease) && Last(t').store == Last(t).store
    ensures Last(t').unpublished == Last(t).unpublished
  {
    hide Next, Register, ClaimNextRun, CreateRun;
    ThenIsRun(h, b, t, WorkerTakes);
    t' := Then(h, b, t, WorkerTakes);
  }

  lemma {:induction false} OverheardCancel(h: Hashes, b: Broker, t: Interleaving) returns (t': Interleaving)
    requires t.IsRun(h, b) && Last(t).section.MustFail? && LeasedUntil(Last(t).store, Last(t).section.failing, 5)
    requires Last(t).store.cancels == map[]
    ensures t'.IsRun(h, b) && Last(t') == Last(t).(store := Last(t').store)
    ensures LeasedUntil(Last(t').store, Last(t').section.failing, 7)
  {
    hide Register, Take, LeasedUntil, CreateRun, TransitionRun, AppendAudit, ReconcileExecution, RecordArtifacts,
      ClaimNextRun, HeartbeatLease, TransitionLeasedRun, CompleteLeasedRun, AppendLeasedAudit, RecordLeasedArtifacts,
      LeaseCancelRequested, ConfirmCancel, RequestCancel, RecoverExpiredLeases, CreateApproval, DecideApproval,
      ExpireApproval, ConsumeApproval;
    var step := OtherOp(Cancel(W.ID, W.ACTOR, 7, 0));
    IntentWorks(h, Last(t).store, Last(t).section.failing);
    ThenIsRun(h, b, t, step);
    t' := Then(h, b, t, step);
  }

  /** The same run can then be claimed, and stay leased although the worker tries to fail it within its lease: somebody
      else asked for its cancellation, with a later clock, in between. */
  lemma {:induction false} LeaseWithoutPromptIsReachable(h: Hashes, b: Broker) returns (t: Interleaving)
    requires b.capacity == 0
    ensures t.IsRun(h, b) && |t.steps| > 0 && Last(t).section.Open?
    ensures W.ID in Last(t).unpublished && W.ID in Last(t).store.leases
    ensures var step := t.steps[|t.steps| - 1];
            && step.WorkerFails? && t.worlds[|t.steps| - 1].section.MustFail?
            && var lease := t.worlds[|t.steps| - 1].section.failing;
               lease.run.id == W.ID && lease.acquiredAt <= step.now < Last(t).store.leases[W.ID].expiresAt
  {
    hide Next, Register, Take, CreateRun, ClaimNextRun, QueuedUntil;
    t := QueuedWithoutPromptIsReachable(h, b);
    t := ClaimedNext(h, b, t);
    t := RefusedNext(h, b, t);
    t := OverheardCancel(h, b, t);
    var before, j := Last(t), |t.steps|;
    var step := WorkerFails(6, 0);
    ThenIsRun(h, b, t, step);
    t := Then(h, b, t, step);
    WorkerFailIsExact(h, b, t, j);
    BusyGrantIsKnown(h, b, t, j);
  }
}
