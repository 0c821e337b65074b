/** What the store promises about failing operations, expiring leases and leases left behind by a consumption. */
module LeaseGuarantees {
  import opened Prelude
  import opened Records
  import opened AuditChain
  import opened StoreState
  import opened StoreInvariant
  import opened StorePreservation
  import opened History
  import opened Guarantees
  import opened RunMovement

  // ---------------------------------------------------------------- failures

  /** The state after one event was appended to one run's chain. */
  ghost predicate OneEventMore(s: State, s': State, id: RunId, kind: EventKind) {
    && id in s.audits && id in s'.audits
    && s' == s.(audits := s.audits[id := s'.audits[id]])
    && |s'.audits[id]| == |s.audits[id]| + 1 && s.audits[id] <= s'.audits[id]
    && s'.audits[id][|s.audits[id]|].body.kind == kind
  }

  lemma {:induction false} FailedConsumption(h: Hashes, s: State, id: ApprovalId, expected: U64,
                                             action: ActionRequest, actor: ActorId,
                                             now: Time, events: EventIds)
    requires ConsumeApproval(h, s, id, expected, action, actor, now, events).1.Err?
    ensures var s' := ConsumeApproval(h, s, id, expected, action, actor, now, events).0;
            s' == s || (id in s.approvals && PresentsWrongAction(h, s.approvals[id], action, expected, now)
                        && OneEventMore(s, s', s.approvals[id].runId, ApprovalBindingMismatch))
  {
  }

  /** A failing operation changes nothing, with two exceptions: a consumption of an approval that is not
      bound to the action records one event, and a recovery keeps the runs it had already recovered. */
  lemma {:induction false} FailureIsAtomic(h: Hashes, s: State, op: Op)
    requires Inv(h, s) && !Succeeds(h, s, op)
    ensures var s' := Next(h, s, op);
            || s' == s
            || (op.Consume? && op.approval in s.approvals
                && PresentsWrongAction(h, s.approvals[op.approval], op.action, op.expected, op.now)
                && OneEventMore(s, s', s.approvals[op.approval].runId, ApprovalBindingMismatch))
            || (op.Recover? && exists n: nat :: n < |ExpiredLeases(s, op.now)| && RecoveredFirst(s, s', op.now, n))
  {
    hide Inv, CreateRun, TransitionRun, AppendAudit, ReconcileExecution, RecordArtifacts, ClaimNextRun, HeartbeatLease,
      TransitionLeasedRun, CompleteLeasedRun, AppendLeasedAudit, RecordLeasedArtifacts, LeaseCancelRequested,
      ConfirmCancel, RequestCancel, RecoverExpiredLeases, CreateApproval, DecideApproval, ExpireApproval,
      ConsumeApproval;
    if op.Consume? {
      FailedConsumption(h, s, op.approval, op.expected, op.action, op.actor, op.now, op.events);
    } else if op.Recover? {
      var n := RecoveryIsExact(h, s, op.actor, op.now, op.events);
      assert RecoveredFirst(s, Next(h, s, op), op.now, n);
    }
  }

  /** The first `n` expired runs, in id order, were failed and released, and nothing else changed. */
  ghost predicate RecoveredFirst(s: State, s': State, now: Time, n: nat) {
    n <= |ExpiredLeases(s, now)| && Recovered(s, s', Elements(ExpiredLeases(s, now)[..n]))
  }

  // ---------------------------------------------------------------- expiry

  /** The callers' clocks never go back. */
  ghost predicate ClockRunsForward(t: Trace) {
    forall i, j | 0 <= i <= j < |t.ops| :: ClockOf(t.ops[i]) <= ClockOf(t.ops[j])
  }

  /** The lease stays as it is, its cancel flag apart. */
  predicate LeaseKept(l: RunLease, l': RunLease) {
    l' == l.(cancelRequested := l'.cancelRequested)
  }

  /** The operation consumes an approval of the run. */
  ghost predicate ConsumesFor(h: Hashes, s: State, op: Op, id: RunId) {
    op.Consume? && op.approval in s.approvals && s.approvals[op.approval].runId == id && Succeeds(h, s, op)
  }

  /** The holder moves the run. */
  ghost predicate HolderMoves(h: Hashes, s: State, op: Op, id: RunId) {
    op.MoveLeased? && op.lease.run.id == id && Succeeds(h, s, op)
  }

  /** What one operation makes of a lease and its run: it releases the lease, leaves both alone, renews an
      unexpired lease that is level with its run, moves the run with the lease, or moves the run without it. */
  ghost predicate LeaseFate(h: Hashes, s: State, op: Op, id: RunId, s': State) {
    && id in s.leases && id in s.runs && id in s'.runs
    && (|| (id !in s'.leases && !HolderMoves(h, s, op, id) && !ConsumesFor(h, s, op, id))
        || (&& id in s'.leases && LeaseKept(s.leases[id], s'.leases[id]) && s'.runs[id] == s.runs[id]
            && !HolderMoves(h, s, op, id) && !ConsumesFor(h, s, op, id))
        || (&& id in s'.leases && op.Heartbeat? && op.lease.run.id == id && op.now < s.leases[id].expiresAt
            && s.leases[id].run.revision == s.runs[id].revision
            && s'.leases[id].run == s.leases[id].run && s'.runs[id] == s.runs[id])
        || (&& id in s'.leases && HolderMoves(h, s, op, id) && s'.leases[id].run == s'.runs[id]
            && s'.leases[id].expiresAt == s.leases[id].expiresAt)
        || (&& id in s'.leases && ConsumesFor(h, s, op, id) && s'.leases[id] == s.leases[id]
            && s'.runs[id].revision == s.runs[id].revision + 1))
  }

  lemma {:induction false} ClaimFate(h: Hashes, s: State, op: Op, id: RunId)
    requires StoredById(s) && id in s.leases && id in s.runs && op.Claim?
    ensures LeaseFate(h, s, op, id, Next(h, s, op))
  {
    hide AuditTimeOk, Extend, CreateRun, TransitionRun, AppendAudit, ReconcileExecution, RecordArtifacts,
      HeartbeatLease, TransitionLeasedRun, CompleteLeasedRun, AppendLeasedAudit, RecordLeasedArtifacts,
      LeaseCancelRequested, ConfirmCancel, RequestCancel, RecoverExpiredLeases, CreateApproval, DecideApproval,
      ExpireApproval, ConsumeApproval;
    if NextInQueue(s).Some? { NextIsClaimable(s, NextInQueue(s).value); }
  }

  lemma {:induction false} HeartbeatFate(h: Hashes, s: State, op: Op, id: RunId)
    requires id in s.leases && id in s.runs && op.Heartbeat?
    ensures LeaseFate(h, s, op, id, Next(h, s, op))
  {
    hide CreateRun, TransitionRun, AppendAudit, ReconcileExecution, RecordArtifacts, ClaimNextRun, TransitionLeasedRun,
      CompleteLeasedRun, AppendLeasedAudit, RecordLeasedArtifacts, LeaseCancelRequested, ConfirmCancel, RequestCancel,
      RecoverExpiredLeases, CreateApproval, DecideApproval, ExpireApproval, ConsumeApproval;
  }

  /** A transition leaves the leases alone and returns the record it stores. */
  lemma {:induction false} TransitionLeavesLeases(h: Hashes, s: State, x: RunId, next: RunStatus,
                                                  reason: Option<string>,
                                                  now: Time, actor: ActorId, kind: EventKind, event: EventId)
    requires x in s.runs && s.runs[x].id == x
    requires ApplyTransition(h, s, s.runs[x], next, reason, now, actor, kind, event).Ok?
    ensures var (s', r) := ApplyTransition(h, s, s.runs[x], next, reason, now, actor, kind, event).value;
            s'.leases == s.leases && s'.cancels == s.cancels && s'.runs == s.runs[x := r]
  {
    hide Advance;
  }

  lemma {:induction false} TransitionKeepsLeases(h: Hashes, s: State, run: Run, next: RunStatus, reason: Option<string>,
                                                 now: Time, actor: ActorId, kind: EventKind, event: EventId)
    requires ApplyTransition(h, s, run, next, reason, now, actor, kind, event).Ok?
    ensures ApplyTransition(h, s, run, next, reason, now, actor, kind, event).value.0.leases == s.leases
  {
    hide Advance;
  }

  lemma {:induction false} MoveFate(h: Hashes, s: State, op: Op, id: RunId)
    requires StoredById(s) && id in s.leases && id in s.runs && op.MoveLeased?
    ensures LeaseFate(h, s, op, id, Next(h, s, op))
  {
    hide AuditTimeOk, ApplyTransition, CreateRun, TransitionRun, AppendAudit, ReconcileExecution, RecordArtifacts,
      ClaimNextRun, HeartbeatLease, CompleteLeasedRun, AppendLeasedAudit, RecordLeasedArtifacts, LeaseCancelRequested,
      ConfirmCancel, RequestCancel, RecoverExpiredLeases, CreateApproval, DecideApproval, ExpireApproval,
      ConsumeApproval;
    if Succeeds(h, s, op) {
      TransitionLeavesLeases(h, s, op.lease.run.id, op.next, None, op.now, op.lease.owner, TransitionEvent(op.next),
                             op.event);
    }
  }

  lemma {:induction false} CompleteFate(h: Hashes, s: State, op: Op, id: RunId)
    requires StoredById(s) && id in s.leases && id in s.runs && op.CompleteLeased?
    ensures LeaseFate(h, s, op, id, Next(h, s, op))
  {
    hide AuditTimeOk, ApplyTransition, CreateRun, TransitionRun, AppendAudit, ReconcileExecution, RecordArtifacts,
      ClaimNextRun, HeartbeatLease, TransitionLeasedRun, AppendLeasedAudit, RecordLeasedArtifacts,
      LeaseCancelRequested, ConfirmCancel, RequestCancel, RecoverExpiredLeases, CreateApproval, DecideApproval,
      ExpireApproval, ConsumeApproval;
    if Succeeds(h, s, op) {
      TransitionLeavesLeases(h, s, op.lease.run.id, op.next, op.reason, op.now, op.lease.owner,
                             TransitionEvent(op.next), op.event);
    }
  }

  lemma {:induction false} ConfirmFate(h: Hashes, s: State, op: Op, id: RunId)
    requires StoredById(s) && id in s.leases && id in s.runs && op.Confirm?
    ensures LeaseFate(h, s, op, id, Next(h, s, op))
  {
    hide AuditTimeOk, ApplyTransition, VerifyCancellation, CreateRun, TransitionRun, AppendAudit, ReconcileExecution,
      RecordArtifacts, ClaimNextRun, HeartbeatLease, TransitionLeasedRun, CompleteLeasedRun, AppendLeasedAudit,
      RecordLeasedArtifacts, LeaseCancelRequested, RequestCancel, RecoverExpiredLeases, CreateApproval, DecideApproval,
      ExpireApproval, ConsumeApproval;
    if Succeeds(h, s, op) {
      TransitionLeavesLeases(h, s, op.lease.run.id, RunStatus.Cancelled, None, op.now, op.lease.owner,
                             CancelConfirmed, op.event);
    }
  }

  lemma {:induction false} EventLeavesLeases(h: Hashes, s: State, x: RunId, actor: ActorId, now: Time, kind: EventKind,
                                             event: EventId)
    requires AppendEvent(h, s, x, actor, now, kind, event).Ok?
    ensures var s' := AppendEvent(h, s, x, actor, now, kind, event).value; s'.runs == s.runs && s'.leases == s.leases
  {
    hide Extend;
  }

  /** A cancel request leaves the run of every lease alone, and of the lease all but its request mark. */
  lemma {:induction false} CancelLeavesLeases(h: Hashes, s: State, x: RunId, actor: ActorId, now: Time, event: EventId,
                                              id: RunId)
    requires StoredById(s) && id in s.leases && id in s.runs && RequestCancel(h, s, x, actor, now, event).Ok?
    ensures var s' := RequestCancel(h, s, x, actor, now, event).value.0;
            && id in s'.leases && id in s'.runs && s'.runs[id] == s.runs[id]
            && LeaseKept(s.leases[id], s'.leases[id])
  {
    assert s.runs[x].id == x;
    hide AuditTimeOk, AppendEvent, ApplyTransition, StoredById;
    if AppendEvent(h, s, x, actor, now, CancelRequestRecorded, event).Ok? {
      EventLeavesLeases(h, s, x, actor, now, CancelRequestRecorded, event);
    }
    if ApplyTransition(h, s, s.runs[x], RunStatus.Cancelled, None, now, actor, CancelConfirmed, event).Ok? {
      TransitionLeavesLeases(h, s, x, RunStatus.Cancelled, None, now, actor, CancelConfirmed, event);
    }
  }

  lemma {:induction false} CancelFate(h: Hashes, s: State, op: Op, id: RunId)
    requires StoredById(s) && id in s.leases && id in s.runs && op.Cancel?
    ensures LeaseFate(h, s, op, id, Next(h, s, op))
  {
    hide StoredById, CreateRun, TransitionRun, AppendAudit, ReconcileExecution, RecordArtifacts, ClaimNextRun,
      HeartbeatLease, TransitionLeasedRun, CompleteLeasedRun, AppendLeasedAudit, RecordLeasedArtifacts,
      LeaseCancelRequested, ConfirmCancel, RequestCancel, RecoverExpiredLeases, CreateApproval, DecideApproval,
      ExpireApproval, ConsumeApproval;
    if RequestCancel(h, s, op.id, op.actor, op.now, op.event).Ok? {
      CancelLeavesLeases(h, s, op.id, op.actor, op.now, op.event, id);
    }
  }

  lemma {:induction false} UnleasedMoveFate(h: Hashes, s: State, op: Op, id: RunId)
    requires id in s.leases && id in s.runs && op.MoveRun?
    ensures LeaseFate(h, s, op, id, Next(h, s, op))
  {
    hide Extend, Advance, CreateRun, AppendAudit, ReconcileExecution, RecordArtifacts, ClaimNextRun, HeartbeatLease,
      TransitionLeasedRun, CompleteLeasedRun, AppendLeasedAudit, RecordLeasedArtifacts, LeaseCancelRequested,
      ConfirmCancel, RequestCancel, RecoverExpiredLeases, CreateApproval, DecideApproval, ExpireApproval,
      ConsumeApproval;
  }

  lemma {:induction false} RecoverFate(h: Hashes, s: State, op: Op, id: RunId)
    requires Inv(h, s) && id in s.leases && id in s.runs && op.Recover?
    ensures LeaseFate(h, s, op, id, Next(h, s, op))
  {
    hide Inv, FailedByRecovery, CreateRun, TransitionRun, AppendAudit, ReconcileExecution, RecordArtifacts,
      ClaimNextRun, HeartbeatLease, TransitionLeasedRun, CompleteLeasedRun, AppendLeasedAudit, RecordLeasedArtifacts,
      LeaseCancelRequested, ConfirmCancel, RequestCancel, RecoverExpiredLeases, CreateApproval, DecideApproval,
      ExpireApproval, ConsumeApproval;
    var n := RecoveryIsExact(h, s, op.actor, op.now, op.events);
  }

  lemma {:induction false} ConsumptionAdvancesRun(h: Hashes, s: State, id: ApprovalId, expected: U64,
                                                  action: ActionRequest, actor: ActorId, now: Time, events: EventIds)
    requires StoredById(s) && ConsumeApproval(h, s, id, expected, action, actor, now, events).1.Ok?
    ensures id in s.approvals
    ensures var run := s.approvals[id].runId;
            var s' := ConsumeApproval(h, s, id, expected, action, actor, now, events).0;
            && run in s.runs && run in s'.runs && s'.runs[run].revision == s.runs[run].revision + 1
            && s'.runs == s.runs[run := s'.runs[run]] && s'.leases == s.leases
  {
  }

  lemma {:induction false} ConsumeFate(h: Hashes, s: State, op: Op, id: RunId)
    requires StoredById(s) && id in s.leases && id in s.runs && op.Consume?
    ensures LeaseFate(h, s, op, id, Next(h, s, op))
  {
    hide CreateRun, TransitionRun, AppendAudit, ReconcileExecution, RecordArtifacts, ClaimNextRun, HeartbeatLease,
      TransitionLeasedRun, CompleteLeasedRun, AppendLeasedAudit, RecordLeasedArtifacts, LeaseCancelRequested,
      ConfirmCancel, RequestCancel, RecoverExpiredLeases, CreateApproval, DecideApproval, ExpireApproval,
      ConsumeApproval;
    if Succeeds(h, s, op) {
      ConsumptionAdvancesRun(h, s, op.approval, op.expected, op.action, op.actor, op.now, op.events);
    } else {
      FailedConsumption(h, s, op.approval, op.expected, op.action, op.actor, op.now, op.events);
    }
  }

  lemma {:induction false} ApprovalsKeepLeases(h: Hashes, s: State, op: Op)
    requires op.RequestApproval? || op.Decide? || op.Expire?
    ensures Next(h, s, op).leases == s.leases
  {
    hide ApprovalExists, ApprovalEvent, WindowRun, CreateRun, TransitionRun, AppendAudit, ReconcileExecution,
      RecordArtifacts, ClaimNextRun, HeartbeatLease, TransitionLeasedRun, CompleteLeasedRun, AppendLeasedAudit,
      RecordLeasedArtifacts, LeaseCancelRequested, ConfirmCancel, RequestCancel, RecoverExpiredLeases, ConsumeApproval;
  }

  lemma {:induction false} LogsKeepLeases(h: Hashes, s: State, op: Op)
    requires op.NewRun? || op.Audit? || op.AuditLeased? || op.Reconcile? || op.StoreArtifacts?
             || op.StoreLeasedArtifacts? || op.AskCancelled?
    ensures Next(h, s, op).leases == s.leases
  {
    hide ReceiptWasAudited, ArtifactEvents, BatchOk, Extend, Seal, ValidateLease, Advance, TransitionRun, ClaimNextRun,
      HeartbeatLease, TransitionLeasedRun, CompleteLeasedRun, LeaseCancelRequested, ConfirmCancel, RequestCancel,
      RecoverExpiredLeases, CreateApproval, DecideApproval, ExpireApproval, ConsumeApproval;
  }

  lemma {:induction false} EveryLeaseHasItsFate(h: Hashes, s: State, op: Op, id: RunId)
    requires Inv(h, s) && id in s.leases
    ensures LeaseFate(h, s, op, id, Next(h, s, op))
  {
    hide Next, Inv, Succeeds;
    LeaseAndRun(h, s, id);
    ValidIsStoredById(h, s);
    if op.Claim? { ClaimFate(h, s, op, id); }
    else if op.Heartbeat? { HeartbeatFate(h, s, op, id); }
    else if op.MoveLeased? { MoveFate(h, s, op, id); }
    else if op.CompleteLeased? { CompleteFate(h, s, op, id); }
    else if op.Confirm? { ConfirmFate(h, s, op, id); }
    else if op.Cancel? { CancelFate(h, s, op, id); }
    else if op.MoveRun? { UnleasedMoveFate(h, s, op, id); }
    else if op.Recover? { RecoverFate(h, s, op, id); }
    else if op.Consume? { ConsumeFate(h, s, op, id); }
    else if op.RequestApproval? || op.Decide? || op.Expire? {
      ApprovalsKeepLeases(h, s, op);
      ApprovalsKeepRuns(h, s, op);
    }
    else {
      LogsKeepLeases(h, s, op);
      if op.NewRun? { NewRunKeepsOthers(h, s, op, id); } else { LogsKeepRuns(h, s, op); }
    }
  }

  /** No operation made at or after its expiry extends a lease. */
  lemma {:induction false} ExpiryStands(h: Hashes, s: State, op: Op, id: RunId)
    requires Inv(h, s) && id in s.leases && s.leases[id].expiresAt <= ClockOf(op) && id in Next(h, s, op).leases
    ensures Next(h, s, op).leases[id].expiresAt == s.leases[id].expiresAt
  {
    hide Next, Inv, Succeeds;
    EveryLeaseHasItsFate(h, s, op, id);
  }

  lemma {:induction false} ExpiredThroughout(h: Hashes, t: Trace, i: nat, j: nat, id: RunId)
    requires t.IsHistory(h) && ClockRunsForward(t) && i <= j < |t.states| && i < |t.ops|
    requires id in t.states[i].leases && t.states[i].leases[id].expiresAt <= ClockOf(t.ops[i])
             && id in t.states[j].leases
    ensures t.states[j].leases[id].expiresAt == t.states[i].leases[id].expiresAt
  {
    hide Inv, Next;
    if i < j {
      WasLeasedBefore(h, t, i, j - 1, id);
      ExpiredThroughout(h, t, i, j - 1, id);
      EveryHistoryIsValid(h, t, j - 1);
      assert t.StepAt(h, j - 1);
      ExpiryStands(h, t.states[j - 1], t.ops[j - 1], id);
    }
  }

  lemma {:induction false} LeasedHasLeftQueue(h: Hashes, t: Trace, i: nat, id: RunId)
    requires t.IsHistory(h) && i < |t.states| && id in t.states[i].leases
    ensures id in t.states[i].runs && !t.states[i].runs[id].status.Queued?
  {
    EveryHistoryIsValid(h, t, i);
    var s := t.states[i];
    assert LeaseOk(id, s.leases[id], s.runs[id], id in s.cancels);
  }

  lemma {:induction false} NeverLeasedAnew(h: Hashes, t: Trace, i: nat, j: nat, id: RunId)
    requires t.IsHistory(h) && i <= j < |t.states| && id in t.states[j].leases
    requires id in t.states[i].runs && !t.states[i].runs[id].status.Queued?
    ensures id in t.states[i].leases
  {
    LaterFollows(h, t, i, j);
  }

  lemma {:induction false} WasLeasedBefore(h: Hashes, t: Trace, i: nat, j: nat, id: RunId)
    requires t.IsHistory(h) && i <= j && j + 1 < |t.states| && id in t.states[i].leases && id in t.states[j + 1].leases
    ensures id in t.states[j].leases
  {
    LeasedHasLeftQueue(h, t, i, id);
    RecordedIsForever(h, t, i, j, id);
    NeverLeasedAnew(h, t, j, j + 1, id);
  }

  /** Once the clock has reached a lease's expiry no heartbeat and no other lease-bound operation on its
      run ever succeeds or changes anything again. */
  lemma {:induction false} ExpiredLeaseStaysDead(h: Hashes, t: Trace, i: nat, j: nat, id: RunId)
    requires t.IsHistory(h) && ClockRunsForward(t) && i <= j < |t.ops|
    requires id in t.states[i].leases && t.states[i].leases[id].expiresAt <= ClockOf(t.ops[i])
    requires Presented(t.ops[j]).Some? && Presented(t.ops[j]).value.run.id == id
    ensures !Succeeds(h, t.states[j], t.ops[j]) && t.states[j + 1] == t.states[j]
  {
    if Succeeds(h, t.states[j], t.ops[j]) {
      OnlyTheHolderSucceeds(h, t.states[j], t.ops[j]);
      ExpiredThroughout(h, t, i, j, id);
    }
    RefusedLeavesState(h, t.states[j], t.ops[j]);
    assert t.StepAt(h, j);
  }

  // ---------------------------------------------------------------- leases left behind

  /** The stored lease shows an earlier revision of its run. */
  predicate LagsBehind(s: State, id: RunId) {
    id in s.leases && id in s.runs && s.leases[id].run.revision < s.runs[id].revision
  }

  /** A heartbeat succeeds exactly for the holder of an unexpired lease that is level with its run and
      presents that snapshot; so the present revision is never learned from a heartbeat. */
  lemma {:induction false} RenewedExactlyWhenLevel(h: Hashes, s: State, lease: RunLease, now: Time, ttl: int)
    requires Inv(h, s)
    ensures var id := lease.run.id;
            HeartbeatLease(s, lease, now, ttl).Ok? <==>
              && 0 < ttl <= MAX_LEASE_TTL && now + ttl <= MAX_TIME
              && id in s.runs && s.runs[id].updatedAt <= now
              && Holds(s, lease, now) && lease.run.revision == s.leases[id].run.revision && !LagsBehind(s, id)
    ensures var r := HeartbeatLease(s, lease, now, ttl);
            r.Ok? ==> lease.run.id in s.runs && r.value.1.run == s.runs[lease.run.id]
  {
    hide Inv;
    if lease.run.id in s.leases { LeaseAndRun(h, s, lease.run.id); }
  }

  /** In particular, for the lease as it is stored, within its lifetime and in time: a heartbeat is refused
      exactly when the lease lags behind. */
  lemma {:induction false} StoredLeaseIsRenewedUnlessItLags(h: Hashes, s: State, id: RunId, now: Time, ttl: int)
    requires Inv(h, s) && id in s.leases && s.leases[id].acquiredAt <= now < s.leases[id].expiresAt
    requires 0 < ttl <= MAX_LEASE_TTL && now + ttl <= MAX_TIME && id in s.runs
             && AuditTimeOk(s, id, now, s.runs[id].updatedAt)
    ensures HeartbeatLease(s, s.leases[id], now, ttl).Ok? <==> !LagsBehind(s, id)
  {
    hide Inv, HeartbeatLease;
    LeaseAndRun(h, s, id);
    RenewedExactlyWhenLevel(h, s, s.leases[id], now, ttl);
  }

  /** A holder whose lease lags behind, presenting the snapshot it was given, can do nothing with it but ask
      whether it is to cancel. */
  lemma {:induction false} LaggingHolderIsStuck(h: Hashes, s: State, op: Op)
    requires Presented(op).Some? && LagsBehind(s, Presented(op).value.run.id)
    requires Presented(op).value.run.revision == s.leases[Presented(op).value.run.id].run.revision && !op.AskCancelled?
    ensures !Succeeds(h, s, op) && Next(h, s, op) == s
  {
    hide Extend, ApplyTransition, AddArtifacts, Seal, CreateRun, TransitionRun, AppendAudit, ReconcileExecution,
      RecordArtifacts, ClaimNextRun, LeaseCancelRequested, RequestCancel, RecoverExpiredLeases, CreateApproval,
      DecideApproval, ExpireApproval, ConsumeApproval;
  }

  /** A leased run comes to lag behind by consuming one of its approvals, and in no other way; the lag ends
      by a move of the holder or with the lease, and in no other way. */
  lemma {:induction false} LagBeginsAndEnds(h: Hashes, s: State, op: Op, id: RunId)
    requires Inv(h, s) && id in s.leases
    ensures !LagsBehind(s, id) ==> (LagsBehind(Next(h, s, op), id) <==> ConsumesFor(h, s, op, id))
    ensures LagsBehind(s, id) ==>
              (!LagsBehind(Next(h, s, op), id) <==> id !in Next(h, s, op).leases || HolderMoves(h, s, op, id))
  {
    hide Next, Inv, Succeeds;
    LeaseAndRun(h, s, id);
    EveryLeaseHasItsFate(h, s, op, id);
  }

  lemma {:induction false} MovesGrantNothing(h: Hashes, s: State, op: Op)
    requires op.Heartbeat? || op.MoveLeased? || op.MoveRun?
    ensures Next(h, s, op).leases.Keys <= s.leases.Keys
  {
    hide AuditTimeOk, Extend, Advance, ApplyTransition, CreateRun, AppendAudit, ReconcileExecution, RecordArtifacts,
      ClaimNextRun, CompleteLeasedRun, AppendLeasedAudit, RecordLeasedArtifacts, LeaseCancelRequested, ConfirmCancel,
      RequestCancel, RecoverExpiredLeases, CreateApproval, DecideApproval, ExpireApproval, ConsumeApproval;
    if op.MoveLeased? && Succeeds(h, s, op) {
      var run := s.runs[op.lease.run.id];
      TransitionKeepsLeases(h, s, run, op.next, None, op.now, op.lease.owner, TransitionEvent(op.next), op.event);
    }
  }

  lemma {:induction false} EndingsGrantNothing(h: Hashes, s: State, op: Op)
    requires op.CompleteLeased? || op.Confirm?
    ensures Next(h, s, op).leases.Keys <= s.leases.Keys
  {
    hide AuditTimeOk, Extend, Advance, ApplyTransition, CreateRun, TransitionRun, AppendAudit, ReconcileExecution,
      RecordArtifacts, ClaimNextRun, HeartbeatLease, TransitionLeasedRun, AppendLeasedAudit, RecordLeasedArtifacts,
      LeaseCancelRequested, RequestCancel, RecoverExpiredLeases, CreateApproval, DecideApproval, ExpireApproval,
      ConsumeApproval;
    if Succeeds(h, s, op) {
      var run := s.runs[op.lease.run.id];
      if op.Confirm? {
        TransitionKeepsLeases(h, s, run, RunStatus.Cancelled, None, op.now, op.lease.owner, CancelConfirmed, op.event);
      } else {
        TransitionKeepsLeases(h, s, run, op.next, op.reason, op.now, op.lease.owner, TransitionEvent(op.next),
                              op.event);
      }
    }
  }

  lemma {:induction false} CancelGrantsNothing(h: Hashes, s: State, op: Op)
    requires op.Cancel?
    ensures Next(h, s, op).leases.Keys <= s.leases.Keys
  {
    hide AuditTimeOk, Extend, Advance, ApplyTransition, CreateRun, TransitionRun, AppendAudit, ReconcileExecution,
      RecordArtifacts, ClaimNextRun, HeartbeatLease, TransitionLeasedRun, CompleteLeasedRun, AppendLeasedAudit,
      RecordLeasedArtifacts, LeaseCancelRequested, ConfirmCancel, RecoverExpiredLeases, CreateApproval, DecideApproval,
      ExpireApproval, ConsumeApproval;
    if op.id in s.runs && ApplyTransition(h, s, s.runs[op.id], RunStatus.Cancelled, None, op.now, op.actor,
                                          CancelConfirmed, op.event).Ok? {
      TransitionKeepsLeases(h, s, s.runs[op.id], RunStatus.Cancelled, None, op.now, op.actor, CancelConfirmed,
                            op.event);
    }
  }

  lemma {:induction false} SweepsGrantNothing(h: Hashes, s: State, op: Op)
    requires Inv(h, s) && (op.Recover? || op.Consume?)
    ensures Next(h, s, op).leases.Keys <= s.leases.Keys
  {
    hide Inv, FailedByRecovery, CreateRun, TransitionRun, AppendAudit, ReconcileExecution, RecordArtifacts,
      ClaimNextRun, HeartbeatLease, TransitionLeasedRun, CompleteLeasedRun, AppendLeasedAudit, RecordLeasedArtifacts,
      LeaseCancelRequested, ConfirmCancel, RequestCancel, RecoverExpiredLeases, CreateApproval, DecideApproval,
      ExpireApproval, ConsumeApproval;
    if op.Recover? {
      var n := RecoveryIsExact(h, s, op.actor, op.now, op.events);
    } else if Succeeds(h, s, op) {
      ValidIsStoredById(h, s);
      ConsumptionAdvancesRun(h, s, op.approval, op.expected, op.action, op.actor, op.now, op.events);
    } else {
      FailedConsumption(h, s, op.approval, op.expected, op.action, op.actor, op.now, op.events);
    }
  }

  lemma {:induction false} ClaimGrantsIt(h: Hashes, s: State, op: Op, id: RunId)
    requires Inv(h, s) && op.Claim? && id !in s.leases && id in Next(h, s, op).leases
    ensures GrantsLease(h, s, op, id)
  {
    hide Inv, ChainOk, ReceiptsOk, Extend, CreateRun, TransitionRun, AppendAudit, ReconcileExecution, RecordArtifacts,
      HeartbeatLease, TransitionLeasedRun, CompleteLeasedRun, AppendLeasedAudit, RecordLeasedArtifacts,
      LeaseCancelRequested, ConfirmCancel, RequestCancel, RecoverExpiredLeases, CreateApproval, DecideApproval,
      ExpireApproval, ConsumeApproval;
    RunAndChain(h, s, NextInQueue(s).value);
  }

  /** Leases come from claims alone. */
  lemma {:induction false} OnlyClaimsGrant(h: Hashes, s: State, op: Op, id: RunId)
    requires Inv(h, s) && id !in s.leases && id in Next(h, s, op).leases
    ensures GrantsLease(h, s, op, id)
  {
    hide Next, Inv, GrantsLease;
    if op.Claim? { ClaimGrantsIt(h, s, op, id); }
    else if op.Heartbeat? || op.MoveLeased? || op.MoveRun? { MovesGrantNothing(h, s, op); }
    else if op.CompleteLeased? || op.Confirm? { EndingsGrantNothing(h, s, op); }
    else if op.Cancel? { CancelGrantsNothing(h, s, op); }
    else if op.Recover? || op.Consume? { SweepsGrantNothing(h, s, op); }
    else if op.RequestApproval? || op.Decide? || op.Expire? { ApprovalsKeepLeases(h, s, op); }
    else { LogsKeepLeases(h, s, op); }
  }

  lemma {:induction false} GrantIsLevel(h: Hashes, s: State, op: Op, id: RunId)
    requires Inv(h, s) && id !in s.leases && id in Next(h, s, op).leases
    ensures !LagsBehind(Next(h, s, op), id)
  {
    hide Next, Inv;
    OnlyClaimsGrant(h, s, op, id);
    ClaimTakesNextInQueue(h, s, op, id);
  }

  lemma {:induction false} NewLeaseIsLevel(h: Hashes, t: Trace, i: nat, id: RunId)
    requires t.IsHistory(h) && i + 1 < |t.states| && id !in t.states[i].leases && id in t.states[i + 1].leases
    ensures !LagsBehind(t.states[i + 1], id)
  {
    hide Inv, Next, Evolves;
    EveryHistoryIsValid(h, t, i);
    assert t.StepAt(h, i);
    GrantIsLevel(h, t.states[i], t.ops[i], id);
  }

  /** Over whole histories: a lease that lags behind has done so ever since a consumption of one of its run's
      approvals. */
  lemma {:induction false} LagComesFromConsumption(h: Hashes, t: Trace, i: nat, id: RunId) returns (j: nat)
    requires t.IsHistory(h) && i < |t.states| && LagsBehind(t.states[i], id)
    ensures j < i && ConsumesFor(h, t.states[j], t.ops[j], id)
    ensures forall k | j < k <= i :: LagsBehind(t.states[k], id)
  {
    hide Inv, Next, Succeeds, ConsumesFor;
    EveryHistoryIsValid(h, t, i - 1);
    assert t.StepAt(h, i - 1);
    if id !in t.states[i - 1].leases { NewLeaseIsLevel(h, t, i - 1, id); }
    LagBeginsAndEnds(h, t.states[i - 1], t.ops[i - 1], id);
    if LagsBehind(t.states[i - 1], id) { j := LagComesFromConsumption(h, t, i - 1, id); } else { j := i - 1; }
  }
}
