/** Where claims come from: the step that consumed an approval with the action itself in hand. */
module ClaimOrigins {
  import opened Prelude
  import opened Records
  import opened AuditChain
  import opened StoreState
  import opened StoreInvariant
  import opened History
  import opened RunMovement
  import opened ActionExecution

  // ---------------------------------------------------------------- nothing but a consumption claims

  lemma {:induction false} TransitionKeepsClaims(h: Hashes, s: State, run: Run, next: RunStatus, reason: Option<string>,
                                                 now: Time, actor: ActorId, kind: EventKind, event: EventId)
    requires ApplyTransition(h, s, run, next, reason, now, actor, kind, event).Ok?
    ensures ApplyTransition(h, s, run, next, reason, now, actor, kind, event).value.0.claims == s.claims
  {
    hide Advance, Extend;
  }

  lemma {:induction false} LogsKeepClaims(h: Hashes, s: State, op: Op)
    requires op.NewRun? || op.Audit? || op.AuditLeased? || op.Reconcile? || op.StoreArtifacts?
             || op.StoreLeasedArtifacts? || op.AskCancelled? || op.Heartbeat?
    ensures Next(h, s, op).claims == s.claims
  {
    hide ReceiptWasAudited, ArtifactEvents, BatchOk, Extend, Seal, ValidateLease, Advance, TransitionRun,
      ClaimNextRun, TransitionLeasedRun, CompleteLeasedRun, LeaseCancelRequested, ConfirmCancel, RequestCancel,
      RecoverExpiredLeases, CreateApproval, DecideApproval, ExpireApproval, ConsumeApproval;
  }

  lemma {:induction false} ApprovalsKeepClaims(h: Hashes, s: State, op: Op)
    requires op.RequestApproval? || op.Decide? || op.Expire?
    ensures Next(h, s, op).claims == s.claims
  {
    hide ApprovalExists, ApprovalEvent, WindowRun, CreateRun, TransitionRun, AppendAudit, ReconcileExecution,
      RecordArtifacts, ClaimNextRun, HeartbeatLease, TransitionLeasedRun, CompleteLeasedRun, AppendLeasedAudit,
      RecordLeasedArtifacts, LeaseCancelRequested, ConfirmCancel, RequestCancel, RecoverExpiredLeases,
      ConsumeApproval;
  }

  lemma {:induction false} NextIsStored(s: State)
    requires NextInQueue(s).Some?
    ensures NextInQueue(s).value in s.runs
  {
    NextIsClaimable(s, NextInQueue(s).value);
  }

  lemma {:induction false} MovesKeepClaims(h: Hashes, s: State, op: Op)
    requires op.MoveRun? || op.Claim? || op.MoveLeased?
    ensures Next(h, s, op).claims == s.claims
  {
    hide Advance, Extend, AuditTimeOk, ApplyTransition, NextInQueue, CreateRun, AppendAudit, ReconcileExecution,
      RecordArtifacts, HeartbeatLease, CompleteLeasedRun, AppendLeasedAudit, RecordLeasedArtifacts,
      LeaseCancelRequested, ConfirmCancel, RequestCancel, RecoverExpiredLeases, CreateApproval, DecideApproval,
      ExpireApproval, ConsumeApproval;
    if op.Claim? && NextInQueue(s).Some? && Succeeds(h, s, op) {
      NextIsStored(s);
      TransitionKeepsClaims(h, s, s.runs[NextInQueue(s).value], Planning, None, op.now, op.owner, RuntimeSelected,
                            op.event);
    } else if op.MoveLeased? && Succeeds(h, s, op) {
      TransitionKeepsClaims(h, s, s.runs[op.lease.run.id], op.next, None, op.now, op.lease.owner,
                            TransitionEvent(op.next), op.event);
    }
  }

  lemma {:induction false} EndingsKeepClaims(h: Hashes, s: State, op: Op)
    requires op.CompleteLeased? || op.Confirm?
    ensures Next(h, s, op).claims == s.claims
  {
    hide Advance, Extend, AuditTimeOk, ApplyTransition, CreateRun, TransitionRun, AppendAudit, ReconcileExecution,
      RecordArtifacts, ClaimNextRun, HeartbeatLease, TransitionLeasedRun, AppendLeasedAudit, RecordLeasedArtifacts,
      LeaseCancelRequested, RequestCancel, RecoverExpiredLeases, CreateApproval, DecideApproval, ExpireApproval,
      ConsumeApproval;
    if Succeeds(h, s, op) {
      var run := s.runs[op.lease.run.id];
      if op.Confirm? {
        TransitionKeepsClaims(h, s, run, RunStatus.Cancelled, None, op.now, op.lease.owner, CancelConfirmed, op.event);
      } else {
        TransitionKeepsClaims(h, s, run, op.next, op.reason, op.now, op.lease.owner, TransitionEvent(op.next),
                              op.event);
      }
    }
  }

  lemma {:induction false} CancelKeepsClaims(h: Hashes, s: State, op: Op)
    requires op.Cancel?
    ensures Next(h, s, op).claims == s.claims
  {
    hide Advance, Extend, AuditTimeOk, ApplyTransition, CreateRun, TransitionRun, AppendAudit, ReconcileExecution,
      RecordArtifacts, ClaimNextRun, HeartbeatLease, TransitionLeasedRun, CompleteLeasedRun, AppendLeasedAudit,
      RecordLeasedArtifacts, LeaseCancelRequested, ConfirmCancel, RecoverExpiredLeases, CreateApproval,
      DecideApproval, ExpireApproval, ConsumeApproval;
    if op.id in s.runs && ApplyTransition(h, s, s.runs[op.id], RunStatus.Cancelled, None, op.now, op.actor,
                                          CancelConfirmed, op.event).Ok? {
      TransitionKeepsClaims(h, s, s.runs[op.id], RunStatus.Cancelled, None, op.now, op.actor, CancelConfirmed,
                            op.event);
    }
  }

  lemma {:induction false} RecoveryKeepsClaims(h: Hashes, s: State, ids: seq<RunId>, i: nat, actor: ActorId, now: Time,
                                               events: EventIds)
    requires i <= |ids|
    ensures RecoverFrom(h, s, ids, i, actor, now, events).0.claims == s.claims
    decreases |ids| - i
  {
    hide AuditTimeOk, ApplyTransition;
    if i < |ids| && RecoverOne(h, s, ids[i], actor, now, events(i)).Ok? {
      if !s.runs[ids[i]].status.IsTerminal() {
        TransitionKeepsClaims(h, s, s.runs[ids[i]], RunStatus.Failed, None, now, actor, RunFailed, events(i));
      }
      RecoveryKeepsClaims(h, RecoverOne(h, s, ids[i], actor, now, events(i)).value, ids, i + 1, actor, now, events);
    }
  }

  /** The operation is a consumption that succeeds, with an action that hashes to its digest, and leaves the claim
      of just that action. */
  ghost predicate ClaimsFor(h: Hashes, s: State, op: Op, id: ActionId, claim: ActionClaim) {
    && op.Consume? && Succeeds(h, s, op) && ParametersMatchHash(h, op.action) && op.action.binding.id == id
    && claim == ActionClaim(op.action.binding.runId, id, op.action.parameterHash, op.actor, op.now)
  }

  lemma {:induction false} ConsumptionClaims(h: Hashes, s: State, approval: ApprovalId, expected: U64,
                                             action: ActionRequest, actor: ActorId, now: Time, events: EventIds)
    ensures var (s', r) := ConsumeApproval(h, s, approval, expected, action, actor, now, events);
            var claim := ActionClaim(action.binding.runId, action.binding.id, action.parameterHash, actor, now);
            && (r.Err? ==> s'.claims == s.claims)
            && (r.Ok? ==> ParametersMatchHash(h, action) && s'.claims == s.claims[action.binding.id := claim])
  {
    hide WindowRun, ApprovalEvent, Seal;
  }

  lemma {:induction false} SweepClaims(h: Hashes, s: State, op: Op, id: ActionId)
    requires (op.Recover? || op.Consume?) && id !in s.claims && id in Next(h, s, op).claims
    ensures ClaimsFor(h, s, op, id, Next(h, s, op).claims[id])
  {
    hide CreateRun, TransitionRun, AppendAudit, ReconcileExecution, RecordArtifacts, ClaimNextRun, HeartbeatLease,
      TransitionLeasedRun, CompleteLeasedRun, AppendLeasedAudit, RecordLeasedArtifacts, LeaseCancelRequested,
      ConfirmCancel, RequestCancel, CreateApproval, DecideApproval, ExpireApproval, ConsumeApproval;
    if op.Recover? {
      RecoveryKeepsClaims(h, s, ExpiredLeases(s, op.now), 0, op.actor, op.now, op.events);
    } else {
      ConsumptionClaims(h, s, op.approval, op.expected, op.action, op.actor, op.now, op.events);
    }
  }

  /** The one way for a claim to appear, in any state and for any operation. */
  lemma {:induction false} OnlyConsumptionClaims(h: Hashes, s: State, op: Op, id: ActionId)
    requires id !in s.claims && id in Next(h, s, op).claims
    ensures ClaimsFor(h, s, op, id, Next(h, s, op).claims[id])
  {
    hide Next, ClaimsFor;
    if op.RequestApproval? || op.Decide? || op.Expire? { ApprovalsKeepClaims(h, s, op); }
    else if op.MoveRun? || op.Claim? || op.MoveLeased? { MovesKeepClaims(h, s, op); }
    else if op.CompleteLeased? || op.Confirm? { EndingsKeepClaims(h, s, op); }
    else if op.Cancel? { CancelKeepsClaims(h, s, op); }
    else if op.Recover? || op.Consume? { SweepClaims(h, s, op, id); }
    else { LogsKeepClaims(h, s, op); }
  }

  // ---------------------------------------------------------------- the whole action was approved

  lemma {:induction false} ClaimsStay(h: Hashes, t: Trace, i: nat, j: nat, id: ActionId)
    requires t.IsHistory(h) && i <= j < |t.states| && id in t.states[i].claims
    ensures id in t.states[j].claims && t.states[j].claims[id] == t.states[i].claims[id]
  {
    LaterFollows(h, t, i, j);
    hide Inv;
  }

  /** Every claim of a history was made by one of its steps. */
  lemma {:induction false} ClaimHasOrigin(h: Hashes, t: Trace, i: nat, id: ActionId) returns (j: nat)
    requires t.IsHistory(h) && i < |t.states| && id in t.states[i].claims
    ensures j < i && ClaimsFor(h, t.states[j], t.ops[j], id, t.states[i].claims[id])
  {
    hide Next, ClaimsFor;
    j := i - 1;
    if i > 0 {
      assert t.StepAt(h, j);
      if id in t.states[j].claims {
        ClaimsStay(h, t, j, i, id);
        j := ClaimHasOrigin(h, t, j, id);
      } else {
        OnlyConsumptionClaims(h, t.states[j], t.ops[j], id);
      }
    } else {
      assert false;
    }
  }

  /** The digests of the two bindings do not collide. */
  ghost predicate NoActionCollision(h: Hashes, a: ActionBinding, b: ActionBinding) {
    h.action(a) == h.action(b) && h.action(a).Some? ==> a == b
  }

  /** A verified action is the very action that a step of the history consumed an approval for: the same run, id and
      digest in any case, and the same in every field unless the two bindings are a collision of the digest. */
  lemma {:induction false} VerifiedMeansConsumed(h: Hashes, t: Trace, i: nat, action: ActionRequest, claim: ActionClaim)
    returns (j: nat)
    requires t.IsHistory(h) && i < |t.states| && VerifyClaim(h, t.states[i], action, claim).Ok?
    ensures j < i && t.ops[j].Consume? && Succeeds(h, t.states[j], t.ops[j])
    ensures var consumed := t.ops[j].action;
            && consumed.binding.id == action.binding.id && consumed.binding.runId == action.binding.runId
            && consumed.parameterHash == action.parameterHash
            && (NoActionCollision(h, consumed.binding, action.binding) ==> consumed == action)
  {
    hide Next, Succeeds, Trace.IsHistory;
    j := ClaimHasOrigin(h, t, i, action.binding.id);
  }

  /** And the action of every consumption is verified with its claim ever after. */
  lemma {:induction false} ConsumedIsVerifiable(h: Hashes, t: Trace, j: nat, i: nat)
    requires t.IsHistory(h) && j < i < |t.states| && t.ops[j].Consume? && Succeeds(h, t.states[j], t.ops[j])
    ensures var op := t.ops[j];
            var claim := ActionClaim(op.action.binding.runId, op.action.binding.id, op.action.parameterHash, op.actor,
                                     op.now);
            VerifyClaim(h, t.states[i], op.action, claim) == Ok(ClaimedAction(op.action, claim))
  {
    hide CreateRun, TransitionRun, AppendAudit, ReconcileExecution, RecordArtifacts, ClaimNextRun, HeartbeatLease,
      TransitionLeasedRun, CompleteLeasedRun, AppendLeasedAudit, RecordLeasedArtifacts, LeaseCancelRequested,
      ConfirmCancel, RequestCancel, RecoverExpiredLeases, CreateApproval, DecideApproval, ExpireApproval,
      ConsumeApproval;
    var op := t.ops[j];
    assert t.StepAt(h, j);
    ConsumptionClaims(h, t.states[j], op.approval, op.expected, op.action, op.actor, op.now, op.events);
    ClaimsStay(h, t, j + 1, i, op.action.binding.id);
  }
}
