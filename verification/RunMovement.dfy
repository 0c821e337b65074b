/** Who may move a run, and what every move leaves behind: an event that announces it and a redacted reason. */
module RunMovement {
  import opened Prelude
  import opened TextRedaction
  import opened Records
  import opened AuditChain
  import opened StoreState
  import opened StoreInvariant
  import opened History
  import opened Guarantees
  import AuditWire

  /** The sandbox result proves that this run's sandbox was cancelled and cleaned up. */
  predicate ProvesCancelled(result: SandboxResult, id: RunId) {
    result.runId == id && result.termination.Cancelled? && result.exitCode.None? && result.cleanup.CleanupSucceeded?
  }

  predicate Holds(s: State, lease: RunLease, now: Time) {
    && lease.run.id in s.leases
    && s.leases[lease.run.id].token == lease.token && s.leases[lease.run.id].owner == lease.owner
    && s.leases[lease.run.id].acquiredAt <= now < s.leases[lease.run.id].expiresAt
  }

  /** Whether the operation is entitled to bring the run to a status. */
  ghost predicate MayMove(s: State, op: Op, id: RunId, to: RunStatus)
    requires id in s.runs
  {
    match op
    case MoveRun(x, _, next, _, _, _) => id == x && id !in s.leases && to == next
    case Claim(_, _, _, _, _) => IsNextInQueue(s, id) && to.Planning?
    case MoveLeased(lease, _, next, now, _) =>
      lease.run.id == id && Holds(s, lease, now) && to == next && !next.IsTerminal()
    case CompleteLeased(lease, _, next, _, now, _) =>
      && lease.run.id == id && Holds(s, lease, now) && to == next
      && (to.Failed? || to.TimedOut? || (to.Succeeded? && id !in s.cancels))
    case Confirm(lease, now, _, result, _) =>
      lease.run.id == id && Holds(s, lease, now) && id in s.cancels && ProvesCancelled(result, id)
        && to == RunStatus.Cancelled
    case Cancel(x, _, _, _) =>
      id == x && id !in s.leases && (s.runs[id].status.Queued? || s.runs[id].status.AwaitingApproval?)
        && to == RunStatus.Cancelled
    case Recover(_, now, _) => IsExpired(s, now, id) && to == RunStatus.Failed
    case Consume(a, _, _, _, _, _) =>
      && a in s.approvals && s.approvals[a].runId == id && s.approvals[a].status.Approved?
      && s.runs[id].status.AwaitingApproval? && a in s.windows && s.windows[a] == s.runs[id].revision && to.Running?
    case _ => false
  }

  /** Whether an event of the kind announces that the operation has brought a run to the status. A
      cancellation by an unleased writer is announced as a failure. */
  predicate Announces(op: Op, kind: EventKind, status: RunStatus) {
    match status
    case Queued => false
    case Planning => kind.RuntimeSelected?
    case AwaitingApproval => kind.ActionRequested?
    case Running => kind.RuntimeStarted?
    case Succeeded => kind.RunCompleted?
    case Failed => kind.RunFailed?
    case TimedOut => kind.RunFailed?
    case Cancelled => if op.MoveRun? then kind.RunFailed? else kind.CancelConfirmed?
  }

  /** The chain ends in an event of the kind, written at the time. */
  predicate EndsIn(chain: seq<AuditEvent>, kind: EventKind, time: Time) {
    chain != [] && chain[|chain| - 1].body.kind == kind && LastTime(chain) == time
  }

  /** The event announces the run's status, as brought about by the operation, at the time of its last update. */
  predicate IsAnnouncement(op: Op, e: AuditEvent, run: Run) {
    Announces(op, e.body.kind, run.status) && e.body.timestamp == run.updatedAt
  }

  /** The last event of the chain announces the run. */
  predicate EndsInAnnouncement(op: Op, run: Run, chain: seq<AuditEvent>) {
    chain != [] && IsAnnouncement(op, chain[|chain| - 1], run)
  }

  /** A new terminal reason is one that went through the redactor. */
  ghost predicate ReasonIsStored(before: Run, after: Run) {
    || after.terminalReason.None? || after.terminalReason == before.terminalReason
    || exists reason: Option<string> :: after.terminalReason.value == StoredReason(reason)
  }

  /** The run stays as it is, or an entitled operation moves it, announces it and stores a redacted reason. */
  ghost predicate IsEntitled(s: State, op: Op, id: RunId, s': State) {
    && id in s.runs && id in s'.runs
    && (|| s'.runs[id] == s.runs[id]
        || (&& MayMove(s, op, id, s'.runs[id].status)
            && id in s'.audits && EndsInAnnouncement(op, s'.runs[id], s'.audits[id])
            && ReasonIsStored(s.runs[id], s'.runs[id])))
  }

  /** Runs and approvals are stored under their own ids. */
  predicate StoredById(s: State) {
    && (forall id | id in s.runs :: s.runs[id].id == id)
    && (forall a | a in s.approvals :: s.approvals[a].id == a)
  }

  lemma {:induction false} ValidIsStoredById(h: Hashes, s: State)
    requires Inv(h, s)
    ensures StoredById(s)
  {
    forall id | id in s.runs ensures s.runs[id].id == id { assert RunOk(id, s.runs[id], s.audits[id]); }
    forall a | a in s.approvals ensures s.approvals[a].id == a {
      assert ApprovalOk(a, s.approvals[a], s.windows[a], s.runs[s.approvals[a].runId]);
    }
  }

  /** What a transition does to the runs and to the chain of its own run. */
  ghost predicate MovesTo(s: State, s': State, x: RunId, next: RunStatus, kind: EventKind, id: RunId) {
    && id in s.runs && id in s'.runs
    && if id != x then s'.runs[id] == s.runs[id]
       else && s'.runs[id].status == next && ReasonIsStored(s.runs[id], s'.runs[id])
            && id in s'.audits && EndsIn(s'.audits[id], kind, s'.runs[id].updatedAt)
  }

  lemma {:induction false} TransitionMoves(h: Hashes, s: State, x: RunId, next: RunStatus, reason: Option<string>,
                                           now: Time,
                                           actor: ActorId, kind: EventKind, event: EventId, id: RunId)
    requires id in s.runs && x in s.runs && s.runs[x].id == x
    requires ApplyTransition(h, s, s.runs[x], next, reason, now, actor, kind, event).Ok?
    ensures MovesTo(s, ApplyTransition(h, s, s.runs[x], next, reason, now, actor, kind, event).value.0, x, next, kind,
                    id)
    ensures s.runs[x].status.CanTransitionTo(next)
  {
    hide StoredReason;
  }

  lemma {:induction false} TransitionAddsNoRun(h: Hashes, s: State, x: RunId, next: RunStatus, reason: Option<string>,
                                               now: Time,
                                               actor: ActorId, kind: EventKind, event: EventId)
    requires x in s.runs && s.runs[x].id == x
             && ApplyTransition(h, s, s.runs[x], next, reason, now, actor, kind, event).Ok?
    ensures ApplyTransition(h, s, s.runs[x], next, reason, now, actor, kind, event).value.0.runs.Keys == s.runs.Keys
  {
  }

  lemma {:induction false} ClaimTakesOne(h: Hashes, s: State, owner: ActorId, now: Time, ttl: int, token: LeaseToken,
                                         event: EventId, id: RunId)
    requires StoredById(s) && id in s.runs && ClaimNextRun(h, s, owner, now, ttl, token, event).Ok?
    ensures var s' := ClaimNextRun(h, s, owner, now, ttl, token, event).value.0;
            if NextInQueue(s).None? then s' == s
              else MovesTo(s, s', NextInQueue(s).value, Planning, RuntimeSelected, id)
  {
    hide ApplyTransition;
    if NextInQueue(s).Some? {
      TransitionMoves(h, s, NextInQueue(s).value, Planning, None, now, owner, RuntimeSelected, event, id);
    }
  }

  lemma {:induction false} ClaimMoves(h: Hashes, s: State, op: Op, id: RunId)
    requires StoredById(s) && id in s.runs && op.Claim?
    ensures IsEntitled(s, op, id, Next(h, s, op))
  {
    hide ClaimNextRun, ReasonIsStored, CreateRun, TransitionRun, AppendAudit, ReconcileExecution, RecordArtifacts,
      HeartbeatLease, TransitionLeasedRun, CompleteLeasedRun, AppendLeasedAudit, RecordLeasedArtifacts,
      LeaseCancelRequested, ConfirmCancel, RequestCancel, RecoverExpiredLeases, CreateApproval, DecideApproval,
      ExpireApproval, ConsumeApproval;
    if Succeeds(h, s, op) { ClaimTakesOne(h, s, op.owner, op.now, op.ttl, op.token, op.event, id); }
  }

  lemma {:induction false} LeasedMoves(h: Hashes, s: State, op: Op, id: RunId)
    requires StoredById(s) && id in s.runs && (op.MoveLeased? || op.CompleteLeased?)
    ensures IsEntitled(s, op, id, Next(h, s, op))
  {
    hide AuditTimeOk, ApplyTransition, ReasonIsStored, CreateRun, TransitionRun, AppendAudit, ReconcileExecution,
      RecordArtifacts, ClaimNextRun, HeartbeatLease, AppendLeasedAudit, RecordLeasedArtifacts, LeaseCancelRequested,
      ConfirmCancel, RequestCancel, RecoverExpiredLeases, CreateApproval, DecideApproval, ExpireApproval,
      ConsumeApproval;
    if Succeeds(h, s, op) {
      var x := op.lease.run.id;
      var reason := if op.CompleteLeased? then op.reason else None;
      TransitionMoves(h, s, x, op.next, reason, op.now, op.lease.owner, TransitionEvent(op.next), op.event, id);
    }
  }

  lemma {:induction false} CancelMoves(h: Hashes, s: State, op: Op, id: RunId)
    requires StoredById(s) && id in s.runs && op.Cancel?
    ensures IsEntitled(s, op, id, Next(h, s, op))
  {
    hide AuditTimeOk, ApplyTransition, AppendEvent, ReasonIsStored, CreateRun, TransitionRun, AppendAudit,
      ReconcileExecution, RecordArtifacts, ClaimNextRun, HeartbeatLease, TransitionLeasedRun, CompleteLeasedRun,
      AppendLeasedAudit, RecordLeasedArtifacts, LeaseCancelRequested, ConfirmCancel, RecoverExpiredLeases,
      CreateApproval, DecideApproval, ExpireApproval, ConsumeApproval;
    if Succeeds(h, s, op) {
      if op.id !in s.leases && !s.runs[op.id].status.IsTerminal() {
        TransitionMoves(h, s, op.id, RunStatus.Cancelled, None, op.now, op.actor, CancelConfirmed, op.event, id);
      } else {
        RequestLeavesRuns(h, s, op.id, op.actor, op.now, op.event);
      }
    }
  }

  lemma {:induction false} RequestLeavesRuns(h: Hashes, s: State, x: RunId, actor: ActorId, now: Time, event: EventId)
    requires RequestCancel(h, s, x, actor, now, event).Ok? && x in s.runs
             && (x in s.leases || s.runs[x].status.IsTerminal())
    ensures RequestCancel(h, s, x, actor, now, event).value.0.runs == s.runs
  {
  }

  lemma {:induction false} TransitionRunMoves(h: Hashes, s: State, x: RunId, expected: U64, next: RunStatus,
                                              reason: Option<string>,
                                              audit: Envelope, event: EventId, id: RunId)
    requires id in s.runs && TransitionRun(h, s, x, expected, next, reason, audit, event).Ok?
    ensures MovesTo(s, TransitionRun(h, s, x, expected, next, reason, audit, event).value.0, x, next,
                    TransitionEvent(next), id)
    ensures x in s.runs && s.runs[x].status.CanTransitionTo(next) && x !in s.leases
  {
    hide StoredReason;
  }

  lemma {:induction false} UnleasedMoves(h: Hashes, s: State, op: Op, id: RunId)
    requires id in s.runs && op.MoveRun?
    ensures IsEntitled(s, op, id, Next(h, s, op))
  {
    hide TransitionRun, ReasonIsStored, CreateRun, AppendAudit, ReconcileExecution, RecordArtifacts, ClaimNextRun,
      HeartbeatLease, TransitionLeasedRun, CompleteLeasedRun, AppendLeasedAudit, RecordLeasedArtifacts,
      LeaseCancelRequested, ConfirmCancel, RequestCancel, RecoverExpiredLeases, CreateApproval, DecideApproval,
      ExpireApproval, ConsumeApproval;
    if Succeeds(h, s, op) { TransitionRunMoves(h, s, op.id, op.expected, op.next, op.reason, op.audit, op.event, id); }
  }

  lemma {:induction false} ConfirmationMoves(h: Hashes, s: State, lease: RunLease, now: Time,
                                             evidence: CancellationEvidence, event: EventId, id: RunId)
    requires StoredById(s) && id in s.runs && ConfirmCancel(h, s, lease, now, evidence, event).Ok?
    ensures MovesTo(s, ConfirmCancel(h, s, lease, now, evidence, event).value.0, lease.run.id, RunStatus.Cancelled,
                    CancelConfirmed, id)
    ensures Holds(s, lease, now) && lease.run.id in s.cancels && evidence.runId == lease.run.id
  {
    hide AuditTimeOk, ApplyTransition, ReasonIsStored;
    TransitionMoves(h, s, lease.run.id, RunStatus.Cancelled, None, now, lease.owner, CancelConfirmed, event, id);
  }

  lemma {:induction false} EvidenceProves(lease: RunLease, result: SandboxResult)
    requires VerifyCancellation(lease, result).Ok?
    ensures ProvesCancelled(result, VerifyCancellation(lease, result).value.runId)
  {
  }

  lemma {:induction false} ConfirmMoves(h: Hashes, s: State, op: Op, id: RunId)
    requires StoredById(s) && id in s.runs && op.Confirm?
    ensures IsEntitled(s, op, id, Next(h, s, op))
  {
    hide ConfirmCancel, ReasonIsStored, VerifyCancellation, ProvesCancelled, CreateRun, TransitionRun, AppendAudit,
      ReconcileExecution, RecordArtifacts, ClaimNextRun, HeartbeatLease, TransitionLeasedRun, CompleteLeasedRun,
      AppendLeasedAudit, RecordLeasedArtifacts, LeaseCancelRequested, RequestCancel, RecoverExpiredLeases,
      CreateApproval, DecideApproval, ExpireApproval, ConsumeApproval;
    if Succeeds(h, s, op) {
      EvidenceProves(op.observed, op.result);
      ConfirmationMoves(h, s, op.lease, op.now, VerifyCancellation(op.observed, op.result).value, op.event, id);
    }
  }

  lemma {:induction false} ConsumptionMoves(h: Hashes, s: State, a: ApprovalId, expected: U64, action: ActionRequest,
                                            actor: ActorId, now: Time,
                                            events: EventIds, id: RunId)
    requires StoredById(s) && id in s.runs
    ensures var s' := ConsumeApproval(h, s, a, expected, action, actor, now, events).0;
            && id in s'.runs
            && (|| s'.runs[id] == s.runs[id]
                || (&& a in s.approvals && s.approvals[a].runId == id && s.approvals[a].status.Approved?
                    && s.runs[id].status.AwaitingApproval? && a in s.windows && s.windows[a] == s.runs[id].revision
                    && s'.runs[id].status.Running? && s'.runs[id].terminalReason == s.runs[id].terminalReason
                    && id in s'.audits && EndsIn(s'.audits[id], RuntimeStarted, s'.runs[id].updatedAt)))
  {
    hide BindingMatches;
  }

  lemma {:induction false} ConsumeMoves(h: Hashes, s: State, op: Op, id: RunId)
    requires StoredById(s) && id in s.runs && op.Consume?
    ensures IsEntitled(s, op, id, Next(h, s, op))
  {
    hide ConsumeApproval, CreateRun, TransitionRun, AppendAudit, ReconcileExecution, RecordArtifacts, ClaimNextRun,
      HeartbeatLease, TransitionLeasedRun, CompleteLeasedRun, AppendLeasedAudit, RecordLeasedArtifacts,
      LeaseCancelRequested, ConfirmCancel, RequestCancel, RecoverExpiredLeases, CreateApproval, DecideApproval,
      ExpireApproval;
    ConsumptionMoves(h, s, op.approval, op.expected, op.action, op.actor, op.now, op.events, id);
  }

  lemma {:induction false} RecoverMoves(h: Hashes, s: State, op: Op, id: RunId)
    requires Inv(h, s) && id in s.runs && op.Recover?
    ensures IsEntitled(s, op, id, Next(h, s, op))
  {
    hide Inv, RecoverExpiredLeases, ExpiredLeases, StoredReason, CreateRun, TransitionRun, AppendAudit,
      ReconcileExecution, RecordArtifacts, ClaimNextRun, HeartbeatLease, TransitionLeasedRun, CompleteLeasedRun,
      AppendLeasedAudit, RecordLeasedArtifacts, LeaseCancelRequested, ConfirmCancel, RequestCancel, CreateApproval,
      DecideApproval, ExpireApproval, ConsumeApproval;
    var n := RecoveryIsExact(h, s, op.actor, op.now, op.events);
    ExpiredAreListed(s, op.now, id);
    assert id in ExpiredLeases(s, op.now)[..n] ==> id in ExpiredLeases(s, op.now);
  }

  lemma {:induction false} LogsKeepRuns(h: Hashes, s: State, op: Op)
    requires op.Audit? || op.Reconcile? || op.StoreArtifacts? || op.Heartbeat? || op.AuditLeased?
             || op.StoreLeasedArtifacts?
             || op.AskCancelled?
    ensures Next(h, s, op).runs == s.runs
  {
    hide ReceiptWasAudited, ArtifactEvents, BatchOk, Extend, Seal, ValidateLease, CreateRun, TransitionRun,
      ClaimNextRun, TransitionLeasedRun, CompleteLeasedRun, LeaseCancelRequested, ConfirmCancel, RequestCancel,
      RecoverExpiredLeases, CreateApproval, DecideApproval, ExpireApproval, ConsumeApproval;
  }

  lemma {:induction false} ApprovalsKeepRuns(h: Hashes, s: State, op: Op)
    requires op.RequestApproval? || op.Decide? || op.Expire?
    ensures Next(h, s, op).runs == s.runs
  {
    hide ApprovalExists, ApprovalEvent, WindowRun, CreateRun, TransitionRun, AppendAudit, ReconcileExecution,
      RecordArtifacts, ClaimNextRun, HeartbeatLease, TransitionLeasedRun, CompleteLeasedRun, AppendLeasedAudit,
      RecordLeasedArtifacts, LeaseCancelRequested, ConfirmCancel, RequestCancel, RecoverExpiredLeases,
      ConsumeApproval;
  }

  lemma {:induction false} NewRunKeepsOthers(h: Hashes, s: State, op: Op, id: RunId)
    requires op.NewRun? && id in s.runs
    ensures id in Next(h, s, op).runs && Next(h, s, op).runs[id] == s.runs[id]
  {
    hide TransitionRun, AppendAudit, ReconcileExecution, RecordArtifacts, ClaimNextRun, HeartbeatLease,
      TransitionLeasedRun, CompleteLeasedRun, AppendLeasedAudit, RecordLeasedArtifacts, LeaseCancelRequested,
      ConfirmCancel, RequestCancel, RecoverExpiredLeases, CreateApproval, DecideApproval, ExpireApproval,
      ConsumeApproval;
  }

  /** Nothing moves a run but an operation entitled to: in particular a leased run becomes cancelled
      only by a confirmation with evidence, and succeeds only by its holder and without an intent. */
  lemma {:induction false} EveryMoveIsEntitled(h: Hashes, s: State, op: Op, id: RunId)
    requires Inv(h, s) && id in s.runs
    ensures IsEntitled(s, op, id, Next(h, s, op))
  {
    hide Next, Inv, MayMove;
    ValidIsStoredById(h, s);
    if op.Claim? { ClaimMoves(h, s, op, id); }
    else if op.MoveLeased? || op.CompleteLeased? { LeasedMoves(h, s, op, id); }
    else if op.Cancel? { CancelMoves(h, s, op, id); }
    else if op.MoveRun? { UnleasedMoves(h, s, op, id); }
    else if op.Confirm? { ConfirmMoves(h, s, op, id); }
    else if op.Consume? { ConsumeMoves(h, s, op, id); }
    else if op.Recover? { RecoverMoves(h, s, op, id); }
    else if op.NewRun? { NewRunKeepsOthers(h, s, op, id); }
    else if op.RequestApproval? || op.Decide? || op.Expire? { ApprovalsKeepRuns(h, s, op); }
    else { LogsKeepRuns(h, s, op); }
  }

  /** A run becomes cancelled in exactly two ways that the trail tells apart: with "cancel confirmed" by a
      cancel request or a confirmation, and with "run failed" by an unleased writer. */
  lemma {:induction false} CancellationsAreToldApart(h: Hashes, s: State, op: Op, id: RunId)
    requires Inv(h, s) && id in s.runs && id in Next(h, s, op).runs
    requires Next(h, s, op).runs[id] != s.runs[id] && Next(h, s, op).runs[id].status == RunStatus.Cancelled
    ensures id in Next(h, s, op).audits && Next(h, s, op).audits[id] != []
    ensures var chain := Next(h, s, op).audits[id];
            var last := chain[|chain| - 1].body.kind;
            && (last.CancelConfirmed? <==> op.Cancel? || op.Confirm?)
            && (last.RunFailed? <==> op.MoveRun?)
  {
    hide Inv, Next, ReasonIsStored, IsNextInQueue;
    EveryMoveIsEntitled(h, s, op, id);
  }

  lemma {:induction false} LeasedMovesAddNoRun(h: Hashes, s: State, op: Op)
    requires StoredById(s) && (op.MoveLeased? || op.CompleteLeased? || op.Confirm?)
    ensures Next(h, s, op).runs.Keys == s.runs.Keys
  {
    hide AuditTimeOk, ApplyTransition, CreateRun, TransitionRun, AppendAudit, ReconcileExecution, RecordArtifacts,
      ClaimNextRun, HeartbeatLease, AppendLeasedAudit, RecordLeasedArtifacts, LeaseCancelRequested, RequestCancel,
      RecoverExpiredLeases, CreateApproval, DecideApproval, ExpireApproval, ConsumeApproval;
    if Succeeds(h, s, op) {
      var x := op.lease.run.id;
      if op.MoveLeased? {
        TransitionAddsNoRun(h, s, x, op.next, None, op.now, op.lease.owner, TransitionEvent(op.next), op.event);
      }
      if op.CompleteLeased? {
        TransitionAddsNoRun(h, s, x, op.next, op.reason, op.now, op.lease.owner, TransitionEvent(op.next), op.event);
      }
      if op.Confirm? {
        TransitionAddsNoRun(h, s, x, RunStatus.Cancelled, None, op.now, op.lease.owner, CancelConfirmed, op.event);
      }
    }
  }

  lemma {:induction false} QueueMovesAddNoRun(h: Hashes, s: State, op: Op)
    requires StoredById(s) && (op.Claim? || op.MoveRun? || op.Cancel?)
    ensures Next(h, s, op).runs.Keys == s.runs.Keys
  {
    hide AuditTimeOk, ApplyTransition, AppendEvent, IsNextInQueue, CreateRun, AppendAudit, ReconcileExecution,
      RecordArtifacts, HeartbeatLease, TransitionLeasedRun, CompleteLeasedRun, AppendLeasedAudit,
      RecordLeasedArtifacts, LeaseCancelRequested, ConfirmCancel, RecoverExpiredLeases, CreateApproval,
      DecideApproval, ExpireApproval, ConsumeApproval;
    if Succeeds(h, s, op) {
      if op.Claim? && NextInQueue(s).Some? {
        NextIsClaimable(s, NextInQueue(s).value);
        TransitionAddsNoRun(h, s, NextInQueue(s).value, Planning, None, op.now, op.owner, RuntimeSelected, op.event);
      }
      if op.Cancel? {
        if op.id !in s.leases && !s.runs[op.id].status.IsTerminal() {
          TransitionAddsNoRun(h, s, op.id, RunStatus.Cancelled, None, op.now, op.actor, CancelConfirmed, op.event);
        } else {
          RequestLeavesRuns(h, s, op.id, op.actor, op.now, op.event);
        }
      }
    }
  }

  lemma {:induction false} ConsumptionAddsNoRun(h: Hashes, s: State, a: ApprovalId, expected: U64,
                                                action: ActionRequest, actor: ActorId, now: Time,
                                                events: EventIds)
    requires StoredById(s)
    ensures ConsumeApproval(h, s, a, expected, action, actor, now, events).0.runs.Keys == s.runs.Keys
  {
    hide BindingMatches, Extend;
  }

  lemma {:induction false} ConsumeAddsNoRun(h: Hashes, s: State, op: Op)
    requires StoredById(s) && op.Consume?
    ensures Next(h, s, op).runs.Keys == s.runs.Keys
  {
    hide CreateRun, TransitionRun, AppendAudit, ReconcileExecution, RecordArtifacts, ClaimNextRun, HeartbeatLease,
      TransitionLeasedRun, CompleteLeasedRun, AppendLeasedAudit, RecordLeasedArtifacts, LeaseCancelRequested,
      ConfirmCancel, RequestCancel, RecoverExpiredLeases, CreateApproval, DecideApproval, ExpireApproval,
      ConsumeApproval;
    ConsumptionAddsNoRun(h, s, op.approval, op.expected, op.action, op.actor, op.now, op.events);
  }

  lemma {:induction false} NewRunsAreQueued(h: Hashes, s: State, op: Op, id: RunId)
    requires StoredById(s) && id !in s.runs && id in Next(h, s, op).runs && !op.Recover?
    ensures Next(h, s, op).runs[id].status.Queued? && Next(h, s, op).runs[id].terminalReason.None?
  {
    if op.NewRun? {
      CreatedRunIsQueued(h, s, op, id);
    } else {
      hide Next;
      if op.MoveLeased? || op.CompleteLeased? || op.Confirm? { LeasedMovesAddNoRun(h, s, op); }
      else if op.Claim? || op.MoveRun? || op.Cancel? { QueueMovesAddNoRun(h, s, op); }
      else if op.Consume? { ConsumeAddsNoRun(h, s, op); }
      else if op.RequestApproval? || op.Decide? || op.Expire? { ApprovalsKeepRuns(h, s, op); }
      else { LogsKeepRuns(h, s, op); }
    }
  }

  lemma {:induction false} CreatedRunIsQueued(h: Hashes, s: State, op: Op, id: RunId)
    requires id !in s.runs && op.NewRun? && id in Next(h, s, op).runs
    ensures Next(h, s, op).runs[id].status.Queued? && Next(h, s, op).runs[id].terminalReason.None?
  {
    hide TransitionRun, AppendAudit, ReconcileExecution, RecordArtifacts, ClaimNextRun, HeartbeatLease,
      TransitionLeasedRun, CompleteLeasedRun, AppendLeasedAudit, RecordLeasedArtifacts, LeaseCancelRequested,
      ConfirmCancel, RequestCancel, RecoverExpiredLeases, CreateApproval, DecideApproval, ExpireApproval,
      ConsumeApproval;
  }

  lemma {:induction false} RecoveryAddsNoRun(h: Hashes, s: State, op: Op, id: RunId)
    requires Inv(h, s) && op.Recover? && id in Next(h, s, op).runs
    ensures id in s.runs
  {
    hide Inv, CreateRun, TransitionRun, AppendAudit, ReconcileExecution, RecordArtifacts, ClaimNextRun,
      HeartbeatLease, TransitionLeasedRun, CompleteLeasedRun, AppendLeasedAudit, RecordLeasedArtifacts,
      LeaseCancelRequested, ConfirmCancel, RequestCancel, RecoverExpiredLeases, CreateApproval, DecideApproval,
      ExpireApproval, ConsumeApproval;
    var n := RecoveryIsExact(h, s, op.actor, op.now, op.events);
  }

  /** Step `j` moved the run to where it is in state `i`, and the event it wrote last for the run, still at its
      place in state `i`, announces that move. */
  ghost predicate AnnouncedBy(t: Trace, i: nat, id: RunId, j: nat)
    requires j < i < |t.states| && j < |t.ops|
  {
    && id in t.states[j].runs && id in t.states[j + 1].runs && id in t.states[i].runs
    && t.states[j].runs[id] != t.states[j + 1].runs[id] == t.states[i].runs[id]
    && MayMove(t.states[j], t.ops[j], id, t.states[i].runs[id].status)
    && id in t.states[j + 1].audits && id in t.states[i].audits
    && var n := |t.states[j + 1].audits[id]|;
       0 < n <= |t.states[i].audits[id]|
         && IsAnnouncement(t.ops[j], t.states[i].audits[id][n - 1], t.states[i].runs[id])
  }

  lemma {:induction false} AnnouncementStays(h: Hashes, t: Trace, i: nat, id: RunId, j: nat)
    requires t.IsHistory(h) && j < i && i + 1 < |t.states| && AnnouncedBy(t, i, id, j)
    requires id in t.states[i + 1].runs && t.states[i + 1].runs[id] == t.states[i].runs[id]
    ensures AnnouncedBy(t, i + 1, id, j)
  {
    hide MayMove, Trace.StepAt;
    RecordedIsForever(h, t, i, i + 1, id);
  }

  /** The audit trail is complete: in every state of every history, each run that has left the queue was
      brought to its present record by one entitled step, and the event that this step wrote for it tells
      what happened, at the very time of the run's last update. */
  lemma {:induction false} EveryStatusIsAnnounced(h: Hashes, t: Trace, i: nat, id: RunId) returns (j: nat)
    requires t.IsHistory(h) && i < |t.states| && id in t.states[i].runs && !t.states[i].runs[id].status.Queued?
    ensures j < i && AnnouncedBy(t, i, id, j)
  {
    hide Inv, Next, MayMove, ReasonIsStored, AnnouncedBy;
    EveryHistoryIsValid(h, t, i - 1);
    assert t.StepAt(h, i - 1);
    var s, op := t.states[i - 1], t.ops[i - 1];
    if id in s.runs {
      EveryMoveIsEntitled(h, s, op, id);
      if t.states[i].runs[id] == s.runs[id] {
        j := EveryStatusIsAnnounced(h, t, i - 1, id);
        AnnouncementStays(h, t, i - 1, id, j);
      } else {
        j := i - 1;
        MovedJustNow(t, i, id);
      }
    } else {
      ValidIsStoredById(h, s);
      if op.Recover? { RecoveryAddsNoRun(h, s, op, id); } else { NewRunsAreQueued(h, s, op, id); }
    }
  }

  lemma {:induction false} MovedJustNow(t: Trace, i: nat, id: RunId)
    requires 0 < i < |t.states| && i - 1 < |t.ops| && IsEntitled(t.states[i - 1], t.ops[i - 1], id, t.states[i])
    requires t.states[i].runs[id] != t.states[i - 1].runs[id]
    ensures AnnouncedBy(t, i, id, i - 1)
  {
    hide MayMove, ReasonIsStored;
  }

  // ---------------------------------------------------------------- reasons are redacted

  lemma {:induction false} StoredReasonIsRedacted(reason: Option<string>)
    ensures RedactText(StoredReason(reason)) == StoredReason(reason)
  {
    hide RedactText;
    if reason.Some? { RedactTextIsIdempotent(reason.value); } else { AuditWire.LowerWordIsKept("unspecified"); }
  }

  /** No reason that the store keeps for a finished run holds anything the redactor would take out. */
  lemma {:induction false} EveryStoredReasonIsRedacted(h: Hashes, t: Trace, i: nat, id: RunId)
    requires t.IsHistory(h) && i < |t.states| && id in t.states[i].runs && t.states[i].runs[id].terminalReason.Some?
    ensures var reason := t.states[i].runs[id].terminalReason.value; RedactText(reason) == reason
  {
    hide Inv, Next, RedactText, StoredReason, MayMove;
    EveryHistoryIsValid(h, t, i - 1);
    assert t.StepAt(h, i - 1);
    var s, s' := t.states[i - 1], t.states[i];
    if id in s.runs {
      EveryMoveIsEntitled(h, s, t.ops[i - 1], id);
      if s'.runs[id].terminalReason == s.runs[id].terminalReason {
        EveryStoredReasonIsRedacted(h, t, i - 1, id);
      } else {
        var reason: Option<string> :| s'.runs[id].terminalReason.value == StoredReason(reason);
        StoredReasonIsRedacted(reason);
      }
    } else {
      ValidIsStoredById(h, s);
      if t.ops[i - 1].Recover? {
        RecoveryAddsNoRun(h, s, t.ops[i - 1], id);
      } else {
        NewRunsAreQueued(h, s, t.ops[i - 1], id);
      }
    }
  }

  /** The later record keeps the reason of the request, and any new reason of a decision is redacted. */
  ghost predicate TextsFollow(a: ApprovalRequest, a': ApprovalRequest) {
    && a'.requestReason == a.requestReason
    && (a'.decision == a.decision || (a'.decision.Some? && IsRedactedReason(a'.decision.value.reason)))
  }

  predicate IsRedactedReason(reason: Option<string>) {
    reason.Some? ==> RedactText(reason.value) == reason.value
  }

  ghost predicate TextsAreRedacted(a: ApprovalRequest) {
    RedactText(a.requestReason) == a.requestReason && (a.decision.Some? ==> IsRedactedReason(a.decision.value.reason))
  }

  lemma {:induction false} RequestTexts(h: Hashes, s: State, request: ApprovalRequest, actor: ActorId, now: Time,
                                        event: EventId)
    requires CreateApproval(h, s, request, actor, now, event).Ok?
    ensures var (s', a) := CreateApproval(h, s, request, actor, now, event).value;
            TextsAreRedacted(a) && s'.approvals == s.approvals[a.id := a]
  {
    hide RedactText, ApprovalExists, ApprovalEvent;
    RedactTextIsIdempotent(request.requestReason);
  }

  lemma {:induction false} DecisionTexts(h: Hashes, s: State, id: ApprovalId, expected: U64,
                                         decision: ApprovalDecision, actor: ActorId,
                                         reason: Option<string>, now: Time, event: EventId)
    requires StoredById(s) && DecideApproval(h, s, id, expected, decision, actor, reason, now, event).Ok?
    ensures var (s', a) := DecideApproval(h, s, id, expected, decision, actor, reason, now, event).value;
            id in s.approvals && TextsFollow(s.approvals[id], a) && s'.approvals == s.approvals[id := a]
  {
    hide RedactText, ApprovalEvent;
    if reason.Some? { RedactTextIsIdempotent(reason.value); }
  }

  lemma {:induction false} ConsumptionTexts(h: Hashes, s: State, id: ApprovalId, expected: U64, action: ActionRequest,
                                            actor: ActorId, now: Time,
                                            events: EventIds, a: ApprovalId)
    requires StoredById(s) && a in ConsumeApproval(h, s, id, expected, action, actor, now, events).0.approvals
    ensures a in s.approvals
            && TextsFollow(s.approvals[a],
                           ConsumeApproval(h, s, id, expected, action, actor, now, events).0.approvals[a])
  {
    hide BindingMatches, Extend, Seal;
  }

  lemma {:induction false} ApprovalStepTexts(h: Hashes, s: State, op: Op, a: ApprovalId)
    requires StoredById(s) && a in Next(h, s, op).approvals
             && (op.RequestApproval? || op.Decide? || op.Expire? || op.Consume?)
    ensures (a in s.approvals && TextsFollow(s.approvals[a], Next(h, s, op).approvals[a]))
            || TextsAreRedacted(Next(h, s, op).approvals[a])
  {
    hide CreateApproval, DecideApproval, ConsumeApproval, IsRedactedReason, TextsAreRedacted, ApprovalEvent,
      CreateRun, TransitionRun, AppendAudit, ReconcileExecution, RecordArtifacts, ClaimNextRun, HeartbeatLease,
      TransitionLeasedRun, CompleteLeasedRun, AppendLeasedAudit, RecordLeasedArtifacts, LeaseCancelRequested,
      ConfirmCancel, RequestCancel, RecoverExpiredLeases;
    if op.Consume? {
      ConsumptionTexts(h, s, op.approval, op.expected, op.action, op.actor, op.now, op.events, a);
    } else if Succeeds(h, s, op) {
      if op.RequestApproval? { RequestTexts(h, s, op.request, op.actor, op.now, op.event); }
      if op.Decide? {
        DecisionTexts(h, s, op.approval, op.expected, op.decision, op.actor, op.reason, op.now, op.event);
      }
    }
  }

  lemma {:induction false} TransitionKeepsApprovals(h: Hashes, s: State, run: Run, next: RunStatus,
                                                    reason: Option<string>, now: Time,
                                                    actor: ActorId, kind: EventKind, event: EventId)
    requires ApplyTransition(h, s, run, next, reason, now, actor, kind, event).Ok?
    ensures ApplyTransition(h, s, run, next, reason, now, actor, kind, event).value.0.approvals == s.approvals
  {
  }

  lemma {:induction false} RequestKeepsApprovals(h: Hashes, s: State, id: RunId, actor: ActorId, now: Time,
                                                 event: EventId)
    requires RequestCancel(h, s, id, actor, now, event).Ok?
    ensures RequestCancel(h, s, id, actor, now, event).value.0.approvals == s.approvals
  {
    hide AuditTimeOk, Extend, Advance;
  }

  lemma {:induction false} TransitionsKeepApprovals(h: Hashes, s: State, op: Op)
    requires op.Claim? || op.MoveLeased? || op.CompleteLeased? || op.Confirm? || op.Cancel?
    ensures Next(h, s, op).approvals == s.approvals
  {
    hide ApplyTransition, AuditTimeOk, IsNextInQueue, RequestCancel, SandboxResult.IsValid, CreateRun, TransitionRun,
      AppendAudit, ReconcileExecution, RecordArtifacts, HeartbeatLease, AppendLeasedAudit, RecordLeasedArtifacts,
      LeaseCancelRequested, RecoverExpiredLeases, CreateApproval, DecideApproval, ExpireApproval, ConsumeApproval;
    if Succeeds(h, s, op) {
      match op {
        case Claim(owner, now, _, _, event) =>
          if NextInQueue(s).Some? {
            NextIsClaimable(s, NextInQueue(s).value);
            TransitionKeepsApprovals(h, s, s.runs[NextInQueue(s).value], Planning, None, now, owner, RuntimeSelected,
                                     event);
          }
        case MoveLeased(lease, _, next, now, event) =>
          TransitionKeepsApprovals(h, s, s.runs[lease.run.id], next, None, now, lease.owner, TransitionEvent(next),
                                   event);
        case CompleteLeased(lease, _, next, reason, now, event) =>
          TransitionKeepsApprovals(h, s, s.runs[lease.run.id], next, reason, now, lease.owner, TransitionEvent(next),
                                   event);
        case Confirm(lease, now, _, _, event) =>
          TransitionKeepsApprovals(h, s, s.runs[lease.run.id], RunStatus.Cancelled, None, now, lease.owner,
                                   CancelConfirmed, event);
        case Cancel(id, actor, now, event) => RequestKeepsApprovals(h, s, id, actor, now, event);
      }
    }
  }

  lemma {:induction false} OthersKeepApprovals(h: Hashes, s: State, op: Op)
    requires !op.RequestApproval? && !op.Decide? && !op.Expire? && !op.Consume? && !op.Recover?
    requires !op.Claim? && !op.MoveLeased? && !op.CompleteLeased? && !op.Confirm? && !op.Cancel?
    ensures Next(h, s, op).approvals == s.approvals
  {
    hide ReceiptWasAudited, ArtifactEvents, BatchOk, Extend, Seal, ValidateLease, Advance, ClaimNextRun,
      TransitionLeasedRun, CompleteLeasedRun, LeaseCancelRequested, ConfirmCancel, RequestCancel,
      RecoverExpiredLeases, CreateApproval, DecideApproval, ExpireApproval, ConsumeApproval;
  }

  lemma {:induction false} RecoveryKeepsApprovals(h: Hashes, s: State, op: Op)
    requires Inv(h, s) && op.Recover?
    ensures Next(h, s, op).approvals == s.approvals
  {
    hide Inv, CreateRun, TransitionRun, AppendAudit, ReconcileExecution, RecordArtifacts, ClaimNextRun,
      HeartbeatLease, TransitionLeasedRun, CompleteLeasedRun, AppendLeasedAudit, RecordLeasedArtifacts,
      LeaseCancelRequested, ConfirmCancel, RequestCancel, RecoverExpiredLeases, CreateApproval, DecideApproval,
      ExpireApproval, ConsumeApproval;
    var n := RecoveryIsExact(h, s, op.actor, op.now, op.events);
  }

  /** No reason of any stored approval, of its request or of its decision, holds anything the redactor
      would take out. */
  lemma {:induction false} EveryApprovalReasonIsRedacted(h: Hashes, t: Trace, i: nat, a: ApprovalId)
    requires t.IsHistory(h) && i < |t.states| && a in t.states[i].approvals
    ensures TextsAreRedacted(t.states[i].approvals[a])
  {
    hide Inv, Next, RedactText;
    EveryHistoryIsValid(h, t, i - 1);
    assert t.StepAt(h, i - 1);
    var s, op := t.states[i - 1], t.ops[i - 1];
    ValidIsStoredById(h, s);
    if op.RequestApproval? || op.Decide? || op.Expire? || op.Consume? {
      ApprovalStepTexts(h, s, op, a);
    } else if op.Recover? {
      RecoveryKeepsApprovals(h, s, op);
    } else if op.Claim? || op.MoveLeased? || op.CompleteLeased? || op.Confirm? || op.Cancel? {
      TransitionsKeepApprovals(h, s, op);
    } else {
      OthersKeepApprovals(h, s, op);
    }
    if a in s.approvals { EveryApprovalReasonIsRedacted(h, t, i - 1, a); }
  }

  // ---------------------------------------------------------------- cancellation needs evidence

  lemma {:induction false} NextIsClaimable(s: State, id: RunId)
    ensures IsNextInQueue(s, id) ==> IsClaimable(s, id)
  {
  }

  /** A leased run becomes cancelled only by a confirmation by its holder, against a recorded intent,
      with evidence of a cancelled, exit-code-free and cleaned-up sandbox of that run. */
  lemma {:induction false} CancelledOnlyWithEvidence(h: Hashes, t: Trace, i: nat, id: RunId)
    requires t.IsHistory(h) && i < |t.ops| && id in t.states[i].leases
    requires id in t.states[i + 1].runs && t.states[i + 1].runs[id].status == RunStatus.Cancelled
    ensures t.ops[i].Confirm? && id in t.states[i].runs && MayMove(t.states[i], t.ops[i], id, RunStatus.Cancelled)
  {
    hide Inv, Next, IsNextInQueue;
    EveryHistoryIsValid(h, t, i);
    assert t.StepAt(h, i);
    LeaseAndRun(h, t.states[i], id);
    EveryMoveIsEntitled(h, t.states[i], t.ops[i], id);
    NextIsClaimable(t.states[i], id);
  }
}
