/** Histories of the store: any sequence of operations by any actors, one atomic step each. */
module History {
  import opened Prelude
  import opened Records
  import opened AuditChain
  import opened StoreState
  import opened StoreInvariant
  import opened StorePreservation
  import opened ApprovalPreservation

  /** One call of a store operation. `Confirm` carries the sandbox result its evidence is verified
      from, because evidence cannot be obtained in any other way. */
  datatype Op =
    | NewRun(run: Run, audit: Envelope, event: EventId)
    | MoveRun(id: RunId, expected: U64, next: RunStatus, reason: Option<string>, audit: Envelope, event: EventId)
    | Audit(id: RunId, kind: EventKind, audit: Envelope, event: EventId)
    | Reconcile(receipt: ExecutionReceipt, audit: Envelope, event: EventId)
    | StoreArtifacts(id: RunId, batch: seq<Artifact>, audit: Envelope, events: EventIds)
    | Claim(owner: ActorId, now: Time, ttl: int, token: LeaseToken, event: EventId)
    | Heartbeat(lease: RunLease, now: Time, ttl: int)
    | MoveLeased(lease: RunLease, expected: U64, next: RunStatus, now: Time, event: EventId)
    | CompleteLeased(lease: RunLease, expected: U64, next: RunStatus, reason: Option<string>, now: Time, event: EventId)
    | AuditLeased(lease: RunLease, expected: U64, kind: EventKind, now: Time, event: EventId)
    | StoreLeasedArtifacts(lease: RunLease, expected: U64, batch: seq<Artifact>, now: Time, events: EventIds)
    | AskCancelled(lease: RunLease, now: Time)
    | Confirm(lease: RunLease, now: Time, observed: RunLease, result: SandboxResult, event: EventId)
    | Cancel(id: RunId, actor: ActorId, now: Time, event: EventId)
    | Recover(actor: ActorId, now: Time, events: EventIds)
    | RequestApproval(request: ApprovalRequest, actor: ActorId, now: Time, event: EventId)
    | Decide(approval: ApprovalId, expected: U64, decision: ApprovalDecision, actor: ActorId, reason: Option<string>,
             now: Time, event: EventId)
    | Expire(approval: ApprovalId, expected: U64, actor: ActorId, now: Time, event: EventId)
    | Consume(approval: ApprovalId, expected: U64, action: ActionRequest, actor: ActorId, now: Time, events: EventIds)

  /** The state an operation leaves behind. */
  ghost function Next(h: Hashes, s: State, op: Op): State {
    match op
    case NewRun(run, audit, event) => Commit(s, CreateRun(h, s, run, audit, event))
    case MoveRun(id, expected, next, reason, audit, event) =>
      Commit(s, TransitionRun(h, s, id, expected, next, reason, audit, event))
    case Audit(id, kind, audit, event) => Commit(s, AppendAudit(h, s, id, kind, audit, event))
    case Reconcile(receipt, audit, event) => Commit(s, ReconcileExecution(h, s, receipt, audit, event))
    case StoreArtifacts(id, batch, audit, events) => Commit(s, RecordArtifacts(h, s, id, batch, audit, events))
    case Claim(owner, now, ttl, token, event) => Commit(s, ClaimNextRun(h, s, owner, now, ttl, token, event))
    case Heartbeat(lease, now, ttl) => Commit(s, HeartbeatLease(s, lease, now, ttl))
    case MoveLeased(lease, expected, next, now, event) =>
      Commit(s, TransitionLeasedRun(h, s, lease, expected, next, now, event))
    case CompleteLeased(lease, expected, next, reason, now, event) =>
      Commit(s, CompleteLeasedRun(h, s, lease, expected, next, reason, now, event))
    case AuditLeased(lease, expected, kind, now, event) =>
      Commit(s, AppendLeasedAudit(h, s, lease, expected, kind, now, event))
    case StoreLeasedArtifacts(lease, expected, batch, now, events) =>
      Commit(s, RecordLeasedArtifacts(h, s, lease, expected, batch, now, events))
    case AskCancelled(lease, now) => s
    case Confirm(lease, now, observed, result, event) =>
      if VerifyCancellation(observed, result).Err? then s
      else Commit(s, ConfirmCancel(h, s, lease, now, VerifyCancellation(observed, result).value, event))
    case Cancel(id, actor, now, event) => Commit(s, RequestCancel(h, s, id, actor, now, event))
    case Recover(actor, now, events) => RecoverExpiredLeases(h, s, actor, now, events).0
    case RequestApproval(request, actor, now, event) => Commit(s, CreateApproval(h, s, request, actor, now, event))
    case Decide(approval, expected, decision, actor, reason, now, event) =>
      Commit(s, DecideApproval(h, s, approval, expected, decision, actor, reason, now, event))
    case Expire(approval, expected, actor, now, event) =>
      Commit(s, ExpireApproval(h, s, approval, expected, actor, now, event))
    case Consume(approval, expected, action, actor, now, events) =>
      ConsumeApproval(h, s, approval, expected, action, actor, now, events).0
  }

  /** Whether the operation succeeds. */
  ghost predicate Succeeds(h: Hashes, s: State, op: Op) {
    match op
    case NewRun(run, audit, event) => CreateRun(h, s, run, audit, event).Ok?
    case MoveRun(id, expected, next, reason, audit, event) =>
      TransitionRun(h, s, id, expected, next, reason, audit, event).Ok?
    case Audit(id, kind, audit, event) => AppendAudit(h, s, id, kind, audit, event).Ok?
    case Reconcile(receipt, audit, event) => ReconcileExecution(h, s, receipt, audit, event).Ok?
    case StoreArtifacts(id, batch, audit, events) => RecordArtifacts(h, s, id, batch, audit, events).Ok?
    case Claim(owner, now, ttl, token, event) => ClaimNextRun(h, s, owner, now, ttl, token, event).Ok?
    case Heartbeat(lease, now, ttl) => HeartbeatLease(s, lease, now, ttl).Ok?
    case MoveLeased(lease, expected, next, now, event) =>
      TransitionLeasedRun(h, s, lease, expected, next, now, event).Ok?
    case CompleteLeased(lease, expected, next, reason, now, event) =>
      CompleteLeasedRun(h, s, lease, expected, next, reason, now, event).Ok?
    case AuditLeased(lease, expected, kind, now, event) =>
      AppendLeasedAudit(h, s, lease, expected, kind, now, event).Ok?
    case StoreLeasedArtifacts(lease, expected, batch, now, events) =>
      RecordLeasedArtifacts(h, s, lease, expected, batch, now, events).Ok?
    case AskCancelled(lease, now) => LeaseCancelRequested(s, lease, now).Ok?
    case Confirm(lease, now, observed, result, event) =>
      && VerifyCancellation(observed, result).Ok?
      && ConfirmCancel(h, s, lease, now, VerifyCancellation(observed, result).value, event).Ok?
    case Cancel(id, actor, now, event) => RequestCancel(h, s, id, actor, now, event).Ok?
    case Recover(actor, now, events) => RecoverExpiredLeases(h, s, actor, now, events).1.Ok?
    case RequestApproval(request, actor, now, event) => CreateApproval(h, s, request, actor, now, event).Ok?
    case Decide(approval, expected, decision, actor, reason, now, event) =>
      DecideApproval(h, s, approval, expected, decision, actor, reason, now, event).Ok?
    case Expire(approval, expected, actor, now, event) =>
      ExpireApproval(h, s, approval, expected, actor, now, event).Ok?
    case Consume(approval, expected, action, actor, now, events) =>
      ConsumeApproval(h, s, approval, expected, action, actor, now, events).1.Ok?
  }

  /** The operations of a history and the states between them. */
  datatype Trace = Trace(states: seq<State>, ops: seq<Op>)
  {
    /** Step `i` takes the state before it to the state after it. */
    ghost predicate StepAt(h: Hashes, i: nat)
      requires i + 1 < |states| && i < |ops|
    {
      states[i + 1] == Next(h, states[i], ops[i])
    }

    /** The history starts with an empty store and every step is an operation. */
    ghost predicate IsHistory(h: Hashes) {
      && |states| == |ops| + 1 && states[0] == EMPTY
      && forall i | 0 <= i < |ops| :: StepAt(h, i)
    }
  }

  // ---------------------------------------------------------------- the invariant over every history

  lemma {:induction false} QueueOperationKeeps(h: Hashes, s: State, op: Op)
    requires Inv(h, s) && (op.NewRun? || op.MoveRun?)
    ensures Follows(h, s, Next(h, s, op))
  {
    hide Follows, Inv;
    FollowsItself(h, s);
    match op
    case NewRun(run, audit, event) =>
      if CreateRun(h, s, run, audit, event).Ok? { CreateRunKeeps(h, s, run, audit, event); }
    case MoveRun(id, expected, next, reason, audit, event) =>
      if TransitionRun(h, s, id, expected, next, reason, audit, event).Ok? {
        TransitionRunKeeps(h, s, id, expected, next, reason, audit, event);
      }
  }

  lemma {:induction false} LogOperationKeeps(h: Hashes, s: State, op: Op)
    requires Inv(h, s) && (op.Audit? || op.AuditLeased? || op.Reconcile?)
    ensures Follows(h, s, Next(h, s, op))
  {
    hide Follows, Inv;
    FollowsItself(h, s);
    match op
    case Audit(id, kind, audit, event) =>
      if AppendAudit(h, s, id, kind, audit, event).Ok? { AppendAuditKeeps(h, s, id, kind, audit, event); }
    case AuditLeased(lease, expected, kind, now, event) =>
      if AppendLeasedAudit(h, s, lease, expected, kind, now, event).Ok? {
        AppendLeasedAuditKeeps(h, s, lease, expected, kind, now, event);
      }
    case Reconcile(receipt, audit, event) =>
      if ReconcileExecution(h, s, receipt, audit, event).Ok? { ReconcileExecutionKeeps(h, s, receipt, audit, event); }
  }

  lemma {:induction false} ArtifactOperationKeeps(h: Hashes, s: State, op: Op)
    requires Inv(h, s) && (op.StoreArtifacts? || op.StoreLeasedArtifacts?)
    ensures Follows(h, s, Next(h, s, op))
  {
    hide Follows, Inv;
    FollowsItself(h, s);
    match op
    case StoreArtifacts(id, batch, audit, events) =>
      if RecordArtifacts(h, s, id, batch, audit, events).Ok? { AddArtifactsKeeps(h, s, id, batch, audit, events); }
    case StoreLeasedArtifacts(lease, expected, batch, now, events) =>
      if RecordLeasedArtifacts(h, s, lease, expected, batch, now, events).Ok? {
        AddArtifactsKeeps(h, s, lease.run.id, batch, Envelope(lease.owner, now), events);
      }
  }

  lemma {:induction false} LeaseOperationKeeps(h: Hashes, s: State, op: Op)
    requires Inv(h, s) && (op.Claim? || op.Heartbeat? || op.MoveLeased?)
    ensures Follows(h, s, Next(h, s, op))
  {
    hide Follows, Inv;
    FollowsItself(h, s);
    match op
    case Claim(owner, now, ttl, token, event) =>
      if ClaimNextRun(h, s, owner, now, ttl, token, event).Ok? {
        ClaimNextRunKeeps(h, s, owner, now, ttl, token, event);
      }
    case Heartbeat(lease, now, ttl) =>
      if HeartbeatLease(s, lease, now, ttl).Ok? { HeartbeatLeaseKeeps(h, s, lease, now, ttl); }
    case MoveLeased(lease, expected, next, now, event) =>
      if TransitionLeasedRun(h, s, lease, expected, next, now, event).Ok? {
        TransitionLeasedRunKeeps(h, s, lease, expected, next, now, event);
      }
  }

  lemma {:induction false} EndingOperationKeeps(h: Hashes, s: State, op: Op)
    requires Inv(h, s) && (op.CompleteLeased? || op.Confirm?)
    ensures Follows(h, s, Next(h, s, op))
  {
    hide Follows, Inv;
    FollowsItself(h, s);
    match op
    case CompleteLeased(lease, expected, next, reason, now, event) =>
      if CompleteLeasedRun(h, s, lease, expected, next, reason, now, event).Ok? {
        CompleteLeasedRunKeeps(h, s, lease, expected, next, reason, now, event);
      }
    case Confirm(lease, now, observed, result, event) =>
      var v := VerifyCancellation(observed, result);
      if v.Ok? && ConfirmCancel(h, s, lease, now, v.value, event).Ok? {
        ConfirmCancelKeeps(h, s, lease, now, v.value, event);
      }
  }

  lemma {:induction false} SweepOperationKeeps(h: Hashes, s: State, op: Op)
    requires Inv(h, s) && (op.Cancel? || op.Recover? || op.AskCancelled?)
    ensures Follows(h, s, Next(h, s, op))
  {
    hide Follows, Inv;
    FollowsItself(h, s);
    match op
    case Cancel(id, actor, now, event) =>
      if RequestCancel(h, s, id, actor, now, event).Ok? { RequestCancelKeeps(h, s, id, actor, now, event); }
    case Recover(actor, now, events) => RecoverKeeps(h, s, actor, now, events);
    case AskCancelled(lease, now) =>
  }

  lemma {:induction false} ApprovalOperationKeeps(h: Hashes, s: State, op: Op)
    requires Inv(h, s) && (op.RequestApproval? || op.Decide? || op.Expire? || op.Consume?)
    ensures Follows(h, s, Next(h, s, op))
  {
    hide Follows, Inv;
    FollowsItself(h, s);
    match op
    case RequestApproval(request, actor, now, event) =>
      if CreateApproval(h, s, request, actor, now, event).Ok? { CreateApprovalKeeps(h, s, request, actor, now, event); }
    case Decide(approval, expected, decision, actor, reason, now, event) =>
      if DecideApproval(h, s, approval, expected, decision, actor, reason, now, event).Ok? {
        DecideApprovalKeeps(h, s, approval, expected, decision, actor, reason, now, event);
      }
    case Expire(approval, expected, actor, now, event) =>
      if ExpireApproval(h, s, approval, expected, actor, now, event).Ok? {
        ExpireApprovalKeeps(h, s, approval, expected, actor, now, event);
      }
    case Consume(approval, expected, action, actor, now, events) =>
      ConsumeApprovalKeeps(h, s, approval, expected, action, actor, now, events);
  }

  /** Every operation, whatever its arguments and outcome, keeps the invariant and moves the state forward. */
  lemma {:induction false} EveryOperationKeepsTheInvariant(h: Hashes, s: State, op: Op)
    requires Inv(h, s)
    ensures Follows(h, s, Next(h, s, op))
  {
    hide Follows, Inv, Next;
    if op.NewRun? || op.MoveRun? {
      QueueOperationKeeps(h, s, op);
    } else if op.Audit? || op.AuditLeased? || op.Reconcile? {
      LogOperationKeeps(h, s, op);
    } else if op.StoreArtifacts? || op.StoreLeasedArtifacts? {
      ArtifactOperationKeeps(h, s, op);
    } else if op.Claim? || op.Heartbeat? || op.MoveLeased? {
      LeaseOperationKeeps(h, s, op);
    } else if op.CompleteLeased? || op.Confirm? {
      EndingOperationKeeps(h, s, op);
    } else if op.Cancel? || op.Recover? || op.AskCancelled? {
      SweepOperationKeeps(h, s, op);
    } else {
      ApprovalOperationKeeps(h, s, op);
    }
  }

  /** Every state of every history is valid. */
  lemma {:induction false} EveryHistoryIsValid(h: Hashes, t: Trace, i: nat)
    requires t.IsHistory(h) && i < |t.states|
    ensures Inv(h, t.states[i])
  {
    hide Inv, Evolves, Next;
    if i == 0 {
      EmptyIsValid(h);
    } else {
      EveryHistoryIsValid(h, t, i - 1);
      assert t.StepAt(h, i - 1);
      EveryOperationKeepsTheInvariant(h, t.states[i - 1], t.ops[i - 1]);
    }
  }

  /** A later state of a history follows every earlier one. */
  lemma {:induction false} LaterFollows(h: Hashes, t: Trace, i: nat, j: nat)
    requires t.IsHistory(h) && i <= j < |t.states|
    ensures Follows(h, t.states[i], t.states[j])
  {
    hide Follows, Inv, Next;
    if i == j {
      EveryHistoryIsValid(h, t, i);
      FollowsItself(h, t.states[i]);
    } else {
      forall k | 0 <= k < |t.states| - 1 ensures Follows(h, t.states[k], t.states[k + 1]) {
        EveryHistoryIsValid(h, t, k);
        assert t.StepAt(h, k);
        EveryOperationKeepsTheInvariant(h, t.states[k], t.ops[k]);
      }
      FollowsThroughout(h, t.states, i, j);
    }
  }

  // ---------------------------------------------------------------- stores that others share

  /** The store was left alone or moved by one operation. */
  ghost predicate Moves(h: Hashes, s: State, s': State) {
    s' == s || exists op :: s' == Next(h, s, op)
  }

  lemma {:induction false} MovesFollow(h: Hashes, s: State, s': State)
    requires Inv(h, s) && Moves(h, s, s')
    ensures Follows(h, s, s')
  {
    hide Inv, Follows, Next;
    if s' == s {
      FollowsItself(h, s);
    } else {
      var op :| s' == Next(h, s, op);
      EveryOperationKeepsTheInvariant(h, s, op);
    }
  }

  lemma {:induction false} SharedStoreIsValid(h: Hashes, stores: seq<State>, i: nat)
    requires i < |stores| && stores[0] == EMPTY
    requires forall k | 0 <= k < |stores| - 1 :: Moves(h, stores[k], stores[k + 1])
    ensures Inv(h, stores[i])
  {
    hide Inv, Moves, Evolves;
    if i == 0 {
      EmptyIsValid(h);
    } else {
      SharedStoreIsValid(h, stores, i - 1);
      assert Moves(h, stores[i - 1], stores[i - 1 + 1]);
      MovesFollow(h, stores[i - 1], stores[i]);
    }
  }

  /** A store that starts empty and is only ever moved by operations stays valid and only moves forward,
      whatever happens beside it. */
  lemma {:induction false} SharedStoreFollows(h: Hashes, stores: seq<State>, i: nat, j: nat)
    requires i <= j < |stores| && stores[0] == EMPTY
    requires forall k | 0 <= k < |stores| - 1 :: Moves(h, stores[k], stores[k + 1])
    ensures Inv(h, stores[i]) && Follows(h, stores[i], stores[j])
  {
    hide Inv, Moves, Follows;
    SharedStoreIsValid(h, stores, i);
    if i == j {
      FollowsItself(h, stores[i]);
    } else {
      forall k | 0 <= k < |stores| - 1 ensures Follows(h, stores[k], stores[k + 1]) {
        SharedStoreIsValid(h, stores, k);
        MovesFollow(h, stores[k], stores[k + 1]);
      }
      FollowsThroughout(h, stores, i, j);
    }
  }
}
