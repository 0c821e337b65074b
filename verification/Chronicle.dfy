/** Every chain is the chronicle of what was done to its run: the events due to the operations of the history, in
order, and nothing else. */
module Chronicle {
  import opened Prelude
  import opened Records
  import opened AuditChain
  import opened StoreState
  import opened StoreInvariant
  import opened StorePreservation
  import opened History
  import opened Guarantees
  import opened ApprovalGuarantees
  import opened Contracts
  import opened LeaseContracts
  import opened ApprovalContracts

  // ---------------------------------------------------------------- recovery

  /** The given runs, and nothing else, were failed and released, each with one event. */
  ghost predicate RecoversAll(s: State, s': State, done: set<RunId>, actor: ActorId, now: Time) {
    && s' == s.(runs := s'.runs, audits := s'.audits, leases := s.leases - done, cancels := s.cancels - done)
    && s'.runs.Keys == s.runs.Keys && s'.audits.Keys == s.audits.Keys
    && (forall id | id in s.runs && id !in done :: s'.runs[id] == s.runs[id])
    && (forall id | id in s.audits && id !in done :: s'.audits[id] == s.audits[id])
    && (forall id | id in done && id in s.runs && id in s.audits ::
          && s.runs[id].revision < U64_MAX && s'.runs[id] == Dated(s.runs[id], RunStatus.Failed, now, None)
          && GoesOn(s, s', id, [Said(RunFailed, actor, now, NoDetail)]))
  }

  /** The chain goes on with events that say just this. */
  ghost predicate GoesOn(s: State, s': State, id: RunId, said: seq<Said>) {
    ChainOf(s, id) <= ChainOf(s', id) && SaidIn(ChainOf(s', id)[|ChainOf(s, id)|..]) == said
  }

  lemma {:induction false} AddsGoesOn(s: State, s': State, x: RunId, said: seq<Said>, id: RunId)
    requires Adds(s, s', x, said)
    ensures GoesOn(s, s', id, if id == x then said else [])
  {
    if id != x {
      assert ChainOf(s', id) == ChainOf(s, id);
      assert SaidIn([]) == [];
    }
  }

  lemma {:induction false} SameGoesOn(s: State, s': State, id: RunId)
    requires ChainOf(s', id) == ChainOf(s, id)
    ensures GoesOn(s, s', id, [])
  {
  }

  lemma {:induction false} EndsOne(s: State, s': State, id: RunId, actor: ActorId, now: Time)
    requires id in s.audits
    requires EndsRun(s, s', id, RunStatus.Failed, now, None, Said(RunFailed, actor, now, NoDetail))
    ensures RecoversAll(s, s', {id}, actor, now)
  {
    hide Dated, SaidIn;
    AddsGoesOn(s, s', id, [Said(RunFailed, actor, now, NoDetail)], id);
  }

  lemma {:induction false} RecoversOn(s: State, t: State, u: State, a: set<RunId>, b: set<RunId>, actor: ActorId,
                                      now: Time)
    requires RecoversAll(s, t, a, actor, now) && RecoversAll(t, u, b, actor, now) && a !! b
    ensures RecoversAll(s, u, a + b, actor, now)
  {
    hide Dated, SaidIn;
    assert s.leases - a - b == s.leases - (a + b) && s.cancels - a - b == s.cancels - (a + b);
    forall id | id in s.runs && id in s.audits && id in a + b
      ensures GoesOn(s, u, id, [Said(RunFailed, actor, now, NoDetail)])
    {
      assert ChainOf(t, id) == t.audits[id] && ChainOf(u, id) == u.audits[id] && ChainOf(s, id) == s.audits[id];
    }
  }

  /** The recovery loop takes the listed runs in order until one chain does not take its event. */
  lemma {:induction false} RecoveryLoopIsExact(h: Hashes, s: State, ids: seq<RunId>, i: nat, actor: ActorId, now: Time,
                                               events: EventIds)
    returns (n: nat)
    requires Inv(h, s) && LeasedInOrder(s.leases, ids, i)
    ensures i <= n <= |ids|
    ensures var (s', r) := RecoverFrom(h, s, ids, i, actor, now, events);
            && RecoversAll(s, s', Elements(ids[i..n]), actor, now)
            && (r.Ok? <==> n == |ids|) && (n < |ids| ==> !Takes(s, ids[n], now, 1))
            && forall k | i <= k < n :: Takes(s, ids[k], now, 1)
    decreases |ids| - i
  {
    hide Inv, RecoversAll, RecoverOne, Takes;
    n := i;
    if i < |ids| { RecoverOneIsExact(h, s, ids[i], actor, now, events(i)); }
    if i == |ids| || RecoverOne(h, s, ids[i], actor, now, events(i)).Err? {
      RecoversNone(s, actor, now);
      assert Elements(ids[i..i]) == {};
    } else {
      var s' := RecoverOne(h, s, ids[i], actor, now, events(i)).value;
      RunAndChain(h, s, ids[i]);
      EndsOne(s, s', ids[i], actor, now);
      RecoverNext(h, s, ids, i, actor, now, events(i));
      n := RecoveryLoopIsExact(h, s', ids, i + 1, actor, now, events);
      OneMoreElement(s.leases, ids, i, n);
      RecoversOn(s, s', RecoverFrom(h, s', ids, i + 1, actor, now, events).0, {ids[i]}, Elements(ids[i + 1..n]), actor,
                 now);
      forall id | id in s.leases ensures id in s.runs && id in s.audits {
        LeaseAndRun(h, s, id);
        RunAndChain(h, s, id);
      }
      forall k | i < k <= n && k < |ids| ensures Takes(s, ids[k], now, 1) <==> Takes(s', ids[k], now, 1) {
        OtherTakesAlike(s, s', ids, i, k, actor, now);
      }
    }
  }

  lemma {:induction false} RecoversNone(s: State, actor: ActorId, now: Time)
    ensures RecoversAll(s, s, {}, actor, now)
  {
  }

  lemma {:induction false} OtherTakesAlike(s: State, s': State, ids: seq<RunId>, i: nat, k: nat, actor: ActorId,
                                           now: Time)
    requires LeasedInOrder(s.leases, ids, i) && i < k < |ids| && RecoversAll(s, s', {ids[i]}, actor, now)
    requires forall id | id in s.leases :: id in s.runs && id in s.audits
    ensures Takes(s, ids[k], now, 1) <==> Takes(s', ids[k], now, 1)
  {
  }

  lemma {:induction false} RecoveryGrows(h: Hashes, s: State, actor: ActorId, now: Time, events: EventIds, id: RunId)
    requires Inv(h, s)
    ensures var s' := RecoverExpiredLeases(h, s, actor, now, events).0;
            GoesOn(s, s', id,
                   if id in s.leases && id !in s'.leases then [Said(RunFailed, actor, now, NoDetail)] else [])
  {
    hide Inv, RecoverFrom, Dated;
    ExpiredInOrder(s, now);
    var n := RecoveryLoopIsExact(h, s, ExpiredLeases(s, now), 0, actor, now, events);
    var s' := RecoverExpiredLeases(h, s, actor, now, events).0;
    if id in s.runs { RunAndChain(h, s, id); }
    if id in s.leases { LeaseAndRun(h, s, id); }
    if !(id in s.leases && id !in s'.leases) { SameGoesOn(s, s', id); }
  }

  // ---------------------------------------------------------------- what is due

  /** The events an operation that succeeds owes the chain of a run. */
  ghost function Tells(s: State, op: Op, id: RunId): seq<Said> {
    match op
    case NewRun(run, audit, _) => if id == run.id then [Said(RunCreated, audit.actor, run.createdAt, NoDetail)] else []
    case MoveRun(x, _, next, _, audit, _) =>
      if id == x then [Said(TransitionEvent(next), audit.actor, audit.timestamp, StatusDetail(next))] else []
    case Audit(x, kind, audit, _) => if id == x then [Said(kind, audit.actor, audit.timestamp, NoDetail)] else []
    case Reconcile(receipt, audit, _) =>
      if id == receipt.runId && !Recorded(ChainOf(s, id), receipt.actionId)
      then [Said(ActionExecuted, audit.actor, audit.timestamp,
                 ExecutionDetail(receipt.actionId, receipt.parameterHash))]
      else []
    case StoreArtifacts(x, batch, audit, _) => if id == x then SaidOfBatch(batch, audit.actor, audit.timestamp) else []
    case Claim(owner, now, _, _, _) =>
      if IsNextInQueue(s, id) then [Said(RuntimeSelected, owner, now, NoDetail)] else []
    case Heartbeat(_, _, _) => []
    case MoveLeased(lease, _, next, now, _) =>
      if id == lease.run.id then [Said(TransitionEvent(next), lease.owner, now, NoDetail)] else []
    case CompleteLeased(lease, _, next, _, now, _) =>
      if id == lease.run.id then [Said(TransitionEvent(next), lease.owner, now, NoDetail)] else []
    case AuditLeased(lease, _, kind, now, _) =>
      if id == lease.run.id then [Said(kind, lease.owner, now, NoDetail)] else []
    case StoreLeasedArtifacts(lease, _, batch, now, _) =>
      if id == lease.run.id then SaidOfBatch(batch, lease.owner, now) else []
    case AskCancelled(_, _) => []
    case Confirm(lease, now, _, _, _) =>
      if id == lease.run.id then [Said(CancelConfirmed, lease.owner, now, NoDetail)] else []
    case Cancel(x, actor, now, _) =>
      if id != x || id !in s.runs || s.runs[id].status.IsTerminal() || id in s.cancels then []
      else [Said(if id in s.leases then CancelRequestRecorded else CancelConfirmed, actor, now, NoDetail)]
    case Recover(_, _, _) => []
    case RequestApproval(request, actor, now, _) =>
      if id == request.runId then [SaidOf(Cleaned(request), EventKind.ApprovalRequested, actor, now)] else []
    case Decide(x, _, decision, actor, reason, now, _) =>
      if x in s.approvals && id == s.approvals[x].runId
      then [SaidOf(Decided(s.approvals[x], decision, actor, reason, now),
                   if decision.Approve? then ApprovalApproved else ApprovalDenied, actor, now)]
      else []
    case Expire(x, _, actor, now, _) =>
      if x in s.approvals && id == s.approvals[x].runId && s.approvals[x].revision < 2
      then [SaidOf(s.approvals[x].(status := Expired, revision := s.approvals[x].revision + 1), ApprovalExpired, actor,
                   now)]
      else []
    case Consume(x, _, _, actor, now, _) =>
      if x in s.approvals && id == s.approvals[x].runId
      then [SaidOf(Spent(s.approvals[x], now), ApprovalConsumed, actor, now),
            Said(RuntimeStarted, actor, now, StatusDetail(Running))]
      else []
  }

  /** A consumption that would be possible is tried with an action the approval is not bound to. */
  ghost predicate Mismatches(h: Hashes, s: State, op: Op, id: RunId) {
    && op.Consume? && Consumable(s, op.approval, op.expected, op.now)
    && !BindingMatches(h, s.approvals[op.approval], op.action)
    && id == s.approvals[op.approval].runId && Takes(s, id, op.now, 1)
  }

  /** The events an operation owes the chain of a run. One that fails owes none, except the mismatch of a consumption
      and the runs a recovery has already recovered. */
  ghost function Due(h: Hashes, s: State, op: Op, id: RunId): seq<Said> {
    if op.Recover? then
      if id in s.leases && id !in Next(h, s, op).leases then [Said(RunFailed, op.actor, op.now, NoDetail)] else []
    else if Succeeds(h, s, op) then Tells(s, op, id)
    else if Mismatches(h, s, op, id) then [SaidOf(s.approvals[op.approval], ApprovalBindingMismatch, op.actor, op.now)]
    else []
  }

  lemma {:induction false} RunOperationTells(h: Hashes, s: State, op: Op, id: RunId)
    requires Inv(h, s) && Succeeds(h, s, op) && (op.NewRun? || op.MoveRun? || op.Audit? || op.Reconcile?)
    ensures GoesOn(s, Next(h, s, op), id, Tells(s, op, id))
  {
    hide Inv, Adds, GoesOn, Recorded, Dated, CreateRun, TransitionRun, AppendAudit, ReconcileExecution,
      RecordArtifacts, ClaimNextRun, HeartbeatLease, TransitionLeasedRun, CompleteLeasedRun, AppendLeasedAudit,
      RecordLeasedArtifacts, LeaseCancelRequested, ConfirmCancel, RequestCancel, RecoverExpiredLeases, CreateApproval,
      DecideApproval, ExpireApproval, ConsumeApproval;
    var s' := Next(h, s, op);
    match op
    case NewRun(run, audit, event) =>
      CreateIsExact(h, s, run, audit, event);
      AddsGoesOn(s, s', run.id, Tells(s, op, run.id), id);
    case MoveRun(x, expected, next, reason, audit, event) =>
      MoveIsExact(h, s, x, expected, next, reason, audit, event);
      AddsGoesOn(s, s', x, Tells(s, op, x), id);
    case Audit(x, kind, audit, event) =>
      AuditIsExact(h, s, x, kind, audit, event);
      AddsGoesOn(s, s', x, Tells(s, op, x), id);
    case Reconcile(receipt, audit, event) =>
      ReconciliationIsExact(h, s, receipt, audit, event);
      if Recorded(ChainOf(s, receipt.runId), receipt.actionId) {
        SameGoesOn(s, s', id);
      } else {
        AddsGoesOn(s, s', receipt.runId, Tells(s, op, receipt.runId), id);
      }
  }

  lemma {:induction false} ArtifactOperationTells(h: Hashes, s: State, op: Op, id: RunId)
    requires Inv(h, s) && Succeeds(h, s, op) && (op.StoreArtifacts? || op.StoreLeasedArtifacts?)
    ensures GoesOn(s, Next(h, s, op), id, Tells(s, op, id))
  {
    hide Inv, Adds, GoesOn, SaidOfBatch, AddArtifacts, CreateRun, TransitionRun, AppendAudit, ReconcileExecution,
      ClaimNextRun, HeartbeatLease, TransitionLeasedRun, CompleteLeasedRun, AppendLeasedAudit, RecordLeasedArtifacts,
      LeaseCancelRequested, ConfirmCancel, RequestCancel, RecoverExpiredLeases, CreateApproval, DecideApproval,
      ExpireApproval, ConsumeApproval;
    var s' := Next(h, s, op);
    match op
    case StoreArtifacts(x, batch, audit, events) =>
      BatchIsExact(h, s, x, batch, audit, events);
      AddsGoesOn(s, s', x, Tells(s, op, x), id);
    case StoreLeasedArtifacts(lease, expected, batch, now, events) =>
      LeasedBatchIsExact(h, s, lease, expected, batch, now, events);
      BatchIsExact(h, s, lease.run.id, batch, Envelope(lease.owner, now), events);
      AddsGoesOn(s, s', lease.run.id, Tells(s, op, lease.run.id), id);
  }

  lemma {:induction false} ClaimTells(h: Hashes, s: State, op: Op, id: RunId)
    requires Inv(h, s) && Succeeds(h, s, op) && op.Claim?
    ensures GoesOn(s, Next(h, s, op), id, Tells(s, op, id))
  {
    hide Inv, Adds, GoesOn, Dated, CreateRun, TransitionRun, AppendAudit, ReconcileExecution, RecordArtifacts,
      ClaimNextRun, HeartbeatLease, TransitionLeasedRun, CompleteLeasedRun, AppendLeasedAudit, RecordLeasedArtifacts,
      LeaseCancelRequested, ConfirmCancel, RequestCancel, RecoverExpiredLeases, CreateApproval, DecideApproval,
      ExpireApproval, ConsumeApproval;
    var s' := Next(h, s, op);
    ClaimIsExact(h, s, op.owner, op.now, op.ttl, op.token, op.event);
    var r := ClaimNextRun(h, s, op.owner, op.now, op.ttl, op.token, op.event).value;
    if r.1.None? {
      SameGoesOn(s, s', id);
    } else {
      AddsGoesOn(s, s', r.1.value.run.id, Tells(s, op, r.1.value.run.id), id);
    }
  }

  lemma {:induction false} HolderTells(h: Hashes, s: State, op: Op, id: RunId)
    requires Inv(h, s) && Succeeds(h, s, op)
    requires op.Heartbeat? || op.MoveLeased? || op.CompleteLeased? || op.AuditLeased? || op.AskCancelled? || op.Confirm?
    ensures GoesOn(s, Next(h, s, op), id, Tells(s, op, id))
  {
    hide Inv, Adds, GoesOn, Dated, CreateRun, TransitionRun, AppendAudit, ReconcileExecution, RecordArtifacts,
      ClaimNextRun, HeartbeatLease, TransitionLeasedRun, CompleteLeasedRun, AppendLeasedAudit, RecordLeasedArtifacts,
      LeaseCancelRequested, ConfirmCancel, RequestCancel, RecoverExpiredLeases, CreateApproval, DecideApproval,
      ExpireApproval, ConsumeApproval, VerifyCancellation;
    var s' := Next(h, s, op);
    match op
    case Heartbeat(lease, now, ttl) =>
      HeartbeatIsExact(h, s, lease, now, ttl);
      SameGoesOn(s, s', id);
    case AskCancelled(_, _) => SameGoesOn(s, s', id);
    case MoveLeased(lease, expected, next, now, event) =>
      LeasedMoveIsExact(h, s, lease, expected, next, now, event);
      AddsGoesOn(s, s', lease.run.id, Tells(s, op, lease.run.id), id);
    case CompleteLeased(lease, expected, next, reason, now, event) =>
      CompletionIsExact(h, s, lease, expected, next, reason, now, event);
      AddsGoesOn(s, s', lease.run.id, Tells(s, op, lease.run.id), id);
    case AuditLeased(lease, expected, kind, now, event) =>
      LeasedAuditIsExact(h, s, lease, expected, kind, now, event);
      AddsGoesOn(s, s', lease.run.id, Tells(s, op, lease.run.id), id);
    case Confirm(lease, now, observed, result, event) =>
      ConfirmIsExact(h, s, lease, now, VerifyCancellation(observed, result).value, event);
      AddsGoesOn(s, s', lease.run.id, Tells(s, op, lease.run.id), id);
  }

  lemma {:induction false} CancelTells(h: Hashes, s: State, op: Op, id: RunId)
    requires Inv(h, s) && Succeeds(h, s, op) && op.Cancel?
    ensures GoesOn(s, Next(h, s, op), id, Tells(s, op, id))
  {
    hide Inv, Adds, GoesOn, Dated, CreateRun, TransitionRun, AppendAudit, ReconcileExecution, RecordArtifacts,
      ClaimNextRun, HeartbeatLease, TransitionLeasedRun, CompleteLeasedRun, AppendLeasedAudit, RecordLeasedArtifacts,
      LeaseCancelRequested, ConfirmCancel, RequestCancel, RecoverExpiredLeases, CreateApproval, DecideApproval,
      ExpireApproval, ConsumeApproval;
    var s' := Next(h, s, op);
    CancelIsExact(h, s, op.id, op.actor, op.now, op.event);
    if s.runs[op.id].status.IsTerminal() || op.id in s.cancels {
      SameGoesOn(s, s', id);
    } else {
      AddsGoesOn(s, s', op.id, Tells(s, op, op.id), id);
    }
  }

  lemma {:induction false} ApprovalOperationTells(h: Hashes, s: State, op: Op, id: RunId)
    requires Inv(h, s) && Succeeds(h, s, op) && (op.RequestApproval? || op.Decide? || op.Expire? || op.Consume?)
    ensures GoesOn(s, Next(h, s, op), id, Tells(s, op, id))
  {
    hide Inv, Adds, GoesOn, Dated, CreateRun, TransitionRun, AppendAudit, ReconcileExecution, RecordArtifacts,
      ClaimNextRun, HeartbeatLease, TransitionLeasedRun, CompleteLeasedRun, AppendLeasedAudit, RecordLeasedArtifacts,
      LeaseCancelRequested, ConfirmCancel, RequestCancel, RecoverExpiredLeases, CreateApproval, DecideApproval,
      ExpireApproval, ConsumeApproval;
    var s' := Next(h, s, op);
    match op
    case RequestApproval(request, actor, now, event) =>
      RequestIsExact(h, s, request, actor, now, event);
      AddsGoesOn(s, s', request.runId, Tells(s, op, request.runId), id);
    case Decide(x, expected, decision, actor, reason, now, event) =>
      DecisionIsExact(h, s, x, expected, decision, actor, reason, now, event);
      AddsGoesOn(s, s', s.approvals[x].runId, Tells(s, op, s.approvals[x].runId), id);
    case Expire(x, expected, actor, now, event) =>
      ExpiryIsExact(h, s, x, expected, actor, now, event);
      AddsGoesOn(s, s', s.approvals[x].runId, Tells(s, op, s.approvals[x].runId), id);
    case Consume(x, expected, action, actor, now, events) =>
      ConsumptionIsExact(h, s, x, expected, action, actor, now, events);
      AddsGoesOn(s, s', s.approvals[x].runId, Tells(s, op, s.approvals[x].runId), id);
  }

  lemma {:induction false} FailureTells(h: Hashes, s: State, op: Op, id: RunId)
    requires Inv(h, s) && !Succeeds(h, s, op) && !op.Recover?
    ensures GoesOn(s, Next(h, s, op), id, Due(h, s, op, id))
  {
    hide Inv, Adds, GoesOn, Dated, WindowOpen, Takes, BindingMatches, CreateRun, TransitionRun, AppendAudit,
      ReconcileExecution, RecordArtifacts, ClaimNextRun, HeartbeatLease, TransitionLeasedRun, CompleteLeasedRun,
      AppendLeasedAudit, RecordLeasedArtifacts, LeaseCancelRequested, ConfirmCancel, RequestCancel,
      RecoverExpiredLeases, CreateApproval, DecideApproval, ExpireApproval, ConsumeApproval, VerifyCancellation;
    var s' := Next(h, s, op);
    if op.Consume? {
      MismatchIsExact(h, s, op.approval, op.expected, op.action, op.actor, op.now, op.events);
    }
    if !op.Consume? || op.approval !in s.approvals || !Mismatches(h, s, op, s.approvals[op.approval].runId) {
      SameGoesOn(s, s', id);
    } else {
      var x := s.approvals[op.approval].runId;
      AddsGoesOn(s, s', x, Due(h, s, op, x), id);
    }
  }

  /** Every operation in every valid state, whatever its outcome, adds to every chain what it owes it and no more. */
  lemma {:induction false} EveryOperationTellsWhatIsDue(h: Hashes, s: State, op: Op, id: RunId)
    requires Inv(h, s)
    ensures GoesOn(s, Next(h, s, op), id, Due(h, s, op, id))
  {
    hide Inv, GoesOn, Tells, Mismatches, CreateRun, TransitionRun, AppendAudit, ReconcileExecution, RecordArtifacts,
      ClaimNextRun, HeartbeatLease, TransitionLeasedRun, CompleteLeasedRun, AppendLeasedAudit, RecordLeasedArtifacts,
      LeaseCancelRequested, ConfirmCancel, RequestCancel, RecoverExpiredLeases, CreateApproval, DecideApproval,
      ExpireApproval, ConsumeApproval;
    if op.Recover? {
      RecoveryGrows(h, s, op.actor, op.now, op.events, id);
    } else if !Succeeds(h, s, op) {
      FailureTells(h, s, op, id);
    } else if op.NewRun? || op.MoveRun? || op.Audit? || op.Reconcile? {
      RunOperationTells(h, s, op, id);
    } else if op.StoreArtifacts? || op.StoreLeasedArtifacts? {
      ArtifactOperationTells(h, s, op, id);
    } else if op.Claim? {
      ClaimTells(h, s, op, id);
    } else if op.Cancel? {
      CancelTells(h, s, op, id);
    } else if op.RequestApproval? || op.Decide? || op.Expire? || op.Consume? {
      ApprovalOperationTells(h, s, op, id);
    } else {
      HolderTells(h, s, op, id);
    }
  }

  // ---------------------------------------------------------------- histories

  /** What the first `i` operations of a history owe the chain of a run, in order. */
  ghost function Story(h: Hashes, t: Trace, i: nat, id: RunId): seq<Said>
    requires i <= |t.ops| && i < |t.states|
  {
    if i == 0 then [] else Story(h, t, i - 1, id) + Due(h, t.states[i - 1], t.ops[i - 1], id)
  }

  lemma {:induction false} SaidInBoth(chain: seq<AuditEvent>, longer: seq<AuditEvent>)
    requires chain <= longer
    ensures SaidIn(longer) == SaidIn(chain) + SaidIn(longer[|chain|..])
  {
    hide SaidBy;
  }

  /** In every state of every history every chain says exactly what the operations so far owed it, in their order:
      nothing is missing, nothing was added, dropped, altered or moved. */
  lemma {:induction false} EveryChainIsItsStory(h: Hashes, t: Trace, i: nat, id: RunId)
    requires t.IsHistory(h) && i < |t.states|
    ensures SaidIn(ChainOf(t.states[i], id)) == Story(h, t, i, id)
  {
    hide Inv, Next, Due, SaidBy, ChainOf;
    if i == 0 {
      NothingSaid(id);
    } else {
      hide SaidIn;
      EveryChainIsItsStory(h, t, i - 1, id);
      EveryHistoryIsValid(h, t, i - 1);
      assert t.StepAt(h, i - 1);
      EveryOperationTellsWhatIsDue(h, t.states[i - 1], t.ops[i - 1], id);
      SaidInBoth(ChainOf(t.states[i - 1], id), ChainOf(t.states[i], id));
    }
  }

  lemma {:induction false} NothingSaid(id: RunId)
    ensures SaidIn(ChainOf(EMPTY, id)) == []
  {
  }
}
