/** The in-memory execution store: eight maps updated in place, one method per operation. */
module ExecutionStore {
  import opened Prelude
  import opened Text
  import opened TextRedaction
  import opened Records
  import opened AuditChain
  import opened StoreInvariant
  import opened StorePreservation
  import opened ApprovalPreservation
  import opened StoreScans
  import Spec = StoreState

  class InMemoryExecutionStore {
    const h: Hashes
    var runs: map<RunId, Run>
    var audits: map<RunId, seq<AuditEvent>>
    var artifacts: map<RunId, seq<Artifact>>
    var approvals: map<ApprovalId, ApprovalRequest>
    var windows: map<ApprovalId, U64>
    var claims: map<ActionId, ActionClaim>
    var leases: map<RunId, RunLease>
    var cancels: map<RunId, Time>

    function View(): Spec.State
      reads this
    {
      Spec.State(runs, audits, artifacts, approvals, windows, claims, leases, cancels)
    }

    ghost predicate Valid()
      reads this
    {
      Inv(h, View())
    }

    constructor (h: Hashes)
      ensures Valid() && this.h == h && View() == Spec.EMPTY
    {
      this.h := h;
      runs, audits, artifacts, approvals := map[], map[], map[], map[];
      windows, claims, leases, cancels := map[], map[], map[], map[];
      new;
      EmptyIsValid(h);
    }

    // -------------------------------------------------------------- shared steps

    /** `append_memory_audit`. */
    method AppendEvent(id: RunId, actor: ActorId, now: Time, kind: EventKind, event: EventId) returns (r: Result<()>)
      modifies this
      ensures var spec := Spec.AppendEvent(h, old(View()), id, actor, now, kind, event);
              && r == (if spec.Ok? then Ok(()) else Err(spec.code))
              && View() == if spec.Ok? then spec.value else old(View())
    {
      if id !in audits { return Err(Internal); }
      var chain := audits[id];
      if chain != [] && now < LastTime(chain) { return Err(InvalidStateTransition); }
      var e :- Seal(h, chain, Draft(event, id, kind, actor, now, NoDetail));
      audits := audits[id := chain + [e]];
      return Ok(());
    }

    /** `apply_memory_transition_with_reason`. */
    method ApplyTransition(current: Run, next: RunStatus, reason: Option<string>, now: Time, actor: ActorId,
                           kind: EventKind, event: EventId)
      returns (r: Result<Run>)
      modifies this
      ensures var spec := Spec.ApplyTransition(h, old(View()), current, next, reason, now, actor, kind, event);
              r == Spec.Value(spec) && View() == Spec.Commit(old(View()), spec)
    {
      if !current.status.CanTransitionTo(next) || now < current.updatedAt { return Err(InvalidStateTransition); }
      var updated :- Spec.Advance(current, next, reason, now);
      var _ :- AppendEvent(current.id, actor, now, kind, event);
      runs := runs[current.id := updated];
      return Ok(updated);
    }

    // -------------------------------------------------------------- runs and audit

    method CreateRun(run: Run, audit: Spec.Envelope, event: EventId) returns (r: Result<Run>)
      requires Valid()
      modifies this
      ensures var spec := Spec.CreateRun(h, old(View()), run, audit, event);
              r == Spec.Value(spec) && View() == Spec.Commit(old(View()), spec)
      ensures Valid() && Evolves(old(View()), View())
    {
      hide Inv, Evolves;
      ghost var s := View();
      if Spec.CreateRun(h, s, run, audit, event).Ok? {
        CreateRunKeeps(h, s, run, audit, event);
      } else {
        FollowsItself(h, s);
      }
      if !run.IsNew() || audit.timestamp != run.createdAt { return Err(InvalidStateTransition); }
      if run.id in runs { return Err(InvalidStateTransition); }
      var genesis :=
        NewEvent(h, EventBody(event, run.id, 1, RunCreated, audit.actor, audit.timestamp, NoDetail, None)).value;
      audits := audits[run.id := [genesis]];
      runs := runs[run.id := run];
      return Ok(run);
    }

    method TransitionRun(id: RunId, expected: U64, next: RunStatus, reason: Option<string>, audit: Spec.Envelope,
                         event: EventId)
      returns (r: Result<Run>)
      requires Valid()
      modifies this
      ensures var spec := Spec.TransitionRun(h, old(View()), id, expected, next, reason, audit, event);
              r == Spec.Value(spec) && View() == Spec.Commit(old(View()), spec)
      ensures Valid() && Evolves(old(View()), View())
    {
      hide Inv, Evolves;
      ghost var s := View();
      if Spec.TransitionRun(h, s, id, expected, next, reason, audit, event).Ok? {
        TransitionRunKeeps(h, s, id, expected, next, reason, audit, event);
      } else { FollowsItself(h, s); }
      if id in leases || id !in runs { return Err(InvalidStateTransition); }
      var current := runs[id];
      if current.revision != expected || !current.status.CanTransitionTo(next) || audit.timestamp < current.updatedAt {
        return Err(InvalidStateTransition);
      }
      if id !in audits { return Err(Internal); }
      var draft := Draft(event, id, Spec.TransitionEvent(next), audit.actor, audit.timestamp, StatusDetail(next));
      var e :- Extend(h, audits[id], draft, InvalidStateTransition);
      var updated :- Spec.Advance(current, next, reason, audit.timestamp);
      audits := audits[id := audits[id] + [e]];
      runs := runs[id := updated];
      return Ok(updated);
    }

    method AppendAudit(id: RunId, kind: EventKind, audit: Spec.Envelope, event: EventId) returns (r: Result<AuditEvent>)
      requires Valid()
      modifies this
      ensures var spec := Spec.AppendAudit(h, old(View()), id, kind, audit, event);
              r == Spec.Value(spec) && View() == Spec.Commit(old(View()), spec)
      ensures Valid() && Evolves(old(View()), View())
    {
      hide Inv, Evolves;
      ghost var s := View();
      if Spec.AppendAudit(h, s, id, kind, audit, event).Ok? {
        AppendAuditKeeps(h, s, id, kind, audit, event);
      } else {
        FollowsItself(h, s);
      }
      if id !in runs || id in leases { return Err(InvalidStateTransition); }
      if id !in audits { return Err(Internal); }
      var e :- Extend(h, audits[id], Draft(event, id, kind, audit.actor, audit.timestamp, NoDetail),
                      InvalidStateTransition);
      audits := audits[id := audits[id] + [e]];
      return Ok(e);
    }

    method ReconcileExecution(receipt: ExecutionReceipt, audit: Spec.Envelope, event: EventId) returns (r: Result<bool>)
      requires Valid()
      modifies this
      ensures var spec := Spec.ReconcileExecution(h, old(View()), receipt, audit, event);
              r == Spec.Value(spec) && View() == Spec.Commit(old(View()), spec)
      ensures Valid() && Evolves(old(View()), View())
    {
      hide Inv, Evolves;
      ghost var s := View();
      if Spec.ReconcileExecution(h, s, receipt, audit, event).Ok? {
        ReconcileExecutionKeeps(h, s, receipt, audit, event);
      } else { FollowsItself(h, s); }
      if receipt.runId in leases { return Err(InvalidStateTransition); }
      if !Spec.ClaimCovers(claims, receipt) { return Err(ApprovalInvalid); }
      if receipt.runId !in audits { return Err(Internal); }
      var known :- ScanReceipts(audits[receipt.runId], receipt);
      if known { return Ok(false); }
      var draft := Draft(event, receipt.runId, ActionExecuted, audit.actor, audit.timestamp,
                         ExecutionDetail(receipt.actionId, receipt.parameterHash));
      var e :- Extend(h, audits[receipt.runId], draft, InvalidStateTransition);
      audits := audits[receipt.runId := audits[receipt.runId] + [e]];
      return Ok(true);
    }

    // -------------------------------------------------------------- artifacts

    /** The shared part of the two artifact operations. */
    method AddArtifacts(id: RunId, batch: seq<Artifact>, audit: Spec.Envelope,
                        ids: Spec.EventIds) returns (r: Result<()>)
      modifies this
      ensures var spec := Spec.AddArtifacts(h, old(View()), id, batch, audit, ids);
              r == Spec.Value(spec) && View() == Spec.Commit(old(View()), spec)
    {
      if !Spec.BatchOk(View(), id, batch) { return Err(ArtifactInvalid); }
      if id !in audits { return Err(Internal); }
      var chain := audits[id];
      if chain != [] && audit.timestamp < LastTime(chain) { return Err(InvalidStateTransition); }
      if |chain| >= U64_MAX { return Err(Internal); }
      var events :- SealArtifacts(h, chain, id, batch, audit, ids);
      artifacts := artifacts[id := Spec.Stored(artifacts, id) + batch];
      audits := audits[id := chain + events];
      return Ok(());
    }

    method RecordArtifacts(id: RunId, batch: seq<Artifact>, audit: Spec.Envelope,
                           ids: Spec.EventIds) returns (r: Result<()>)
      requires Valid()
      modifies this
      ensures var spec := Spec.RecordArtifacts(h, old(View()), id, batch, audit, ids);
              r == Spec.Value(spec) && View() == Spec.Commit(old(View()), spec)
      ensures Valid() && Evolves(old(View()), View())
    {
      hide Inv, Evolves;
      ghost var s := View();
      if Spec.RecordArtifacts(h, s, id, batch, audit, ids).Ok? {
        AddArtifactsKeeps(h, s, id, batch, audit, ids);
      } else {
        FollowsItself(h, s);
      }
      if id in leases { return Err(InvalidStateTransition); }
      r := AddArtifacts(id, batch, audit, ids);
    }

    // -------------------------------------------------------------- leases

    method ClaimNextRun(owner: ActorId, now: Time, ttl: int, token: LeaseToken,
                        event: EventId) returns (r: Result<Option<RunLease>>)
      requires Valid()
      modifies this
      ensures var spec := Spec.ClaimNextRun(h, old(View()), owner, now, ttl, token, event);
              r == Spec.Value(spec) && View() == Spec.Commit(old(View()), spec)
      ensures Valid() && Evolves(old(View()), View())
    {
      hide Inv, Evolves;
      ghost var s := View();
      if Spec.ClaimNextRun(h, s, owner, now, ttl, token, event).Ok? {
        ClaimNextRunKeeps(h, s, owner, now, ttl, token, event);
      } else { FollowsItself(h, s); }
      var expiresAt :- Spec.LeaseExpiry(now, ttl);
      var next := FindNextInQueue(View());
      if next.None? { return Ok(None); }
      var updated :- ApplyTransition(runs[next.value], Planning, None, now, owner, RuntimeSelected, event);
      var lease := RunLease(updated, token, owner, now, expiresAt, false);
      leases := leases[next.value := lease];
      return Ok(Some(lease));
    }

    method HeartbeatLease(lease: RunLease, now: Time, ttl: int) returns (r: Result<RunLease>)
      requires Valid()
      modifies this
      ensures var spec := Spec.HeartbeatLease(old(View()), lease, now, ttl);
              r == Spec.Value(spec) && View() == Spec.Commit(old(View()), spec)
      ensures Valid() && Evolves(old(View()), View())
    {
      hide Inv, Evolves;
      ghost var s := View();
      if Spec.HeartbeatLease(s, lease, now, ttl).Ok? {
        HeartbeatLeaseKeeps(h, s, lease, now, ttl);
      } else {
        FollowsItself(h, s);
      }
      var expiresAt :- Spec.LeaseExpiry(now, ttl);
      var id := lease.run.id;
      if id !in runs || id !in leases { return Err(InvalidStateTransition); }
      var current, stored := runs[id], leases[id];
      if || stored.token != lease.token || stored.owner != lease.owner
         || stored.run.revision != lease.run.revision || current.revision != lease.run.revision
         || now < stored.acquiredAt || now >= stored.expiresAt || now < current.updatedAt
      { return Err(InvalidStateTransition); }
      leases := leases[id := stored.(expiresAt := expiresAt, cancelRequested := id in cancels)];
      return Ok(leases[id]);
    }

    method TransitionLeasedRun(lease: RunLease, expected: U64, next: RunStatus, now: Time,
                               event: EventId) returns (r: Result<RunLease>)
      requires Valid()
      modifies this
      ensures var spec := Spec.TransitionLeasedRun(h, old(View()), lease, expected, next, now, event);
              r == Spec.Value(spec) && View() == Spec.Commit(old(View()), spec)
      ensures Valid() && Evolves(old(View()), View())
    {
      hide Inv, Evolves;
      ghost var s := View();
      if Spec.TransitionLeasedRun(h, s, lease, expected, next, now, event).Ok? {
        TransitionLeasedRunKeeps(h, s, lease, expected, next, now, event);
      } else { FollowsItself(h, s); }
      if next.IsTerminal() { return Err(InvalidStateTransition); }
      var current :- Spec.ValidateLease(View(), lease, expected, now);
      var updated :- ApplyTransition(current, next, None, now, lease.owner, Spec.TransitionEvent(next), event);
      var id := lease.run.id;
      leases := leases[id := leases[id].(run := updated, cancelRequested := id in cancels)];
      return Ok(leases[id]);
    }

    method CompleteLeasedRun(lease: RunLease, expected: U64, next: RunStatus, reason: Option<string>, now: Time,
                             event: EventId)
      returns (r: Result<Run>)
      requires Valid()
      modifies this
      ensures var spec := Spec.CompleteLeasedRun(h, old(View()), lease, expected, next, reason, now, event);
              r == Spec.Value(spec) && View() == Spec.Commit(old(View()), spec)
      ensures Valid() && Evolves(old(View()), View())
    {
      hide Inv, Evolves;
      ghost var s := View();
      if Spec.CompleteLeasedRun(h, s, lease, expected, next, reason, now, event).Ok? {
        CompleteLeasedRunKeeps(h, s, lease, expected, next, reason, now, event);
      } else { FollowsItself(h, s); }
      if !(next.Succeeded? || next.Failed? || next.TimedOut?) { return Err(InvalidStateTransition); }
      var current :- Spec.ValidateLease(View(), lease, expected, now);
      if next.Succeeded? && lease.run.id in cancels { return Err(InvalidStateTransition); }
      var updated :- ApplyTransition(current, next, reason, now, lease.owner, Spec.TransitionEvent(next), event);
      leases := leases - {lease.run.id};
      cancels := cancels - {lease.run.id};
      return Ok(updated);
    }

    method AppendLeasedAudit(lease: RunLease, expected: U64, kind: EventKind, now: Time,
                             event: EventId) returns (r: Result<AuditEvent>)
      requires Valid()
      modifies this
      ensures var spec := Spec.AppendLeasedAudit(h, old(View()), lease, expected, kind, now, event);
              r == Spec.Value(spec) && View() == Spec.Commit(old(View()), spec)
      ensures Valid() && Evolves(old(View()), View())
    {
      hide Inv, Evolves;
      ghost var s := View();
      if Spec.AppendLeasedAudit(h, s, lease, expected, kind, now, event).Ok? {
        AppendLeasedAuditKeeps(h, s, lease, expected, kind, now, event);
      } else { FollowsItself(h, s); }
      if !Spec.IsWorkerEvent(kind) { return Err(InvalidStateTransition); }
      var _ :- Spec.ValidateLease(View(), lease, expected, now);
      var id := lease.run.id;
      if id !in audits { return Err(Internal); }
      var e :- Seal(h, audits[id], Draft(event, id, kind, lease.owner, now, NoDetail));
      audits := audits[id := audits[id] + [e]];
      return Ok(e);
    }

    method RecordLeasedArtifacts(lease: RunLease, expected: U64, batch: seq<Artifact>, now: Time,
                                 ids: Spec.EventIds) returns (r: Result<()>)
      requires Valid()
      modifies this
      ensures var spec := Spec.RecordLeasedArtifacts(h, old(View()), lease, expected, batch, now, ids);
              r == Spec.Value(spec) && View() == Spec.Commit(old(View()), spec)
      ensures Valid() && Evolves(old(View()), View())
    {
      hide Inv, Evolves;
      ghost var s := View();
      if Spec.RecordLeasedArtifacts(h, s, lease, expected, batch, now, ids).Ok? {
        AddArtifactsKeeps(h, s, lease.run.id, batch, Spec.Envelope(lease.owner, now), ids);
      } else { FollowsItself(h, s); }
      var _ :- Spec.ValidateLease(View(), lease, expected, now);
      r := AddArtifacts(lease.run.id, batch, Spec.Envelope(lease.owner, now), ids);
    }

    // -------------------------------------------------------------- cancellation and recovery

    method RequestCancel(id: RunId, actor: ActorId, now: Time, event: EventId) returns (r: Result<CancelRequest>)
      requires Valid()
      modifies this
      ensures var spec := Spec.RequestCancel(h, old(View()), id, actor, now, event);
              r == Spec.Value(spec) && View() == Spec.Commit(old(View()), spec)
      ensures Valid() && Evolves(old(View()), View())
    {
      hide Inv, Evolves;
      ghost var s := View();
      if Spec.RequestCancel(h, s, id, actor, now, event).Ok? {
        RequestCancelKeeps(h, s, id, actor, now, event);
      } else {
        FollowsItself(h, s);
      }
      if id !in runs { return Err(InvalidStateTransition); }
      var current := runs[id];
      if current.status.IsTerminal() { return Ok(AlreadyTerminal(current.status)); }
      if (current.status.Queued? || current.status.AwaitingApproval?) && id !in leases {
        if !Spec.AuditTimeOk(View(), id, now, current.updatedAt) { return Err(InvalidStateTransition); }
        var _ :- ApplyTransition(current, RunStatus.Cancelled, None, now, actor, CancelConfirmed, event);
        return Ok(CancelledNow);
      }
      if current.status.Queued? || id !in leases { return Err(InvalidStateTransition); }
      if id in cancels { return Ok(CancelRequested); }
      if !Spec.AuditTimeOk(View(), id, now, current.updatedAt) { return Err(InvalidStateTransition); }
      var _ :- AppendEvent(id, actor, now, CancelRequestRecorded, event);
      cancels := cancels[id := now];
      leases := leases[id := leases[id].(cancelRequested := true)];
      return Ok(CancelRequested);
    }

    method ConfirmCancel(lease: RunLease, now: Time, evidence: CancellationEvidence,
                         event: EventId) returns (r: Result<Run>)
      requires Valid()
      modifies this
      ensures var spec := Spec.ConfirmCancel(h, old(View()), lease, now, evidence, event);
              r == Spec.Value(spec) && View() == Spec.Commit(old(View()), spec)
      ensures Valid() && Evolves(old(View()), View())
    {
      hide Inv, Evolves;
      ghost var s := View();
      if Spec.ConfirmCancel(h, s, lease, now, evidence, event).Ok? {
        ConfirmCancelKeeps(h, s, lease, now, evidence, event);
      } else { FollowsItself(h, s); }
      var id := lease.run.id;
      if || evidence.runId != id || evidence.sandboxId == []
         || evidence.token != lease.token || evidence.owner != lease.owner || id !in leases
      { return Err(InvalidStateTransition); }
      var stored := leases[id];
      if || stored.token != lease.token || stored.owner != lease.owner || stored.run.revision != lease.run.revision
         || now >= stored.expiresAt || id !in cancels || id !in runs
      { return Err(InvalidStateTransition); }
      var current := runs[id];
      if current.revision != lease.run.revision || now < stored.acquiredAt
        || !Spec.AuditTimeOk(View(), id, now, current.updatedAt) {
        return Err(InvalidStateTransition);
      }
      var updated :- ApplyTransition(current, RunStatus.Cancelled, None, now, lease.owner, CancelConfirmed, event);
      leases := leases - {id};
      cancels := cancels - {id};
      return Ok(updated);
    }

    /** One turn of the recovery loop. */
    method RecoverOne(id: RunId, actor: ActorId, now: Time, event: EventId) returns (r: Result<()>)
      modifies this
      ensures var spec := Spec.RecoverOne(h, old(View()), id, actor, now, event);
              && r == (if spec.Ok? then Ok(()) else Err(spec.code))
              && View() == if spec.Ok? then spec.value else old(View())
    {
      if id !in runs { return Err(InvalidStateTransition); }
      var current := runs[id];
      if !Spec.AuditTimeOk(View(), id, now, current.updatedAt) { return Err(InvalidStateTransition); }
      if !current.status.IsTerminal() {
        var _ :- ApplyTransition(current, RunStatus.Failed, None, now, actor, RunFailed, event);
      }
      leases := leases - {id};
      cancels := cancels - {id};
      return Ok(());
    }

    method RecoverExpiredLeases(actor: ActorId, now: Time, events: Spec.EventIds) returns (r: Result<seq<RunId>>)
      requires Valid()
      modifies this
      ensures (View(), r) == Spec.RecoverExpiredLeases(h, old(View()), actor, now, events)
      ensures Valid() && Evolves(old(View()), View())
    {
      hide Inv, Evolves;
      ghost var s := View();
      RecoverKeeps(h, s, actor, now, events);
      var expired := Spec.ExpiredLeases(View(), now);
      for i := 0 to |expired|
        invariant Spec.RecoverFrom(h, s, expired, 0, actor, now, events) == Spec.RecoverFrom(h, View(), expired, i,
                                                                                             actor, now, events)
      {
        var _ :- RecoverOne(expired[i], actor, now, events(i));
      }
      return Ok(expired);
    }

    // -------------------------------------------------------------- approvals

    method CreateApproval(request: ApprovalRequest, actor: ActorId, now: Time,
                          event: EventId) returns (r: Result<ApprovalRequest>)
      requires Valid()
      modifies this
      ensures var spec := Spec.CreateApproval(h, old(View()), request, actor, now, event);
              r == Spec.Value(spec) && View() == Spec.Commit(old(View()), spec)
      ensures Valid() && Evolves(old(View()), View())
    {
      hide Inv, Evolves;
      ghost var s := View();
      if Spec.CreateApproval(h, s, request, actor, now, event).Ok? {
        CreateApprovalKeeps(h, s, request, actor, now, event);
      } else { FollowsItself(h, s); }
      if || !request.status.Pending? || request.revision != 0 || request.requestedBy != actor
         || request.createdAt != now || Utf8Length(request.requestReason) > 2048
      { return Err(ApprovalInvalid); }
      var stored := request.(requestReason := RedactText(request.requestReason));
      if !stored.IsValid() { return Err(InvalidArguments); }
      if stored.runId !in runs { return Err(InvalidStateTransition); }
      if !runs[stored.runId].status.AwaitingApproval? || Spec.ApprovalExists(View(), stored) {
        return Err(ApprovalInvalid);
      }
      var e :- Spec.ApprovalEvent(h, View(), stored, EventKind.ApprovalRequested, actor, now, event);
      approvals := approvals[stored.id := stored];
      windows := windows[stored.id := runs[stored.runId].revision];
      audits := audits[stored.runId := audits[stored.runId] + [e]];
      return Ok(stored);
    }

    method DecideApproval(id: ApprovalId, expected: U64, decision: ApprovalDecision, actor: ActorId,
                          reason: Option<string>, now: Time,
                          event: EventId) returns (r: Result<ApprovalRequest>)
      requires Valid()
      modifies this
      ensures var spec := Spec.DecideApproval(h, old(View()), id, expected, decision, actor, reason, now, event);
              r == Spec.Value(spec) && View() == Spec.Commit(old(View()), spec)
      ensures Valid() && Evolves(old(View()), View())
    {
      hide Inv, Evolves;
      ghost var s := View();
      if Spec.DecideApproval(h, s, id, expected, decision, actor, reason, now, event).Ok? {
        DecideApprovalKeeps(h, s, id, expected, decision, actor, reason, now, event);
      } else { FollowsItself(h, s); }
      if reason.Some? && Utf8Length(reason.value) > 2048 { return Err(ApprovalInvalid); }
      if id !in approvals { return Err(ApprovalInvalid); }
      var current := approvals[id];
      if !current.status.Pending? || current.revision != expected || current.IsExpiredAt(now) {
        return Err(ApprovalInvalid);
      }
      if decision.Approve? { var _ :- Spec.WindowRun(View(), current); }
      var revision :- Spec.Increment(current.revision, ApprovalInvalid);
      var why := if reason.Some? then Some(RedactText(reason.value)) else None;
      var updated := current.(status := if decision.Approve? then Approved else Denied,
                              revision := revision,
                              decision := Some(DecisionRecord(decision, actor, why, now)));
      if !updated.IsValid() { return Err(InvalidArguments); }
      var e :- Spec.ApprovalEvent(h, View(), updated, Spec.DecisionEvent(decision), actor, now, event);
      audits := audits[updated.runId := audits[updated.runId] + [e]];
      approvals := approvals[updated.id := updated];
      return Ok(updated);
    }

    method ExpireApproval(id: ApprovalId, expected: U64, actor: ActorId, now: Time,
                          event: EventId) returns (r: Result<ApprovalRequest>)
      requires Valid()
      modifies this
      ensures var spec := Spec.ExpireApproval(h, old(View()), id, expected, actor, now, event);
              r == Spec.Value(spec) && View() == Spec.Commit(old(View()), spec)
      ensures Valid() && Evolves(old(View()), View())
    {
      hide Inv, Evolves;
      ghost var s := View();
      if Spec.ExpireApproval(h, s, id, expected, actor, now, event).Ok? {
        ExpireApprovalKeeps(h, s, id, expected, actor, now, event);
      } else { FollowsItself(h, s); }
      if id !in approvals { return Err(ApprovalInvalid); }
      var current := approvals[id];
      if !(current.status.Pending? || current.status.Approved?) || current.revision != expected
        || !current.IsExpiredAt(now) {
        return Err(ApprovalInvalid);
      }
      var revision :- Spec.Increment(current.revision, ApprovalInvalid);
      var updated := current.(status := ApprovalStatus.Expired, revision := revision);
      if !updated.IsValid() { return Err(InvalidArguments); }
      var e :- Spec.ApprovalEvent(h, View(), updated, ApprovalExpired, actor, now, event);
      audits := audits[updated.runId := audits[updated.runId] + [e]];
      approvals := approvals[updated.id := updated];
      return Ok(updated);
    }

    /** The part of a consumption after the binding check. */
    method ConsumeBound(current: ApprovalRequest, run: Run, expected: U64, action: ActionRequest, actor: ActorId,
                        now: Time,
                        events: Spec.EventIds) returns (r: Result<ApprovalConsumption>)
      modifies this
      ensures var spec := Spec.ConsumeBound(h, old(View()), current, run, expected, action, actor, now, events);
              r == Spec.Value(spec) && View() == Spec.Commit(old(View()), spec)
    {
      var _ :- Spec.CanConsumeAt(h, current, action, expected, now);
      if action.binding.id in claims { return Err(ApprovalInvalid); }
      var revision :- Spec.Increment(current.revision, ApprovalInvalid);
      var updated := current.(status := Consumed, revision := revision, consumedAt := Some(now));
      if !updated.IsValid() { return Err(InvalidArguments); }
      var claim := ActionClaim(action.binding.runId, action.binding.id, action.parameterHash, actor, now);
      var e :- Spec.ApprovalEvent(h, View(), updated, ApprovalConsumed, actor, now, events(0));
      var runRevision :- Spec.Increment(run.revision, InvalidStateTransition);
      var running := run.(status := Running, revision := runRevision, updatedAt := now,
                          startedAt := if run.startedAt.None? then Some(now) else run.startedAt);
      var chain := audits[updated.runId] + [e];
      var e' :- Seal(h, chain, Draft(events(1), run.id, RuntimeStarted, actor, now, StatusDetail(Running)));
      assert chain + [e'] == audits[updated.runId] + [e, e'];
      audits := audits[updated.runId := chain + [e']];
      approvals := approvals[updated.id := updated];
      runs := runs[run.id := running];
      claims := claims[claim.actionId := claim];
      return Ok(ApprovalConsumption(updated, claim));
    }

    method ConsumeApproval(id: ApprovalId, expected: U64, action: ActionRequest, actor: ActorId, now: Time,
                           events: Spec.EventIds)
      returns (r: Result<ApprovalConsumption>)
      requires Valid()
      modifies this
      ensures (View(), r) == Spec.ConsumeApproval(h, old(View()), id, expected, action, actor, now, events)
      ensures Valid() && Evolves(old(View()), View())
    {
      hide Inv, Evolves;
      ghost var s := View();
      ConsumeApprovalKeeps(h, s, id, expected, action, actor, now, events);
      if id !in approvals { return Err(ApprovalInvalid); }
      var current := approvals[id];
      var run :- Spec.WindowRun(View(), current);
      if Spec.PresentsWrongAction(h, current, action, expected, now) {
        var e :- Spec.ApprovalEvent(h, View(), current, ApprovalBindingMismatch, actor, now, events(0));
        audits := audits[current.runId := audits[current.runId] + [e]];
        return Err(ApprovalInvalid);
      }
      r := ConsumeBound(current, run, expected, action, actor, now, events);
    }
  }
}
