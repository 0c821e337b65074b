/** Every operation of the store keeps the joint invariant and only moves the state forward. */
module StorePreservation {
  import opened Prelude
  import opened Records
  import opened AuditChain
  import opened StoreState
  import opened StoreInvariant
  import opened StoreSteps

  // ---------------------------------------------------------------- what becomes of the lease when a run moves

  lemma {:induction false} UnleasedMove(s: State, id: RunId, r: Run)
    requires LeasesInv(s.leases, s.cancels, s.runs) && id in s.runs && id !in s.leases
    ensures LeasesInv(s.leases, s.cancels, s.runs[id := r])
    ensures LeasesEvolve(s.runs, s.leases, s.leases) && CancelsEvolve(s.cancels, s.cancels, s.runs[id := r])
  {
  }

  lemma {:induction false} ReleasingMove(s: State, id: RunId, r: Run)
    requires LeasesInv(s.leases, s.cancels, s.runs) && id in s.runs && (id in s.cancels ==> Stopped(r.status))
    ensures LeasesInv(s.leases - {id}, s.cancels - {id}, s.runs[id := r])
    ensures LeasesEvolve(s.runs, s.leases, s.leases - {id})
    ensures CancelsEvolve(s.cancels, s.cancels - {id}, s.runs[id := r])
  {
  }

  lemma {:induction false} RefreshingMove(s: State, id: RunId, r: Run)
    requires LeasesInv(s.leases, s.cancels, s.runs) && id in s.runs && id in s.leases
    requires RunEvolves(s.runs[id], r) && r.revision == s.runs[id].revision + 1
    requires r.id == id && !r.status.Queued? && !r.status.IsTerminal()
    ensures var leases := s.leases[id := s.leases[id].(run := r, cancelRequested := id in s.cancels)];
            && LeasesInv(leases, s.cancels, s.runs[id := r])
            && LeasesEvolve(s.runs, s.leases, leases) && CancelsEvolve(s.cancels, s.cancels, s.runs[id := r])
  {
  }

  lemma {:induction false} GrantingMove(s: State, id: RunId, r: Run, lease: RunLease)
    requires LeasesInv(s.leases, s.cancels, s.runs) && id in s.runs && s.runs[id].status.Queued? && id !in s.leases
    requires lease.run == r && LeaseOk(id, lease, r, false)
    ensures LeasesInv(s.leases[id := lease], s.cancels, s.runs[id := r])
    ensures LeasesEvolve(s.runs, s.leases, s.leases[id := lease])
    ensures CancelsEvolve(s.cancels, s.cancels, s.runs[id := r])
  {
  }

  // ---------------------------------------------------------------- transitions

  /** The event and the run record of a transition, each fit for its place. */
  ghost predicate IsTransition(h: Hashes, id: RunId, run: Run, chain: seq<AuditEvent>, next: RunStatus, e: AuditEvent,
                               r: Run) {
    && ChainOk(h, id, chain + [e]) && IsPlain(e)
    && run.status.CanTransitionTo(next)
    && RunOk(id, r, chain + [e]) && RunEvolves(run, r)
    && r.revision == run.revision + 1 && r.status == next && r.updatedAt == e.body.timestamp
  }

  lemma {:induction false} ExtendedIsTransition(h: Hashes, id: RunId, run: Run, chain: seq<AuditEvent>, next: RunStatus,
                                                reason: Option<string>, d: Draft, code: ErrorCode)
    requires ChainOk(h, id, chain) && RunOk(id, run, chain) && d.runId == id
    requires run.status.CanTransitionTo(next) && run.updatedAt <= d.timestamp
    requires d.metadata.NoDetail? || d.metadata.StatusDetail?
    requires d.kind.ActionExecuted? ==> d.metadata.NoDetail?
    requires Extend(h, chain, d, code).Ok? && Advance(run, next, reason, d.timestamp).Ok?
    ensures IsTransition(h, id, run, chain, next, Extend(h, chain, d, code).value,
                         Advance(run, next, reason, d.timestamp).value)
  {
    SealKeepsChain(h, id, chain, d);
    var e := Extend(h, chain, d, code).value;
    AdvanceOk(id, run, chain, next, reason, d.timestamp, chain + [e]);
  }

  lemma {:induction false} AppendAndMove(h: Hashes, s: State, id: RunId, next: RunStatus, e: AuditEvent, r: Run,
                                         leases: Leases, cancels: Cancels)
    requires Inv(h, s) && id in s.runs && id in s.audits && IsTransition(h, id, s.runs[id], s.audits[id], next, e, r)
    requires LeasesInv(leases, cancels, s.runs[id := r])
    requires LeasesEvolve(s.runs, s.leases, leases) && CancelsEvolve(s.cancels, cancels, s.runs[id := r])
    ensures Follows(h, s, Moved(Record(s, id, [e]), id, r, leases, cancels))
  {
    var logged := Record(s, id, [e]);
    RecordPlain(h, s, id, e);
    MoveRun(h, logged, id, r, leases, cancels);
    FollowsOn(h, s, logged, Moved(logged, id, r, leases, cancels));
  }

  /** What `ApplyTransition` does to a valid state, its effect on the lease aside. */
  lemma {:induction false} ApplyTransitionShape(h: Hashes, s: State, id: RunId, next: RunStatus,
                                                reason: Option<string>, now: Time,
                             actor: ActorId, kind: EventKind, event: EventId) returns (e: AuditEvent)
    requires Inv(h, s) && id in s.runs && !kind.ActionExecuted?
    requires ApplyTransition(h, s, s.runs[id], next, reason, now, actor, kind, event).Ok?
    ensures var (moved, r) := ApplyTransition(h, s, s.runs[id], next, reason, now, actor, kind, event).value;
            && id in s.audits && IsTransition(h, id, s.runs[id], s.audits[id], next, e, r)
            && e.body.timestamp == now && e.body.kind == kind
            && (r.terminalReason.None? || r.terminalReason == s.runs[id].terminalReason
                || r.terminalReason == Some(StoredReason(reason)))
            && moved == Moved(Record(s, id, [e]), id, r, s.leases, s.cancels)
  {
    hide Inv, ReceiptsOk, StoredReason;
    RunAndChain(h, s, id);
    var d := Draft(event, id, kind, actor, now, NoDetail);
    e := Extend(h, s.audits[id], d, InvalidStateTransition).value;
    ExtendedIsTransition(h, id, s.runs[id], s.audits[id], next, reason, d, InvalidStateTransition);
  }

  // ---------------------------------------------------------------- runs and audit

  lemma {:induction false} FirstChainOk(h: Hashes, id: RunId, e: AuditEvent, claims: Claims)
    requires e.body.runId == id && VerifyIntegrity(h, e, 1, None) && IsPlain(e)
    ensures ChainOk(h, id, [e]) && ReceiptsOk(id, [e], claims) && ArtifactTrail([e]) == []
  {
    assert EventOk(h, id, [e], 0);
    assert [e] == [] + [e];
    TrailOfAppend([], e);
  }

  lemma {:induction false} NewRunKeepsRuns(runs: Runs, audits: Audits, run: Run, chain: seq<AuditEvent>)
    requires RunsInv(runs, audits) && run.id !in runs && RunOk(run.id, run, chain)
    ensures RunsInv(runs[run.id := run], audits[run.id := chain]) && RunsEvolve(runs, runs[run.id := run])
  {
  }

  lemma {:induction false} NewRunKeepsLogs(h: Hashes, s: State, id: RunId, chain: seq<AuditEvent>)
    requires ChainsInv(h, s.audits) && ReceiptsInv(s.audits, s.claims) && ArtifactsInv(s.artifacts, s.audits)
             && id !in s.audits
    requires ChainOk(h, id, chain) && ReceiptsOk(id, chain, s.claims) && ArtifactTrail(chain) == []
    ensures var audits := s.audits[id := chain];
            ChainsInv(h, audits) && ReceiptsInv(audits, s.claims) && ArtifactsInv(s.artifacts, audits)
              && Grows(s.audits, audits)
  {
    hide ChainOk, ReceiptsOk;
    NothingStored(s, id, chain);
    hide ArtifactsOk, ArtifactTrail;
    assert ArtifactsOk(id, Stored(s.artifacts, id), chain);
  }

  lemma {:induction false} NothingStored(s: State, id: RunId, chain: seq<AuditEvent>)
    requires s.artifacts.Keys <= s.audits.Keys && id !in s.audits && ArtifactTrail(chain) == []
    ensures ArtifactsOk(id, Stored(s.artifacts, id), chain)
  {
  }

  lemma {:induction false} NewRunKeepsApprovals(s: State, run: Run)
    requires ApprovalsInv(s.approvals, s.windows, s.runs) && LeasesInv(s.leases, s.cancels, s.runs) && run.id !in s.runs
    ensures ApprovalsInv(s.approvals, s.windows, s.runs[run.id := run])
    ensures LeasesInv(s.leases, s.cancels, s.runs[run.id := run])
    ensures CancelsEvolve(s.cancels, s.cancels, s.runs[run.id := run])
  {
  }

  lemma {:induction false} CreateRunKeeps(h: Hashes, s: State, run: Run, audit: Envelope, event: EventId)
    requires Inv(h, s) && CreateRun(h, s, run, audit, event).Ok?
    ensures Follows(h, s, CreateRun(h, s, run, audit, event).value.0)
  {
    EvolvesIsReflexive(s);
    var e := CreateRun(h, s, run, audit, event).value.0.audits[run.id][0];
    FirstChainOk(h, run.id, e, s.claims);
    NewRunKeepsRuns(s.runs, s.audits, run, [e]);
    NewRunKeepsLogs(h, s, run.id, [e]);
    NewRunKeepsApprovals(s, run);
  }

  lemma {:induction false} TransitionRunKeeps(h: Hashes, s: State, id: RunId, expected: U64, next: RunStatus,
                                              reason: Option<string>,
                           audit: Envelope, event: EventId)
    requires Inv(h, s) && TransitionRun(h, s, id, expected, next, reason, audit, event).Ok?
    ensures Follows(h, s, TransitionRun(h, s, id, expected, next, reason, audit, event).value.0)
  {
    var draft := Draft(event, id, TransitionEvent(next), audit.actor, audit.timestamp, StatusDetail(next));
    var e := Extend(h, s.audits[id], draft, InvalidStateTransition).value;
    var r := Advance(s.runs[id], next, reason, audit.timestamp).value;
    ExtendedIsTransition(h, id, s.runs[id], s.audits[id], next, reason, draft, InvalidStateTransition);
    UnleasedMove(s, id, r);
    AppendAndMove(h, s, id, next, e, r, s.leases, s.cancels);
    assert Moved(Record(s, id, [e]), id, r, s.leases, s.cancels) == TransitionRun(h, s, id, expected, next, reason,
                                                                                  audit, event).value.0;
  }

  lemma {:induction false} AppendAuditKeeps(h: Hashes, s: State, id: RunId, kind: EventKind, audit: Envelope,
                                            event: EventId)
    requires Inv(h, s) && AppendAudit(h, s, id, kind, audit, event).Ok?
    ensures Follows(h, s, AppendAudit(h, s, id, kind, audit, event).value.0)
  {
    var draft := Draft(event, id, kind, audit.actor, audit.timestamp, NoDetail);
    AppendPlain(h, s, draft);
  }

  // ---------------------------------------------------------------- leases

  lemma {:induction false} ClaimableIsFree(s: State, id: RunId)
    ensures IsNextInQueue(s, id) ==> id in s.runs && s.runs[id].status.Queued? && id !in s.leases
  {
  }

  lemma {:induction false} ClaimNextRunKeeps(h: Hashes, s: State, owner: ActorId, now: Time, ttl: int,
                                             token: LeaseToken, event: EventId)
    requires Inv(h, s) && ClaimNextRun(h, s, owner, now, ttl, token, event).Ok?
    ensures Follows(h, s, ClaimNextRun(h, s, owner, now, ttl, token, event).value.0)
  {
    hide Inv, Follows, ChainOk, IsNextInQueue;
    FollowsItself(h, s);
    if NextInQueue(s).Some? {
      var id := NextInQueue(s).value;
      ClaimableIsFree(s, id);
      ValidParts(h, s);
      var e := ApplyTransitionShape(h, s, id, Planning, None, now, owner, RuntimeSelected, event);
      var (_, r) := ApplyTransition(h, s, s.runs[id], Planning, None, now, owner, RuntimeSelected, event).value;
      var lease := RunLease(r, token, owner, now, LeaseExpiry(now, ttl).value, false);
      GrantingMove(s, id, r, lease);
      AppendAndMove(h, s, id, Planning, e, r, s.leases[id := lease], s.cancels);
    }
  }

  lemma {:induction false} HeartbeatLeaseKeeps(h: Hashes, s: State, lease: RunLease, now: Time, ttl: int)
    requires Inv(h, s) && HeartbeatLease(s, lease, now, ttl).Ok?
    ensures Follows(h, s, HeartbeatLease(s, lease, now, ttl).value.0)
  {
    EvolvesIsReflexive(s);
    var renewed := HeartbeatLease(s, lease, now, ttl).value.1;
    RenewingKeepsLeases(s, lease.run.id, renewed);
  }

  lemma {:induction false} RenewingKeepsLeases(s: State, id: RunId, renewed: RunLease)
    requires LeasesInv(s.leases, s.cancels, s.runs) && id in s.leases && id in s.runs
    requires SameGrant(s.leases[id], renewed) && LeaseOk(id, renewed, s.runs[id], id in s.cancels)
    ensures LeasesInv(s.leases[id := renewed], s.cancels, s.runs)
    ensures LeasesEvolve(s.runs, s.leases, s.leases[id := renewed])
  {
  }

  lemma {:induction false} TransitionLeasedRunKeeps(h: Hashes, s: State, lease: RunLease, expected: U64,
                                                    next: RunStatus, now: Time, event: EventId)
    requires Inv(h, s) && TransitionLeasedRun(h, s, lease, expected, next, now, event).Ok?
    ensures Follows(h, s, TransitionLeasedRun(h, s, lease, expected, next, now, event).value.0)
  {
    var id := lease.run.id;
    var e := ApplyTransitionShape(h, s, id, next, None, now, lease.owner, TransitionEvent(next), event);
    var (_, r) := ApplyTransition(h, s, s.runs[id], next, None, now, lease.owner, TransitionEvent(next), event).value;
    RefreshingMove(s, id, r);
    AppendAndMove(h, s, id, next, e, r, s.leases[id := s.leases[id].(run := r, cancelRequested := id in s.cancels)],
                  s.cancels);
  }

  lemma {:induction false} CompletionShape(h: Hashes, s: State, lease: RunLease, expected: U64, next: RunStatus,
                                           reason: Option<string>, now: Time, event: EventId)
    returns (e: AuditEvent, r: Run)
    requires Inv(h, s) && CompleteLeasedRun(h, s, lease, expected, next, reason, now, event).Ok?
    ensures var id := lease.run.id;
            && id in s.leases && id in s.runs && id in s.audits && next.IsTerminal()
            && !(next.Succeeded? && id in s.cancels)
            && IsTransition(h, id, s.runs[id], s.audits[id], next, e, r)
            && CompleteLeasedRun(h, s, lease, expected, next, reason, now, event).value.0
               == Moved(Record(s, id, [e]), id, r, s.leases - {id}, s.cancels - {id})
  {
    hide Inv, ChainOk, ReceiptsOk, ApplyTransition, IsTransition;
    var id := lease.run.id;
    e := ApplyTransitionShape(h, s, id, next, reason, now, lease.owner, TransitionEvent(next), event);
    r := ApplyTransition(h, s, s.runs[id], next, reason, now, lease.owner, TransitionEvent(next), event).value.1;
  }

  lemma {:induction false} CompleteLeasedRunKeeps(h: Hashes, s: State, lease: RunLease, expected: U64,
                                                  next: RunStatus, reason: Option<string>,
                               now: Time, event: EventId)
    requires Inv(h, s) && CompleteLeasedRun(h, s, lease, expected, next, reason, now, event).Ok?
    ensures Follows(h, s, CompleteLeasedRun(h, s, lease, expected, next, reason, now, event).value.0)
  {
    hide Inv, Follows, LeasesInv, LeasesEvolve, CancelsEvolve, CompleteLeasedRun, ChainOk, ReceiptsOk, RunOk;
    var id := lease.run.id;
    ValidParts(h, s);
    var e, r := CompletionShape(h, s, lease, expected, next, reason, now, event);
    ReleasingMove(s, id, r);
    AppendAndMove(h, s, id, next, e, r, s.leases - {id}, s.cancels - {id});
  }

  lemma {:induction false} AppendLeasedAuditKeeps(h: Hashes, s: State, lease: RunLease, expected: U64,
                                                  kind: EventKind, now: Time, event: EventId)
    requires Inv(h, s) && AppendLeasedAudit(h, s, lease, expected, kind, now, event).Ok?
    ensures Follows(h, s, AppendLeasedAudit(h, s, lease, expected, kind, now, event).value.0)
  {
    var draft := Draft(event, lease.run.id, kind, lease.owner, now, NoDetail);
    assert s.audits[lease.run.id] != [];
    AppendPlain(h, s, draft);
  }

  // ---------------------------------------------------------------- cancellation and recovery

  lemma {:induction false} RecordIntent(h: Hashes, s: State, id: RunId, now: Time)
    requires Inv(h, s) && id in s.leases
    ensures Follows(h, s,
                    s.(cancels := s.cancels[id := now],
                       leases := s.leases[id := s.leases[id].(cancelRequested := true)]))
  {
    EvolvesIsReflexive(s);
    var leases, cancels := s.leases[id := s.leases[id].(cancelRequested := true)], s.cancels[id := now];
    IntentKeepsLeases(s, id, now);
  }

  lemma {:induction false} IntentKeepsLeases(s: State, id: RunId, now: Time)
    requires LeasesInv(s.leases, s.cancels, s.runs) && id in s.leases
    ensures var leases, cancels := s.leases[id := s.leases[id].(cancelRequested := true)], s.cancels[id := now];
            && LeasesInv(leases, cancels, s.runs) && LeasesEvolve(s.runs, s.leases, leases)
            && CancelsEvolve(s.cancels, cancels, s.runs)
  {
  }

  lemma {:induction false} RequestCancelKeeps(h: Hashes, s: State, id: RunId, actor: ActorId, now: Time, event: EventId)
    requires Inv(h, s) && RequestCancel(h, s, id, actor, now, event).Ok?
    ensures Follows(h, s, RequestCancel(h, s, id, actor, now, event).value.0)
  {
    hide Inv, Follows;
    var status := s.runs[id].status;
    if status.IsTerminal() {
      FollowsItself(h, s);
    } else if (status.Queued? || status.AwaitingApproval?) && id !in s.leases {
      CancelUnleasedKeeps(h, s, id, actor, now, event);
    } else if id in s.cancels {
      FollowsItself(h, s);
    } else {
      CancelLeasedKeeps(h, s, id, actor, now, event);
    }
  }

  lemma {:induction false} CancelUnleasedKeeps(h: Hashes, s: State, id: RunId, actor: ActorId, now: Time,
                                               event: EventId)
    requires Inv(h, s) && id in s.runs && id !in s.leases
    requires ApplyTransition(h, s, s.runs[id], RunStatus.Cancelled, None, now, actor, CancelConfirmed, event).Ok?
    ensures Follows(h, s,
                    ApplyTransition(h, s, s.runs[id], RunStatus.Cancelled, None, now, actor, CancelConfirmed,
                                    event).value.0)
  {
    var e := ApplyTransitionShape(h, s, id, RunStatus.Cancelled, None, now, actor, CancelConfirmed, event);
    var (_, r) :=
      ApplyTransition(h, s, s.runs[id], RunStatus.Cancelled, None, now, actor, CancelConfirmed, event).value;
    UnleasedMove(s, id, r);
    AppendAndMove(h, s, id, RunStatus.Cancelled, e, r, s.leases, s.cancels);
  }

  lemma {:induction false} CancelLeasedKeeps(h: Hashes, s: State, id: RunId, actor: ActorId, now: Time, event: EventId)
    requires Inv(h, s) && id in s.leases && AppendEvent(h, s, id, actor, now, CancelRequestRecorded, event).Ok?
    ensures var logged := AppendEvent(h, s, id, actor, now, CancelRequestRecorded, event).value;
            && id in logged.leases
            && Follows(h, s, logged.(cancels := logged.cancels[id := now],
                                     leases := logged.leases[id := logged.leases[id].(cancelRequested := true)]))
  {
    var draft := Draft(event, id, CancelRequestRecorded, actor, now, NoDetail);
    AppendPlain(h, s, draft);
    var logged := Record(s, id, [Seal(h, s.audits[id], draft).value]);
    RecordIntent(h, logged, id, now);
    FollowsOn(h, s, logged, logged.(cancels := logged.cancels[id := now],
                                    leases := logged.leases[id := logged.leases[id].(cancelRequested := true)]));
  }

  lemma {:induction false} ConfirmCancelKeeps(h: Hashes, s: State, lease: RunLease, now: Time,
                                              evidence: CancellationEvidence, event: EventId)
    requires Inv(h, s) && ConfirmCancel(h, s, lease, now, evidence, event).Ok?
    ensures Follows(h, s, ConfirmCancel(h, s, lease, now, evidence, event).value.0)
  {
    var id := lease.run.id;
    var e := ApplyTransitionShape(h, s, id, RunStatus.Cancelled, None, now, lease.owner, CancelConfirmed, event);
    var (_, r) :=
      ApplyTransition(h, s, s.runs[id], RunStatus.Cancelled, None, now, lease.owner, CancelConfirmed, event).value;
    ReleasingMove(s, id, r);
    AppendAndMove(h, s, id, RunStatus.Cancelled, e, r, s.leases - {id}, s.cancels - {id});
  }

  lemma {:induction false} RecoverOneShape(h: Hashes, s: State, id: RunId, actor: ActorId, now: Time, event: EventId)
    returns (e: AuditEvent, r: Run)
    requires Inv(h, s) && id in s.leases && RecoverOne(h, s, id, actor, now, event).Ok?
    ensures id in s.runs && id in s.audits && IsTransition(h, id, s.runs[id], s.audits[id], RunStatus.Failed, e, r)
    ensures e.body.kind.RunFailed? && r.terminalReason == Some(StoredReason(None))
    ensures RecoverOne(h, s, id, actor, now, event).value == Moved(Record(s, id, [e]), id, r, s.leases - {id},
                                                                   s.cancels - {id})
  {
    assert LeaseOk(id, s.leases[id], s.runs[id], id in s.cancels);
    e := ApplyTransitionShape(h, s, id, RunStatus.Failed, None, now, actor, RunFailed, event);
    r := ApplyTransition(h, s, s.runs[id], RunStatus.Failed, None, now, actor, RunFailed, event).value.1;
  }

  /** The run is failed without a reason given, and its last event says so. */
  ghost predicate FailedByRecovery(s: State, id: RunId) {
    && id in s.runs && s.runs[id].status == RunStatus.Failed && s.runs[id].terminalReason == Some(StoredReason(None))
    && id in s.audits && s.audits[id] != [] && s.audits[id][|s.audits[id]| - 1].body.kind.RunFailed?
    && LastTime(s.audits[id]) == s.runs[id].updatedAt
  }

  /** The given runs, and nothing else, were failed and released. */
  ghost predicate Recovered(s: State, s': State, done: set<RunId>) {
    && s'.leases == s.leases - done && s'.cancels == s.cancels - done
    && s'.runs.Keys == s.runs.Keys && s'.audits.Keys == s.audits.Keys
    && (forall id | id in s.runs :: if id in done then FailedByRecovery(s', id) else s'.runs[id] == s.runs[id])
    && (forall id | id in s.audits && id !in done :: s'.audits[id] == s.audits[id])
    && s'.artifacts == s.artifacts && s'.approvals == s.approvals && s'.windows == s.windows && s'.claims == s.claims
  }

  lemma {:induction false} MovedIsRecovered(s: State, id: RunId, e: AuditEvent, r: Run)
    requires id in s.runs && id in s.audits && r.status == RunStatus.Failed
             && r.terminalReason == Some(StoredReason(None))
    requires e.body.kind.RunFailed? && r.updatedAt == e.body.timestamp
    ensures Recovered(s, Moved(Record(s, id, [e]), id, r, s.leases - {id}, s.cancels - {id}), {id})
  {
  }

  /** Recovering one leased run fails it, releases its lease and touches no other run or lease. */
  lemma {:induction false} RecoverOneEffect(h: Hashes, s: State, id: RunId, actor: ActorId, now: Time, event: EventId)
    requires Inv(h, s) && id in s.leases && RecoverOne(h, s, id, actor, now, event).Ok?
    ensures Follows(h, s, RecoverOne(h, s, id, actor, now, event).value)
    ensures Recovered(s, RecoverOne(h, s, id, actor, now, event).value, {id})
  {
    var e, r := RecoverOneShape(h, s, id, actor, now, event);
    ReleasingMove(s, id, r);
    AppendAndMove(h, s, id, RunStatus.Failed, e, r, s.leases - {id}, s.cancels - {id});
    MovedIsRecovered(s, id, e, r);
  }

  /** Ascending ids, leased from position `i` on. */
  ghost predicate LeasedInOrder(leases: Leases, ids: seq<RunId>, i: nat) {
    && i <= |ids| && (forall k | i <= k < |ids| :: ids[k] in leases)
    && (forall j, k | 0 <= j < k < |ids| :: ids[j] < ids[k])
  }

  lemma {:induction false} NextInOrder(leases: Leases, ids: seq<RunId>, i: nat)
    requires LeasedInOrder(leases, ids, i) && i < |ids|
    ensures LeasedInOrder(leases - {ids[i]}, ids, i + 1)
  {
  }

  lemma {:induction false} RecoverFromKeeps(h: Hashes, s: State, ids: seq<RunId>, i: nat, actor: ActorId, now: Time,
                                            events: EventIds)
    requires Inv(h, s) && LeasedInOrder(s.leases, ids, i)
    ensures Follows(h, s, RecoverFrom(h, s, ids, i, actor, now, events).0)
    decreases |ids| - i
  {
    if i == |ids| || RecoverOne(h, s, ids[i], actor, now, events(i)).Err? {
      FollowsItself(h, s);
    } else {
      var s' := RecoverOne(h, s, ids[i], actor, now, events(i)).value;
      RecoverOneEffect(h, s, ids[i], actor, now, events(i));
      NextInOrder(s.leases, ids, i);
      RecoverFromKeeps(h, s', ids, i + 1, actor, now, events);
      FollowsOn(h, s, s', RecoverFrom(h, s', ids, i + 1, actor, now, events).0);
    }
  }

  lemma {:induction false} RecoverKeeps(h: Hashes, s: State, actor: ActorId, now: Time, events: EventIds)
    requires Inv(h, s)
    ensures Follows(h, s, RecoverExpiredLeases(h, s, actor, now, events).0)
  {
    ExpiredInOrder(s, now);
    RecoverFromKeeps(h, s, ExpiredLeases(s, now), 0, actor, now, events);
  }

  lemma {:induction false} ExpiredInOrder(s: State, now: Time)
    ensures LeasedInOrder(s.leases, ExpiredLeases(s, now), 0)
  {
    var expired := ExpiredLeases(s, now);
    forall i | 0 <= i < |expired| ensures expired[i] in s.leases {
      assert expired[i] in expired;
    }
  }

  // ---------------------------------------------------------------- execution receipts

  lemma {:induction false} CountedMeansNamed(events: seq<AuditEvent>, action: ActionId, k: nat)
    requires CountExecutions(events, action) == 0 && k < |events| && events[k].body.kind.ActionExecuted?
    ensures !NamesAction(events[k], action)
  {
    if k < |events| - 1 { CountedMeansNamed(events[..|events| - 1], action, k); }
  }

  lemma {:induction false} ExecutionKeepsReceipts(id: RunId, chain: seq<AuditEvent>, claims: Claims, e: AuditEvent)
    requires ReceiptsOk(id, chain, claims) && ReceiptOk(id, e, claims) && e.body.metadata.ExecutionDetail?
    requires CountExecutions(chain, e.body.metadata.actionId) == 0
    ensures ReceiptsOk(id, chain + [e], claims)
  {
    forall j | 0 <= j < |chain| ensures NoRepeat(chain + [e], j, |chain|) {
      assert ReceiptAt(id, chain, j, claims);
      if chain[j].body.metadata.ExecutionDetail? { CountedMeansNamed(chain, e.body.metadata.actionId, j); }
    }
    AppendKeepsReceipts(id, chain, claims, e);
  }

  lemma {:induction false} RecordExecution(h: Hashes, s: State, id: RunId, e: AuditEvent)
    requires Inv(h, s) && id in s.audits && ChainOk(h, id, s.audits[id] + [e])
    requires ReceiptOk(id, e, s.claims) && e.body.metadata.ExecutionDetail?
    requires CountExecutions(s.audits[id], e.body.metadata.actionId) == 0
    ensures Follows(h, s, Record(s, id, [e]))
  {
    var longer := s.audits[id] + [e];
    ExecutionKeepsReceipts(id, s.audits[id], s.claims, e);
    TrailOfAppend(s.audits[id], e);
    SameTrailKeepsArtifacts(s.artifacts, s.audits, id, longer);
    GrowChain(h, s, id, longer, s.artifacts);
  }

  /** The draft of a receipt's event. */
  function ReceiptDraft(receipt: ExecutionReceipt, audit: Envelope, event: EventId): Draft {
    Draft(event, receipt.runId, ActionExecuted, audit.actor, audit.timestamp,
          ExecutionDetail(receipt.actionId, receipt.parameterHash))
  }

  lemma {:induction false} AppendExecution(h: Hashes, s: State, receipt: ExecutionReceipt, audit: Envelope,
                                           event: EventId)
    requires Inv(h, s) && receipt.runId in s.audits && ClaimCovers(s.claims, receipt)
    requires CountExecutions(s.audits[receipt.runId], receipt.actionId) == 0
    requires LastTime(s.audits[receipt.runId]) <= audit.timestamp
    requires Seal(h, s.audits[receipt.runId], ReceiptDraft(receipt, audit, event)).Ok?
    ensures Follows(h, s,
                    Record(s, receipt.runId,
                           [Seal(h, s.audits[receipt.runId], ReceiptDraft(receipt, audit, event)).value]))
  {
    hide Inv, Follows, ChainOk;
    RunAndChain(h, s, receipt.runId);
    var d := ReceiptDraft(receipt, audit, event);
    SealKeepsChain(h, d.runId, s.audits[d.runId], d);
    RecordExecution(h, s, d.runId, Seal(h, s.audits[d.runId], d).value);
  }

  lemma {:induction false} UnauditedMeansNone(events: seq<AuditEvent>, receipt: ExecutionReceipt)
    requires ReceiptWasAudited(events, receipt) == Ok(false)
    ensures CountExecutions(events, receipt.actionId) == 0
  {
  }

  lemma {:induction false} ReconcileExecutionKeeps(h: Hashes, s: State, receipt: ExecutionReceipt, audit: Envelope,
                                                   event: EventId)
    requires Inv(h, s) && ReconcileExecution(h, s, receipt, audit, event).Ok?
    ensures Follows(h, s, ReconcileExecution(h, s, receipt, audit, event).value.0)
  {
    hide Inv, Follows, ReceiptsOk, ChainOk;
    var id := receipt.runId;
    RunAndChain(h, s, id);
    if ReceiptWasAudited(s.audits[id], receipt) == Ok(true) {
      FollowsItself(h, s);
    } else {
      UnauditedMeansNone(s.audits[id], receipt);
      AppendExecution(h, s, receipt, audit, event);
    }
  }

  // ---------------------------------------------------------------- artifacts

  lemma {:induction false} SummariesOfAppend(some: seq<Artifact>, more: seq<Artifact>)
    ensures Summaries(some + more) == Summaries(some) + Summaries(more)
  {
  }

  /** The chain after the artifact events: intact, in order, and with exactly the batch added to its trail. */
  ghost predicate RecordsBatch(h: Hashes, id: RunId, chain: seq<AuditEvent>, claims: Claims, batch: seq<Artifact>,
                               now: Time, longer: seq<AuditEvent>) {
    && chain <= longer && |longer| == |chain| + |batch|
    && ChainOk(h, id, longer) && LastTime(longer) <= now
    && ReceiptsOk(id, longer, claims)
    && ArtifactTrail(longer) == ArtifactTrail(chain) + Summaries(batch)
  }

  lemma {:induction false} RecordsOneMore(h: Hashes, id: RunId, chain: seq<AuditEvent>, claims: Claims,
                                          init: seq<Artifact>, a: Artifact,
                                          longer: seq<AuditEvent>, d: Draft)
    requires chain != [] && RecordsBatch(h, id, chain, claims, init, d.timestamp, longer)
    requires d.runId == id && d.kind.ArtifactCreated? && d.metadata == ArtifactDetail(a.sha256, a.size)
    requires Seal(h, longer, d).Ok?
    ensures RecordsBatch(h, id, chain, claims, init + [a], d.timestamp, longer + [Seal(h, longer, d).value])
  {
    var e := Seal(h, longer, d).value;
    SealKeepsChain(h, id, longer, d);
    UnrelatedKeepsReceipts(id, longer, claims, e);
    TrailOfAppend(longer, e);
    SummariesOfAppend(init, [a]);
    assert Summaries([a]) == ArtifactEntry(e);
  }

  lemma {:induction false} ArtifactEventsShape(h: Hashes, id: RunId, chain: seq<AuditEvent>, claims: Claims,
                                               batch: seq<Artifact>,
                                               audit: Envelope, ids: EventIds)
    requires ChainOk(h, id, chain) && ReceiptsOk(id, chain, claims) && LastTime(chain) <= audit.timestamp
    requires ArtifactEvents(h, chain, id, batch, audit, ids).Ok?
    ensures RecordsBatch(h, id, chain, claims, batch, audit.timestamp,
                         chain + ArtifactEvents(h, chain, id, batch, audit, ids).value)
  {
    if batch == [] {
      assert chain + [] == chain && ArtifactTrail(chain) + Summaries(batch) == ArtifactTrail(chain);
    } else {
      var init, a := batch[..|batch| - 1], batch[|batch| - 1];
      ArtifactEventsShape(h, id, chain, claims, init, audit, ids);
      var earlier := ArtifactEvents(h, chain, id, init, audit, ids).value;
      var d := Draft(ids(|batch| - 1), id, ArtifactCreated, audit.actor, audit.timestamp,
                     ArtifactDetail(a.sha256, a.size));
      RecordsOneMore(h, id, chain, claims, init, a, chain + earlier, d);
      var e := Seal(h, chain + earlier, d).value;
      assert batch == init + [a] && chain + (earlier + [e]) == chain + earlier + [e];
    }
  }

  lemma {:induction false} BatchFits(id: RunId, stored: seq<Artifact>, chain: seq<AuditEvent>, batch: seq<Artifact>,
                                     longer: seq<AuditEvent>)
    requires ArtifactsOk(id, stored, chain) && DistinctPaths(batch)
    requires forall i | 0 <= i < |batch| :: batch[i].runId == id
    requires forall i, j | 0 <= i < |batch| && 0 <= j < |stored| :: batch[i].path != stored[j].path
    requires ArtifactTrail(longer) == ArtifactTrail(chain) + Summaries(batch)
    ensures ArtifactsOk(id, stored + batch, longer)
  {
    SummariesOfAppend(stored, batch);
  }

  lemma {:induction false} BatchKeepsArtifacts(s: State, id: RunId, batch: seq<Artifact>, longer: seq<AuditEvent>)
    requires ArtifactsInv(s.artifacts, s.audits) && id in s.audits && BatchOk(s, id, batch)
    requires ArtifactTrail(longer) == ArtifactTrail(s.audits[id]) + Summaries(batch)
    ensures var artifacts := s.artifacts[id := Stored(s.artifacts, id) + batch];
            ArtifactsInv(artifacts, s.audits[id := longer]) && Grows(s.artifacts, artifacts)
  {
    hide ArtifactsOk, DistinctPaths, ArtifactTrail, Summaries;
    assert ArtifactsOk(id, Stored(s.artifacts, id), s.audits[id]);
    BatchFits(id, Stored(s.artifacts, id), s.audits[id], batch, longer);
  }

  lemma {:induction false} AddArtifactsKeeps(h: Hashes, s: State, id: RunId, batch: seq<Artifact>, audit: Envelope,
                                             ids: EventIds)
    requires Inv(h, s) && AddArtifacts(h, s, id, batch, audit, ids).Ok?
    ensures Follows(h, s, AddArtifacts(h, s, id, batch, audit, ids).value.0)
  {
    var longer := s.audits[id] + ArtifactEvents(h, s.audits[id], id, batch, audit, ids).value;
    ArtifactEventsShape(h, id, s.audits[id], s.claims, batch, audit, ids);
    BatchKeepsArtifacts(s, id, batch, longer);
    GrowChain(h, s, id, longer, s.artifacts[id := Stored(s.artifacts, id) + batch]);
  }
}
