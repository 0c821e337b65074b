/** The execution store as a state and its operations as functions on that state.

Every function below is one operation of the in-memory store, run under its mutex. An operation
that fails without effect returns `Err`; the two operations that can fail after an effect return the
state beside the outcome. */
module StoreState {
  import opened Prelude
  import opened Text
  import opened Records
  import opened AuditChain
  import opened TextRedaction
  import opened Ordering

  datatype State = State(runs: map<RunId, Run>,
                         audits: map<RunId, seq<AuditEvent>>,
                         artifacts: map<RunId, seq<Artifact>>,
                         approvals: map<ApprovalId, ApprovalRequest>,
                         windows: map<ApprovalId, U64>,
                         claims: map<ActionId, ActionClaim>,
                         leases: map<RunId, RunLease>,
                         cancels: map<RunId, Time>)

  const EMPTY: State := State(map[], map[], map[], map[], map[], map[], map[], map[])

  /** The trusted envelope of an audit event. */
  datatype Envelope = Envelope(actor: ActorId, timestamp: Time)

  /** Fresh identifiers, handed out in order. */
  type EventIds = nat -> EventId

  /** The state after an operation that fails without effect. */
  function Commit<T>(s: State, r: Result<(State, T)>): State {
    if r.Ok? then r.value.0 else s
  }

  function Value<T>(r: Result<(State, T)>): Result<T> {
    match r
    case Ok((_, v)) => Ok(v)
    case Err(e) => Err(e)
  }

  // ---------------------------------------------------------------- shared checks

  function Increment(n: U64, overflow: ErrorCode): Result<U64> {
    if n == U64_MAX then Err(overflow) else Ok(n + 1)
  }

  function TransitionEvent(status: RunStatus): EventKind {
    match status
    case Planning => RuntimeSelected
    case AwaitingApproval => ActionRequested
    case Running => RuntimeStarted
    case Succeeded => RunCompleted
    case _ => RunFailed
  }

  function StoredReason(reason: Option<string>): string {
    if reason.None? then "unspecified" else RedactText(reason.value)
  }

  /** The run record after a transition. */
  function Advance(run: Run, next: RunStatus, reason: Option<string>, now: Time): Result<Run> {
    var revision :- Increment(run.revision, InvalidStateTransition);
    Ok(run.(status := next,
            revision := revision,
            updatedAt := now,
            startedAt := if next.Running? && run.startedAt.None? then Some(now) else run.startedAt,
            completedAt := if next.IsTerminal() then Some(now) else run.completedAt,
            terminalReason := if !next.IsTerminal() then run.terminalReason
                              else if next.Succeeded? then None
                              else Some(StoredReason(reason))))
  }

  function Record(s: State, id: RunId, events: seq<AuditEvent>): State
    requires id in s.audits
  {
    s.(audits := s.audits[id := s.audits[id] + events])
  }

  /** `append_memory_audit`: one event without metadata. */
  function AppendEvent(h: Hashes, s: State, id: RunId, actor: ActorId, now: Time, kind: EventKind,
                       event: EventId): Result<State> {
    if id !in s.audits then Err(Internal)
    else
      var e :- Extend(h, s.audits[id], Draft(event, id, kind, actor, now, NoDetail), InvalidStateTransition);
      Ok(Record(s, id, [e]))
  }

  /** `apply_memory_transition_with_reason`. */
  function ApplyTransition(h: Hashes, s: State, current: Run, next: RunStatus, reason: Option<string>,
                           now: Time, actor: ActorId, kind: EventKind, event: EventId): Result<(State, Run)>
  {
    if !current.status.CanTransitionTo(next) || now < current.updatedAt then Err(InvalidStateTransition)
    else
      var updated :- Advance(current, next, reason, now);
      var logged :- AppendEvent(h, s, current.id, actor, now, kind, event);
      Ok((logged.(runs := logged.runs[current.id := updated]), updated))
  }

  /** `ensure_memory_audit_time`. */
  predicate AuditTimeOk(s: State, id: RunId, now: Time, updatedAt: Time) {
    updatedAt <= now && (id in s.audits && s.audits[id] != [] ==> LastTime(s.audits[id]) <= now)
  }

  /** `validate_memory_lease`. */
  function ValidateLease(s: State, lease: RunLease, expected: U64, now: Time): Result<Run> {
    var id := lease.run.id;
    if id !in s.leases || id !in s.runs then Err(InvalidStateTransition)
    else
      var stored, current := s.leases[id], s.runs[id];
      if || stored.token != lease.token || stored.owner != lease.owner
         || lease.run.revision != expected || current.revision != expected
         || now < stored.acquiredAt || now >= stored.expiresAt || now < current.updatedAt
         || !AuditTimeOk(s, id, now, current.updatedAt)
      then Err(InvalidStateTransition)
      else Ok(current)
  }

  function LeaseExpiry(now: Time, ttl: int): Result<Time> {
    if ttl <= 0 || ttl > MAX_LEASE_TTL || now + ttl > MAX_TIME then Err(InvalidStateTransition) else Ok(now + ttl)
  }

  predicate IsWorkerEvent(kind: EventKind) {
    kind.SandboxCreated? || kind.RuntimeStarted? || kind.RuntimeOutput? || kind.RuntimeCompleted?
      || kind.SandboxDestroyed?
  }

  // ---------------------------------------------------------------- runs and audit

  function CreateRun(h: Hashes, s: State, run: Run, audit: Envelope, event: EventId): Result<(State, Run)> {
    if !run.IsNew() || audit.timestamp != run.createdAt || run.id in s.runs then Err(InvalidStateTransition)
    else
      var e :- NewEvent(h, EventBody(event, run.id, 1, RunCreated, audit.actor, audit.timestamp, NoDetail, None));
      Ok((s.(audits := s.audits[run.id := [e]], runs := s.runs[run.id := run]), run))
  }

  function TransitionRun(h: Hashes, s: State, id: RunId, expected: U64, next: RunStatus, reason: Option<string>,
                         audit: Envelope, event: EventId): Result<(State, Run)>
  {
    if id in s.leases || id !in s.runs then Err(InvalidStateTransition)
    else
      var current := s.runs[id];
      if || current.revision != expected || !current.status.CanTransitionTo(next)
         || audit.timestamp < current.updatedAt
      then Err(InvalidStateTransition)
      else if id !in s.audits then Err(Internal)
      else
        var draft := Draft(event, id, TransitionEvent(next), audit.actor, audit.timestamp, StatusDetail(next));
        var e :- Extend(h, s.audits[id], draft, InvalidStateTransition);
        var updated :- Advance(current, next, reason, audit.timestamp);
        var logged := Record(s, id, [e]);
        Ok((logged.(runs := logged.runs[id := updated]), updated))
  }

  function AppendAudit(h: Hashes, s: State, id: RunId, kind: EventKind, audit: Envelope,
                       event: EventId): Result<(State, AuditEvent)> {
    if id !in s.runs || id in s.leases then Err(InvalidStateTransition)
    else if id !in s.audits then Err(Internal)
    else
      var draft := Draft(event, id, kind, audit.actor, audit.timestamp, NoDetail);
      var e :- Extend(h, s.audits[id], draft, InvalidStateTransition);
      Ok((Record(s, id, [e]), e))
  }

  // ---------------------------------------------------------------- execution receipts

  predicate ClaimCovers(claims: map<ActionId, ActionClaim>, receipt: ExecutionReceipt) {
    && receipt.actionId in claims
    && claims[receipt.actionId].runId == receipt.runId
    && claims[receipt.actionId].parameterHash == receipt.parameterHash
  }

  predicate NamesAction(e: AuditEvent, action: ActionId) {
    e.body.metadata.ExecutionDetail? && e.body.metadata.actionId == action
  }

  /** The action and the parameter hash that the metadata names, if it names both. */
  function BoundAction(m: Metadata): Option<(ActionId, Digest)> {
    match m
    case ExecutionDetail(action, hash) => Some((action, hash))
    case ApprovalDetail(_, action, hash, _, _) => Some((action, hash))
    case _ => None
  }

  /** The event reads as an execution of the action. */
  predicate Executes(e: AuditEvent, action: ActionId) {
    e.body.kind.ActionExecuted? && BoundAction(e.body.metadata).Some? && BoundAction(e.body.metadata).value.0 == action
  }

  /** An execution event without metadata, or one that binds the action to something else. */
  predicate SpoilsReceipt(e: AuditEvent, receipt: ExecutionReceipt) {
    && e.body.kind.ActionExecuted?
    && var bound := BoundAction(e.body.metadata);
       || bound.None?
       || (bound.value.0 == receipt.actionId
           && (e.body.runId != receipt.runId || bound.value.1 != receipt.parameterHash))
  }

  function CountExecutions(events: seq<AuditEvent>, action: ActionId): nat {
    if events == [] then 0
    else CountExecutions(events[..|events| - 1], action)
         + if Executes(events[|events| - 1], action) then 1 else 0
  }

  /** `execution_receipt_was_audited`. */
  function ReceiptWasAudited(events: seq<AuditEvent>, receipt: ExecutionReceipt): Result<bool> {
    if exists k | 0 <= k < |events| :: SpoilsReceipt(events[k], receipt) then Err(ApprovalInvalid)
    else match CountExecutions(events, receipt.actionId)
         case 0 => Ok(false)
         case 1 => Ok(true)
         case _ => Err(ApprovalInvalid)
  }

  /** `reconcile_action_execution`: true when this call recorded the receipt. */
  function ReconcileExecution(h: Hashes, s: State, receipt: ExecutionReceipt, audit: Envelope,
                              event: EventId): Result<(State, bool)> {
    if receipt.runId in s.leases then Err(InvalidStateTransition)
    else if !ClaimCovers(s.claims, receipt) then Err(ApprovalInvalid)
    else if receipt.runId !in s.audits then Err(Internal)
    else
      var known :- ReceiptWasAudited(s.audits[receipt.runId], receipt);
      if known then Ok((s, false))
      else
        var draft := Draft(event, receipt.runId, ActionExecuted, audit.actor, audit.timestamp,
                           ExecutionDetail(receipt.actionId, receipt.parameterHash));
        var e :- Extend(h, s.audits[receipt.runId], draft, InvalidStateTransition);
        Ok((Record(s, receipt.runId, [e]), true))
  }

  // ---------------------------------------------------------------- artifacts

  function Stored(artifacts: map<RunId, seq<Artifact>>, id: RunId): seq<Artifact> {
    if id in artifacts then artifacts[id] else []
  }

  predicate DistinctPaths(artifacts: seq<Artifact>) {
    forall i, j | 0 <= i < j < |artifacts| :: artifacts[i].path != artifacts[j].path
  }

  /** `validate_artifact_batch`. */
  predicate BatchOk(s: State, id: RunId, batch: seq<Artifact>) {
    && id in s.runs
    && (forall i | 0 <= i < |batch| :: batch[i].runId == id && !IsBlank(batch[i].mediaType))
    && (forall i, j | 0 <= i < |batch| && 0 <= j < |Stored(s.artifacts, id)| ::
          batch[i].path != Stored(s.artifacts, id)[j].path)
    && DistinctPaths(batch)
  }

  /** One event per artifact, each sealed onto the previous one. */
  function ArtifactEvents(h: Hashes, chain: seq<AuditEvent>, id: RunId, batch: seq<Artifact>, audit: Envelope,
                          ids: EventIds): Result<seq<AuditEvent>>
  {
    if batch == [] then Ok([])
    else
      var earlier :- ArtifactEvents(h, chain, id, batch[..|batch| - 1], audit, ids);
      var a := batch[|batch| - 1];
      var draft :=
        Draft(ids(|batch| - 1), id, ArtifactCreated, audit.actor, audit.timestamp, ArtifactDetail(a.sha256, a.size));
      var e :- Seal(h, chain + earlier, draft);
      if |chain| + |batch| >= U64_MAX then Err(Internal) else Ok(earlier + [e])
  }

  function AddArtifacts(h: Hashes, s: State, id: RunId, batch: seq<Artifact>, audit: Envelope,
                        ids: EventIds): Result<(State, ())> {
    if !BatchOk(s, id, batch) then Err(ArtifactInvalid)
    else if id !in s.audits then Err(Internal)
    else if s.audits[id] != [] && audit.timestamp < LastTime(s.audits[id]) then Err(InvalidStateTransition)
    else if |s.audits[id]| >= U64_MAX then Err(Internal)
    else
      var events :- ArtifactEvents(h, s.audits[id], id, batch, audit, ids);
      Ok((Record(s, id, events).(artifacts := s.artifacts[id := Stored(s.artifacts, id) + batch]), ()))
  }

  function RecordArtifacts(h: Hashes, s: State, id: RunId, batch: seq<Artifact>, audit: Envelope,
                           ids: EventIds): Result<(State, ())> {
    if id in s.leases then Err(InvalidStateTransition) else AddArtifacts(h, s, id, batch, audit, ids)
  }

  // ---------------------------------------------------------------- leases

  predicate IsClaimable(s: State, id: RunId) {
    id in s.runs && s.runs[id].status.Queued? && id !in s.leases
  }

  predicate ClaimedBefore(s: State, a: RunId, b: RunId)
    requires a in s.runs && b in s.runs
  {
    s.runs[a].createdAt < s.runs[b].createdAt || (s.runs[a].createdAt == s.runs[b].createdAt && a <= b)
  }

  /** The claimable run with the least (creation time, id). */
  ghost predicate IsNextInQueue(s: State, id: RunId) {
    IsClaimable(s, id) && forall other | IsClaimable(s, other) :: ClaimedBefore(s, id, other)
  }

  ghost function NextInQueue(s: State): Option<RunId> {
    if exists id :: IsNextInQueue(s, id) then
      var id :| IsNextInQueue(s, id);
      Some(id)
    else None
  }

  ghost function ClaimNextRun(h: Hashes, s: State, owner: ActorId, now: Time, ttl: int, token: LeaseToken,
                              event: EventId): Result<(State, Option<RunLease>)>
  {
    var expiresAt :- LeaseExpiry(now, ttl);
    if NextInQueue(s).None? then Ok((s, None))
    else
      var (moved, updated) :- ApplyTransition(h, s, s.runs[NextInQueue(s).value], Planning, None, now, owner,
                                              RuntimeSelected, event);
      var lease := RunLease(updated, token, owner, now, expiresAt, false);
      Ok((moved.(leases := moved.leases[NextInQueue(s).value := lease]), Some(lease)))
  }

  function HeartbeatLease(s: State, lease: RunLease, now: Time, ttl: int): Result<(State, RunLease)> {
    var expiresAt :- LeaseExpiry(now, ttl);
    var id := lease.run.id;
    if id !in s.runs || id !in s.leases then Err(InvalidStateTransition)
    else
      var current, stored := s.runs[id], s.leases[id];
      if || stored.token != lease.token || stored.owner != lease.owner
         || stored.run.revision != lease.run.revision || current.revision != lease.run.revision
         || now < stored.acquiredAt || now >= stored.expiresAt || now < current.updatedAt
      then Err(InvalidStateTransition)
      else
        var renewed := stored.(expiresAt := expiresAt, cancelRequested := id in s.cancels);
        Ok((s.(leases := s.leases[id := renewed]), renewed))
  }

  function TransitionLeasedRun(h: Hashes, s: State, lease: RunLease, expected: U64, next: RunStatus, now: Time,
                               event: EventId): Result<(State, RunLease)>
  {
    if next.IsTerminal() then Err(InvalidStateTransition)
    else
      var current :- ValidateLease(s, lease, expected, now);
      var (moved, updated) :- ApplyTransition(h, s, current, next, None, now, lease.owner, TransitionEvent(next),
                                              event);
      if lease.run.id !in moved.leases then Err(InvalidStateTransition)
      else
        var refreshed := moved.leases[lease.run.id].(run := updated, cancelRequested := lease.run.id in moved.cancels);
        Ok((moved.(leases := moved.leases[lease.run.id := refreshed]), refreshed))
  }

  /** Ends a run's lease together with its cancel intent. */
  function Release(s: State, id: RunId): State {
    s.(leases := s.leases - {id}, cancels := s.cancels - {id})
  }

  function CompleteLeasedRun(h: Hashes, s: State, lease: RunLease, expected: U64, next: RunStatus,
                             reason: Option<string>,
                             now: Time, event: EventId): Result<(State, Run)>
  {
    if !(next.Succeeded? || next.Failed? || next.TimedOut?) then Err(InvalidStateTransition)
    else
      var current :- ValidateLease(s, lease, expected, now);
      if next.Succeeded? && lease.run.id in s.cancels then Err(InvalidStateTransition)
      else
        var (moved, updated) :- ApplyTransition(h, s, current, next, reason, now, lease.owner, TransitionEvent(next),
                                                event);
        Ok((Release(moved, lease.run.id), updated))
  }

  function AppendLeasedAudit(h: Hashes, s: State, lease: RunLease, expected: U64, kind: EventKind, now: Time,
                             event: EventId): Result<(State, AuditEvent)>
  {
    if !IsWorkerEvent(kind) then Err(InvalidStateTransition)
    else
      var _ :- ValidateLease(s, lease, expected, now);
      if lease.run.id !in s.audits then Err(Internal)
      else
        var e :- Seal(h, s.audits[lease.run.id], Draft(event, lease.run.id, kind, lease.owner, now, NoDetail));
        Ok((Record(s, lease.run.id, [e]), e))
  }

  function RecordLeasedArtifacts(h: Hashes, s: State, lease: RunLease, expected: U64, batch: seq<Artifact>, now: Time,
                                 ids: EventIds): Result<(State, ())>
  {
    var _ :- ValidateLease(s, lease, expected, now);
    AddArtifacts(h, s, lease.run.id, batch, Envelope(lease.owner, now), ids)
  }

  // ---------------------------------------------------------------- cancellation and recovery

  function RequestCancel(h: Hashes, s: State, id: RunId, actor: ActorId, now: Time, event: EventId): Result<(State,
                         CancelRequest)> {
    if id !in s.runs then Err(InvalidStateTransition)
    else
      var current := s.runs[id];
      if current.status.IsTerminal() then Ok((s, AlreadyTerminal(current.status)))
      else if (current.status.Queued? || current.status.AwaitingApproval?) && id !in s.leases then
        if !AuditTimeOk(s, id, now, current.updatedAt) then Err(InvalidStateTransition)
        else
          var (moved, _) :- ApplyTransition(h, s, current, RunStatus.Cancelled, None, now, actor, CancelConfirmed,
                                            event);
          Ok((moved, CancelledNow))
      else if current.status.Queued? || id !in s.leases then Err(InvalidStateTransition)
      else if id in s.cancels then Ok((s, CancelRequested))
      else if !AuditTimeOk(s, id, now, current.updatedAt) then Err(InvalidStateTransition)
      else
        var logged :- AppendEvent(h, s, id, actor, now, CancelRequestRecorded, event);
        Ok((logged.(cancels := logged.cancels[id := now],
                    leases := logged.leases[id := logged.leases[id].(cancelRequested := true)]),
            CancelRequested))
  }

  function LeaseCancelRequested(s: State, lease: RunLease, now: Time): Result<bool> {
    var id := lease.run.id;
    if id !in s.leases then Err(InvalidStateTransition)
    else
      var stored := s.leases[id];
      if || stored.token != lease.token || stored.owner != lease.owner
         || stored.run.revision != lease.run.revision || now < stored.acquiredAt || now >= stored.expiresAt
      then Err(InvalidStateTransition)
      else Ok(id in s.cancels)
  }

  function ConfirmCancel(h: Hashes, s: State, lease: RunLease, now: Time, evidence: CancellationEvidence,
                         event: EventId): Result<(State, Run)>
  {
    var id := lease.run.id;
    if || evidence.runId != id || evidence.sandboxId == []
       || evidence.token != lease.token || evidence.owner != lease.owner || id !in s.leases
    then Err(InvalidStateTransition)
    else
      var stored := s.leases[id];
      if || stored.token != lease.token || stored.owner != lease.owner
         || stored.run.revision != lease.run.revision || now >= stored.expiresAt
         || id !in s.cancels || id !in s.runs
      then Err(InvalidStateTransition)
      else
        var current := s.runs[id];
        if || current.revision != lease.run.revision || now < stored.acquiredAt
           || !AuditTimeOk(s, id, now, current.updatedAt)
        then Err(InvalidStateTransition)
        else
          var (moved, updated) :- ApplyTransition(h, s, current, RunStatus.Cancelled, None, now, lease.owner,
                                                  CancelConfirmed, event);
          Ok((Release(moved, id), updated))
  }

  predicate IsExpired(s: State, now: Time, id: RunId) {
    id in s.leases && s.leases[id].expiresAt <= now
  }

  /** The runs whose lease has expired, in id order. */
  function ExpiredLeases(s: State, now: Time): seq<RunId> {
    Ascending(set id | id in s.leases && s.leases[id].expiresAt <= now)
  }

  /** One turn of the recovery loop. */
  function RecoverOne(h: Hashes, s: State, id: RunId, actor: ActorId, now: Time, event: EventId): Result<State> {
    if id !in s.runs then Err(InvalidStateTransition)
    else
      var current := s.runs[id];
      if !AuditTimeOk(s, id, now, current.updatedAt) then Err(InvalidStateTransition)
      else if current.status.IsTerminal() then Ok(Release(s, id))
      else
        var (moved, _) :- ApplyTransition(h, s, current, RunStatus.Failed, None, now, actor, RunFailed, event);
        Ok(Release(moved, id))
  }

  /** The recovery loop from position `i` on; a failure keeps what was recovered so far. */
  function RecoverFrom(h: Hashes, s: State, ids: seq<RunId>, i: nat, actor: ActorId, now: Time,
                       events: EventIds): (State, Result<()>)
    requires i <= |ids|
    decreases |ids| - i
  {
    if i == |ids| then (s, Ok(()))
    else match RecoverOne(h, s, ids[i], actor, now, events(i))
         case Err(e) => (s, Err(e))
         case Ok(s') => RecoverFrom(h, s', ids, i + 1, actor, now, events)
  }

  function RecoverExpiredLeases(h: Hashes, s: State, actor: ActorId, now: Time, events: EventIds): (State,
                                Result<seq<RunId>>) {
    var expired := ExpiredLeases(s, now);
    var (recovered, r) := RecoverFrom(h, s, expired, 0, actor, now, events);
    (recovered, if r.Ok? then Ok(expired) else Err(r.code))
  }

  // ---------------------------------------------------------------- approvals

  predicate ParametersMatchHash(h: Hashes, action: ActionRequest) {
    h.action(action.binding) == Some(action.parameterHash)
  }

  predicate BindingMatches(h: Hashes, a: ApprovalRequest, action: ActionRequest) {
    && a.runId == action.binding.runId
    && a.actionId == action.binding.id
    && a.parameterHash == action.parameterHash
    && ParametersMatchHash(h, action)
  }

  /** `approval_window_run`. */
  function WindowRun(s: State, a: ApprovalRequest): Result<Run> {
    if a.runId !in s.runs then Err(InvalidStateTransition)
    else
      var run := s.runs[a.runId];
      if !run.status.AwaitingApproval? || a.id !in s.windows || s.windows[a.id] != run.revision
        then Err(ApprovalInvalid)
      else Ok(run)
  }

  /** `approval_event`. */
  function ApprovalEvent(h: Hashes, s: State, a: ApprovalRequest, kind: EventKind, actor: ActorId, now: Time,
                         event: EventId): Result<AuditEvent>
  {
    if a.runId !in s.audits then Err(Internal)
    else
      var detail := ApprovalDetail(a.id, a.actionId, a.parameterHash, a.revision, a.status);
      Extend(h, s.audits[a.runId], Draft(event, a.runId, kind, actor, now, detail), ApprovalInvalid)
  }

  /** The four duplicate tests of `create_approval`. */
  predicate ApprovalExists(s: State, request: ApprovalRequest) {
    || request.id in s.approvals
    || request.actionId in s.claims
    || (exists a :: a in s.approvals && s.approvals[a].actionId == request.actionId)
    || OpenDuplicate(s, request)
  }

  /** The fourth duplicate test: an open approval of the same binding. */
  predicate OpenDuplicate(s: State, request: ApprovalRequest) {
    exists a :: a in s.approvals
      && s.approvals[a].runId == request.runId && s.approvals[a].actionId == request.actionId
      && s.approvals[a].parameterHash == request.parameterHash
      && (s.approvals[a].status.Pending? || s.approvals[a].status.Approved?)
  }

  function CreateApproval(h: Hashes, s: State, request: ApprovalRequest, actor: ActorId, now: Time,
                          event: EventId): Result<(State, ApprovalRequest)>
  {
    if || !request.status.Pending? || request.revision != 0 || request.requestedBy != actor
       || request.createdAt != now || Utf8Length(request.requestReason) > 2048
    then Err(ApprovalInvalid)
    else
      var stored := request.(requestReason := RedactText(request.requestReason));
      if !stored.IsValid() then Err(InvalidArguments)
      else if stored.runId !in s.runs then Err(InvalidStateTransition)
      else if !s.runs[stored.runId].status.AwaitingApproval? || ApprovalExists(s, stored) then Err(ApprovalInvalid)
      else
        var e :- ApprovalEvent(h, s, stored, EventKind.ApprovalRequested, actor, now, event);
        Ok((Record(s, stored.runId, [e]).(approvals := s.approvals[stored.id := stored],
                                          windows := s.windows[stored.id := s.runs[stored.runId].revision]),
            stored))
  }

  function DecisionEvent(decision: ApprovalDecision): EventKind {
    if decision.Approve? then ApprovalApproved else ApprovalDenied
  }

  function DecideApproval(h: Hashes, s: State, id: ApprovalId, expected: U64, decision: ApprovalDecision,
                          actor: ActorId,
                          reason: Option<string>, now: Time, event: EventId): Result<(State, ApprovalRequest)>
  {
    if reason.Some? && Utf8Length(reason.value) > 2048 then Err(ApprovalInvalid)
    else if id !in s.approvals then Err(ApprovalInvalid)
    else
      var current := s.approvals[id];
      if !current.status.Pending? || current.revision != expected || current.IsExpiredAt(now) then Err(ApprovalInvalid)
      else if decision.Approve? && WindowRun(s, current).Err? then Err(WindowRun(s, current).code)
      else
        var revision :- Increment(current.revision, ApprovalInvalid);
        var why := if reason.Some? then Some(RedactText(reason.value)) else None;
        var updated := current.(status := if decision.Approve? then Approved else Denied,
                                revision := revision,
                                decision := Some(DecisionRecord(decision, actor, why, now)));
        if !updated.IsValid() then Err(InvalidArguments)
        else
          var e :- ApprovalEvent(h, s, updated, DecisionEvent(decision), actor, now, event);
          Ok((Record(s, updated.runId, [e]).(approvals := s.approvals[updated.id := updated]), updated))
  }

  function ExpireApproval(h: Hashes, s: State, id: ApprovalId, expected: U64, actor: ActorId, now: Time,
                          event: EventId): Result<(State, ApprovalRequest)>
  {
    if id !in s.approvals then Err(ApprovalInvalid)
    else
      var current := s.approvals[id];
      if !(current.status.Pending? || current.status.Approved?) || current.revision != expected
        || !current.IsExpiredAt(now)
      then Err(ApprovalInvalid)
      else
        var revision :- Increment(current.revision, ApprovalInvalid);
        var updated := current.(status := Expired, revision := revision);
        if !updated.IsValid() then Err(InvalidArguments)
        else
          var e :- ApprovalEvent(h, s, updated, ApprovalExpired, actor, now, event);
          Ok((Record(s, updated.runId, [e]).(approvals := s.approvals[updated.id := updated]), updated))
  }

  /** `ApprovalRequest::can_consume_at`. */
  function CanConsumeAt(h: Hashes, a: ApprovalRequest, action: ActionRequest, expected: U64, now: Time): Result<()> {
    if !a.IsValid() then Err(InvalidArguments)
    else if !a.status.Approved? || a.revision != expected || a.IsExpiredAt(now) || !BindingMatches(h, a, action)
    then Err(ApprovalInvalid)
    else Ok(())
  }

  /** An approved, current, unexpired approval presented with an action it is not bound to. */
  predicate PresentsWrongAction(h: Hashes, a: ApprovalRequest, action: ActionRequest, expected: U64, now: Time) {
    a.status.Approved? && a.revision == expected && !a.IsExpiredAt(now) && !BindingMatches(h, a, action)
  }

  /** The successful path of `consume_approval`, past the binding check. */
  function ConsumeBound(h: Hashes, s: State, current: ApprovalRequest, run: Run, expected: U64, action: ActionRequest,
                        actor: ActorId, now: Time, events: EventIds): Result<(State, ApprovalConsumption)>
  {
    var _ :- CanConsumeAt(h, current, action, expected, now);
    if action.binding.id in s.claims then Err(ApprovalInvalid)
    else
      var revision :- Increment(current.revision, ApprovalInvalid);
      var updated := current.(status := Consumed, revision := revision, consumedAt := Some(now));
      if !updated.IsValid() then Err(InvalidArguments)
      else
        var claim := ActionClaim(action.binding.runId, action.binding.id, action.parameterHash, actor, now);
        var e :- ApprovalEvent(h, s, updated, ApprovalConsumed, actor, now, events(0));
        var runRevision :- Increment(run.revision, InvalidStateTransition);
        var running := run.(status := Running, revision := runRevision, updatedAt := now,
                            startedAt := if run.startedAt.None? then Some(now) else run.startedAt);
        if updated.runId !in s.audits then Err(Internal)
        else
          var e' :- Seal(h, s.audits[updated.runId] + [e],
                         Draft(events(1), run.id, RuntimeStarted, actor, now, StatusDetail(Running)));
          Ok((Record(s, updated.runId, [e, e']).(approvals := s.approvals[updated.id := updated],
                                                 runs := s.runs[run.id := running],
                                                 claims := s.claims[claim.actionId := claim]),
              ApprovalConsumption(updated, claim)))
  }

  function ConsumeApproval(h: Hashes, s: State, id: ApprovalId, expected: U64, action: ActionRequest, actor: ActorId,
                           now: Time, events: EventIds): (State, Result<ApprovalConsumption>)
  {
    if id !in s.approvals then (s, Err(ApprovalInvalid))
    else
      var current := s.approvals[id];
      match WindowRun(s, current)
      case Err(code) => (s, Err(code))
      case Ok(run) =>
        if PresentsWrongAction(h, current, action, expected, now) then
          match ApprovalEvent(h, s, current, ApprovalBindingMismatch, actor, now, events(0))
          case Err(code) => (s, Err(code))
          case Ok(e) => (Record(s, current.runId, [e]), Err(ApprovalInvalid))
        else
          var r := ConsumeBound(h, s, current, run, expected, action, actor, now, events);
          (Commit(s, r), Value(r))
  }
}
