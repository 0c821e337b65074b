/** The durable records of the execution core and their validators. */
module Records {
  import opened Prelude
  import opened Text

  const U64_MAX: int := 0xFFFF_FFFF_FFFF_FFFF

  type U64 = n: int | 0 <= n <= U64_MAX

  /** A UUID as its 128-bit value; the order of identifiers is the order of values. */
  type Uuid = n: int | 0 <= n < 0x1_0000_0000_0000_0000_0000_0000_0000_0000

  type RunId = Uuid
  type ApprovalId = Uuid
  type ActionId = Uuid
  type EventId = Uuid
  type LeaseToken = Uuid
  type ActorId = string

  /** Nanoseconds on the UTC time line. */
  type Time = int

  const SECOND: int := 1_000_000_000
  const MAX_LEASE_TTL: int := 3600 * SECOND
  const MAX_APPROVAL_TTL: int := 24 * 3600 * SECOND

  /** The last instant a timestamp can hold: the end of the year 9999. */
  const MAX_TIME: Time := 253_402_300_799_999_999_999

  predicate IsHexDigit(c: char) {
    '0' <= c <= '9' || 'a' <= c <= 'f'
  }

  predicate IsDigest(s: string) {
    |s| == 64 && forall i | 0 <= i < |s| :: IsHexDigit(s[i])
  }

  /** A SHA-256 digest: 64 lower-case hexadecimal characters. */
  type Digest = s: string | IsDigest(s)
    witness seq(64, _ => '0')

  // ---------------------------------------------------------------- runs

  datatype RunStatus =
    | Queued
    | Planning
    | AwaitingApproval
    | Running
    | Succeeded
    | Failed
    | Cancelled
    | TimedOut
  {
    predicate IsTerminal() {
      Succeeded? || Failed? || Cancelled? || TimedOut?
    }

    predicate CanTransitionTo(next: RunStatus) {
      match this
      case Queued => next.Planning? || next.Failed? || next.Cancelled? || next.TimedOut?
      case Planning =>
        next.AwaitingApproval? || next.Running? || next.Failed? || next.Cancelled? || next.TimedOut?
      case AwaitingApproval => next.Running? || next.Failed? || next.Cancelled? || next.TimedOut?
      case Running =>
        next.AwaitingApproval? || next.Succeeded? || next.Failed? || next.Cancelled? || next.TimedOut?
      case _ => false
    }
  }

  datatype Run = Run(id: RunId,
                     runtime: string,
                     workspace: string,
                     status: RunStatus,
                     revision: U64,
                     actor: ActorId,
                     promptSha256: Digest,
                     createdAt: Time,
                     updatedAt: Time,
                     startedAt: Option<Time>,
                     completedAt: Option<Time>,
                     terminalReason: Option<string>)
  {
    /** What `create_run` demands of a new run. */
    predicate IsNew() {
      && status.Queued? && revision == 0
      && !IsBlank(runtime) && Utf8Length(runtime) <= 128 && workspace != []
      && updatedAt == createdAt && startedAt.None? && completedAt.None? && terminalReason.None?
    }
  }

  datatype Artifact = Artifact(runId: RunId, path: string, mediaType: string, size: U64, sha256: Digest)

  // ---------------------------------------------------------------- leases and cancellation

  datatype RunLease = RunLease(run: Run,
                               token: LeaseToken,
                               owner: ActorId,
                               acquiredAt: Time,
                               expiresAt: Time,
                               cancelRequested: bool)

  datatype CancelRequest = CancelledNow | CancelRequested | AlreadyTerminal(status: RunStatus)

  datatype SandboxTermination = Exited | Cancelled | TimedOut | OutOfMemory | Failed

  datatype SandboxCleanup = CleanupSucceeded | CleanupFailed(errorCode: string)

  const MAX_SANDBOX_OUTPUT_BYTES: int := 16 * 1024 * 1024

  predicate ValidMachineCode(code: string) {
    && code != [] && |code| <= 128
    && forall i | 0 <= i < |code| :: 'a' <= code[i] <= 'z' || '0' <= code[i] <= '9' || code[i] in "._-"
  }

  datatype SandboxResult = SandboxResult(runId: RunId,
                                         sandboxId: string,
                                         termination: SandboxTermination,
                                         exitCode: Option<int>,
                                         stdout: string,
                                         stderr: string,
                                         truncated: bool,
                                         startedAt: Time,
                                         completedAt: Time,
                                         outputPaths: seq<string>,
                                         cleanup: SandboxCleanup)
  {
    predicate IsValid() {
      && sandboxId != [] && Utf8Length(sandboxId) <= 128
      && startedAt <= completedAt
      && Utf8Length(stdout) + Utf8Length(stderr) <= MAX_SANDBOX_OUTPUT_BYTES
      && |outputPaths| <= 1024
      && (match termination
          case Exited => exitCode.Some?
          case Cancelled => exitCode.None?
          case TimedOut => exitCode.None?
          case OutOfMemory => exitCode.None?
          case Failed => true)
      && (cleanup.CleanupFailed? ==> ValidMachineCode(cleanup.errorCode))
    }
  }

  /** Proof that the sandbox of a leased run was cancelled and disposed of. */
  datatype CancellationEvidence =
    CancellationEvidence(runId: RunId, sandboxId: string, token: LeaseToken, owner: ActorId)

  /** `CancellationEvidence::verify`: the only way to obtain evidence. */
  function VerifyCancellation(lease: RunLease, result: SandboxResult): (r: Result<CancellationEvidence>)
    ensures r.Ok? <==>
            && result.IsValid() && result.runId == lease.run.id
            && result.termination.Cancelled? && result.cleanup.CleanupSucceeded?
    ensures r.Ok? ==> r.value.sandboxId != [] && r.value.sandboxId == result.sandboxId && result.exitCode.None?
    ensures r.Ok? ==> r.value.runId == lease.run.id && r.value.token == lease.token && r.value.owner == lease.owner
  {
    if !result.IsValid() then Err(InvalidArguments)
    else if || result.runId != lease.run.id || !result.termination.Cancelled?
            || result.exitCode.Some? || !result.cleanup.CleanupSucceeded?
    then Err(InvalidStateTransition)
    else Ok(CancellationEvidence(result.runId, result.sandboxId, lease.token, lease.owner))
  }

  // ---------------------------------------------------------------- actions and approvals

  /** The parameters of an action; their shape is irrelevant to the store. */
  type Parameters = string

  /** What an approval of an action is bound to. */
  datatype ActionBinding =
    ActionBinding(runId: RunId, id: ActionId, action: string, resource: string, parameters: Parameters)

  datatype ActionRequest = ActionRequest(binding: ActionBinding, parameterHash: Digest)

  datatype ApprovalStatus = Pending | Approved | Denied | Expired | Consumed

  datatype ApprovalDecision = Approve | Deny

  datatype DecisionRecord =
    DecisionRecord(decision: ApprovalDecision, actor: ActorId, reason: Option<string>, decidedAt: Time)

  datatype ApprovalRequest = ApprovalRequest(id: ApprovalId,
                                             runId: RunId,
                                             actionId: ActionId,
                                             parameterHash: Digest,
                                             requestedBy: ActorId,
                                             requestReason: string,
                                             createdAt: Time,
                                             expiresAt: Time,
                                             status: ApprovalStatus,
                                             revision: U64,
                                             decision: Option<DecisionRecord>,
                                             consumedAt: Option<Time>)
  {
    /** Decision and consumption fields agree with the status. */
    predicate StateIsConsistent() {
      match status
      case Pending => decision.None? && consumedAt.None?
      case Approved => decision.Some? && decision.value.decision.Approve? && consumedAt.None?
      case Denied => decision.Some? && decision.value.decision.Deny? && consumedAt.None?
      case Expired => consumedAt.None?
      case Consumed =>
        && decision.Some? && decision.value.decision.Approve? && consumedAt.Some?
        && decision.value.decidedAt <= consumedAt.value < expiresAt
    }

    /** `ApprovalRequest::validate`. */
    predicate IsValid() {
      && !IsBlank(requestReason)
      && 0 < expiresAt - createdAt <= MAX_APPROVAL_TTL
      && StateIsConsistent()
      && (decision.Some? ==> createdAt <= decision.value.decidedAt < expiresAt)
    }

    predicate IsExpiredAt(now: Time) {
      now >= expiresAt
    }

    /** The revision a record has exactly when it is in its status. */
    function RevisionOfStatus(): int {
      match status
      case Pending => 0
      case Approved => 1
      case Denied => 1
      case Expired => if decision.None? then 1 else 2
      case Consumed => 2
    }
  }

  datatype ActionClaim =
    ActionClaim(runId: RunId, actionId: ActionId, parameterHash: Digest, actor: ActorId, claimedAt: Time)

  datatype ApprovalConsumption = ApprovalConsumption(approval: ApprovalRequest, claim: ActionClaim)

  /** Non-secret proof that an authorized action reached an executor. */
  datatype ExecutionReceipt = ExecutionReceipt(runId: RunId, actionId: ActionId, parameterHash: Digest)
}
