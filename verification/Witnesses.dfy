/** Short histories, for any digests, that reach the surprising states the other modules characterise. */
module Witnesses {
  import opened Prelude
  import opened Text
  import opened TextRedaction
  import opened Records
  import opened AuditChain
  import opened StoreState
  import opened History
  import opened Guarantees
  import opened RunMovement
  import opened LeaseGuarantees
  import opened ApprovalGuarantees
  import AuditWire

  function Zeros(): Digest {
    seq(64, _ => '0')
  }

  const ZERO: Digest := Zeros()
  const ID: RunId := 1
  const APPROVAL: ApprovalId := 2
  const ACTION: ActionId := 3
  const ACTOR: ActorId := "a"
  const NOW: Envelope := Envelope(ACTOR, 0)
  const IDS: EventIds := (k: nat) => 0
  const BINDING: ActionBinding := ActionBinding(ID, ACTION, "x", "y", "z")

  /** A new run with a prompt of that digest. */
  function Fresh(prompt: Digest): Run {
    Run(ID, "r", "w", Queued, 0, ACTOR, prompt, 0, 0, None, None, None)
  }

  /** The request for the action's approval, the action and its receipt, given the digest of the action. */
  function Asked(hash: Digest): ApprovalRequest {
    ApprovalRequest(APPROVAL, ID, ACTION, hash, ACTOR, "r", 0, 1, Pending, 0, None, None)
  }

  function Approved(hash: Digest): ApprovalRequest {
    Asked(hash).(status := ApprovalStatus.Approved, revision := 1,
                 decision := Some(DecisionRecord(Approve, ACTOR, None, 0)))
  }

  function Acting(hash: Digest): ActionRequest {
    ActionRequest(BINDING, hash)
  }

  function Receipt(hash: Digest): ExecutionReceipt {
    ExecutionReceipt(ID, ACTION, hash)
  }

  /** The one run of the store is at a status and revision, with a short chain; everything happens at time 0. */
  ghost predicate Stage(s: State, status: RunStatus, revision: nat) {
    && s.runs.Keys == {ID} && s.runs[ID].id == ID && s.runs[ID].status == status && s.runs[ID].revision == revision
    && s.runs[ID].updatedAt == 0 && s.runs[ID].createdAt == 0 && revision <= 10
    && ID in s.audits && 0 < |s.audits[ID]| <= 20 && LastTime(s.audits[ID]) == 0
  }

  /** No approval was ever asked for. */
  ghost predicate NoApprovals(s: State) {
    s.approvals == map[] && s.windows == map[] && s.claims == map[]
  }

  /** Nothing but runs and chains was ever stored. */
  ghost predicate IsBare(s: State) {
    NoApprovals(s) && s.leases == map[] && s.cancels == map[]
  }

  ghost predicate KeepsApprovals(s: State, s': State) {
    s'.approvals == s.approvals && s'.windows == s.windows && s'.claims == s.claims
  }

  /** The leases stay, and at most two events are added to the run's chain. */
  ghost predicate AddsLittle(s: State, s': State) {
    && s'.leases == s.leases
    && ID in s.audits && ID in s'.audits && |s'.audits[ID]| <= |s.audits[ID]| + 2
  }

  // ---------------------------------------------------------------- one step each

  lemma {:induction false} Create(h: Hashes) returns (op: Op)
    ensures op.NewRun?
    ensures var s := Next(h, EMPTY, op); Stage(s, Queued, 0) && IsBare(s) && |s.audits[ID]| == 1
    ensures Next(h, EMPTY, op).audits[ID][0].body.kind.RunCreated?
  {
    hide TransitionRun, AppendAudit, ReconcileExecution, RecordArtifacts, ClaimNextRun, HeartbeatLease,
      TransitionLeasedRun, CompleteLeasedRun, AppendLeasedAudit, RecordLeasedArtifacts, LeaseCancelRequested,
      ConfirmCancel, RequestCancel, RecoverExpiredLeases, CreateApproval, DecideApproval, ExpireApproval,
      ConsumeApproval;
    op := NewRun(Fresh(ZERO), NOW, 0);
    assert !IsBlank("r") && Utf8Length("r") == 1 by { assert !IsWhitespace("r"[0]); }
  }

  /** The run is leased, in the record it has, to one worker from time 0 to time 1. */
  ghost predicate Leased(s: State) {
    ID in s.runs && s.leases.Keys == {ID} && s.leases[ID] == RunLease(s.runs[ID], 0, ACTOR, 0, 1, false)
  }

  lemma {:induction false} TransitionIsStored(h: Hashes, s: State, from: RunStatus, revision: nat, next: RunStatus,
                                              kind: EventKind)
    requires Stage(s, from, revision) && revision < 10 && from.CanTransitionTo(next) && |s.audits[ID]| <= 10
    ensures var r := ApplyTransition(h, s, s.runs[ID], next, None, 0, ACTOR, kind, 0);
            && r.Ok? && Stage(r.value.0, next, revision + 1) && AddsLittle(s, r.value.0)
            && KeepsApprovals(s, r.value.0) && r.value.0.cancels == s.cancels && r.value.1 == r.value.0.runs[ID]
            && |r.value.0.audits[ID]| == |s.audits[ID]| + 1
  {
  }

  lemma {:induction false} ClaimIsStored(h: Hashes, s: State)
    requires Stage(s, Queued, 0) && s.leases == map[] && |s.audits[ID]| <= 10
    ensures var r := ClaimNextRun(h, s, ACTOR, 0, 1, 0, 0);
            && r.Ok? && Stage(r.value.0, Planning, 1) && KeepsApprovals(s, r.value.0) && Leased(r.value.0)
            && r.value.0.cancels == s.cancels && |r.value.0.audits[ID]| == |s.audits[ID]| + 1
  {
    hide ApplyTransition, Extend, Advance;
    assert IsClaimable(s, ID);
    QueueIsNeverMissed(s);
    NextIsClaimable(s, NextInQueue(s).value);
    TransitionIsStored(h, s, Queued, 0, Planning, RuntimeSelected);
  }

  lemma {:induction false} WaitIsStored(h: Hashes, s: State)
    requires Stage(s, Planning, 1) && |s.audits[ID]| <= 10 && Leased(s) && s.cancels == map[]
    ensures var r := TransitionLeasedRun(h, s, s.leases[ID], 1, AwaitingApproval, 0, 0);
            && r.Ok? && Stage(r.value.0, AwaitingApproval, 2) && KeepsApprovals(s, r.value.0) && Leased(r.value.0)
            && |r.value.0.audits[ID]| == |s.audits[ID]| + 1
  {
    hide ApplyTransition, Extend, Advance;
    TransitionIsStored(h, s, Planning, 1, AwaitingApproval, TransitionEvent(AwaitingApproval));
  }

  lemma {:induction false} ClaimIt(h: Hashes, s: State) returns (op: Op)
    requires Stage(s, Queued, 0) && s.leases == map[] && |s.audits[ID]| <= 10
    ensures var s' := Next(h, s, op);
            && Stage(s', Planning, 1) && KeepsApprovals(s, s') && Leased(s') && s'.cancels == s.cancels
            && |s'.audits[ID]| == |s.audits[ID]| + 1
  {
    hide Leased, CreateRun, TransitionRun, AppendAudit, ReconcileExecution, RecordArtifacts, ClaimNextRun,
      HeartbeatLease, TransitionLeasedRun, CompleteLeasedRun, AppendLeasedAudit, RecordLeasedArtifacts,
      LeaseCancelRequested, ConfirmCancel, RequestCancel, RecoverExpiredLeases, CreateApproval, DecideApproval,
      ExpireApproval, ConsumeApproval;
    op := Claim(ACTOR, 0, 1, 0, 0);
    ClaimIsStored(h, s);
  }

  lemma {:induction false} AwaitLeased(h: Hashes, s: State) returns (op: Op)
    requires Stage(s, Planning, 1) && |s.audits[ID]| <= 10 && Leased(s) && s.cancels == map[]
    ensures var s' := Next(h, s, op);
            && Stage(s', AwaitingApproval, 2) && KeepsApprovals(s, s') && Leased(s')
            && |s'.audits[ID]| == |s.audits[ID]| + 1
  {
    hide CreateRun, TransitionRun, AppendAudit, ReconcileExecution, RecordArtifacts, ClaimNextRun, HeartbeatLease,
      TransitionLeasedRun, CompleteLeasedRun, AppendLeasedAudit, RecordLeasedArtifacts, LeaseCancelRequested,
      ConfirmCancel, RequestCancel, RecoverExpiredLeases, CreateApproval, DecideApproval, ExpireApproval,
      ConsumeApproval;
    op := MoveLeased(s.leases[ID], 1, AwaitingApproval, 0, 0);
    WaitIsStored(h, s);
  }

  lemma {:induction false} MoveUnleased(h: Hashes, s: State, from: RunStatus, revision: nat, next: RunStatus)
    returns (op: Op)
    requires Stage(s, from, revision) && revision < 10 && s.leases == map[] && from.CanTransitionTo(next)
             && |s.audits[ID]| <= 10
    ensures op.MoveRun?
    ensures var s' := Next(h, s, op);
            && Stage(s', next, revision + 1) && KeepsApprovals(s, s') && s'.leases == map[]
            && |s'.audits[ID]| == |s.audits[ID]| + 1 && s.audits[ID] <= s'.audits[ID]
            && s'.audits[ID][|s.audits[ID]|].body.kind == TransitionEvent(next)
  {
    hide CreateRun, AppendAudit, ReconcileExecution, RecordArtifacts, ClaimNextRun, HeartbeatLease,
      TransitionLeasedRun, CompleteLeasedRun, AppendLeasedAudit, RecordLeasedArtifacts, LeaseCancelRequested,
      ConfirmCancel, RequestCancel, RecoverExpiredLeases, CreateApproval, DecideApproval, ExpireApproval,
      ConsumeApproval;
    op := MoveRun(ID, revision, next, None, NOW, 0);
  }

  lemma {:induction false} Append(h: Hashes, s: State, status: RunStatus, revision: nat, kind: EventKind)
    returns (op: Op)
    requires Stage(s, status, revision) && s.leases == map[] && |s.audits[ID]| <= 10
    ensures op.Audit?
    ensures var s' := Next(h, s, op);
            && Stage(s', status, revision) && KeepsApprovals(s, s') && s'.runs == s.runs
            && |s'.audits[ID]| == |s.audits[ID]| + 1
            && s'.audits[ID][|s.audits[ID]|].body.kind == kind && s'.audits[ID][|s.audits[ID]|].body.metadata.NoDetail?
  {
    hide CreateRun, TransitionRun, ReconcileExecution, RecordArtifacts, ClaimNextRun, HeartbeatLease,
      TransitionLeasedRun, CompleteLeasedRun, AppendLeasedAudit, RecordLeasedArtifacts, LeaseCancelRequested,
      ConfirmCancel, RequestCancel, RecoverExpiredLeases, CreateApproval, DecideApproval, ExpireApproval,
      ConsumeApproval;
    op := Audit(ID, kind, NOW, 0);
  }

  /** The run waits at a revision for its one approval, which is bound to that revision; nothing was claimed. */
  ghost predicate Awaits(s: State, revision: nat, a: ApprovalRequest) {
    && Stage(s, AwaitingApproval, revision) && s.claims == map[]
    && s.approvals.Keys == {APPROVAL} && s.approvals[APPROVAL] == a
    && s.windows.Keys == {APPROVAL} && s.windows[APPROVAL] == revision
  }

  lemma {:induction false} ReasonIsPlain()
    ensures RedactText("r") == "r" && Utf8Length("r") == 1 && !IsBlank("r")
  {
    AuditWire.LowerWordIsKept("r");
    assert Utf8Length("r") == 1;
    hide RedactText, Utf8Length;
    assert !IsWhitespace("r"[0]);
  }

  lemma {:induction false} RequestIsStored(h: Hashes, hash: Digest, s: State, revision: nat)
    requires Stage(s, AwaitingApproval, revision) && NoApprovals(s) && |s.audits[ID]| <= 10
    ensures var r := CreateApproval(h, s, Asked(hash), ACTOR, 0, 0);
            r.Ok? && Awaits(r.value.0, revision, Asked(hash)) && AddsLittle(s, r.value.0)
  {
    hide RedactText, Utf8Length, IsBlank;
    ReasonIsPlain();
    assert Asked(hash).(requestReason := RedactText(Asked(hash).requestReason)) == Asked(hash);
    assert Asked(hash).IsValid();
    assert !ApprovalExists(s, Asked(hash));
    assert ApprovalEvent(h, s, Asked(hash), EventKind.ApprovalRequested, ACTOR, 0, 0).Ok?;
  }

  lemma {:induction false} DecisionIsStored(h: Hashes, hash: Digest, s: State, revision: nat)
    requires Awaits(s, revision, Asked(hash)) && |s.audits[ID]| <= 10
    ensures var r := DecideApproval(h, s, APPROVAL, 0, Approve, ACTOR, None, 0, 0);
            r.Ok? && Awaits(r.value.0, revision, Approved(hash)) && AddsLittle(s, r.value.0)
  {
    hide RedactText, Utf8Length, IsBlank;
    ReasonIsPlain();
    assert Approved(hash).IsValid();
    assert ApprovalEvent(h, s, Approved(hash), ApprovalApproved, ACTOR, 0, 0).Ok?;
  }

  lemma {:induction false} ConsumptionIsStored(h: Hashes, hash: Digest, s: State, revision: nat)
    requires h.action(BINDING) == Some(hash)
    requires Awaits(s, revision, Approved(hash)) && revision < 10 && |s.audits[ID]| <= 10
    ensures var r := ConsumeApproval(h, s, APPROVAL, 1, Acting(hash), ACTOR, 0, IDS);
            && r.1.Ok? && Stage(r.0, Running, revision + 1) && AddsLittle(s, r.0)
            && ClaimCovers(r.0.claims, Receipt(hash))
  {
    hide RedactText, Utf8Length, IsBlank;
    ReasonIsPlain();
    assert Approved(hash).IsValid();
    assert Approved(hash).(status := Consumed, revision := 2, consumedAt := Some(0)).IsValid();
  }

  lemma {:induction false} Request(h: Hashes, hash: Digest, s: State, revision: nat) returns (op: Op)
    requires Stage(s, AwaitingApproval, revision) && NoApprovals(s) && |s.audits[ID]| <= 10
    ensures Awaits(Next(h, s, op), revision, Asked(hash)) && AddsLittle(s, Next(h, s, op))
  {
    hide Stage, Awaits, AddsLittle, CreateApproval, CreateRun, TransitionRun, AppendAudit, ReconcileExecution,
      RecordArtifacts, ClaimNextRun, HeartbeatLease, TransitionLeasedRun, CompleteLeasedRun, AppendLeasedAudit,
      RecordLeasedArtifacts, LeaseCancelRequested, ConfirmCancel, RequestCancel, RecoverExpiredLeases,
      DecideApproval, ExpireApproval, ConsumeApproval;
    op := RequestApproval(Asked(hash), ACTOR, 0, 0);
    RequestIsStored(h, hash, s, revision);
  }

  lemma {:induction false} Grant(h: Hashes, hash: Digest, s: State, revision: nat) returns (op: Op)
    requires Awaits(s, revision, Asked(hash)) && |s.audits[ID]| <= 10
    ensures Awaits(Next(h, s, op), revision, Approved(hash)) && AddsLittle(s, Next(h, s, op))
  {
    hide Stage, Awaits, AddsLittle, CreateRun, TransitionRun, AppendAudit, ReconcileExecution, RecordArtifacts,
      ClaimNextRun, HeartbeatLease, TransitionLeasedRun, CompleteLeasedRun, AppendLeasedAudit, RecordLeasedArtifacts,
      LeaseCancelRequested, ConfirmCancel, RequestCancel, RecoverExpiredLeases, CreateApproval, DecideApproval,
      ExpireApproval, ConsumeApproval;
    op := Decide(APPROVAL, 0, Approve, ACTOR, None, 0, 0);
    DecisionIsStored(h, hash, s, revision);
  }

  lemma {:induction false} ConsumeIt(h: Hashes, hash: Digest, s: State, revision: nat) returns (op: Op)
    requires h.action(BINDING) == Some(hash)
    requires Awaits(s, revision, Approved(hash)) && revision < 10 && |s.audits[ID]| <= 10
    ensures Stage(Next(h, s, op), Running, revision + 1) && AddsLittle(s, Next(h, s, op))
    ensures ClaimCovers(Next(h, s, op).claims, Receipt(hash))
  {
    hide Stage, Awaits, AddsLittle, CreateRun, TransitionRun, AppendAudit, ReconcileExecution, RecordArtifacts,
      ClaimNextRun, HeartbeatLease, TransitionLeasedRun, CompleteLeasedRun, AppendLeasedAudit, RecordLeasedArtifacts,
      LeaseCancelRequested, ConfirmCancel, RequestCancel, RecoverExpiredLeases, CreateApproval, DecideApproval,
      ExpireApproval, ConsumeApproval;
    op := Consume(APPROVAL, 1, Acting(hash), ACTOR, 0, IDS);
    ConsumptionIsStored(h, hash, s, revision);
  }

  // ---------------------------------------------------------------- histories

  ghost function Last(t: Trace): State
    requires t.states != []
  {
    t.states[|t.states| - 1]
  }

  /** The history with one more operation. */
  ghost function Then(h: Hashes, t: Trace, op: Op): Trace
    requires t.states != []
  {
    Trace(t.states + [Next(h, Last(t), op)], t.ops + [op])
  }

  lemma {:induction false} ThenIsHistory(h: Hashes, t: Trace, op: Op)
    requires t.IsHistory(h)
    ensures Then(h, t, op).IsHistory(h) && Last(Then(h, t, op)) == Next(h, Last(t), op)
  {
    hide Next;
    var t' := Then(h, t, op);
    forall i | 0 <= i < |t'.ops| ensures t'.StepAt(h, i) {
      if i < |t.ops| { assert t.StepAt(h, i); }
    }
  }

  /** A history whose only step creates the run. */
  lemma {:induction false} Begin(h: Hashes) returns (t: Trace)
    ensures t.IsHistory(h) && Stage(Last(t), Queued, 0) && IsBare(Last(t))
    ensures |Last(t).audits[ID]| == 1 && Last(t).audits[ID][0].body.kind.RunCreated?
  {
    hide Stage, Next;
    var op := Create(h);
    t := Trace([EMPTY], []);
    ThenIsHistory(h, t, op);
    t := Then(h, t, op);
  }

  /** From a waiting run without approvals on, an approval can be requested, granted and consumed. */
  lemma {:induction false} ConsumeFrom(h: Hashes, hash: Digest, t: Trace, revision: nat) returns (t': Trace)
    requires h.action(BINDING) == Some(hash)
    requires t.IsHistory(h) && Stage(Last(t), AwaitingApproval, revision) && NoApprovals(Last(t))
    requires revision < 10 && |Last(t).audits[ID]| <= 4
    ensures t'.IsHistory(h) && Stage(Last(t'), Running, revision + 1) && Last(t').leases == Last(t).leases
    ensures |Last(t').audits[ID]| <= 10 && ClaimCovers(Last(t').claims, Receipt(hash))
  {
    hide Next;
    var op := Request(h, hash, Last(t), revision);
    ThenIsHistory(h, t, op);
    t' := Then(h, t, op);
    op := Grant(h, hash, Last(t'), revision);
    ThenIsHistory(h, t', op);
    t' := Then(h, t', op);
    op := ConsumeIt(h, hash, Last(t'), revision);
    ThenIsHistory(h, t', op);
    t' := Then(h, t', op);
  }

  /** A lease can fall behind: create, claim, wait under the lease, request, grant and consume. */
  lemma {:induction false} LagIsReachable(h: Hashes) returns (t: Trace)
    requires h.action(BINDING).Some?
    ensures t.IsHistory(h) && LagsBehind(Last(t), ID)
  {
    hide Next;
    t := Begin(h);
    var op := ClaimIt(h, Last(t));
    ThenIsHistory(h, t, op);
    t := Then(h, t, op);
    op := AwaitLeased(h, Last(t));
    ThenIsHistory(h, t, op);
    t := Then(h, t, op);
    t := ConsumeFrom(h, h.action(BINDING).value, t, 2);
  }

  /** A cancelled run can be announced by "run failed" alone: create it and move it to cancelled unleased. */
  lemma {:induction false} CancelledWithoutConfirmation(h: Hashes) returns (t: Trace)
    ensures t.IsHistory(h) && ID in Last(t).runs && Last(t).runs[ID].status.Cancelled? && ID in Last(t).audits
    ensures |Last(t).audits[ID]| == 2 && Last(t).audits[ID][1].body.kind.RunFailed?
    ensures forall e <- Last(t).audits[ID] :: !e.body.kind.CancelConfirmed?
  {
    hide Next;
    t := Begin(h);
    var op := MoveUnleased(h, Last(t), Queued, 0, RunStatus.Cancelled);
    ThenIsHistory(h, t, op);
    t := Then(h, t, op);
  }

  /** A "cancel confirmed" event can stand in the chain of a run nobody cancelled. */
  lemma {:induction false} ConfirmationWithoutCancel(h: Hashes) returns (t: Trace)
    ensures t.IsHistory(h) && ID in Last(t).runs && Last(t).runs[ID].status.Queued? && ID in Last(t).audits
    ensures |Last(t).audits[ID]| == 2 && Last(t).audits[ID][1].body.kind.CancelConfirmed?
  {
    hide Next;
    t := Begin(h);
    var op := Append(h, Last(t), Queued, 0, CancelConfirmed);
    ThenIsHistory(h, t, op);
    t := Then(h, t, op);
  }

  /** A claimed action of an unleased run can be left with a bare execution event, which no receipt survives. */
  lemma {:induction false} SpoiledReceiptIsReachable(h: Hashes) returns (t: Trace)
    requires h.action(BINDING).Some?
    ensures t.IsHistory(h) && ClaimCovers(Last(t).claims, Receipt(h.action(BINDING).value))
    ensures ID in Last(t).audits && HasBareExecution(Last(t).audits[ID])
  {
    hide Next;
    t := Begin(h);
    var op := MoveUnleased(h, Last(t), Queued, 0, Planning);
    ThenIsHistory(h, t, op);
    t := Then(h, t, op);
    op := MoveUnleased(h, Last(t), Planning, 1, AwaitingApproval);
    ThenIsHistory(h, t, op);
    t := Then(h, t, op);
    t := ConsumeFrom(h, h.action(BINDING).value, t, 2);
    op := Append(h, Last(t), Running, 3, ActionExecuted);
    ThenIsHistory(h, t, op);
    t := Then(h, t, op);
    var chain := Last(t).audits[ID];
    assert IsBareExecution(chain[|chain| - 1]);
  }
}
