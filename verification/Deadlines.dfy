/** Time in the store: which operation, when and in whose name, gives a lease its term, an approval its status and a run
its record, for every operation in every valid state and over every history. */
module Deadlines {
  import opened Prelude
  import opened Text
  import opened TextRedaction
  import opened Records
  import opened AuditChain
  import opened StoreState
  import opened StoreInvariant
  import opened StorePreservation
  import opened History
  import opened Guarantees
  import opened RunMovement
  import opened ApprovalGuarantees
  import opened LeaseGuarantees
  import opened Contracts
  import opened LeaseContracts
  import opened ApprovalContracts
  import opened Chronicle

  // ---------------------------------------------------------------- leases

  /** The operation gives the run's lease a new term: it claims the run or beats for it. */
  ghost predicate StartsTerm(h: Hashes, s: State, op: Op, id: RunId) {
    Succeeds(h, s, op) && ((op.Claim? && IsNextInQueue(s, id)) || (op.Heartbeat? && op.lease.run.id == id))
  }

  lemma {:induction false} ClaimTerm(h: Hashes, s: State, op: Op, id: RunId)
    requires Inv(h, s) && op.Claim? && StartsTerm(h, s, op, id)
    ensures var s' := Next(h, s, op);
            && id !in s.leases && id in s'.leases && s'.leases[id].expiresAt == op.now + op.ttl
            && s'.leases[id].owner == op.owner && s'.leases[id].token == op.token && s'.leases[id].acquiredAt == op.now
  {
    hide Inv, Dated, Adds, CreateRun, TransitionRun, AppendAudit, ReconcileExecution, RecordArtifacts, ClaimNextRun,
      HeartbeatLease, TransitionLeasedRun, CompleteLeasedRun, AppendLeasedAudit, RecordLeasedArtifacts,
      LeaseCancelRequested, ConfirmCancel, RequestCancel, RecoverExpiredLeases, CreateApproval, DecideApproval,
      ExpireApproval, ConsumeApproval;
    ClaimIsExact(h, s, op.owner, op.now, op.ttl, op.token, op.event);
  }

  /** A claim and a heartbeat give the lease the term they ask for, from the moment they are made; the heartbeat comes
      before the old term ends and changes neither holder nor start. */
  lemma {:induction false} TermIsAsAskedFor(h: Hashes, s: State, op: Op, id: RunId)
    requires Inv(h, s) && StartsTerm(h, s, op, id)
    ensures var s' := Next(h, s, op);
            && id in s'.leases && s'.leases[id].expiresAt == op.now + op.ttl
            && (id in s.leases <==> op.Heartbeat?)
            && (op.Heartbeat? ==> && op.now < s.leases[id].expiresAt
                                  && s'.leases[id].owner == s.leases[id].owner == op.lease.owner
                                  && s'.leases[id].token == s.leases[id].token == op.lease.token
                                  && s'.leases[id].acquiredAt == s.leases[id].acquiredAt)
  {
    hide Inv, CreateRun, TransitionRun, AppendAudit, ReconcileExecution, RecordArtifacts, ClaimNextRun, HeartbeatLease,
      TransitionLeasedRun, CompleteLeasedRun, AppendLeasedAudit, RecordLeasedArtifacts, LeaseCancelRequested,
      ConfirmCancel, RequestCancel, RecoverExpiredLeases, CreateApproval, DecideApproval, ExpireApproval,
      ConsumeApproval;
    if op.Claim? {
      ClaimTerm(h, s, op, id);
    } else {
      HeartbeatIsExact(h, s, op.lease, op.now, op.ttl);
    }
  }

  lemma {:induction false} RefusedBeat(h: Hashes, s: State, op: Op)
    requires op.Heartbeat? && !Succeeds(h, s, op)
    ensures Next(h, s, op) == s
  {
    hide CreateRun, TransitionRun, AppendAudit, ReconcileExecution, RecordArtifacts, ClaimNextRun, HeartbeatLease,
      TransitionLeasedRun, CompleteLeasedRun, AppendLeasedAudit, RecordLeasedArtifacts, LeaseCancelRequested,
      ConfirmCancel, RequestCancel, RecoverExpiredLeases, CreateApproval, DecideApproval, ExpireApproval,
      ConsumeApproval;
  }

  /** No other operation moves the end of a term. */
  lemma {:induction false} TermStands(h: Hashes, s: State, op: Op, id: RunId)
    requires Inv(h, s) && id in s.leases && id in Next(h, s, op).leases && !StartsTerm(h, s, op, id)
    ensures Next(h, s, op).leases[id].expiresAt == s.leases[id].expiresAt
  {
    hide Inv, Next, Succeeds, IsNextInQueue;
    EveryLeaseHasItsFate(h, s, op, id);
    if op.Heartbeat? && op.lease.run.id == id { RefusedBeat(h, s, op); }
  }

  lemma {:induction false} TermSince(h: Hashes, t: Trace, b: nat, k: nat, id: RunId)
    requires t.IsHistory(h) && b < k < |t.states| && StartsTerm(h, t.states[b], t.ops[b], id)
    requires forall m | b < m < k :: !StartsTerm(h, t.states[m], t.ops[m], id)
    requires id in t.states[k].leases
    ensures t.states[k].leases[id].expiresAt == t.ops[b].now + t.ops[b].ttl
  {
    hide Inv, Next, StartsTerm;
    EveryHistoryIsValid(h, t, k - 1);
    assert t.StepAt(h, k - 1);
    if k == b + 1 {
      TermIsAsAskedFor(h, t.states[b], t.ops[b], id);
    } else {
      EveryHistoryIsValid(h, t, b);
      assert t.StepAt(h, b);
      TermIsAsAskedFor(h, t.states[b], t.ops[b], id);
      WasLeasedBefore(h, t, b + 1, k - 1, id);
      TermSince(h, t, b, k - 1, id);
      TermStands(h, t.states[k - 1], t.ops[k - 1], id);
    }
  }

  /** The last start of a term before `k`. */
  lemma {:induction false} LastStart(h: Hashes, t: Trace, i: nat, k: nat, id: RunId) returns (b: nat)
    requires t.IsHistory(h) && i < k < |t.states| && StartsTerm(h, t.states[i], t.ops[i], id)
    ensures i <= b < k && StartsTerm(h, t.states[b], t.ops[b], id)
    ensures forall m | b < m < k :: !StartsTerm(h, t.states[m], t.ops[m], id)
  {
    hide StartsTerm;
    b := k - 1;
    while !StartsTerm(h, t.states[b], t.ops[b], id)
      invariant i <= b < k
      invariant forall m | b < m < k :: !StartsTerm(h, t.states[m], t.ops[m], id)
      decreases b
    {
      b := b - 1;
    }
  }

  /** A beat at `c` comes within the term that step `b` started. */
  ghost predicate BeatsInTime(h: Hashes, t: Trace, b: nat, c: nat, id: RunId)
    requires b < |t.ops| && c < |t.ops| <= |t.states| && StartsTerm(h, t.states[b], t.ops[b], id)
  {
    && b < c && t.ops[c].Heartbeat? && StartsTerm(h, t.states[c], t.ops[c], id)
    && t.ops[c].now < t.ops[b].now + t.ops[b].ttl
  }

  /** Alive: a holder that beats in every term before it ends, from the claim or any beat at step `i` to the beat at
      step `j`, is never recovered in between: no recovery lists its run, and the lease and the run are left alone. */
  lemma {:induction false} NeverRecoveredWhileBeating(h: Hashes, t: Trace, i: nat, j: nat, k: nat, id: RunId)
    requires t.IsHistory(h) && ClockRunsForward(t) && i < k < j < |t.ops| && StartsTerm(h, t.states[i], t.ops[i], id)
    requires forall b | i <= b < j && StartsTerm(h, t.states[b], t.ops[b], id) ::
               exists c: nat :: c <= j && BeatsInTime(h, t, b, c, id)
    requires t.ops[k].Recover?
    ensures var s, op := t.states[k], t.ops[k];
            && id in s.leases && op.now < s.leases[id].expiresAt && !IsExpired(s, op.now, id)
            && id !in ExpiredLeases(s, op.now)
            && var r := RecoverExpiredLeases(h, s, op.actor, op.now, op.events).1; r.Ok? ==> id !in r.value
    ensures && id in t.states[k].leases && id in t.states[k + 1].leases
            && t.states[k + 1].leases[id] == t.states[k].leases[id]
            && id in t.states[k].runs && id in t.states[k + 1].runs
            && t.states[k + 1].runs[id] == t.states[k].runs[id]
  {
    hide Inv, Next, StartsTerm, RecoverExpiredLeases, ExpiredLeases, Trace.StepAt, ClockRunsForward;
    var b := LastStart(h, t, i, k, id);
    var c: nat :| c <= j && BeatsInTime(h, t, b, c, id);
    AliveBetween(h, t, b, k, c, id);
    RecoverySpares(h, t, k, id);
    ExpiredAreListed(t.states[k], t.ops[k].now, id);
  }

  lemma {:induction false} AliveBetween(h: Hashes, t: Trace, b: nat, k: nat, c: nat, id: RunId)
    requires t.IsHistory(h) && ClockRunsForward(t) && b < k < |t.ops| && c < |t.ops| && t.ops[k].Recover?
    requires StartsTerm(h, t.states[b], t.ops[b], id) && BeatsInTime(h, t, b, c, id)
    requires forall m | b < m < k :: !StartsTerm(h, t.states[m], t.ops[m], id)
    ensures id in t.states[k].leases && t.ops[k].now < t.states[k].leases[id].expiresAt
  {
    hide Inv, Next, StartsTerm;
    assert k < c;
    StillLeased(h, t, b, k, c, id);
    TermSince(h, t, b, k, id);
    assert ClockOf(t.ops[k]) <= ClockOf(t.ops[c]);
  }

  lemma {:induction false} StillLeased(h: Hashes, t: Trace, b: nat, k: nat, c: nat, id: RunId)
    requires t.IsHistory(h) && b < k < c < |t.ops| && StartsTerm(h, t.states[b], t.ops[b], id)
    requires t.ops[c].Heartbeat? && StartsTerm(h, t.states[c], t.ops[c], id)
    ensures id in t.states[k].leases
  {
    hide Inv, Next, StartsTerm;
    EveryHistoryIsValid(h, t, b);
    assert t.StepAt(h, b);
    TermIsAsAskedFor(h, t.states[b], t.ops[b], id);
    EveryHistoryIsValid(h, t, c);
    TermIsAsAskedFor(h, t.states[c], t.ops[c], id);
    LeasedHasLeftQueue(h, t, b + 1, id);
    RecordedIsForever(h, t, b + 1, k, id);
    NeverLeasedAnew(h, t, k, c, id);
  }

  lemma {:induction false} RecoverySpares(h: Hashes, t: Trace, k: nat, id: RunId)
    requires t.IsHistory(h) && k < |t.ops| && t.ops[k].Recover?
    requires id in t.states[k].leases && t.ops[k].now < t.states[k].leases[id].expiresAt
    ensures var s, op, s' := t.states[k], t.ops[k], t.states[k + 1];
            && id !in ExpiredLeases(s, op.now)
            && (var r := RecoverExpiredLeases(h, s, op.actor, op.now, op.events).1; r.Ok? ==> id !in r.value)
            && id in s'.leases && s'.leases[id] == s.leases[id] && id in s.runs && id in s'.runs
            && s'.runs[id] == s.runs[id]
  {
    hide Inv, ExpiredLeases, RecoverExpiredLeases, CreateRun, TransitionRun, AppendAudit, ReconcileExecution,
      RecordArtifacts, ClaimNextRun, HeartbeatLease, TransitionLeasedRun, CompleteLeasedRun, AppendLeasedAudit,
      RecordLeasedArtifacts, LeaseCancelRequested, ConfirmCancel, RequestCancel, CreateApproval, DecideApproval,
      ExpireApproval, ConsumeApproval;
    var s, op := t.states[k], t.ops[k];
    EveryHistoryIsValid(h, t, k);
    assert t.StepAt(h, k);
    LeaseAndRun(h, s, id);
    ExpiredAreListed(s, op.now, id);
    var n := RecoveryIsExact(h, s, op.actor, op.now, op.events);
    assert forall x | x in ExpiredLeases(s, op.now)[..n] :: x in ExpiredLeases(s, op.now);
  }

  // ---------------------------------------------------------------- approvals

  /** The request is taken up. */
  ghost predicate Opens(s: State, op: Op, a: ApprovalId) {
    && op.RequestApproval? && op.request.id == a && a !in s.approvals
    && op.request.status.Pending? && op.request.revision == 0 && op.request.requestedBy == op.actor
    && op.request.createdAt == op.now && Utf8Length(op.request.requestReason) <= 2048
    && Cleaned(op.request).IsValid() && !HasApproval(s.approvals, op.request.actionId)
    && op.request.runId in s.runs && s.runs[op.request.runId].status.AwaitingApproval?
    && Takes(s, op.request.runId, op.now, 1)
  }

  /** A pending request is decided, at its revision and between its creation and its expiry. */
  ghost predicate Decides(s: State, op: Op, a: ApprovalId) {
    && op.Decide? && op.approval == a && a in s.approvals && s.approvals[a].status.Pending?
    && s.approvals[a].revision == op.expected && s.approvals[a].createdAt <= op.now < s.approvals[a].expiresAt
    && (op.reason.Some? ==> Utf8Length(op.reason.value) <= 2048) && Takes(s, s.approvals[a].runId, op.now, 1)
  }

  /** It is granted while its run still waits for it. */
  ghost predicate Approves(s: State, op: Op, a: ApprovalId) {
    Decides(s, op, a) && op.decision.Approve? && WindowOpen(s, s.approvals[a])
  }

  ghost predicate Denies(s: State, op: Op, a: ApprovalId) {
    Decides(s, op, a) && op.decision.Deny?
  }

  /** An open approval expires, at its revision, when its time has come. */
  ghost predicate Expires(s: State, op: Op, a: ApprovalId) {
    && op.Expire? && op.approval == a && a in s.approvals
    && (s.approvals[a].status.Pending? || s.approvals[a].status.Approved?) && s.approvals[a].revision == op.expected
    && s.approvals[a].expiresAt <= op.now && Takes(s, s.approvals[a].runId, op.now, 1)
  }

  /** A granted approval is consumed for its action, after its decision, before its expiry and while its run waits. */
  ghost predicate Uses(h: Hashes, s: State, op: Op, a: ApprovalId) {
    && op.Consume? && op.approval == a && Consumable(s, a, op.expected, op.now)
    && BindingMatches(h, s.approvals[a], op.action)
    && s.approvals[a].decision.Some? && s.approvals[a].decision.value.decidedAt <= op.now
    && Takes(s, s.approvals[a].runId, op.now, 2)
  }

  /** The record of an approval after an operation. */
  ghost function ApprovalAfter(h: Hashes, s: State, op: Op, a: ApprovalId): Option<ApprovalRequest> {
    if Opens(s, op, a) then Some(Cleaned(op.request))
    else if a !in s.approvals then None
    else if Approves(s, op, a) || Denies(s, op, a)
      then Some(Decided(s.approvals[a], op.decision, op.actor, op.reason, op.now))
    else if Expires(s, op, a)
      then Some(s.approvals[a].(status := Expired, revision := if s.approvals[a].status.Pending? then 1 else 2))
    else if Uses(h, s, op, a) then Some(Spent(s.approvals[a], op.now))
    else Some(s.approvals[a])
  }

  ghost function ApprovalIn(s: State, a: ApprovalId): Option<ApprovalRequest> {
    if a in s.approvals then Some(s.approvals[a]) else None
  }

  lemma {:induction false} RequestStep(h: Hashes, s: State, op: Op, a: ApprovalId)
    requires Inv(h, s) && op.RequestApproval?
    ensures ApprovalIn(Next(h, s, op), a) == ApprovalAfter(h, s, op, a)
  {
    hide Inv, Adds, RedactText, HasApproval, ApprovalRequest.IsValid, Utf8Length, CreateRun, TransitionRun,
      AppendAudit, ReconcileExecution, RecordArtifacts, ClaimNextRun, HeartbeatLease, TransitionLeasedRun,
      CompleteLeasedRun, AppendLeasedAudit, RecordLeasedArtifacts, LeaseCancelRequested, ConfirmCancel, RequestCancel,
      RecoverExpiredLeases, CreateApproval, DecideApproval, ExpireApproval, ConsumeApproval;
    RequestIsExact(h, s, op.request, op.actor, op.now, op.event);
  }

  lemma {:induction false} DecisionStep(h: Hashes, s: State, op: Op, a: ApprovalId)
    requires Inv(h, s) && op.Decide?
    ensures ApprovalIn(Next(h, s, op), a) == ApprovalAfter(h, s, op, a)
  {
    hide Inv, Adds, WindowOpen, Takes, Utf8Length, RedactText, CreateRun, TransitionRun, AppendAudit,
      ReconcileExecution, RecordArtifacts, ClaimNextRun, HeartbeatLease, TransitionLeasedRun, CompleteLeasedRun,
      AppendLeasedAudit, RecordLeasedArtifacts, LeaseCancelRequested, ConfirmCancel, RequestCancel,
      RecoverExpiredLeases, CreateApproval, DecideApproval, ExpireApproval, ConsumeApproval;
    DecisionIsExact(h, s, op.approval, op.expected, op.decision, op.actor, op.reason, op.now, op.event);
    if op.approval in s.approvals { ApprovalAndRun(h, s, op.approval); }
  }

  lemma {:induction false} ExpiryStep(h: Hashes, s: State, op: Op, a: ApprovalId)
    requires Inv(h, s) && op.Expire?
    ensures ApprovalIn(Next(h, s, op), a) == ApprovalAfter(h, s, op, a)
  {
    hide Inv, Adds, Takes, CreateRun, TransitionRun, AppendAudit, ReconcileExecution, RecordArtifacts, ClaimNextRun,
      HeartbeatLease, TransitionLeasedRun, CompleteLeasedRun, AppendLeasedAudit, RecordLeasedArtifacts,
      LeaseCancelRequested, ConfirmCancel, RequestCancel, RecoverExpiredLeases, CreateApproval, DecideApproval,
      ExpireApproval, ConsumeApproval;
    ExpiryIsExact(h, s, op.approval, op.expected, op.actor, op.now, op.event);
    if op.approval in s.approvals { ApprovalAndRun(h, s, op.approval); }
  }

  lemma {:induction false} ConsumedRecord(s: State, s': State, a: ApprovalId, actor: ActorId, now: Time)
    requires Consumes(s, s', a, actor, now)
    ensures s'.approvals == s.approvals[a := Spent(s.approvals[a], now)]
  {
    hide Adds, Dated;
  }

  lemma {:induction false} ConsumptionStep(h: Hashes, s: State, op: Op, a: ApprovalId)
    requires Inv(h, s) && op.Consume?
    ensures ApprovalIn(Next(h, s, op), a) == ApprovalAfter(h, s, op, a)
  {
    hide Inv, Adds, Takes, WindowOpen, BindingMatches, Consumes, CreateRun, TransitionRun, AppendAudit,
      ReconcileExecution, RecordArtifacts, ClaimNextRun, HeartbeatLease, TransitionLeasedRun, CompleteLeasedRun,
      AppendLeasedAudit, RecordLeasedArtifacts, LeaseCancelRequested, ConfirmCancel, RequestCancel,
      RecoverExpiredLeases, CreateApproval, DecideApproval, ExpireApproval, ConsumeApproval;
    ConsumptionIsExact(h, s, op.approval, op.expected, op.action, op.actor, op.now, op.events);
    if Succeeds(h, s, op) {
      ConsumedRecord(s, Next(h, s, op), op.approval, op.actor, op.now);
    } else {
      MismatchIsExact(h, s, op.approval, op.expected, op.action, op.actor, op.now, op.events);
    }
  }

  /** Every operation in every valid state leaves every approval as the conditions above say: it appears, is granted,
      is denied, expires and is consumed exactly then, and is as it was otherwise. */
  lemma {:induction false} EveryApprovalChangeIsEarned(h: Hashes, s: State, op: Op, a: ApprovalId)
    requires Inv(h, s)
    ensures ApprovalIn(Next(h, s, op), a) == ApprovalAfter(h, s, op, a)
  {
    hide Inv, Next, WindowOpen, Takes, BindingMatches, Cleaned, Decided, Spent;
    if op.RequestApproval? { RequestStep(h, s, op, a); }
    else if op.Decide? { DecisionStep(h, s, op, a); }
    else if op.Expire? { ExpiryStep(h, s, op, a); }
    else if op.Consume? { ConsumptionStep(h, s, op, a); }
    else if op.Recover? { RecoveryKeepsApprovals(h, s, op); }
    else if op.Claim? || op.MoveLeased? || op.CompleteLeased? || op.Confirm? || op.Cancel? {
      TransitionsKeepApprovals(h, s, op);
    }
    else { OthersKeepApprovals(h, s, op); }
  }

  /** An approval that was there comes to a status by the step that earns it, and by no other. */
  lemma {:induction false} EveryStatusIsEarned(h: Hashes, s: State, op: Op, a: ApprovalId)
    requires Inv(h, s) && a in s.approvals
    ensures a in Next(h, s, op).approvals
    ensures var (before, after) := (s.approvals[a].status, Next(h, s, op).approvals[a].status);
            && (!before.Approved? && after.Approved? <==> Approves(s, op, a))
            && (!before.Denied? && after.Denied? <==> Denies(s, op, a))
            && (!before.Expired? && after.Expired? <==> Expires(s, op, a))
            && (!before.Consumed? && after.Consumed? <==> Uses(h, s, op, a))
            && (!before.Pending? ==> !after.Pending?)
  {
    hide Inv, Next, WindowOpen, Takes, BindingMatches;
    EveryApprovalChangeIsEarned(h, s, op, a);
  }

  /** The step that gave an approval its present status. */
  ghost predicate Earns(h: Hashes, s: State, op: Op, a: ApprovalId, status: ApprovalStatus) {
    match status
    case Pending => Opens(s, op, a)
    case Approved => Approves(s, op, a)
    case Denied => Denies(s, op, a)
    case Expired => Expires(s, op, a)
    case Consumed => Uses(h, s, op, a)
  }

  /** In every state of every history every approval was brought to its status by a step that earned it, and is as that
      step left it. */
  lemma {:induction false} EveryApprovalHasItsStep(h: Hashes, t: Trace, i: nat, a: ApprovalId) returns (j: nat)
    requires t.IsHistory(h) && i < |t.states| && a in t.states[i].approvals
    ensures j < i && Earns(h, t.states[j], t.ops[j], a, t.states[i].approvals[a].status)
    ensures a in t.states[j + 1].approvals && t.states[j + 1].approvals[a] == t.states[i].approvals[a]
  {
    hide Inv, Next, Opens, Decides, Expires, Uses, WindowOpen;
    EveryHistoryIsValid(h, t, i - 1);
    assert t.StepAt(h, i - 1);
    var s, op := t.states[i - 1], t.ops[i - 1];
    EveryApprovalChangeIsEarned(h, s, op, a);
    OpensPending(s, op, a);
    j := i - 1;
    if ApprovalIn(s, a) == ApprovalIn(t.states[i], a) { j := EveryApprovalHasItsStep(h, t, i - 1, a); }
  }

  lemma {:induction false} OpensPending(s: State, op: Op, a: ApprovalId)
    ensures Opens(s, op, a) ==> a !in s.approvals && op.RequestApproval? && op.request.status.Pending?
  {
  }

  // ---------------------------------------------------------------- runs

  /** The reason an operation gives for ending a run. */
  function ReasonGiven(op: Op): Option<string> {
    match op
    case MoveRun(_, _, _, reason, _, _) => reason
    case CompleteLeased(_, _, _, reason, _, _) => reason
    case _ => None
  }

  /** The run is as it was, or moved along an allowed transition and dated by the operation's clock and reason. */
  ghost predicate IsDated(s: State, op: Op, id: RunId, s': State) {
    && id in s.runs && id in s'.runs
    && (|| s'.runs[id] == s.runs[id]
        || (&& s.runs[id].revision < U64_MAX && s.runs[id].status.CanTransitionTo(s'.runs[id].status)
            && s'.runs[id] == Dated(s.runs[id], s'.runs[id].status, ClockOf(op), ReasonGiven(op))))
  }

  lemma {:induction false} DatedStatus(run: Run, status: RunStatus, now: Time, reason: Option<string>)
    requires run.revision < U64_MAX
    ensures Dated(run, status, now, reason).status == status
  {
  }

  /** One run, and no other, was dated. */
  lemma {:induction false} OneIsDated(s: State, op: Op, id: RunId, s': State, x: RunId, status: RunStatus)
    requires id in s.runs && x in s.runs && s.runs[x].revision < U64_MAX && s.runs[x].status.CanTransitionTo(status)
    requires s'.runs == s.runs[x := Dated(s.runs[x], status, ClockOf(op), ReasonGiven(op))]
    ensures IsDated(s, op, id, s')
  {
    hide Dated;
    DatedStatus(s.runs[x], status, ClockOf(op), ReasonGiven(op));
  }

  lemma {:induction false} QueueDates(h: Hashes, s: State, op: Op, id: RunId)
    requires Inv(h, s) && id in s.runs && Succeeds(h, s, op) && (op.MoveRun? || op.Claim? || op.Cancel?)
    ensures IsDated(s, op, id, Next(h, s, op))
  {
    hide Inv, Dated, Adds, Takes, IsNextInQueue, IsDated, CreateRun, TransitionRun, AppendAudit, ReconcileExecution,
      RecordArtifacts, ClaimNextRun, HeartbeatLease, TransitionLeasedRun, CompleteLeasedRun, AppendLeasedAudit,
      RecordLeasedArtifacts, LeaseCancelRequested, ConfirmCancel, RequestCancel, RecoverExpiredLeases, CreateApproval,
      DecideApproval, ExpireApproval, ConsumeApproval;
    match op
    case MoveRun(x, expected, next, reason, audit, event) =>
      MoveIsExact(h, s, x, expected, next, reason, audit, event);
      OneIsDated(s, op, id, Next(h, s, op), x, next);
    case Claim(owner, now, ttl, token, event) =>
      ClaimIsExact(h, s, owner, now, ttl, token, event);
      var r := ClaimNextRun(h, s, owner, now, ttl, token, event).value;
      if r.1.Some? {
        NextIsClaimable(s, r.1.value.run.id);
        OneIsDated(s, op, id, Next(h, s, op), r.1.value.run.id, Planning);
      } else {
        NotDated(s, op, id, s);
      }
    case Cancel(x, actor, now, event) =>
      CancelIsExact(h, s, x, actor, now, event);
      if RequestCancel(h, s, x, actor, now, event).value.1.CancelledNow? {
        OneIsDated(s, op, id, Next(h, s, op), x, RunStatus.Cancelled);
      } else {
        NotDated(s, op, id, Next(h, s, op));
      }
  }

  lemma {:induction false} NotDated(s: State, op: Op, id: RunId, s': State)
    requires id in s.runs && id in s'.runs && s'.runs[id] == s.runs[id]
    ensures IsDated(s, op, id, s')
  {
  }

  lemma {:induction false} HolderDates(h: Hashes, s: State, op: Op, id: RunId)
    requires Inv(h, s) && id in s.runs && Succeeds(h, s, op) && (op.MoveLeased? || op.CompleteLeased? || op.Confirm?)
    ensures IsDated(s, op, id, Next(h, s, op))
  {
    hide Inv, Dated, Adds, Takes, IsDated, CreateRun, TransitionRun, AppendAudit, ReconcileExecution, RecordArtifacts,
      ClaimNextRun, HeartbeatLease, TransitionLeasedRun, CompleteLeasedRun, AppendLeasedAudit, RecordLeasedArtifacts,
      LeaseCancelRequested, ConfirmCancel, RequestCancel, RecoverExpiredLeases, CreateApproval, DecideApproval,
      ExpireApproval, ConsumeApproval, VerifyCancellation;
    match op
    case MoveLeased(lease, expected, next, now, event) =>
      LeasedMoveIsExact(h, s, lease, expected, next, now, event);
      OneIsDated(s, op, id, Next(h, s, op), lease.run.id, next);
    case CompleteLeased(lease, expected, next, reason, now, event) =>
      CompletionIsExact(h, s, lease, expected, next, reason, now, event);
      OneIsDated(s, op, id, Next(h, s, op), lease.run.id, next);
    case Confirm(lease, now, observed, result, event) =>
      ConfirmIsExact(h, s, lease, now, VerifyCancellation(observed, result).value, event);
      LeaseAndRun(h, s, lease.run.id);
      OneIsDated(s, op, id, Next(h, s, op), lease.run.id, RunStatus.Cancelled);
  }

  lemma {:induction false} ConsumptionDates(h: Hashes, s: State, op: Op, id: RunId)
    requires Inv(h, s) && id in s.runs && op.Consume?
    ensures IsDated(s, op, id, Next(h, s, op))
  {
    hide Inv, Dated, Adds, Takes, BindingMatches, IsDated, CreateRun, TransitionRun, AppendAudit,
      ReconcileExecution, RecordArtifacts, ClaimNextRun, HeartbeatLease, TransitionLeasedRun, CompleteLeasedRun,
      AppendLeasedAudit, RecordLeasedArtifacts, LeaseCancelRequested, ConfirmCancel, RequestCancel,
      RecoverExpiredLeases, CreateApproval, DecideApproval, ExpireApproval, ConsumeApproval;
    var s' := Next(h, s, op);
    if Succeeds(h, s, op) {
      ConsumptionIsExact(h, s, op.approval, op.expected, op.action, op.actor, op.now, op.events);
      OneIsDated(s, op, id, s', s.approvals[op.approval].runId, Running);
    } else {
      MismatchIsExact(h, s, op.approval, op.expected, op.action, op.actor, op.now, op.events);
      NotDated(s, op, id, s');
    }
  }

  lemma {:induction false} RecoveredIsDated(s: State, op: Op, id: RunId, s': State, done: set<RunId>)
    requires op.Recover? && RecoversAll(s, s', done, op.actor, op.now) && id in s.runs && id in s.audits
    requires id in done ==> s.runs[id].status.CanTransitionTo(RunStatus.Failed)
    ensures IsDated(s, op, id, s')
  {
    hide Dated, GoesOn;
    if id in done { DatedStatus(s.runs[id], RunStatus.Failed, op.now, None); }
  }

  lemma {:induction false} RecoveryDates(h: Hashes, s: State, op: Op, id: RunId)
    requires Inv(h, s) && id in s.runs && op.Recover?
    ensures IsDated(s, op, id, Next(h, s, op))
  {
    hide Inv, RecoverFrom, ExpiredLeases, RecoversAll, IsDated, CreateRun, TransitionRun, AppendAudit,
      ReconcileExecution, RecordArtifacts, ClaimNextRun, HeartbeatLease, TransitionLeasedRun, CompleteLeasedRun,
      AppendLeasedAudit, RecordLeasedArtifacts, LeaseCancelRequested, ConfirmCancel, RequestCancel, CreateApproval,
      DecideApproval, ExpireApproval, ConsumeApproval;
    RunAndChain(h, s, id);
    ExpiredInOrder(s, op.now);
    var expired := ExpiredLeases(s, op.now);
    var n := RecoveryLoopIsExact(h, s, expired, 0, op.actor, op.now, op.events);
    if id in expired[0..n] {
      ExpiredAreListed(s, op.now, id);
      LeaseAndRun(h, s, id);
    }
    RecoveredIsDated(s, op, id, Next(h, s, op), Elements(expired[0..n]));
  }

  lemma {:induction false} FailureLeavesRuns(h: Hashes, s: State, op: Op)
    requires !Succeeds(h, s, op) && !op.Recover? && !op.Consume?
    ensures Next(h, s, op) == s
  {
    hide VerifyCancellation, CreateRun, TransitionRun, AppendAudit, ReconcileExecution, RecordArtifacts, ClaimNextRun,
      HeartbeatLease, TransitionLeasedRun, CompleteLeasedRun, AppendLeasedAudit, RecordLeasedArtifacts,
      LeaseCancelRequested, ConfirmCancel, RequestCancel, RecoverExpiredLeases, CreateApproval, DecideApproval,
      ExpireApproval, ConsumeApproval;
  }

  /** Whatever operation moves a run, in every valid state, moves it along an allowed transition and dates it by its own
      clock: one more revision, changed then,
      started when it first runs, completed when it ends, with the operation's reason in redacted form, or none given,
      exactly when it ends without success. Nothing else of the record ever changes. */
  lemma {:induction false} EveryRunIsDated(h: Hashes, s: State, op: Op, id: RunId)
    requires Inv(h, s) && id in s.runs
    ensures IsDated(s, op, id, Next(h, s, op))
  {
    hide Inv, Next, Succeeds, IsDated;
    if op.Consume? { ConsumptionDates(h, s, op, id); }
    else if op.Recover? { RecoveryDates(h, s, op, id); }
    else if !Succeeds(h, s, op) { FailureLeavesRuns(h, s, op); NotDated(s, op, id, s); }
    else if op.MoveRun? || op.Claim? || op.Cancel? { QueueDates(h, s, op, id); }
    else if op.MoveLeased? || op.CompleteLeased? || op.Confirm? { HolderDates(h, s, op, id); }
    else if op.RequestApproval? || op.Decide? || op.Expire? {
      ApprovalsKeepRuns(h, s, op);
      NotDated(s, op, id, Next(h, s, op));
    }
    else if op.NewRun? {
      NewRunKeepsOthers(h, s, op, id);
      NotDated(s, op, id, Next(h, s, op));
    }
    else {
      LogsKeepRuns(h, s, op);
      NotDated(s, op, id, Next(h, s, op));
    }
  }

  /** A run that waits for approval, runs or has succeeded was planned before. */
  lemma {:induction false} WasPlanned(h: Hashes, t: Trace, i: nat, id: RunId) returns (j: nat)
    requires t.IsHistory(h) && i < |t.states| && id in t.states[i].runs
    requires t.states[i].runs[id].status in {Planning, RunStatus.AwaitingApproval, Running, Succeeded}
    ensures j <= i && id in t.states[j].runs && t.states[j].runs[id].status.Planning?
  {
    hide Inv, Next;
    if t.states[i].runs[id].status.Planning? {
      j := i;
    } else {
      MovedOn(h, t, i, id);
      j := WasPlanned(h, t, i - 1, id);
    }
  }

  /** Where a run that waits, runs or has succeeded was one step before. */
  lemma {:induction false} MovedOn(h: Hashes, t: Trace, i: nat, id: RunId)
    requires t.IsHistory(h) && i < |t.states| && id in t.states[i].runs
    requires t.states[i].runs[id].status in {RunStatus.AwaitingApproval, Running, Succeeded}
    ensures i > 0 && id in t.states[i - 1].runs
    ensures var (before, after) := (t.states[i - 1].runs[id].status, t.states[i].runs[id].status);
            before == after || (before in {Planning, RunStatus.AwaitingApproval, Running}
                                && (after.Succeeded? ==> before.Running?))
  {
    hide Inv, Next, Dated;
    EveryHistoryIsValid(h, t, i - 1);
    assert t.StepAt(h, i - 1);
    if id in t.states[i - 1].runs {
      EveryRunIsDated(h, t.states[i - 1], t.ops[i - 1], id);
    } else {
      AppearsQueued(h, t.states[i - 1], t.ops[i - 1], id);
    }
  }

  lemma {:induction false} AppearsQueued(h: Hashes, s: State, op: Op, id: RunId)
    requires Inv(h, s) && id !in s.runs && id in Next(h, s, op).runs
    ensures Next(h, s, op).runs[id].status.Queued?
  {
    ValidIsStoredById(h, s);
    hide Inv, Next;
    if op.Recover? { RecoveryAddsNoRun(h, s, op, id); } else { NewRunsAreQueued(h, s, op, id); }
  }

  /** In every history a succeeded run was planned first and ran after that, before it succeeded. */
  lemma {:induction false} SucceededAfterRunning(h: Hashes, t: Trace, i: nat, id: RunId) returns (j: nat, k: nat)
    requires t.IsHistory(h) && i < |t.states| && id in t.states[i].runs && t.states[i].runs[id].status.Succeeded?
    ensures j < k < i && id in t.states[j].runs && t.states[j].runs[id].status.Planning?
    ensures id in t.states[k].runs && t.states[k].runs[id].status.Running?
  {
    hide Inv, Next;
    MovedOn(h, t, i, id);
    if t.states[i - 1].runs[id].status.Succeeded? {
      j, k := SucceededAfterRunning(h, t, i - 1, id);
    } else {
      k := i - 1;
      j := WasPlanned(h, t, k, id);
    }
  }
}
