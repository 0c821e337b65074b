/** The execution boundary: an action that has a consumed claim is executed once and recorded once. */
module ActionExecution {
  import opened Prelude
  import opened Records
  import opened AuditChain
  import opened StoreState
  import opened StoreInvariant
  import opened StorePreservation
  import opened History
  import opened ApprovalGuarantees
  import opened Contracts
  import opened ExecutionStore

  /** An action that was verified against its stored claim. */
  datatype ClaimedAction = ClaimedAction(action: ActionRequest, claim: ActionClaim)
  {
    function Receipt(): ExecutionReceipt {
      ExecutionReceipt(action.binding.runId, action.binding.id, action.parameterHash)
    }
  }

  /** `ClaimedAction::verify`, the only way to obtain a claimed action. */
  function VerifyClaim(h: Hashes, s: State, action: ActionRequest, claim: ActionClaim): Result<ClaimedAction> {
    if || !ParametersMatchHash(h, action) || action.binding.runId != claim.runId || action.binding.id != claim.actionId
       || action.parameterHash != claim.parameterHash
    then Err(ApprovalInvalid)
    else if action.binding.id !in s.claims || s.claims[action.binding.id] != claim then Err(ApprovalInvalid)
    else Ok(ClaimedAction(action, claim))
  }

  /** A verified action is exactly what one consumed approval was given for. */
  lemma {:induction false} VerifiedMeansApproved(h: Hashes, t: Trace, i: nat, action: ActionRequest,
                                                 claim: ActionClaim) returns (a: ApprovalId)
    requires t.IsHistory(h) && i < |t.states| && VerifyClaim(h, t.states[i], action, claim).Ok?
    ensures a in t.states[i].approvals && t.states[i].approvals[a].status.Consumed?
            && BindingMatches(h, t.states[i].approvals[a], action)
    ensures forall b | b in t.states[i].approvals && t.states[i].approvals[b].actionId == action.binding.id :: b == a
  {
    hide Trace.StepAt;
    a := ClaimHasOneApproval(h, t, i, action.binding.id);
    forall b | b in t.states[i].approvals && t.states[i].approvals[b].actionId == action.binding.id ensures b == a {
      OneApprovalPerAction(h, t, i, i, a, b);
    }
  }

  // ---------------------------------------------------------------- the executor

  type Receipts = map<ActionId, ExecutionReceipt>

  datatype Outcome = Performed(receipt: ExecutionReceipt) | Recovered(receipt: ExecutionReceipt)

  /** The executor's step on its receipts. */
  function Execute(receipts: Receipts, claimed: ClaimedAction): (Receipts, Result<Outcome>) {
    var action := claimed.action;
    if action.binding.id in receipts then
      var receipt := receipts[action.binding.id];
      if receipt.runId != action.binding.runId || receipt.parameterHash != action.parameterHash
      then (receipts, Err(ApprovalInvalid))
      else (receipts, Ok(Recovered(receipt)))
    else
      var receipt := ExecutionReceipt(action.binding.runId, action.binding.id, claimed.claim.parameterHash);
      (receipts[action.binding.id := receipt], Ok(Performed(receipt)))
  }

  class MockActionExecutor {
    var receipts: Receipts

    constructor ()
      ensures receipts == map[]
    {
      receipts := map[];
    }

    method Perform(claimed: ClaimedAction) returns (r: Result<Outcome>)
      modifies this
      ensures (receipts, r) == Execute(old(receipts), claimed)
    {
      var action := claimed.action;
      if action.binding.id in receipts {
        var known := receipts[action.binding.id];
        if known.runId != action.binding.runId || known.parameterHash != action.parameterHash {
          return Err(ApprovalInvalid);
        }
        return Ok(Recovered(known));
      }
      var receipt := ExecutionReceipt(action.binding.runId, action.binding.id, claimed.claim.parameterHash);
      receipts := receipts[action.binding.id := receipt];
      return Ok(Performed(receipt));
    }
  }

  /** The result of a call once its executor step has answered and its receipt has been reconciled. */
  function Settled(claimed: ClaimedAction, outcome: Result<Outcome>, recorded: Result<bool>): Result<ExecutionReceipt> {
    if outcome.Err? then Err(outcome.code)
    else if outcome.value.receipt != claimed.Receipt() then Err(ApprovalInvalid)
    else if recorded.Err? then Err(recorded.code)
    else if !recorded.value then Err(ApprovalInvalid)
    else Ok(outcome.value.receipt)
  }

  /** `execute_with_audit` with nobody in between. */
  method ExecuteWithAudit(store: InMemoryExecutionStore, executor: MockActionExecutor, claimed: ClaimedAction,
                          actor: ActorId, timestamp: Time,
                          event: EventId) returns (r: Result<ExecutionReceipt>)
    requires store.Valid()
    modifies store, executor
    ensures store.Valid()
    ensures executor.receipts == Execute(old(executor.receipts), claimed).0
    ensures var outcome := Execute(old(executor.receipts), claimed).1;
            var spec :=
              ReconcileExecution(store.h, old(store.View()), claimed.Receipt(), Envelope(actor, timestamp), event);
            && r == Settled(claimed, outcome, Value(spec))
            && (r.Ok? <==> outcome.Ok? && outcome.value.receipt == claimed.Receipt() && Value(spec) == Ok(true))
            && (r.Ok? ==> r.value == claimed.Receipt())
            && store.View() == if outcome.Ok? && outcome.value.receipt == claimed.Receipt()
                               then Commit(old(store.View()), spec) else old(store.View())
  {
    hide Inv, Evolves, StoreState.ReconcileExecution;
    var outcome :- executor.Perform(claimed);
    if outcome.receipt != claimed.Receipt() { return Err(ApprovalInvalid); }
    var recorded :- store.ReconcileExecution(outcome.receipt, Envelope(actor, timestamp), event);
    if !recorded { return Err(ApprovalInvalid); }
    return Ok(outcome.receipt);
  }

  // ---------------------------------------------------------------- all interleavings

  datatype World = World(store: State, receipts: Receipts)

  /** One atomic step: an operation by anyone on the store, the executor step of a call whose action was
      verified in an earlier state, or the reconciliation of the call that executed at step `call`. */
  datatype Step =
    | StoreStep(op: Op)
    | ExecuteStep(claimed: ClaimedAction, verified: nat)
    | SettleStep(call: nat, actor: ActorId, timestamp: Time, event: EventId)

  datatype Calls = Calls(worlds: seq<World>, steps: seq<Step>)
  {
    /** What the executor answered at step `i`. */
    function OutcomeAt(i: nat): Result<Outcome>
      requires i < |steps| && i < |worlds| && steps[i].ExecuteStep?
    {
      Execute(worlds[i].receipts, steps[i].claimed).1
    }

    /** The call at step `i` executed its exact action. */
    predicate ExecutedAt(i: nat)
      requires i < |steps| && i < |worlds|
    {
      steps[i].ExecuteStep? && OutcomeAt(i).Ok? && OutcomeAt(i).value.receipt == steps[i].claimed.Receipt()
    }

    /** The operation on the store that settles the call at step `i`. */
    function ReconciliationAt(i: nat): Op
      requires i < |steps| && steps[i].SettleStep? && steps[i].call < i && steps[steps[i].call].ExecuteStep?
    {
      Reconcile(steps[steps[i].call].claimed.Receipt(), Envelope(steps[i].actor, steps[i].timestamp), steps[i].event)
    }

    ghost predicate StepAt(h: Hashes, i: nat)
      requires i + 1 < |worlds| && i < |steps|
    {
      match steps[i]
      case StoreStep(op) => worlds[i + 1] == World(Next(h, worlds[i].store, op), worlds[i].receipts)
      case ExecuteStep(c, verified) =>
        && verified <= i && VerifyClaim(h, worlds[verified].store, c.action, c.claim).Ok?
        && worlds[i + 1] == World(worlds[i].store, Execute(worlds[i].receipts, c).0)
      case SettleStep(call, _, _, _) =>
        && call < i && ExecutedAt(call)
        && worlds[i + 1] == World(Next(h, worlds[i].store, ReconciliationAt(i)), worlds[i].receipts)
    }

    ghost predicate IsRun(h: Hashes) {
      && |worlds| == |steps| + 1 && worlds[0] == World(EMPTY, map[])
      && forall i | 0 <= i < |steps| :: StepAt(h, i)
    }

    /** The reconciliation that happens at step `i`, if any. */
    function ReceiptAt(i: nat): Option<ExecutionReceipt>
      requires i < |steps|
    {
      match steps[i]
      case StoreStep(op) => if op.Reconcile? then Some(op.receipt) else None
      case SettleStep(call, _, _, _) =>
        if call < i && steps[call].ExecuteStep? then Some(steps[call].claimed.Receipt()) else None
      case ExecuteStep(_, _) => None
    }

    function EnvelopeAt(i: nat): (Envelope, EventId)
      requires i < |steps| && ReceiptAt(i).Some?
    {
      match steps[i]
      case StoreStep(op) => (op.audit, op.event)
      case SettleStep(_, actor, timestamp, event) => (Envelope(actor, timestamp), event)
    }

    /** Step `i` recorded the execution of the action: it is the step that makes its call return `Ok`. */
    ghost predicate RecordsAt(h: Hashes, i: nat, x: ActionId)
      requires i < |steps| && i < |worlds|
    {
      && ReceiptAt(i).Some? && ReceiptAt(i).value.actionId == x
      && Value(ReconcileExecution(h, worlds[i].store, ReceiptAt(i).value, EnvelopeAt(i).0, EnvelopeAt(i).1)) == Ok(true)
    }

    ghost function Stores(): seq<State> {
      seq(|worlds|, i requires 0 <= i < |worlds| => worlds[i].store)
    }
  }

  lemma {:induction false} StoresMove(h: Hashes, c: Calls, k: nat)
    requires c.IsRun(h) && k < |c.steps|
    ensures Moves(h, c.Stores()[k], c.Stores()[k + 1])
  {
    hide Next;
    assert c.StepAt(h, k);
  }

  lemma {:induction false} StoresFollow(h: Hashes, c: Calls, i: nat, j: nat)
    requires c.IsRun(h) && i <= j < |c.worlds|
    ensures Inv(h, c.worlds[i].store) && Follows(h, c.worlds[i].store, c.worlds[j].store)
  {
    hide Inv, Follows, Moves, Calls.StepAt;
    forall k | 0 <= k < |c.Stores()| - 1 ensures Moves(h, c.Stores()[k], c.Stores()[k + 1]) { StoresMove(h, c, k); }
    SharedStoreFollows(h, c.Stores(), i, j);
  }

  // ---------------------------------------------------------------- performed at most once

  lemma {:induction false} ReceiptsGrow(h: Hashes, c: Calls, i: nat, j: nat, x: ActionId)
    requires c.IsRun(h) && i <= j < |c.worlds| && x in c.worlds[i].receipts
    ensures x in c.worlds[j].receipts && c.worlds[j].receipts[x] == c.worlds[i].receipts[x]
  {
    hide Next, VerifyClaim;
    if i < j {
      ReceiptsGrow(h, c, i, j - 1, x);
      assert c.StepAt(h, j - 1);
    }
  }

  /** An action's side effect is performed by at most one step of any run. */
  lemma {:induction false} PerformedAtMostOnce(h: Hashes, c: Calls, i: nat, j: nat)
    requires c.IsRun(h) && i < |c.steps| && j < |c.steps| && c.steps[i].ExecuteStep? && c.steps[j].ExecuteStep?
    requires c.OutcomeAt(i).Ok? && c.OutcomeAt(i).value.Performed? && c.OutcomeAt(j).Ok?
             && c.OutcomeAt(j).value.Performed?
    requires c.steps[i].claimed.action.binding.id == c.steps[j].claimed.action.binding.id
    ensures i == j
  {
    hide Next, VerifyClaim;
    var x := c.steps[i].claimed.action.binding.id;
    assert c.StepAt(h, i) && c.StepAt(h, j);
    if i < j { ReceiptsGrow(h, c, i + 1, j, x); }
    if j < i { ReceiptsGrow(h, c, j + 1, i, x); }
  }

  /** Whatever has a receipt was performed before. */
  lemma {:induction false} ReceiptMeansPerformed(h: Hashes, c: Calls, i: nat, x: ActionId) returns (p: nat)
    requires c.IsRun(h) && i < |c.worlds| && x in c.worlds[i].receipts
    ensures p < i && c.steps[p].ExecuteStep? && c.steps[p].claimed.action.binding.id == x
    ensures c.OutcomeAt(p).Ok? && c.OutcomeAt(p).value == Performed(c.worlds[i].receipts[x])
  {
    hide Next, VerifyClaim;
    assert c.StepAt(h, i - 1);
    if x in c.worlds[i - 1].receipts { p := ReceiptMeansPerformed(h, c, i - 1, x); } else { p := i - 1; }
  }

  /** Two verified actions with the same id have the same claim, because claims are never replaced. */
  lemma {:induction false} VerifiedClaimsAgree(h: Hashes, c: Calls, i: nat, j: nat)
    requires c.IsRun(h) && i < |c.steps| && j < |c.steps| && c.steps[i].ExecuteStep? && c.steps[j].ExecuteStep?
    requires c.steps[i].claimed.action.binding.id == c.steps[j].claimed.action.binding.id
    ensures c.steps[i].claimed.claim == c.steps[j].claimed.claim
            && c.steps[i].claimed.Receipt() == c.steps[j].claimed.Receipt()
  {
    hide Next, Inv;
    assert c.StepAt(h, i) && c.StepAt(h, j);
    var m, n := c.steps[i].verified, c.steps[j].verified;
    if m <= n { StoresFollow(h, c, m, n); } else { StoresFollow(h, c, n, m); }
  }

  /** The executor never refuses a verified action and always answers with its exact receipt: a retry
      after a failed audit recovers it. */
  lemma {:induction false} RetryRecovers(h: Hashes, c: Calls, i: nat)
    requires c.IsRun(h) && i < |c.steps| && c.steps[i].ExecuteStep?
    ensures c.ExecutedAt(i)
    ensures c.OutcomeAt(i).value.Recovered? <==> c.steps[i].claimed.action.binding.id in c.worlds[i].receipts
  {
    hide Next;
    assert c.StepAt(h, i);
    var x := c.steps[i].claimed.action.binding.id;
    if x in c.worlds[i].receipts {
      var p := ReceiptMeansPerformed(h, c, i, x);
      assert c.StepAt(h, p);
      VerifiedClaimsAgree(h, c, p, i);
    }
  }

  // ---------------------------------------------------------------- recorded at most once

  lemma {:induction false} RecordingIsVisible(h: Hashes, s: State, receipt: ExecutionReceipt, audit: Envelope,
                                              event: EventId)
    requires Value(ReconcileExecution(h, s, receipt, audit, event)) == Ok(true)
    ensures ClaimCovers(s.claims, receipt)
    ensures receipt.runId in s.audits && CountExecutions(s.audits[receipt.runId], receipt.actionId) == 0
    ensures var s' := Next(h, s, Reconcile(receipt, audit, event));
            receipt.runId in s'.audits && Recorded(s'.audits[receipt.runId], receipt.actionId)
  {
    UnauditedMeansNone(s.audits[receipt.runId], receipt);
    var s' := Next(h, s, Reconcile(receipt, audit, event));
    assert NamesAction(s'.audits[receipt.runId][|s.audits[receipt.runId]|], receipt.actionId);
  }

  lemma {:induction false} RecordedIsCounted(h: Hashes, s: State, id: RunId, x: ActionId)
    requires Inv(h, s) && id in s.audits && Recorded(s.audits[id], x)
    ensures CountExecutions(s.audits[id], x) == 1
  {
    hide Inv;
    RunAndChain(h, s, id);
    AtMostOneExecution(id, s.audits[id], s.claims, x);
  }

  lemma {:induction false} RecordedStays(chain: seq<AuditEvent>, longer: seq<AuditEvent>, x: ActionId)
    requires Recorded(chain, x) && chain <= longer
    ensures Recorded(longer, x)
  {
    var k :| 0 <= k < |chain| && NamesAction(chain[k], x);
    assert NamesAction(longer[k], x);
  }

  lemma {:induction false} RecordedBefore(h: Hashes, c: Calls, i: nat, x: ActionId)
    requires c.IsRun(h) && i < |c.steps| && c.RecordsAt(h, i, x)
    ensures var r := c.ReceiptAt(i).value;
            && ClaimCovers(c.worlds[i].store.claims, r)
            && r.runId in c.worlds[i].store.audits && CountExecutions(c.worlds[i].store.audits[r.runId], x) == 0
  {
    hide Next, ReconcileExecution, CountExecutions, ClaimCovers, Calls.StepAt;
    RecordingIsVisible(h, c.worlds[i].store, c.ReceiptAt(i).value, c.EnvelopeAt(i).0, c.EnvelopeAt(i).1);
  }

  lemma {:induction false} RecordedAfter(h: Hashes, c: Calls, i: nat, x: ActionId)
    requires c.IsRun(h) && i < |c.steps| && c.RecordsAt(h, i, x)
    ensures var r := c.ReceiptAt(i).value;
            r.runId in c.worlds[i + 1].store.audits && Recorded(c.worlds[i + 1].store.audits[r.runId], x)
  {
    hide Next, ReconcileExecution, CountExecutions, ClaimCovers, Recorded;
    RecordingIsVisible(h, c.worlds[i].store, c.ReceiptAt(i).value, c.EnvelopeAt(i).0, c.EnvelopeAt(i).1);
    assert c.StepAt(h, i);
  }

  lemma {:induction false} SameClaimedRun(h: Hashes, c: Calls, i: nat, j: nat, r: ExecutionReceipt,
                                          r': ExecutionReceipt)
    requires c.IsRun(h) && i <= j < |c.worlds| && r.actionId == r'.actionId
    requires ClaimCovers(c.worlds[i].store.claims, r) && ClaimCovers(c.worlds[j].store.claims, r')
    ensures r' == r
  {
    hide Inv, Calls.StepAt;
    StoresFollow(h, c, i, j);
  }

  lemma {:induction false} RecordStays(h: Hashes, c: Calls, i: nat, j: nat, id: RunId, x: ActionId)
    requires c.IsRun(h) && i <= j < |c.worlds| && id in c.worlds[i].store.audits
             && Recorded(c.worlds[i].store.audits[id], x)
    ensures id in c.worlds[j].store.audits && CountExecutions(c.worlds[j].store.audits[id], x) == 1
  {
    hide Inv, Calls.StepAt, CountExecutions, Recorded;
    StoresFollow(h, c, i, j);
    RecordedStays(c.worlds[i].store.audits[id], c.worlds[j].store.audits[id], x);
    RecordedIsCounted(h, c.worlds[j].store, id, x);
  }

  lemma {:induction false} NotRecordedAgain(h: Hashes, c: Calls, i: nat, j: nat, x: ActionId)
    requires c.IsRun(h) && i < j < |c.steps| && c.RecordsAt(h, i, x)
    ensures !c.RecordsAt(h, j, x)
  {
    hide ReconcileExecution, CountExecutions, Recorded, ClaimCovers, Calls.StepAt;
    if c.RecordsAt(h, j, x) {
      var r, r' := c.ReceiptAt(i).value, c.ReceiptAt(j).value;
      RecordedBefore(h, c, i, x);
      RecordedBefore(h, c, j, x);
      SameClaimedRun(h, c, i, j, r, r');
      RecordedAfter(h, c, i, x);
      RecordStays(h, c, i + 1, j, r.runId, x);
    }
  }

  /** At most one step of any run records an action's execution, so at most one call for it returns `Ok`. */
  lemma {:induction false} RecordedAtMostOnce(h: Hashes, c: Calls, i: nat, j: nat, x: ActionId)
    requires c.IsRun(h) && i < |c.steps| && j < |c.steps| && c.RecordsAt(h, i, x) && c.RecordsAt(h, j, x)
    ensures i == j
  {
    hide Calls.RecordsAt, Calls.IsRun;
    if i < j { NotRecordedAgain(h, c, i, j, x); }
    if j < i { NotRecordedAgain(h, c, j, i, x); }
  }

  lemma {:induction false} VerifiedIsCovered(h: Hashes, c: Calls, i: nat, j: nat)
    requires c.IsRun(h) && i < j < |c.worlds| && c.steps[i].ExecuteStep?
    ensures ClaimCovers(c.worlds[j].store.claims, c.steps[i].claimed.Receipt())
  {
    hide Inv, Next;
    assert c.StepAt(h, i);
    StoresFollow(h, c, c.steps[i].verified, j);
  }

  /** In every interleaving a call that executed its action returns `Ok` exactly when, as it settles, the run is not
      leased, its chain names no unknown execution and not yet this one, and takes one more event. */
  lemma {:induction false} SettlesExactly(h: Hashes, c: Calls, i: nat)
    requires c.IsRun(h) && i < |c.steps| && c.steps[i].SettleStep?
    ensures c.steps[i].call < i && c.steps[c.steps[i].call].ExecuteStep?
    ensures var receipt := c.steps[c.steps[i].call].claimed.Receipt();
            var (s, id) := (c.worlds[i].store, receipt.runId);
            c.RecordsAt(h, i, receipt.actionId) <==>
              && id !in s.leases && id in s.audits && !HasBareExecution(s.audits[id])
              && !Recorded(s.audits[id], receipt.actionId) && Takes(s, id, c.steps[i].timestamp, 1)
  {
    assert c.StepAt(h, i);
    hide Inv, Next, ReconcileExecution, Adds, Takes, HasBareExecution, Recorded, Calls.StepAt;
    StoresFollow(h, c, i, i);
    VerifiedIsCovered(h, c, c.steps[i].call, i);
    ReconciliationIsExact(h, c.worlds[i].store, c.ReceiptAt(i).value, c.EnvelopeAt(i).0, c.EnvelopeAt(i).1);
  }

  /** A call that returns `Ok` comes after the one step that performed its action. */
  lemma {:induction false} OkMeansPerformedOnce(h: Hashes, c: Calls, i: nat, x: ActionId) returns (p: nat)
    requires c.IsRun(h) && i < |c.steps| && c.steps[i].SettleStep? && c.RecordsAt(h, i, x)
    ensures p < i && c.steps[p].ExecuteStep? && c.OutcomeAt(p).Ok? && c.OutcomeAt(p).value.Performed?
    ensures c.steps[p].claimed.action.binding.id == x
    ensures forall q: nat | q < |c.steps| && c.steps[q].ExecuteStep? && c.OutcomeAt(q).Ok?
            && c.OutcomeAt(q).value.Performed?
                       && c.steps[q].claimed.action.binding.id == x :: q == p
  {
    hide Next, ReconcileExecution;
    assert c.StepAt(h, i);
    var call := c.steps[i].call;
    assert c.StepAt(h, call);
    p := ReceiptMeansPerformed(h, c, call + 1, x);
    forall q: nat | q < |c.steps| && c.steps[q].ExecuteStep? && c.OutcomeAt(q).Ok? && c.OutcomeAt(q).value.Performed?
               && c.steps[q].claimed.action.binding.id == x
      ensures q == p
    {
      PerformedAtMostOnce(h, c, p, q);
    }
  }

  /** In every state at most one event records an action's execution, and it is in the run of its claim. */
  lemma {:induction false} OneRecordInTheClaimedRun(h: Hashes, t: Trace, i: nat, a: RunId, j: nat, b: RunId, k: nat,
                                                    x: ActionId)
    requires t.IsHistory(h) && i < |t.states| && a in t.states[i].audits && b in t.states[i].audits
    requires j < |t.states[i].audits[a]| && k < |t.states[i].audits[b]|
    requires NamesAction(t.states[i].audits[a][j], x) && NamesAction(t.states[i].audits[b][k], x)
    ensures a == b && j == k && x in t.states[i].claims && t.states[i].claims[x].runId == a
  {
    hide Inv, Trace.StepAt;
    EveryHistoryIsValid(h, t, i);
    var s := t.states[i];
    RunAndChain(h, s, a);
    RunAndChain(h, s, b);
    assert ReceiptAt(a, s.audits[a], j, s.claims) && ReceiptAt(b, s.audits[b], k, s.claims);
    assert j < k ==> NoRepeat(s.audits[a], j, k);
    assert k < j ==> NoRepeat(s.audits[a], k, j);
  }
}
