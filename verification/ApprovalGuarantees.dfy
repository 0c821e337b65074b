/** What the store promises about approvals and claims over whole histories. */
module ApprovalGuarantees {
  import opened Records
  import opened AuditChain
  import opened StoreState
  import opened StoreInvariant
  import opened History

  // ---------------------------------------------------------------- one approval, one consumption

  lemma {:induction false} LaterApproval(h: Hashes, t: Trace, i: nat, j: nat, a: ApprovalId)
    requires t.IsHistory(h) && i <= j < |t.states| && a in t.states[i].approvals
    ensures a in t.states[j].approvals && ApprovalEvolves(t.states[i].approvals[a], t.states[j].approvals[a])
    ensures a in t.states[i].windows && a in t.states[j].windows && t.states[j].windows[a] == t.states[i].windows[a]
    ensures WindowPassed(t.states[i].approvals[a], t.states[i].windows[a], t.states[i].runs) ==>
              OnlyCloses(t.states[i].approvals[a].status, t.states[j].approvals[a].status)
  {
    LaterFollows(h, t, i, j);
  }

  lemma {:induction false} ApartInOneState(h: Hashes, s: State, a: ApprovalId, b: ApprovalId)
    requires Inv(h, s) && a in s.approvals && b in s.approvals && a != b
    ensures a in s.windows && b in s.windows && Apart(s.approvals[a], s.windows[a], s.approvals[b], s.windows[b])
  {
  }

  lemma {:induction false} ApartInTime(h: Hashes, t: Trace, i: nat, j: nat, a: ApprovalId, b: ApprovalId)
    requires t.IsHistory(h) && i <= j < |t.states| && a in t.states[i].approvals && b in t.states[j].approvals && a != b
    ensures a in t.states[i].windows && b in t.states[j].windows
    ensures Apart(t.states[i].approvals[a], t.states[i].windows[a], t.states[j].approvals[b], t.states[j].windows[b])
  {
    LaterApproval(h, t, i, j, a);
    EveryHistoryIsValid(h, t, j);
    ApartInOneState(h, t.states[j], a, b);
  }

  /** An action has at most one approval ever. */
  lemma {:induction false} OneApprovalPerAction(h: Hashes, t: Trace, i: nat, j: nat, a: ApprovalId, b: ApprovalId)
    requires t.IsHistory(h) && i < |t.states| && j < |t.states| && a in t.states[i].approvals
             && b in t.states[j].approvals
    requires t.states[i].approvals[a].actionId == t.states[j].approvals[b].actionId
    ensures a == b
  {
    if a != b {
      if i <= j { ApartInTime(h, t, i, j, a, b); } else { ApartInTime(h, t, j, i, b, a); }
    }
  }

  /** At most one approval is ever consumed in each awaiting-approval window of a run. */
  lemma {:induction false} OneConsumptionPerWindow(h: Hashes, t: Trace, i: nat, j: nat, a: ApprovalId, b: ApprovalId)
    requires t.IsHistory(h) && i < |t.states| && j < |t.states| && a in t.states[i].approvals
             && b in t.states[j].approvals
    requires t.states[i].approvals[a].runId == t.states[j].approvals[b].runId
    requires t.states[i].approvals[a].status.Consumed? && t.states[j].approvals[b].status.Consumed?
    requires a in t.states[i].windows && b in t.states[j].windows && t.states[i].windows[a] == t.states[j].windows[b]
    ensures a == b
  {
    if a != b {
      if i <= j { ApartInTime(h, t, i, j, a, b); } else { ApartInTime(h, t, j, i, b, a); }
    }
  }

  /** An approval whose run has moved since it was created can from then on only be denied or expire. */
  lemma {:induction false} PassedWindowOnlyCloses(h: Hashes, t: Trace, i: nat, j: nat, a: ApprovalId)
    requires t.IsHistory(h) && i <= j < |t.states| && a in t.states[i].approvals && a in t.states[i].windows
    requires WindowPassed(t.states[i].approvals[a], t.states[i].windows[a], t.states[i].runs)
    ensures a in t.states[j].approvals && OnlyCloses(t.states[i].approvals[a].status, t.states[j].approvals[a].status)
  {
    LaterApproval(h, t, i, j, a);
  }

  lemma {:induction false} ConsumptionIsInWindow(h: Hashes, s: State, op: Op)
    requires op.Consume? && Succeeds(h, s, op)
    ensures op.approval in s.approvals && s.approvals[op.approval].runId in s.runs
    ensures var a := s.approvals[op.approval]; a.id in s.windows && s.windows[a.id] == s.runs[a.runId].revision
  {
  }

  lemma {:induction false} WindowBounds(h: Hashes, s: State, a: ApprovalId)
    requires Inv(h, s) && a in s.approvals
    ensures s.approvals[a].id == a && a in s.windows && s.approvals[a].runId in s.runs
    ensures s.windows[a] <= s.runs[s.approvals[a].runId].revision
  {
    assert ApprovalOk(a, s.approvals[a], s.windows[a], s.runs[s.approvals[a].runId]);
  }

  /** A consumption succeeds only if the run made no transition since the approval was created: its
      record is then the one it had at every moment the approval existed. */
  lemma {:induction false} ConsumptionMeansUnmoved(h: Hashes, t: Trace, i: nat, j: nat)
    requires t.IsHistory(h) && i <= j < |t.ops| && t.ops[j].Consume? && Succeeds(h, t.states[j], t.ops[j])
    requires t.ops[j].approval in t.states[i].approvals
    ensures var run := t.states[i].approvals[t.ops[j].approval].runId;
            run in t.states[i].runs && run in t.states[j].runs && t.states[i].runs[run] == t.states[j].runs[run]
  {
    var a := t.ops[j].approval;
    EveryHistoryIsValid(h, t, i);
    EveryHistoryIsValid(h, t, j);
    WindowBounds(h, t.states[i], a);
    ConsumptionIsInWindow(h, t.states[j], t.ops[j]);
    WindowBounds(h, t.states[j], a);
    SameWindowSameRecord(h, t, i, j, a);
  }

  lemma {:induction false} SameWindowSameRecord(h: Hashes, t: Trace, i: nat, j: nat, a: ApprovalId)
    requires t.IsHistory(h) && i <= j < |t.states| && a in t.states[i].approvals && a in t.states[j].approvals
    requires t.states[i].approvals[a].runId in t.states[i].runs && t.states[j].approvals[a].runId in t.states[j].runs
    requires a in t.states[i].windows
             && t.states[i].windows[a] <= t.states[i].runs[t.states[i].approvals[a].runId].revision
    requires a in t.states[j].windows
             && t.states[j].windows[a] == t.states[j].runs[t.states[j].approvals[a].runId].revision
    ensures var run := t.states[i].approvals[a].runId;
            run in t.states[j].runs && t.states[i].runs[run] == t.states[j].runs[run]
  {
    LaterApproval(h, t, i, j, a);
    LaterFollows(h, t, i, j);
    var run := t.states[i].approvals[a].runId;
    assert RunEvolves(t.states[i].runs[run], t.states[j].runs[run]);
  }

  // ---------------------------------------------------------------- claims and consumed approvals

  /** Every claim is the other half of exactly one consumed approval. */
  lemma {:induction false} ClaimHasOneApproval(h: Hashes, t: Trace, i: nat, x: ActionId) returns (a: ApprovalId)
    requires t.IsHistory(h) && i < |t.states| && x in t.states[i].claims
    ensures a in t.states[i].approvals && Backs(t.states[i].approvals[a], t.states[i].claims[x])
    ensures forall b | b in t.states[i].approvals && Backs(t.states[i].approvals[b], t.states[i].claims[x]) :: b == a
  {
    EveryHistoryIsValid(h, t, i);
    var s := t.states[i];
    assert IsBacked(s.approvals, s.claims[x]);
    a :| a in s.approvals && Backs(s.approvals[a], s.claims[x]);
    forall b | b in s.approvals && Backs(s.approvals[b], s.claims[x]) ensures b == a {
      if b != a { ApartInOneState(h, s, a, b); }
    }
  }

  /** Every consumed approval is the other half of exactly one claim, which is never lost or replaced. */
  lemma {:induction false} ConsumedApprovalHasOneClaim(h: Hashes, t: Trace, i: nat, j: nat, a: ApprovalId)
    requires t.IsHistory(h) && i <= j < |t.states| && a in t.states[i].approvals
             && t.states[i].approvals[a].status.Consumed?
    ensures var x := t.states[i].approvals[a].actionId;
            && x in t.states[j].claims && Backs(t.states[i].approvals[a], t.states[j].claims[x])
            && forall y | y in t.states[j].claims && Backs(t.states[i].approvals[a], t.states[j].claims[y]) :: y == x
  {
    EveryHistoryIsValid(h, t, i);
    EveryHistoryIsValid(h, t, j);
    LaterFollows(h, t, i, j);
    assert ClaimsInv(t.states[i].claims, t.states[i].approvals) && ClaimsInv(t.states[j].claims, t.states[j].approvals);
  }

  /** The "action was already claimed" refusal of a consumption is unreachable. */
  lemma {:induction false} ClaimedBranchIsUnreachable(h: Hashes, s: State, a: ApprovalId, action: ActionRequest,
                                                      expected: U64, now: Time)
    requires Inv(h, s) && a in s.approvals && CanConsumeAt(h, s.approvals[a], action, expected, now).Ok?
    ensures action.binding.id !in s.claims
  {
    if action.binding.id in s.claims {
      var c := s.claims[action.binding.id];
      assert IsBacked(s.approvals, c);
      var b :| b in s.approvals && Backs(s.approvals[b], c);
      if b != a { ApartInOneState(h, s, a, b); }
    }
  }

  /** Some approval is of the action. */
  ghost predicate HasApproval(approvals: Approvals, x: ActionId) {
    exists a :: a in approvals && approvals[a].actionId == x
  }

  lemma {:induction false} ClaimedHasApproval(claims: Claims, approvals: Approvals, x: ActionId)
    requires ClaimsInv(claims, approvals) && x in claims
    ensures HasApproval(approvals, x)
  {
    assert IsBacked(approvals, claims[x]);
    var a :| a in approvals && Backs(approvals[a], claims[x]);
  }

  lemma {:induction false} DuplicateTests(s: State, request: ApprovalRequest)
    requires ClaimsInv(s.claims, s.approvals)
    ensures ApprovalExists(s, request) <==> request.id in s.approvals || HasApproval(s.approvals, request.actionId)
  {
    if request.actionId in s.claims { ClaimedHasApproval(s.claims, s.approvals, request.actionId); }
  }

  /** Of the four duplicate tests of a new approval two suffice: the claim test and the open-duplicate
      test never add anything. */
  lemma {:induction false} TwoDuplicateTestsSuffice(h: Hashes, t: Trace, i: nat, request: ApprovalRequest)
    requires t.IsHistory(h) && i < |t.states|
    ensures var s := t.states[i];
            ApprovalExists(s, request) <==> request.id in s.approvals || HasApproval(s.approvals, request.actionId)
  {
    EveryHistoryIsValid(h, t, i);
    DuplicateTests(t.states[i], request);
  }

  // ---------------------------------------------------------------- execution receipts

  /** An execution event appended without metadata. */
  predicate IsBareExecution(e: AuditEvent) {
    e.body.kind.ActionExecuted? && e.body.metadata.NoDetail?
  }

  lemma {:induction false} AtMostOneExecution(id: RunId, chain: seq<AuditEvent>, claims: Claims, action: ActionId)
    requires ReceiptsOk(id, chain, claims)
    ensures CountExecutions(chain, action) == if Recorded(chain, action) then 1 else 0
  {
    if chain != [] {
      var n := |chain| - 1;
      var rest := chain[..n];
      assert forall k | 0 <= k < n ::
               rest[k] == chain[k] && (ReceiptAt(id, chain, k, claims) ==> ReceiptAt(id, rest, k, claims));
      assert forall j, k | 0 <= j < k < n :: NoRepeat(chain, j, k) ==> NoRepeat(rest, j, k);
      AtMostOneExecution(id, rest, claims, action);
      assert ReceiptAt(id, chain, n, claims);
      if NamesAction(chain[n], action) {
        forall k | 0 <= k < n ensures !NamesAction(rest[k], action) { assert NoRepeat(chain, k, n); }
      }
      if k :| 0 <= k < n && NamesAction(chain[k], action) { assert NamesAction(rest[k], action); }
    }
  }

  ghost predicate Recorded(chain: seq<AuditEvent>, action: ActionId) {
    exists k :: 0 <= k < |chain| && NamesAction(chain[k], action)
  }

  ghost predicate HasBareExecution(chain: seq<AuditEvent>) {
    exists k :: 0 <= k < |chain| && IsBareExecution(chain[k])
  }

  lemma {:induction false} ScanOfChain(h: Hashes, chain: seq<AuditEvent>, claims: Claims, receipt: ExecutionReceipt)
    requires ReceiptsOk(receipt.runId, chain, claims) && ChainOk(h, receipt.runId, chain)
             && ClaimCovers(claims, receipt)
    ensures var r := ReceiptWasAudited(chain, receipt);
            && (r.Err? <==> HasBareExecution(chain))
            && (r.Ok? ==> (r.value <==> Recorded(chain, receipt.actionId)))
  {
    AtMostOneExecution(receipt.runId, chain, claims, receipt.actionId);
    forall k | 0 <= k < |chain| ensures SpoilsReceipt(chain[k], receipt) <==> IsBareExecution(chain[k]) {
      assert ReceiptAt(receipt.runId, chain, k, claims) && EventOk(h, receipt.runId, chain, k);
    }
  }

  /** For a claimed receipt the scan fails exactly when the run's chain holds an execution event without
      metadata (which `append_audit` admits); otherwise it finds the receipt exactly when it was recorded. */
  lemma {:induction false} ReceiptScanIsExact(h: Hashes, t: Trace, i: nat, receipt: ExecutionReceipt)
    requires t.IsHistory(h) && i < |t.states| && ClaimCovers(t.states[i].claims, receipt)
             && receipt.runId in t.states[i].audits
    ensures var chain := t.states[i].audits[receipt.runId];
            var r := ReceiptWasAudited(chain, receipt);
            && (r.Err? <==> HasBareExecution(chain))
            && (r.Ok? ==> (r.value <==> Recorded(chain, receipt.actionId)))
  {
    EveryHistoryIsValid(h, t, i);
    ScanOfChain(h, t.states[i].audits[receipt.runId], t.states[i].claims, receipt);
  }

  lemma {:induction false} BareExecutionStays(s: State, s': State, id: RunId)
    requires Evolves(s, s') && id in s.audits && HasBareExecution(s.audits[id])
    ensures id in s'.audits && HasBareExecution(s'.audits[id])
  {
    var k :| 0 <= k < |s.audits[id]| && IsBareExecution(s.audits[id][k]);
    assert s'.audits[id][k] == s.audits[id][k];
  }

  /** An execution event without metadata spoils its run for good: from then on no receipt of it is reconciled. */
  lemma {:induction false} SpoiledForever(h: Hashes, t: Trace, i: nat, j: nat, receipt: ExecutionReceipt,
                                          audit: Envelope, event: EventId)
    requires t.IsHistory(h) && i <= j < |t.states|
    requires receipt.runId in t.states[i].audits && HasBareExecution(t.states[i].audits[receipt.runId])
    ensures ReconcileExecution(h, t.states[j], receipt, audit, event).Err?
  {
    hide Inv, Evolves, Next, Extend, ReceiptWasAudited, HasBareExecution;
    LaterFollows(h, t, i, j);
    BareExecutionStays(t.states[i], t.states[j], receipt.runId);
    if ClaimCovers(t.states[j].claims, receipt) { ReceiptScanIsExact(h, t, j, receipt); }
  }
}
