/** The elementary steps from which the store's operations are composed, and what each keeps. */
module StoreSteps {
  import opened Prelude
  import opened Records
  import opened AuditChain
  import opened StoreState
  import opened StoreInvariant

  // ---------------------------------------------------------------- growing a chain

  lemma {:induction false} LongerChainFitsRun(h: Hashes, id: RunId, run: Run, chain: seq<AuditEvent>,
                                              longer: seq<AuditEvent>)
    requires RunOk(id, run, chain) && ChainOk(h, id, longer) && chain <= longer
    ensures RunOk(id, run, longer)
  {
    TimesNeverDecrease(h, id, longer, |chain| - 1, |longer| - 1);
  }

  lemma {:induction false} GrowKeepsRuns(h: Hashes, runs: Runs, audits: Audits, id: RunId, longer: seq<AuditEvent>)
    requires RunsInv(runs, audits) && id in audits && audits[id] <= longer && ChainOk(h, id, longer)
    ensures RunsInv(runs, audits[id := longer])
  {
    LongerChainFitsRun(h, id, runs[id], audits[id], longer);
  }

  lemma {:induction false} GrowKeepsLogs(h: Hashes, audits: Audits, claims: Claims, id: RunId, longer: seq<AuditEvent>)
    requires ChainsInv(h, audits) && ReceiptsInv(audits, claims) && id in audits && audits[id] <= longer
    requires ChainOk(h, id, longer) && ReceiptsOk(id, longer, claims)
    ensures var audits' := audits[id := longer];
            ChainsInv(h, audits') && ReceiptsInv(audits', claims) && Grows(audits, audits')
  {
  }

  /** The chain of one run grows; the stored artifacts may grow with it. */
  lemma {:induction false} GrowChain(h: Hashes, s: State, id: RunId, longer: seq<AuditEvent>, artifacts: Artifacts)
    requires Inv(h, s) && id in s.audits && s.audits[id] <= longer
    requires ChainOk(h, id, longer) && ReceiptsOk(id, longer, s.claims)
    requires ArtifactsInv(artifacts, s.audits[id := longer]) && Grows(s.artifacts, artifacts)
    ensures Follows(h, s, s.(audits := s.audits[id := longer], artifacts := artifacts))
  {
    EvolvesIsReflexive(s);
    GrowKeepsRuns(h, s.runs, s.audits, id, longer);
    GrowKeepsLogs(h, s.audits, s.claims, id, longer);
  }

  /** An event that records neither an execution nor an artifact. */
  ghost predicate IsPlain(e: AuditEvent) {
    && !e.body.metadata.ExecutionDetail? && !e.body.metadata.ArtifactDetail?
    && (e.body.kind.ActionExecuted? ==> e.body.metadata.NoDetail?)
  }

  /** An appended event keeps the receipts in order if it is in order and repeats nothing. */
  lemma {:induction false} AppendKeepsReceipts(id: RunId, chain: seq<AuditEvent>, claims: Claims, e: AuditEvent)
    requires ReceiptsOk(id, chain, claims) && ReceiptOk(id, e, claims)
    requires forall j | 0 <= j < |chain| :: NoRepeat(chain + [e], j, |chain|)
    ensures ReceiptsOk(id, chain + [e], claims)
  {
    var longer := chain + [e];
    forall k | 0 <= k < |longer| ensures ReceiptAt(id, longer, k, claims) {
      if k < |chain| { assert ReceiptAt(id, chain, k, claims); }
    }
    forall j, k | 0 <= j < k < |longer| ensures NoRepeat(longer, j, k) {
      if k < |chain| { assert NoRepeat(chain, j, k); }
    }
  }

  lemma {:induction false} UnrelatedKeepsReceipts(id: RunId, chain: seq<AuditEvent>, claims: Claims, e: AuditEvent)
    requires ReceiptsOk(id, chain, claims)
    requires !e.body.metadata.ExecutionDetail? && (e.body.kind.ActionExecuted? ==> e.body.metadata.NoDetail?)
    ensures ReceiptsOk(id, chain + [e], claims)
  {
    AppendKeepsReceipts(id, chain, claims, e);
  }

  lemma {:induction false} TrailOfAppend(chain: seq<AuditEvent>, e: AuditEvent)
    ensures ArtifactTrail(chain + [e]) == ArtifactTrail(chain) + ArtifactEntry(e)
  {
    assert (chain + [e])[..|chain|] == chain;
  }

  lemma {:induction false} SameTrailKeepsArtifacts(artifacts: Artifacts, audits: Audits, id: RunId,
                                                   longer: seq<AuditEvent>)
    requires ArtifactsInv(artifacts, audits) && id in audits && ArtifactTrail(longer) == ArtifactTrail(audits[id])
    ensures ArtifactsInv(artifacts, audits[id := longer]) && Grows(artifacts, artifacts)
  {
    assert ArtifactsOk(id, Stored(artifacts, id), audits[id]);
  }

  lemma {:induction false} RecordPlain(h: Hashes, s: State, id: RunId, e: AuditEvent)
    requires Inv(h, s) && id in s.audits && ChainOk(h, id, s.audits[id] + [e]) && IsPlain(e)
    ensures Follows(h, s, Record(s, id, [e]))
  {
    var longer := s.audits[id] + [e];
    UnrelatedKeepsReceipts(id, s.audits[id], s.claims, e);
    TrailOfAppend(s.audits[id], e);
    SameTrailKeepsArtifacts(s.artifacts, s.audits, id, longer);
    GrowChain(h, s, id, longer, s.artifacts);
  }

  ghost predicate IsPlainDraft(d: Draft) {
    && !d.metadata.ExecutionDetail? && !d.metadata.ArtifactDetail?
    && (d.kind.ActionExecuted? ==> d.metadata.NoDetail?)
  }

  /** Sealing a plain draft onto the chain of its run. */
  lemma {:induction false} AppendPlain(h: Hashes, s: State, d: Draft)
    requires Inv(h, s) && d.runId in s.audits && IsPlainDraft(d)
    requires LastTime(s.audits[d.runId]) <= d.timestamp && Seal(h, s.audits[d.runId], d).Ok?
    ensures Follows(h, s, Record(s, d.runId, [Seal(h, s.audits[d.runId], d).value]))
  {
    SealKeepsChain(h, d.runId, s.audits[d.runId], d);
    RecordPlain(h, s, d.runId, Seal(h, s.audits[d.runId], d).value);
  }

  // ---------------------------------------------------------------- moving a run

  /** The state in which one run has a new record, with the given leases and cancel intents. */
  ghost function Moved(s: State, id: RunId, r: Run, leases: Leases, cancels: Cancels): State {
    s.(runs := s.runs[id := r], leases := leases, cancels := cancels)
  }

  ghost predicate MovesRun(s: State, id: RunId, r: Run, leases: Leases, cancels: Cancels) {
    && id in s.runs && id in s.audits
    && RunOk(id, r, s.audits[id]) && RunEvolves(s.runs[id], r) && r.revision == s.runs[id].revision + 1
    && LeasesInv(leases, cancels, s.runs[id := r])
    && LeasesEvolve(s.runs, s.leases, leases)
    && CancelsEvolve(s.cancels, cancels, s.runs[id := r])
  }

  lemma {:induction false} MoveRun(h: Hashes, s: State, id: RunId, r: Run, leases: Leases, cancels: Cancels)
    requires Inv(h, s) && MovesRun(s, id, r, leases, cancels)
    ensures Follows(h, s, Moved(s, id, r, leases, cancels))
  {
    EvolvesIsReflexive(s);
    MoveRunKeepsRuns(s, id, r);
    MoveRunKeepsApprovals(s, id, r);
  }

  lemma {:induction false} MoveRunKeepsRuns(s: State, id: RunId, r: Run)
    requires RunsInv(s.runs, s.audits) && id in s.runs && RunOk(id, r, s.audits[id]) && RunEvolves(s.runs[id], r)
    ensures RunsInv(s.runs[id := r], s.audits) && RunsEvolve(s.runs, s.runs[id := r])
  {
  }

  lemma {:induction false} MoveRunKeepsApprovals(s: State, id: RunId, r: Run)
    requires ApprovalsInv(s.approvals, s.windows, s.runs)
    requires id in s.runs && r.revision == s.runs[id].revision + 1
    ensures ApprovalsInv(s.approvals, s.windows, s.runs[id := r])
  {
    var runs := s.runs[id := r];
    forall a | a in s.approvals
      ensures s.approvals[a].runId in runs && ApprovalOk(a, s.approvals[a], s.windows[a], runs[s.approvals[a].runId])
    {
      assert ApprovalOk(a, s.approvals[a], s.windows[a], s.runs[s.approvals[a].runId]);
    }
  }

  /** The record `Advance` produces fits the chain extended by one event. */
  lemma {:induction false} AdvanceOk(id: RunId, run: Run, chain: seq<AuditEvent>, next: RunStatus,
                                     reason: Option<string>, now: Time, longer: seq<AuditEvent>)
    requires RunOk(id, run, chain)
    requires run.status.CanTransitionTo(next) && run.updatedAt <= now && Advance(run, next, reason, now).Ok?
    requires |longer| == |chain| + 1 && LastTime(longer) == now
    ensures var r := Advance(run, next, reason, now).value;
            && RunOk(id, r, longer) && RunEvolves(run, r)
            && r.revision == run.revision + 1 && r.status == next && r.updatedAt == now
  {
  }

  // ---------------------------------------------------------------- approvals

  /** One approval record is created or replaced. */
  ghost predicate PutsApproval(s: State, a: ApprovalRequest, window: U64) {
    && a.runId in s.runs && ApprovalOk(a.id, a, window, s.runs[a.runId])
    && !a.status.Consumed?
    && (a.id in s.approvals ==>
          && a.id in s.windows && window == s.windows[a.id]
          && !s.approvals[a.id].status.Consumed? && ApprovalEvolves(s.approvals[a.id], a)
          && (WindowPassed(s.approvals[a.id], window, s.runs) ==> OnlyCloses(s.approvals[a.id].status, a.status)))
    && (a.id !in s.approvals ==> forall b | b in s.approvals :: s.approvals[b].actionId != a.actionId)
  }

  lemma {:induction false} PutApproval(h: Hashes, s: State, a: ApprovalRequest, window: U64)
    requires Inv(h, s) && PutsApproval(s, a, window)
    ensures Follows(h, s, s.(approvals := s.approvals[a.id := a], windows := s.windows[a.id := window]))
  {
    EvolvesIsReflexive(s);
    PutApprovalKeepsApprovals(s, a, window);
    PutApprovalKeepsClaims(s, a, window);
  }

  lemma {:induction false} PutApprovalKeepsApart(s: State, a: ApprovalRequest, window: U64, b: ApprovalId)
    requires ApprovalsInv(s.approvals, s.windows, s.runs) && PutsApproval(s, a, window) && b in s.approvals && b != a.id
    ensures Apart(a, window, s.approvals[b], s.windows[b]) && Apart(s.approvals[b], s.windows[b], a, window)
  {
    if a.id in s.approvals { assert Apart(s.approvals[a.id], s.windows[a.id], s.approvals[b], s.windows[b]); }
  }

  lemma {:induction false} PutApprovalKeepsApprovals(s: State, a: ApprovalRequest, window: U64)
    requires ApprovalsInv(s.approvals, s.windows, s.runs) && PutsApproval(s, a, window)
    ensures var approvals, windows := s.approvals[a.id := a], s.windows[a.id := window];
            && ApprovalsInv(approvals, windows, s.runs)
            && ApprovalsEvolve(s.approvals, s.windows, s.runs, approvals, windows)
  {
    var approvals, windows := s.approvals[a.id := a], s.windows[a.id := window];
    forall b, c | b in approvals && c in approvals && b != c
      ensures Apart(approvals[b], windows[b], approvals[c], windows[c])
    {
      if b == a.id {
        PutApprovalKeepsApart(s, a, window, c);
      } else if c == a.id {
        PutApprovalKeepsApart(s, a, window, b);
      } else {
        assert Apart(s.approvals[b], s.windows[b], s.approvals[c], s.windows[c]);
      }
    }
  }

  lemma {:induction false} PutApprovalKeepsClaims(s: State, a: ApprovalRequest, window: U64)
    requires ClaimsInv(s.claims, s.approvals) && PutsApproval(s, a, window)
    ensures ClaimsInv(s.claims, s.approvals[a.id := a])
  {
    var approvals := s.approvals[a.id := a];
    forall x | x in s.claims ensures IsBacked(approvals, s.claims[x]) {
      var b :| b in s.approvals && Backs(s.approvals[b], s.claims[x]);
      assert b in approvals && Backs(approvals[b], s.claims[x]);
    }
  }
}
