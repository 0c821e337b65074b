/** The approval operations keep the joint invariant and only move the state forward. */
module ApprovalPreservation {
  import opened Prelude
  import opened Records
  import opened AuditChain
  import opened StoreState
  import opened StoreInvariant
  import opened StoreSteps

  /** The draft of an approval's event. */
  function ApprovalDraft(a: ApprovalRequest, kind: EventKind, actor: ActorId, now: Time, event: EventId): Draft {
    Draft(event, a.runId, kind, actor, now, ApprovalDetail(a.id, a.actionId, a.parameterHash, a.revision, a.status))
  }

  lemma {:induction false} ApprovalEventKeeps(h: Hashes, s: State, a: ApprovalRequest, kind: EventKind,
                                              actor: ActorId, now: Time, event: EventId)
    requires Inv(h, s) && !kind.ActionExecuted? && ApprovalEvent(h, s, a, kind, actor, now, event).Ok?
    ensures a.runId in s.audits
    ensures Follows(h, s, Record(s, a.runId, [ApprovalEvent(h, s, a, kind, actor, now, event).value]))
  {
    AppendPlain(h, s, ApprovalDraft(a, kind, actor, now, event));
  }

  /** An approval record written together with its event. */
  lemma {:induction false} RecordAndPut(h: Hashes, s: State, a: ApprovalRequest, window: U64, kind: EventKind,
                                        actor: ActorId,
                                        now: Time, event: EventId)
    requires Inv(h, s) && PutsApproval(s, a, window)
    requires !kind.ActionExecuted? && ApprovalEvent(h, s, a, kind, actor, now, event).Ok?
    ensures a.runId in s.audits
    ensures var e := ApprovalEvent(h, s, a, kind, actor, now, event).value;
            Follows(h, s,
                    Record(s, a.runId, [e]).(approvals := s.approvals[a.id := a], windows := s.windows[a.id := window]))
  {
    ApprovalEventKeeps(h, s, a, kind, actor, now, event);
    var logged := Record(s, a.runId, [ApprovalEvent(h, s, a, kind, actor, now, event).value]);
    PutApproval(h, logged, a, window);
    FollowsOn(h, s, logged, logged.(approvals := s.approvals[a.id := a], windows := s.windows[a.id := window]));
  }

  /** A state in which an approval record was written together with its event. */
  ghost predicate IsPut(h: Hashes, s: State, s': State, a: ApprovalRequest, window: U64, kind: EventKind,
                        actor: ActorId,
                        now: Time, event: EventId)
  {
    && PutsApproval(s, a, window) && !kind.ActionExecuted?
    && a.runId in s.audits && ApprovalEvent(h, s, a, kind, actor, now, event).Ok?
    && s' == Record(s, a.runId, [ApprovalEvent(h, s, a, kind, actor, now, event).value])
             .(approvals := s.approvals[a.id := a], windows := s.windows[a.id := window])
  }

  lemma {:induction false} CreateApprovalShape(h: Hashes, s: State, request: ApprovalRequest, actor: ActorId,
                                               now: Time, event: EventId)
    requires CreateApproval(h, s, request, actor, now, event).Ok?
    requires s.runs[request.runId].revision > 0
    ensures var (s', a) := CreateApproval(h, s, request, actor, now, event).value;
            IsPut(h, s, s', a, s.runs[a.runId].revision, EventKind.ApprovalRequested, actor, now, event)
  {
  }

  lemma {:induction false} CreateApprovalKeeps(h: Hashes, s: State, request: ApprovalRequest, actor: ActorId,
                                               now: Time, event: EventId)
    requires Inv(h, s) && CreateApproval(h, s, request, actor, now, event).Ok?
    ensures Follows(h, s, CreateApproval(h, s, request, actor, now, event).value.0)
  {
    assert RunOk(request.runId, s.runs[request.runId], s.audits[request.runId]);
    CreateApprovalShape(h, s, request, actor, now, event);
    var a := CreateApproval(h, s, request, actor, now, event).value.1;
    RecordAndPut(h, s, a, s.runs[a.runId].revision, EventKind.ApprovalRequested, actor, now, event);
  }

  /** The record of `id` in the joint invariant. */
  ghost predicate KnownApproval(s: State, id: ApprovalId) {
    && id in s.approvals && id in s.windows && s.approvals[id].runId in s.runs
    && ApprovalOk(id, s.approvals[id], s.windows[id], s.runs[s.approvals[id].runId])
  }

  lemma {:induction false} DecideApprovalShape(h: Hashes, s: State, id: ApprovalId, expected: U64,
                                               decision: ApprovalDecision, actor: ActorId,
                                               reason: Option<string>, now: Time, event: EventId)
    requires KnownApproval(s, id) && DecideApproval(h, s, id, expected, decision, actor, reason, now, event).Ok?
    ensures var (s', a) := DecideApproval(h, s, id, expected, decision, actor, reason, now, event).value;
            IsPut(h, s, s', a, s.windows[id], DecisionEvent(decision), actor, now, event)
  {
    assert s.windows[id := s.windows[id]] == s.windows;
  }

  lemma {:induction false} DecideApprovalKeeps(h: Hashes, s: State, id: ApprovalId, expected: U64,
                                               decision: ApprovalDecision, actor: ActorId,
                                               reason: Option<string>, now: Time, event: EventId)
    requires Inv(h, s) && DecideApproval(h, s, id, expected, decision, actor, reason, now, event).Ok?
    ensures Follows(h, s, DecideApproval(h, s, id, expected, decision, actor, reason, now, event).value.0)
  {
    DecideApprovalShape(h, s, id, expected, decision, actor, reason, now, event);
    var a := DecideApproval(h, s, id, expected, decision, actor, reason, now, event).value.1;
    RecordAndPut(h, s, a, s.windows[id], DecisionEvent(decision), actor, now, event);
  }

  lemma {:induction false} ExpireApprovalShape(h: Hashes, s: State, id: ApprovalId, expected: U64, actor: ActorId,
                                               now: Time, event: EventId)
    requires KnownApproval(s, id) && ExpireApproval(h, s, id, expected, actor, now, event).Ok?
    ensures var (s', a) := ExpireApproval(h, s, id, expected, actor, now, event).value;
            IsPut(h, s, s', a, s.windows[id], ApprovalExpired, actor, now, event)
  {
    assert s.windows[id := s.windows[id]] == s.windows;
  }

  lemma {:induction false} ExpireApprovalKeeps(h: Hashes, s: State, id: ApprovalId, expected: U64, actor: ActorId,
                                               now: Time, event: EventId)
    requires Inv(h, s) && ExpireApproval(h, s, id, expected, actor, now, event).Ok?
    ensures Follows(h, s, ExpireApproval(h, s, id, expected, actor, now, event).value.0)
  {
    ExpireApprovalShape(h, s, id, expected, actor, now, event);
    var a := ExpireApproval(h, s, id, expected, actor, now, event).value.1;
    RecordAndPut(h, s, a, s.windows[id], ApprovalExpired, actor, now, event);
  }

  // ---------------------------------------------------------------- consumption

  /** A consumption: the approval was approved in the window the run still is in, and its claim is new. */
  ghost predicate IsConsumption(s: State, a: ApprovalRequest, r: Run, c: ActionClaim) {
    && a.id in s.approvals && s.approvals[a.id].status.Approved? && ApprovalEvolves(s.approvals[a.id], a)
    && a.IsValid() && a.revision == 2 && Backs(a, c) && c.actionId !in s.claims
    && a.runId in s.runs && a.id in s.windows && s.windows[a.id] == s.runs[a.runId].revision
    && r.revision == s.runs[a.runId].revision + 1 && RunEvolves(s.runs[a.runId], r) && r.status.Running?
  }

  lemma {:induction false} ConsumptionKeepsApart(s: State, a: ApprovalRequest, r: Run, c: ActionClaim, b: ApprovalId)
    requires ApprovalsInv(s.approvals, s.windows, s.runs) && IsConsumption(s, a, r, c) && b in s.approvals && b != a.id
    ensures Apart(a, s.windows[a.id], s.approvals[b], s.windows[b])
            && Apart(s.approvals[b], s.windows[b], a, s.windows[a.id])
  {
    assert Apart(s.approvals[a.id], s.windows[a.id], s.approvals[b], s.windows[b]);
    assert ApprovalOk(b, s.approvals[b], s.windows[b], s.runs[s.approvals[b].runId]);
  }

  lemma {:induction false} ConsumptionKeepsEachApproval(s: State, a: ApprovalRequest, r: Run, c: ActionClaim,
                                                        b: ApprovalId)
    requires ApprovalsInv(s.approvals, s.windows, s.runs) && IsConsumption(s, a, r, c) && b in s.approvals
    ensures var approvals, runs := s.approvals[a.id := a], s.runs[a.runId := r];
            approvals[b].runId in runs && ApprovalOk(b, approvals[b], s.windows[b], runs[approvals[b].runId])
  {
    assert ApprovalOk(b, s.approvals[b], s.windows[b], s.runs[s.approvals[b].runId]);
  }

  lemma {:induction false} ConsumptionKeepsApprovals(s: State, a: ApprovalRequest, r: Run, c: ActionClaim)
    requires ApprovalsInv(s.approvals, s.windows, s.runs) && IsConsumption(s, a, r, c)
    ensures ApprovalsInv(s.approvals[a.id := a], s.windows, s.runs[a.runId := r])
    ensures ApprovalsEvolve(s.approvals, s.windows, s.runs, s.approvals[a.id := a], s.windows)
  {
    var approvals, runs := s.approvals[a.id := a], s.runs[a.runId := r];
    forall b | b in approvals
      ensures approvals[b].runId in runs && ApprovalOk(b, approvals[b], s.windows[b], runs[approvals[b].runId])
    {
      ConsumptionKeepsEachApproval(s, a, r, c, b);
    }
    forall b, d | b in approvals && d in approvals && b != d
      ensures Apart(approvals[b], s.windows[b], approvals[d], s.windows[d])
    {
      if b == a.id {
        ConsumptionKeepsApart(s, a, r, c, d);
      } else if d == a.id {
        ConsumptionKeepsApart(s, a, r, c, b);
      } else {
        assert Apart(s.approvals[b], s.windows[b], s.approvals[d], s.windows[d]);
      }
    }
  }

  lemma {:induction false} ConsumptionKeepsClaims(s: State, a: ApprovalRequest, r: Run, c: ActionClaim)
    requires ClaimsInv(s.claims, s.approvals) && IsConsumption(s, a, r, c)
    ensures ClaimsInv(s.claims[c.actionId := c], s.approvals[a.id := a])
  {
    var claims, approvals := s.claims[c.actionId := c], s.approvals[a.id := a];
    forall x | x in claims ensures claims[x].actionId == x && IsBacked(approvals, claims[x]) {
      if x == c.actionId {
        assert a.id in approvals && Backs(approvals[a.id], c);
      } else {
        var b :| b in s.approvals && Backs(s.approvals[b], s.claims[x]);
        assert b in approvals && Backs(approvals[b], claims[x]);
      }
    }
  }

  lemma {:induction false} NewClaimKeepsReceiptsOf(id: RunId, chain: seq<AuditEvent>, claims: Claims, c: ActionClaim)
    requires ReceiptsOk(id, chain, claims) && c.actionId !in claims
    ensures ReceiptsOk(id, chain, claims[c.actionId := c])
  {
    var more := claims[c.actionId := c];
    forall k | 0 <= k < |chain| ensures ReceiptAt(id, chain, k, more) {
      assert ReceiptAt(id, chain, k, claims);
    }
  }

  lemma {:induction false} NewClaimKeepsReceipts(audits: Audits, claims: Claims, c: ActionClaim)
    requires ReceiptsInv(audits, claims) && c.actionId !in claims
    ensures ReceiptsInv(audits, claims[c.actionId := c]) && ClaimsEvolve(claims, claims[c.actionId := c])
  {
    forall id | id in audits ensures ReceiptsOk(id, audits[id], claims[c.actionId := c]) {
      NewClaimKeepsReceiptsOf(id, audits[id], claims, c);
    }
  }

  lemma {:induction false} LaggingMove(leases: Leases, cancels: Cancels, runs: Runs, id: RunId, r: Run)
    requires LeasesInv(leases, cancels, runs) && id in runs
    requires RunEvolves(runs[id], r) && r.revision == runs[id].revision + 1 && !r.status.Queued?
             && !r.status.IsTerminal()
    ensures LeasesInv(leases, cancels, runs[id := r]) && CancelsEvolve(cancels, cancels, runs[id := r])
  {
  }

  /** The three records of a consumption, written at once; a lease of the run is left behind its revision. */
  lemma {:induction false} Consume(h: Hashes, s: State, a: ApprovalRequest, r: Run, c: ActionClaim)
    requires Inv(h, s) && IsConsumption(s, a, r, c) && RunOk(a.runId, r, s.audits[a.runId])
    ensures Follows(h, s,
                    s.(approvals := s.approvals[a.id := a], runs := s.runs[a.runId := r],
                       claims := s.claims[c.actionId := c]))
  {
    EvolvesIsReflexive(s);
    MoveRunKeepsRuns(s, a.runId, r);
    ConsumptionKeepsApprovals(s, a, r, c);
    ConsumptionKeepsClaims(s, a, r, c);
    NewClaimKeepsReceipts(s.audits, s.claims, c);
    LaggingMove(s.leases, s.cancels, s.runs, a.runId, r);
  }

  lemma {:induction false} RunningFits(h: Hashes, id: RunId, run: Run, chain: seq<AuditEvent>, r: Run, now: Time,
                                       longer: seq<AuditEvent>)
    requires RunOk(id, run, chain) && run.status.AwaitingApproval? && run.revision < U64_MAX && LastTime(chain) <= now
    requires r == run.(status := Running, revision := run.revision + 1, updatedAt := now,
                       startedAt := if run.startedAt.None? then Some(now) else run.startedAt)
    requires |longer| > |chain| && LastTime(longer) == now
    ensures RunOk(id, r, longer) && RunEvolves(run, r)
  {
  }

  /** Sealing a plain draft keeps a chain intact, its receipts in order and its artifact trail. */
  lemma {:induction false} SealPlain(h: Hashes, id: RunId, chain: seq<AuditEvent>, claims: Claims, d: Draft,
                                     e: AuditEvent)
    requires ChainOk(h, id, chain) && ReceiptsOk(id, chain, claims) && d.runId == id && IsPlainDraft(d)
    requires LastTime(chain) <= d.timestamp && Seal(h, chain, d) == Ok(e)
    ensures ChainOk(h, id, chain + [e]) && ReceiptsOk(id, chain + [e], claims)
            && ArtifactTrail(chain + [e]) == ArtifactTrail(chain)
    ensures LastTime(chain + [e]) == d.timestamp
  {
    SealKeepsChain(h, id, chain, d);
    UnrelatedKeepsReceipts(id, chain, claims, e);
    TrailOfAppend(chain, e);
  }

  /** Two plain drafts of the same instant, sealed one after the other. */
  lemma {:induction false} AppendTwice(h: Hashes, s: State, d: Draft, d': Draft, e: AuditEvent, e': AuditEvent)
    requires Inv(h, s) && d.runId in s.audits && d'.runId == d.runId && IsPlainDraft(d) && IsPlainDraft(d')
    requires LastTime(s.audits[d.runId]) <= d.timestamp <= d'.timestamp
    requires Seal(h, s.audits[d.runId], d) == Ok(e) && Seal(h, s.audits[d.runId] + [e], d') == Ok(e')
    ensures Follows(h, s, Record(s, d.runId, [e, e']))
  {
    hide Inv, Follows, ChainOk, ReceiptsOk, RunOk, ArtifactsInv, ArtifactTrail, Seal, IsPlainDraft,
      RunsInv, LeasesInv, ApprovalsInv, ChainsInv, ReceiptsInv;
    var chain := s.audits[d.runId];
    var longer := chain + [e, e'];
    RunAndChain(h, s, d.runId);
    ValidParts(h, s);
    SealPlain(h, d.runId, chain, s.claims, d, e);
    SealPlain(h, d.runId, chain + [e], s.claims, d', e');
    assert chain + [e] + [e'] == longer;
    SameTrailKeepsArtifacts(s.artifacts, s.audits, d.runId, longer);
    GrowChain(h, s, d.runId, longer, s.artifacts);
  }

  /** What a successful consumption wrote, in terms of its parts. */
  lemma {:induction false} ConsumeBoundShape(h: Hashes, s: State, id: ApprovalId, run: Run, expected: U64,
                                             action: ActionRequest,
                                             actor: ActorId, now: Time, events: EventIds)
    returns (d: Draft, d': Draft, e: AuditEvent, e': AuditEvent, r: Run)
    requires KnownApproval(s, id) && WindowRun(s, s.approvals[id]) == Ok(run)
    requires run.id in s.audits && run.id == s.approvals[id].runId && RunOk(run.id, run, s.audits[run.id])
    requires ConsumeBound(h, s, s.approvals[id], run, expected, action, actor, now, events).Ok?
    ensures d.runId == run.id && d'.runId == run.id && IsPlainDraft(d) && IsPlainDraft(d')
    ensures LastTime(s.audits[run.id]) <= d.timestamp == d'.timestamp
    ensures Seal(h, s.audits[run.id], d) == Ok(e) && Seal(h, s.audits[run.id] + [e], d') == Ok(e')
    ensures var (s', done) := ConsumeBound(h, s, s.approvals[id], run, expected, action, actor, now, events).value;
            && done.approval.id == id && done.approval.runId == run.id
            && s' == Record(s, run.id, [e, e']).(approvals := s.approvals[id := done.approval],
                                                runs := s.runs[run.id := r],
                                                claims := s.claims[done.claim.actionId := done.claim])
            && IsConsumption(s, done.approval, r, done.claim)
            && RunOk(run.id, r, s.audits[run.id] + [e, e'])
  {
    var (s', done) := ConsumeBound(h, s, s.approvals[id], run, expected, action, actor, now, events).value;
    d := ApprovalDraft(done.approval, ApprovalConsumed, actor, now, events(0));
    d' := Draft(events(1), run.id, RuntimeStarted, actor, now, StatusDetail(Running));
    e := Seal(h, s.audits[run.id], d).value;
    e' := Seal(h, s.audits[run.id] + [e], d').value;
    r := s'.runs[run.id];
    RunningFits(h, run.id, run, s.audits[run.id], r, now, s.audits[run.id] + [e, e']);
  }

  lemma {:induction false} ConsumeBoundKeeps(h: Hashes, s: State, id: ApprovalId, run: Run, expected: U64,
                                             action: ActionRequest,
                                             actor: ActorId, now: Time, events: EventIds)
    requires Inv(h, s) && id in s.approvals && WindowRun(s, s.approvals[id]) == Ok(run)
    requires ConsumeBound(h, s, s.approvals[id], run, expected, action, actor, now, events).Ok?
    ensures Follows(h, s, ConsumeBound(h, s, s.approvals[id], run, expected, action, actor, now, events).value.0)
  {
    assert KnownApproval(s, id);
    assert RunOk(s.approvals[id].runId, run, s.audits[s.approvals[id].runId]);
    var d, d', e, e', r := ConsumeBoundShape(h, s, id, run, expected, action, actor, now, events);
    var (s', done) := ConsumeBound(h, s, s.approvals[id], run, expected, action, actor, now, events).value;
    AppendTwice(h, s, d, d', e, e');
    var logged := Record(s, run.id, [e, e']);
    Consume(h, logged, done.approval, r, done.claim);
    FollowsOn(h, s, logged, s');
  }

  lemma {:induction false} ConsumeApprovalKeeps(h: Hashes, s: State, id: ApprovalId, expected: U64,
                                                action: ActionRequest, actor: ActorId,
                                                now: Time, events: EventIds)
    requires Inv(h, s)
    ensures Follows(h, s, ConsumeApproval(h, s, id, expected, action, actor, now, events).0)
  {
    FollowsItself(h, s);
    if id in s.approvals && WindowRun(s, s.approvals[id]).Ok? {
      var current, run := s.approvals[id], WindowRun(s, s.approvals[id]).value;
      if PresentsWrongAction(h, current, action, expected, now) {
        if ApprovalEvent(h, s, current, ApprovalBindingMismatch, actor, now, events(0)).Ok? {
          ApprovalEventKeeps(h, s, current, ApprovalBindingMismatch, actor, now, events(0));
        }
      } else if ConsumeBound(h, s, current, run, expected, action, actor, now, events).Ok? {
        ConsumeBoundKeeps(h, s, id, run, expected, action, actor, now, events);
      }
    }
  }
}
