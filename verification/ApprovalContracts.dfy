/** When each operation on approvals succeeds in a valid state, what it answers and what it leaves. */
module ApprovalContracts {
  import opened Prelude
  import opened Text
  import opened TextRedaction
  import opened Records
  import opened AuditChain
  import opened StoreState
  import opened StoreInvariant
  import opened ApprovalGuarantees
  import opened Contracts

  /** The run has not moved since the approval was asked for, and so still waits for it. */
  predicate WindowOpen(s: State, a: ApprovalRequest) {
    && a.runId in s.runs && a.id in s.windows && s.windows[a.id] == s.runs[a.runId].revision
    && s.runs[a.runId].status.AwaitingApproval?
  }

  /** What an event about an approval says. */
  function SaidOf(a: ApprovalRequest, kind: EventKind, actor: ActorId, now: Time): Said {
    Said(kind, actor, now, ApprovalDetail(a.id, a.actionId, a.parameterHash, a.revision, a.status))
  }

  /** The approval, and no other, has the new record, and its run's chain says so. */
  ghost predicate PutsRecord(s: State, s': State, a: ApprovalRequest, said: Said) {
    s' == s.(approvals := s.approvals[a.id := a], audits := s'.audits) && Adds(s, s', a.runId, [said])
  }

  lemma {:induction false} ApprovalEventIsExact(h: Hashes, s: State, a: ApprovalRequest, kind: EventKind,
                                                actor: ActorId, now: Time, event: EventId)
    requires a.runId in s.audits && s.audits[a.runId] != []
    ensures var r := ApprovalEvent(h, s, a, kind, actor, now, event);
            && (r.Ok? <==> Takes(s, a.runId, now, 1))
            && (r.Ok? ==> SaidBy(r.value) == SaidOf(a, kind, actor, now)
                          && Adds(s, Record(s, a.runId, [r.value]), a.runId, [SaidBy(r.value)]))
  {
    hide Extend, Adds;
    var detail := ApprovalDetail(a.id, a.actionId, a.parameterHash, a.revision, a.status);
    ExtendIsExact(h, s.audits[a.runId], Draft(event, a.runId, kind, actor, now, detail), ApprovalInvalid);
    var r := ApprovalEvent(h, s, a, kind, actor, now, event);
    if r.Ok? { RecordAdds(s, a.runId, r.value); }
  }

  lemma {:induction false} ApprovalAndRun(h: Hashes, s: State, id: ApprovalId)
    requires Inv(h, s) && id in s.approvals
    ensures var a := s.approvals[id];
            && a.id == id && id in s.windows && a.runId in s.runs && a.runId in s.audits && s.audits[a.runId] != []
            && ApprovalOk(id, a, s.windows[id], s.runs[a.runId])
            && RunOk(a.runId, s.runs[a.runId], s.audits[a.runId])
  {
    var a := s.approvals[id];
    RunAndChain(h, s, a.runId);
  }

  // ---------------------------------------------------------------- request, decision and expiry

  /** The request as it is stored. */
  function Cleaned(request: ApprovalRequest): ApprovalRequest {
    request.(requestReason := RedactText(request.requestReason))
  }

  /** A request is taken exactly when it is new and valid with its reason redacted, comes from its requester now, is
      for a run that waits, and neither its id nor its action has an approval; it is bound to the run's revision. */
  lemma {:induction false} RequestIsExact(h: Hashes, s: State, request: ApprovalRequest, actor: ActorId, now: Time,
                                          event: EventId)
    requires Inv(h, s)
    ensures var r := CreateApproval(h, s, request, actor, now, event);
            var a := Cleaned(request);
            && (r.Ok? <==>
                  && request.status.Pending? && request.revision == 0 && request.requestedBy == actor
                  && request.createdAt == now && Utf8Length(request.requestReason) <= 2048 && a.IsValid()
                  && request.id !in s.approvals && !HasApproval(s.approvals, request.actionId)
                  && request.runId in s.runs && s.runs[request.runId].status.AwaitingApproval?
                  && Takes(s, request.runId, now, 1))
            && (r.Ok? ==> var (s', answer) := r.value;
                          && answer == a && request.runId in s.runs
                          && s' == s.(approvals := s.approvals[a.id := a], audits := s'.audits,
                                      windows := s.windows[a.id := s.runs[request.runId].revision])
                          && Adds(s, s', a.runId, [SaidOf(a, EventKind.ApprovalRequested, actor, now)]))
  {
    hide Inv, ChainOk, ReceiptsOk, Adds, ApprovalEvent, ApprovalExists, HasApproval, RedactText, Utf8Length,
      ApprovalRequest.IsValid;
    var a := Cleaned(request);
    ClaimsPart(h, s);
    DuplicateTests(s, a);
    if request.runId in s.runs {
      RunAndChain(h, s, request.runId);
      ApprovalEventIsExact(h, s, a, EventKind.ApprovalRequested, actor, now, event);
      var r := CreateApproval(h, s, request, actor, now, event);
      if r.Ok? {
        var e := ApprovalEvent(h, s, a, EventKind.ApprovalRequested, actor, now, event).value;
        AddsByChains(s, Record(s, a.runId, [e]), r.value.0, a.runId, [SaidBy(e)]);
      }
    }
  }

  lemma {:induction false} ClaimsPart(h: Hashes, s: State)
    requires Inv(h, s)
    ensures ClaimsInv(s.claims, s.approvals)
  {
  }

  /** The record of a decided request. */
  function Decided(a: ApprovalRequest, decision: ApprovalDecision, actor: ActorId, reason: Option<string>,
                   now: Time): ApprovalRequest
  {
    var kept := match reason case None => None case Some(text) => Some(RedactText(text));
    var record := Some(DecisionRecord(decision, actor, kept, now));
    match decision
    case Approve => a.(status := Approved, revision := 1, decision := record)
    case Deny => a.(status := Denied, revision := 1, decision := record)
  }

  /** A decision is taken exactly for a pending request at its revision, from its creation to its expiry, with a short
      reason, and an approval only while the run still waits for it. */
  lemma {:induction false} DecisionIsExact(h: Hashes, s: State, id: ApprovalId, expected: U64,
                                           decision: ApprovalDecision, actor: ActorId, reason: Option<string>,
                                           now: Time, event: EventId)
    requires Inv(h, s)
    ensures var r := DecideApproval(h, s, id, expected, decision, actor, reason, now, event);
            && (r.Ok? <==>
                  && id in s.approvals && s.approvals[id].status.Pending? && s.approvals[id].revision == expected
                  && s.approvals[id].createdAt <= now < s.approvals[id].expiresAt
                  && (reason.Some? ==> Utf8Length(reason.value) <= 2048)
                  && (decision.Approve? ==> WindowOpen(s, s.approvals[id]))
                  && Takes(s, s.approvals[id].runId, now, 1))
            && (r.Ok? ==> var a := Decided(s.approvals[id], decision, actor, reason, now);
                          && r.value.1 == a
                          && PutsRecord(s, r.value.0, a,
                                        SaidOf(a, if decision.Approve? then ApprovalApproved else ApprovalDenied,
                                               actor, now)))
  {
    hide Inv, ChainOk, ReceiptsOk, Adds, ApprovalEvent, RedactText, Utf8Length, IsBlank;
    if id in s.approvals {
      ApprovalAndRun(h, s, id);
      var a := Decided(s.approvals[id], decision, actor, reason, now);
      var kind := if decision.Approve? then ApprovalApproved else ApprovalDenied;
      ApprovalEventIsExact(h, s, a, kind, actor, now, event);
      var r := DecideApproval(h, s, id, expected, decision, actor, reason, now, event);
      if r.Ok? {
        var e := ApprovalEvent(h, s, a, kind, actor, now, event).value;
        AddsByChains(s, Record(s, a.runId, [e]), r.value.0, a.runId, [SaidBy(e)]);
      }
    }
  }

  /** An approval expires exactly when it is open, at its revision, and its time has come. */
  lemma {:induction false} ExpiryIsExact(h: Hashes, s: State, id: ApprovalId, expected: U64, actor: ActorId, now: Time,
                                         event: EventId)
    requires Inv(h, s)
    ensures var r := ExpireApproval(h, s, id, expected, actor, now, event);
            && (r.Ok? <==>
                  && id in s.approvals && (s.approvals[id].status.Pending? || s.approvals[id].status.Approved?)
                  && s.approvals[id].revision == expected && s.approvals[id].expiresAt <= now
                  && Takes(s, s.approvals[id].runId, now, 1))
            && (r.Ok? ==> s.approvals[id].revision < 2 &&
                          var a := s.approvals[id].(status := Expired, revision := s.approvals[id].revision + 1);
                          r.value.1 == a && PutsRecord(s, r.value.0, a, SaidOf(a, ApprovalExpired, actor, now)))
  {
    hide Inv, ChainOk, ReceiptsOk, Adds, ApprovalEvent, IsBlank;
    if id in s.approvals {
      ApprovalAndRun(h, s, id);
      if s.approvals[id].status.Pending? || s.approvals[id].status.Approved? {
        var a := s.approvals[id].(status := Expired, revision := s.approvals[id].revision + 1);
        ApprovalEventIsExact(h, s, a, ApprovalExpired, actor, now, event);
        var r := ExpireApproval(h, s, id, expected, actor, now, event);
        if r.Ok? {
          var e := ApprovalEvent(h, s, a, ApprovalExpired, actor, now, event).value;
          AddsByChains(s, Record(s, a.runId, [e]), r.value.0, a.runId, [SaidBy(e)]);
        }
      }
    }
  }

  // ---------------------------------------------------------------- consumption

  /** The approval could be consumed now, were it for the action that is presented. */
  ghost predicate Consumable(s: State, id: ApprovalId, expected: U64, now: Time) {
    && id in s.approvals && s.approvals[id].status.Approved? && s.approvals[id].revision == expected
    && now < s.approvals[id].expiresAt && WindowOpen(s, s.approvals[id])
  }

  /** What a consumption leaves. */
  ghost predicate Consumes(s: State, s': State, id: ApprovalId, actor: ActorId, now: Time) {
    && id in s.approvals && s.approvals[id].runId in s.runs && s.runs[s.approvals[id].runId].revision < U64_MAX
    && var a := Spent(s.approvals[id], now);
       && s' == s.(approvals := s.approvals[id := a], audits := s'.audits,
                   runs := s.runs[a.runId := Dated(s.runs[a.runId], Running, now, None)],
                   claims := s.claims[a.actionId := ClaimOf(a, actor, now)])
       && Adds(s, s', a.runId, [SaidOf(a, ApprovalConsumed, actor, now),
                                Said(RuntimeStarted, actor, now, StatusDetail(Running))])
  }

  lemma {:induction false} TwoAdd(s: State, id: RunId, e: AuditEvent, e': AuditEvent)
    requires id in s.audits
    ensures Adds(s, Record(s, id, [e, e']), id, [SaidBy(e), SaidBy(e')])
  {
    assert (s.audits[id] + [e, e'])[|s.audits[id]|..] == [e, e'];
  }

  lemma {:induction false} RunningIsDated(run: Run, now: Time)
    requires run.status.AwaitingApproval? && run.revision < U64_MAX && run.completedAt.None? && run.terminalReason.None?
    ensures run.(status := Running, revision := run.revision + 1, updatedAt := now,
                 startedAt := if run.startedAt.None? then Some(now) else run.startedAt)
            == Dated(run, Running, now, None)
  {
    hide RedactText;
  }

  /** The record of a consumed approval, and the claim that comes with it. */
  function Spent(a: ApprovalRequest, now: Time): ApprovalRequest {
    a.(status := Consumed, revision := 2, consumedAt := Some(now))
  }

  function ClaimOf(a: ApprovalRequest, actor: ActorId, now: Time): ActionClaim {
    ActionClaim(a.runId, a.actionId, a.parameterHash, actor, now)
  }

  lemma {:induction false} SpentIsValid(h: Hashes, a: ApprovalRequest, action: ActionRequest, now: Time)
    requires a.IsValid() && a.status.Approved? && a.revision == a.RevisionOfStatus() && now < a.expiresAt
    requires BindingMatches(h, a, action)
    ensures CanConsumeAt(h, a, action, 1, now).Ok? && a.revision == 1 && a.decision.Some?
    ensures Spent(a, now).IsValid() <==> a.decision.value.decidedAt <= now
  {
    hide IsBlank;
  }

  /** The successful path, for an approval that could be consumed and the action it is bound to. */
  lemma {:induction false} BoundIsExact(h: Hashes, s: State, id: ApprovalId, expected: U64, action: ActionRequest,
                                        actor: ActorId, now: Time, events: EventIds)
    requires Inv(h, s) && Consumable(s, id, expected, now) && BindingMatches(h, s.approvals[id], action)
    ensures var a := s.approvals[id];
            var r := ConsumeBound(h, s, a, s.runs[a.runId], expected, action, actor, now, events);
            && a.decision.Some? && (r.Ok? <==> a.decision.value.decidedAt <= now && Takes(s, a.runId, now, 2))
            && (r.Ok? ==> Consumes(s, r.value.0, id, actor, now)
                          && r.value.1 == ApprovalConsumption(Spent(a, now), ClaimOf(a, actor, now)))
  {
    hide Inv, ChainOk, ReceiptsOk, Adds, ApprovalEvent, CanConsumeAt, ApprovalRequest.IsValid, Dated, Seal;
    ApprovalAndRun(h, s, id);
    var a := s.approvals[id];
    var run, done := s.runs[a.runId], Spent(a, now);
    SpentIsValid(h, a, action, now);
    ClaimedBranchIsUnreachable(h, s, id, action, expected, now);
    ApprovalEventIsExact(h, s, done, ApprovalConsumed, actor, now, events(0));
    var first := ApprovalEvent(h, s, done, ApprovalConsumed, actor, now, events(0));
    if first.Ok? {
      var chain := s.audits[a.runId] + [first.value];
      var d := Draft(events(1), run.id, RuntimeStarted, actor, now, StatusDetail(Running));
      ExtendIsExact(h, chain, d, Internal);
      var second := Seal(h, chain, d);
      if second.Ok? {
        RunningIsDated(run, now);
        TwoAdd(s, a.runId, first.value, second.value);
        var r := ConsumeBound(h, s, a, run, expected, action, actor, now, events);
        if r.Ok? {
          AddsByChains(s, Record(s, a.runId, [first.value, second.value]), r.value.0, a.runId,
                       [SaidBy(first.value), SaidBy(second.value)]);
        }
      }
    }
  }

  /** A consumption succeeds exactly for an approval that is granted, at its revision, after its decision and before its
      expiry, whose run still waits for it, with the action it is bound to, and room for two events. */
  lemma {:induction false} ConsumptionIsExact(h: Hashes, s: State, id: ApprovalId, expected: U64, action: ActionRequest,
                                              actor: ActorId, now: Time, events: EventIds)
    requires Inv(h, s)
    ensures var (s', r) := ConsumeApproval(h, s, id, expected, action, actor, now, events);
            && (r.Ok? <==> && Consumable(s, id, expected, now) && BindingMatches(h, s.approvals[id], action)
                           && s.approvals[id].decision.Some? && s.approvals[id].decision.value.decidedAt <= now
                           && Takes(s, s.approvals[id].runId, now, 2))
            && (r.Ok? ==> && Consumes(s, s', id, actor, now)
                          && r.value == ApprovalConsumption(Spent(s.approvals[id], now),
                                                            ClaimOf(s.approvals[id], actor, now)))
  {
    hide Inv, ChainOk, ReceiptsOk, Adds, ApprovalEvent, ApprovalRequest.IsValid, Dated, Seal, ConsumeBound, Consumes;
    if id in s.approvals {
      ApprovalAndRun(h, s, id);
      NotConsumable(h, s, id, expected, action, actor, now, events);
      if Consumable(s, id, expected, now) && BindingMatches(h, s.approvals[id], action) {
        BoundIsExact(h, s, id, expected, action, actor, now, events);
      }
    }
  }

  lemma {:induction false} NotConsumable(h: Hashes, s: State, id: ApprovalId, expected: U64, action: ActionRequest,
                                         actor: ActorId, now: Time, events: EventIds)
    requires id in s.approvals && s.approvals[id].runId in s.runs && s.approvals[id].id == id
    ensures var a := s.approvals[id];
            ConsumeBound(h, s, a, s.runs[a.runId], expected, action, actor, now, events).Ok? && WindowRun(s, a).Ok? ==>
              Consumable(s, id, expected, now) && BindingMatches(h, a, action)
  {
    hide ApprovalEvent, Seal;
  }

  /** A consumption that fails leaves the store as it was, except that an approval which could be consumed, presented
      with an action it is not bound to, is answered by one event that says so. */
  lemma {:induction false} MismatchIsExact(h: Hashes, s: State, id: ApprovalId, expected: U64, action: ActionRequest,
                                           actor: ActorId, now: Time, events: EventIds)
    requires Inv(h, s) && ConsumeApproval(h, s, id, expected, action, actor, now, events).1.Err?
    ensures var s' := ConsumeApproval(h, s, id, expected, action, actor, now, events).0;
            if Consumable(s, id, expected, now) && !BindingMatches(h, s.approvals[id], action)
               && Takes(s, s.approvals[id].runId, now, 1)
            then && s' == s.(audits := s'.audits)
                 && Adds(s, s', s.approvals[id].runId,
                         [SaidOf(s.approvals[id], ApprovalBindingMismatch, actor, now)])
            else s' == s
  {
    hide Inv, ChainOk, ReceiptsOk, Adds, ApprovalEvent, IsBlank, ConsumeBound;
    if id in s.approvals {
      ApprovalAndRun(h, s, id);
      ApprovalEventIsExact(h, s, s.approvals[id], ApprovalBindingMismatch, actor, now, events(0));
    }
  }
}
