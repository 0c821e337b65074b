/** When each operation on runs and leases succeeds in a valid state, what it answers and what it leaves. */
module Contracts {
  import opened Prelude
  import opened TextRedaction
  import opened Records
  import opened AuditChain
  import opened StoreState
  import opened StoreInvariant
  import opened ApprovalGuarantees

  // ---------------------------------------------------------------- chains

  /** What an event says, its identity and its place in the chain apart. */
  datatype Said = Said(kind: EventKind, actor: ActorId, time: Time, metadata: Metadata)

  function SaidBy(e: AuditEvent): Said {
    Said(e.body.kind, e.body.actor, e.body.timestamp, e.body.metadata)
  }

  function SaidIn(events: seq<AuditEvent>): seq<Said> {
    seq(|events|, i requires 0 <= i < |events| => SaidBy(events[i]))
  }

  function ChainOf(s: State, id: RunId): seq<AuditEvent> {
    if id in s.audits then s.audits[id] else []
  }

  /** One chain, and no other, goes on with events that say just this. */
  ghost predicate Adds(s: State, s': State, id: RunId, said: seq<Said>) {
    && id in s'.audits && s'.audits == s.audits[id := s'.audits[id]]
    && ChainOf(s, id) <= s'.audits[id] && SaidIn(s'.audits[id][|ChainOf(s, id)|..]) == said
  }

  /** The run's chain takes so many more events at that time: the last one is not later, and there is room. */
  predicate Takes(s: State, id: RunId, now: Time, n: nat) {
    id in s.audits && s.audits[id] != [] && LastTime(s.audits[id]) <= now && |s.audits[id]| + n <= U64_MAX
  }

  lemma {:induction false} ExtendIsExact(h: Hashes, chain: seq<AuditEvent>, d: Draft, code: ErrorCode)
    requires chain != []
    ensures Extend(h, chain, d, code).Ok? <==> LastTime(chain) <= d.timestamp && |chain| < U64_MAX
    ensures var r := Extend(h, chain, d, code);
            r.Ok? ==> SaidBy(r.value) == Said(d.kind, d.actor, d.timestamp, d.metadata)
  {
  }

  lemma {:induction false} RecordAdds(s: State, id: RunId, e: AuditEvent)
    requires id in s.audits
    ensures Adds(s, Record(s, id, [e]), id, [SaidBy(e)])
  {
    assert (s.audits[id] + [e])[|s.audits[id]|..] == [e];
    assert SaidIn([e]) == [SaidBy(e)];
  }

  lemma {:induction false} AddsByChains(s: State, a: State, b: State, id: RunId, said: seq<Said>)
    requires Adds(s, a, id, said) && b.audits == a.audits
    ensures Adds(s, b, id, said)
  {
  }

  // ---------------------------------------------------------------- records

  /** The reason that is kept of a run that did not succeed. */
  function KeptReason(reason: Option<string>): string {
    match reason
    case None => "unspecified"
    case Some(text) => RedactText(text)
  }

  /** The record of a run that is moved to a status at a time: it counts one more revision, is dated then, started
      when it first runs, and when it ends is completed, with a reason unless it succeeded. */
  function Dated(run: Run, status: RunStatus, now: Time, reason: Option<string>): Run
    requires run.revision < U64_MAX
  {
    Run(run.id, run.runtime, run.workspace, status, run.revision + 1, run.actor, run.promptSha256, run.createdAt, now,
        if run.startedAt.Some? then run.startedAt else if status.Running? then Some(now) else None,
        if status.IsTerminal() then Some(now) else None,
        if status.IsTerminal() && !status.Succeeded? then Some(KeptReason(reason)) else None)
  }

  /** The states differ at most in the runs and the chains; one run was moved and announced. */
  ghost predicate MovesRun(s: State, s': State, id: RunId, status: RunStatus, now: Time, reason: Option<string>,
                           said: Said)
  {
    && id in s.runs && s.runs[id].revision < U64_MAX
    && s' == s.(runs := s.runs[id := Dated(s.runs[id], status, now, reason)], audits := s'.audits)
    && Adds(s, s', id, [said])
  }

  lemma {:induction false} EventIsExact(h: Hashes, s: State, id: RunId, actor: ActorId, now: Time, kind: EventKind,
                                        event: EventId)
    requires id in s.audits && s.audits[id] != []
    ensures var r := AppendEvent(h, s, id, actor, now, kind, event);
            && (r.Ok? <==> Takes(s, id, now, 1))
            && (r.Ok? ==> r.value == s.(audits := r.value.audits)
                          && Adds(s, r.value, id, [Said(kind, actor, now, NoDetail)]))
  {
    hide Adds, Extend;
    var d := Draft(event, id, kind, actor, now, NoDetail);
    ExtendIsExact(h, s.audits[id], d, InvalidStateTransition);
    if Extend(h, s.audits[id], d, InvalidStateTransition).Ok? {
      RecordAdds(s, id, Extend(h, s.audits[id], d, InvalidStateTransition).value);
    }
  }

  lemma {:induction false} AdvanceIsDated(run: Run, next: RunStatus, reason: Option<string>, now: Time)
    requires run.revision < U64_MAX && run.status.CanTransitionTo(next)
    requires run.completedAt.None? && run.terminalReason.None?
    ensures Advance(run, next, reason, now) == Ok(Dated(run, next, now, reason))
  {
    hide RedactText;
  }

  /** A transition of a run that agrees with its chain. */
  lemma {:induction false} TransitionIsExact(h: Hashes, s: State, id: RunId, next: RunStatus, reason: Option<string>,
                                             now: Time, actor: ActorId, kind: EventKind, event: EventId)
    requires id in s.runs && id in s.audits && RunOk(id, s.runs[id], s.audits[id])
    ensures var r := ApplyTransition(h, s, s.runs[id], next, reason, now, actor, kind, event);
            && (r.Ok? <==> s.runs[id].status.CanTransitionTo(next) && Takes(s, id, now, 1))
            && (r.Ok? ==> MovesRun(s, r.value.0, id, next, now, reason, Said(kind, actor, now, NoDetail))
                          && id in r.value.0.runs && r.value.0.runs[id] == r.value.1)
  {
    hide AppendEvent, Advance, Dated;
    EventIsExact(h, s, id, actor, now, kind, event);
    if s.runs[id].status.CanTransitionTo(next) && s.runs[id].revision < U64_MAX {
      AdvanceIsDated(s.runs[id], next, reason, now);
    }
  }

  // ---------------------------------------------------------------- runs and audit

  lemma {:induction false} CreateIsExact(h: Hashes, s: State, run: Run, audit: Envelope, event: EventId)
    requires Inv(h, s)
    ensures var r := CreateRun(h, s, run, audit, event);
            && (r.Ok? <==> run.IsNew() && audit.timestamp == run.createdAt && run.id !in s.runs)
            && (r.Ok? ==> var (s', answer) := r.value;
                          && answer == run && s' == s.(runs := s.runs[run.id := run], audits := s'.audits)
                          && Adds(s, s', run.id, [Said(RunCreated, audit.actor, run.createdAt, NoDetail)]))
  {
    ValidParts(h, s);
    hide Inv, LeasesInv, ApprovalsInv, ChainsInv, ReceiptsInv, ArtifactsInv, Run.IsNew;
    if CreateRun(h, s, run, audit, event).Ok? {
      var chain := CreateRun(h, s, run, audit, event).value.0.audits[run.id];
      assert run.id !in s.audits && |chain| == 1 && chain[0..] == chain;
      assert SaidIn(chain) == [Said(RunCreated, audit.actor, run.createdAt, NoDetail)];
    }
  }

  lemma {:induction false} MoveIsExact(h: Hashes, s: State, id: RunId, expected: U64, next: RunStatus,
                                       reason: Option<string>, audit: Envelope, event: EventId)
    requires Inv(h, s)
    ensures var r := TransitionRun(h, s, id, expected, next, reason, audit, event);
            && (r.Ok? <==> && id in s.runs && id !in s.leases && s.runs[id].revision == expected
                           && s.runs[id].status.CanTransitionTo(next) && Takes(s, id, audit.timestamp, 1))
            && (r.Ok? ==> && MovesRun(s, r.value.0, id, next, audit.timestamp, reason,
                                      Said(TransitionEvent(next), audit.actor, audit.timestamp, StatusDetail(next)))
                          && id in r.value.0.runs && r.value.0.runs[id] == r.value.1)
  {
    hide Inv, ChainOk, ReceiptsOk, Adds, Extend, Advance, Dated;
    if id in s.runs {
      RunAndChain(h, s, id);
      var run := s.runs[id];
      var d := Draft(event, id, TransitionEvent(next), audit.actor, audit.timestamp, StatusDetail(next));
      ExtendIsExact(h, s.audits[id], d, InvalidStateTransition);
      var e := Extend(h, s.audits[id], d, InvalidStateTransition);
      if e.Ok? && run.status.CanTransitionTo(next) && run.revision < U64_MAX {
        RecordAdds(s, id, e.value);
        AdvanceIsDated(run, next, reason, audit.timestamp);
        var moved := Record(s, id, [e.value]).(runs := s.runs[id := Dated(run, next, audit.timestamp, reason)]);
        AddsByChains(s, Record(s, id, [e.value]), moved, id, [SaidBy(e.value)]);
      }
    }
  }

  lemma {:induction false} AuditIsExact(h: Hashes, s: State, id: RunId, kind: EventKind, audit: Envelope,
                                        event: EventId)
    requires Inv(h, s)
    ensures var r := AppendAudit(h, s, id, kind, audit, event);
            && (r.Ok? <==> id in s.runs && id !in s.leases && Takes(s, id, audit.timestamp, 1))
            && (r.Ok? ==> && r.value.0 == s.(audits := r.value.0.audits)
                          && Adds(s, r.value.0, id, [Said(kind, audit.actor, audit.timestamp, NoDetail)]))
  {
    hide Inv, ChainOk, ReceiptsOk, Adds, Extend;
    if id in s.runs {
      RunAndChain(h, s, id);
      var d := Draft(event, id, kind, audit.actor, audit.timestamp, NoDetail);
      ExtendIsExact(h, s.audits[id], d, InvalidStateTransition);
      var e := Extend(h, s.audits[id], d, InvalidStateTransition);
      if e.Ok? { RecordAdds(s, id, e.value); }
    }
  }

  /** A receipt is recorded exactly when its claim is there, its run unleased and unspoiled, it is not recorded yet
      and the chain takes it; it is recognised exactly when it is recorded already. */
  lemma {:induction false} ReconciliationIsExact(h: Hashes, s: State, receipt: ExecutionReceipt, audit: Envelope,
                                                 event: EventId)
    requires Inv(h, s)
    ensures var r := ReconcileExecution(h, s, receipt, audit, event);
            var id := receipt.runId;
            var open := id !in s.leases && ClaimCovers(s.claims, receipt) && id in s.audits
                        && !HasBareExecution(s.audits[id]);
            && (r.Ok? <==> open && (Recorded(s.audits[id], receipt.actionId) || Takes(s, id, audit.timestamp, 1)))
            && (r.Ok? && !r.value.1 ==> Recorded(s.audits[id], receipt.actionId) && r.value.0 == s)
            && (r.Ok? && r.value.1 ==>
                  && !Recorded(s.audits[id], receipt.actionId) && r.value.0 == s.(audits := r.value.0.audits)
                  && Adds(s, r.value.0, id, [Said(ActionExecuted, audit.actor, audit.timestamp,
                                                  ExecutionDetail(receipt.actionId, receipt.parameterHash))]))
  {
    hide Inv, ChainOk, ReceiptsOk, Adds, Extend, HasBareExecution, Recorded, ReceiptWasAudited;
    var id := receipt.runId;
    if id in s.audits && ClaimCovers(s.claims, receipt) {
      RunAndChain(h, s, id);
      ScanOfChain(h, s.audits[id], s.claims, receipt);
      var d := Draft(event, id, ActionExecuted, audit.actor, audit.timestamp,
                     ExecutionDetail(receipt.actionId, receipt.parameterHash));
      ExtendIsExact(h, s.audits[id], d, InvalidStateTransition);
      var e := Extend(h, s.audits[id], d, InvalidStateTransition);
      if e.Ok? { RecordAdds(s, id, e.value); }
    }
  }

  // ---------------------------------------------------------------- artifacts

  /** The chain takes one event per artifact. The last place of a chain is never given to an artifact. */
  predicate TakesBatch(s: State, id: RunId, now: Time, n: nat) {
    if n == 0 then Takes(s, id, now, 1) else Takes(s, id, now, n + 1)
  }

  function SaidOfBatch(batch: seq<Artifact>, actor: ActorId, now: Time): seq<Said> {
    seq(|batch|, i requires 0 <= i < |batch| =>
          Said(ArtifactCreated, actor, now, ArtifactDetail(batch[i].sha256, batch[i].size)))
  }

  lemma {:induction false} BatchEventsAreExact(h: Hashes, chain: seq<AuditEvent>, id: RunId, batch: seq<Artifact>,
                                               audit: Envelope, ids: EventIds)
    requires chain != []
    ensures var r := ArtifactEvents(h, chain, id, batch, audit, ids);
            && (r.Ok? <==> batch == [] || |chain| + |batch| < U64_MAX)
            && (r.Ok? ==> SaidIn(r.value) == SaidOfBatch(batch, audit.actor, audit.timestamp))
  {
    if batch != [] {
      var rest := batch[..|batch| - 1];
      BatchEventsAreExact(h, chain, id, rest, audit, ids);
      var earlier := ArtifactEvents(h, chain, id, rest, audit, ids);
      if earlier.Ok? { assert |earlier.value| == |SaidIn(earlier.value)| == |rest|; }
      var r := ArtifactEvents(h, chain, id, batch, audit, ids);
      if r.Ok? {
        assert r.value[..|rest|] == earlier.value;
        assert SaidIn(r.value) == SaidIn(earlier.value) + [SaidBy(r.value[|rest|])];
      }
    }
  }

  lemma {:induction false} BatchIsExact(h: Hashes, s: State, id: RunId, batch: seq<Artifact>, audit: Envelope,
                                        ids: EventIds)
    requires Inv(h, s)
    ensures var r := AddArtifacts(h, s, id, batch, audit, ids);
            && (r.Ok? <==> BatchOk(s, id, batch) && TakesBatch(s, id, audit.timestamp, |batch|))
            && (r.Ok? ==> var s' := r.value.0;
                          && s' == s.(artifacts := s.artifacts[id := Stored(s.artifacts, id) + batch],
                                      audits := s'.audits)
                          && Adds(s, s', id, SaidOfBatch(batch, audit.actor, audit.timestamp)))
  {
    hide Inv, ChainOk, ReceiptsOk, BatchOk, ArtifactEvents, SaidOfBatch;
    if BatchOk(s, id, batch) {
      BatchIsOfRun(s, id, batch);
      RunAndChain(h, s, id);
      BatchEventsAreExact(h, s.audits[id], id, batch, audit, ids);
      var r := ArtifactEvents(h, s.audits[id], id, batch, audit, ids);
      if r.Ok? { assert (s.audits[id] + r.value)[|s.audits[id]|..] == r.value; }
    }
  }

  lemma {:induction false} BatchIsOfRun(s: State, id: RunId, batch: seq<Artifact>)
    requires BatchOk(s, id, batch)
    ensures id in s.runs
  {
  }
}
