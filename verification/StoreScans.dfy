/** The loops of the store, each proved against the function that specifies it. */
module StoreScans {
  import opened Prelude
  import opened Records
  import opened AuditChain
  import opened Ordering
  import opened StoreState

  const U8_MAX := 255

  // ---------------------------------------------------------------- receipts

  lemma {:induction false} CountIsMonotone(events: seq<AuditEvent>, action: ActionId, i: nat)
    requires i <= |events|
    ensures CountExecutions(events[..i], action) <= CountExecutions(events, action)
    decreases |events| - i
  {
    if i == |events| {
      assert events[..i] == events;
    } else {
      assert events[..i + 1][..i] == events[..i];
      CountIsMonotone(events, action, i + 1);
    }
  }

  /** `execution_receipt_was_audited`: one pass over the chain with an eight-bit counter. */
  method ScanReceipts(events: seq<AuditEvent>, receipt: ExecutionReceipt) returns (r: Result<bool>)
    ensures r == ReceiptWasAudited(events, receipt)
  {
    var exactMatches := 0;
    for i := 0 to |events|
      invariant exactMatches == CountExecutions(events[..i], receipt.actionId) <= U8_MAX
      invariant forall k | 0 <= k < i :: !SpoilsReceipt(events[k], receipt)
    {
      var e := events[i];
      assert events[..i + 1][..i] == events[..i];
      if !e.body.kind.ActionExecuted? { continue; }
      var bound := BoundAction(e.body.metadata);
      if bound.None? {
        assert SpoilsReceipt(events[i], receipt);
        return Err(ApprovalInvalid);
      }
      if bound.value.0 == receipt.actionId {
        if e.body.runId != receipt.runId || bound.value.1 != receipt.parameterHash {
          assert SpoilsReceipt(events[i], receipt);
          return Err(ApprovalInvalid);
        }
        if exactMatches == U8_MAX {
          CountIsMonotone(events, receipt.actionId, i);
          return Err(ApprovalInvalid);
        }
        exactMatches := exactMatches + 1;
      }
    }
    assert events[..|events|] == events;
    match exactMatches {
      case 0 => return Ok(false);
      case 1 => return Ok(true);
      case _ => return Err(ApprovalInvalid);
    }
  }

  // ---------------------------------------------------------------- the queue

  lemma {:induction false} FirstIsUnique(s: State, a: RunId)
    requires IsNextInQueue(s, a)
    ensures NextInQueue(s) == Some(a)
  {
    var b := NextInQueue(s).value;
    assert IsNextInQueue(s, b);
    assert ClaimedBefore(s, a, b) && ClaimedBefore(s, b, a);
  }

  /** The search of `claim_next_run` for the least queued and unleased run. */
  method FindNextInQueue(s: State) returns (next: Option<RunId>)
    ensures next == NextInQueue(s)
  {
    var ids := Ascending(s.runs.Keys);
    next := None;
    for i := 0 to |ids|
      invariant next.None? ==> forall k | 0 <= k < i :: !IsClaimable(s, ids[k])
      invariant next.Some? ==> IsClaimable(s, next.value)
      invariant next.Some? ==> forall k | 0 <= k < i && IsClaimable(s, ids[k]) :: ClaimedBefore(s, next.value, ids[k])
    {
      if IsClaimable(s, ids[i]) && (next.None? || !ClaimedBefore(s, next.value, ids[i])) {
        next := Some(ids[i]);
      }
    }
    assert forall id | IsClaimable(s, id) :: id in ids;
    if next.Some? {
      assert IsNextInQueue(s, next.value);
      FirstIsUnique(s, next.value);
    }
  }

  // ---------------------------------------------------------------- artifacts

  lemma {:induction false} FailureIsFinal(h: Hashes, chain: seq<AuditEvent>, id: RunId, batch: seq<Artifact>,
                                          audit: Envelope, ids: EventIds, i: nat)
    requires i <= |batch| && ArtifactEvents(h, chain, id, batch[..i], audit, ids).Err?
    ensures ArtifactEvents(h, chain, id, batch, audit,
                           ids) == Err(ArtifactEvents(h, chain, id, batch[..i], audit, ids).code)
    decreases |batch| - i
  {
    if i == |batch| {
      assert batch[..i] == batch;
    } else {
      assert batch[..i + 1][..i] == batch[..i];
      FailureIsFinal(h, chain, id, batch, audit, ids, i + 1);
    }
  }

  lemma {:induction false} OneMoreArtifact(h: Hashes, chain: seq<AuditEvent>, id: RunId, batch: seq<Artifact>,
                                           audit: Envelope, ids: EventIds,
                                           i: nat, events: seq<AuditEvent>)
    requires i < |batch| && |events| == i && ArtifactEvents(h, chain, id, batch[..i], audit, ids) == Ok(events)
    ensures var d :=
      Draft(ids(i), id, ArtifactCreated, audit.actor, audit.timestamp, ArtifactDetail(batch[i].sha256, batch[i].size));
            var e := Seal(h, chain + events, d);
            ArtifactEvents(h, chain, id, batch[..i + 1], audit, ids) ==
              if e.Err? then Err(e.code) else if |chain| + i + 1 >= U64_MAX then Err(Internal)
                else Ok(events + [e.value])
  {
    assert batch[..i + 1][..i] == batch[..i] && batch[..i + 1][i] == batch[i];
  }

  /** The loop of `record_artifacts`, carrying the previous hash and the next sequence number. */
  method SealArtifacts(h: Hashes, chain: seq<AuditEvent>, id: RunId, batch: seq<Artifact>, audit: Envelope,
                       ids: EventIds)
    returns (r: Result<seq<AuditEvent>>)
    requires |chain| < U64_MAX
    ensures r == ArtifactEvents(h, chain, id, batch, audit, ids)
  {
    var previous, nextSequence := LastHash(chain), |chain| + 1;
    var events: seq<AuditEvent> := [];
    for i := 0 to |batch|
      invariant |events| == i && ArtifactEvents(h, chain, id, batch[..i], audit, ids) == Ok(events)
      invariant previous == LastHash(chain + events) && nextSequence == |chain| + i + 1 <= U64_MAX
    {
      OneMoreArtifact(h, chain, id, batch, audit, ids, i, events);
      var sealed := NewEvent(h, EventBody(ids(i), id, nextSequence, ArtifactCreated, audit.actor, audit.timestamp,
                                          ArtifactDetail(batch[i].sha256, batch[i].size), previous));
      if sealed.Err? {
        FailureIsFinal(h, chain, id, batch, audit, ids, i + 1);
        return Err(sealed.code);
      }
      if nextSequence == U64_MAX {
        FailureIsFinal(h, chain, id, batch, audit, ids, i + 1);
        return Err(Internal);
      }
      assert chain + (events + [sealed.value]) == (chain + events) + [sealed.value];
      previous, nextSequence := Some(sealed.value.hash), nextSequence + 1;
      events := events + [sealed.value];
    }
    assert batch[..|batch|] == batch;
    return Ok(events);
  }
}
