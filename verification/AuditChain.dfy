/** Audit events, the hash that binds them and the chain they form. */
module AuditChain {
  import opened Prelude
  import opened Records

  datatype EventKind =
    | RunCreated
    | RuntimeSelected
    | SandboxCreated
    | ActionRequested
    | PolicyAllowed
    | PolicyDenied
    | ApprovalRequested
    | ApprovalApproved
    | ApprovalDenied
    | ApprovalExpired
    | ApprovalConsumed
    | ActionExecuted
    | RuntimeStarted
    | RuntimeOutput
    | ArtifactCreated
    | RuntimeCompleted
    | SandboxDestroyed
    | RunCompleted
    | RunFailed
    | ApprovalBindingMismatch
    | CancelRequestRecorded
    | CancelConfirmed

  /** The typed content of an event; `AuditWire` renders it as JSON. */
  datatype Metadata =
    | NoDetail
    | StatusDetail(status: RunStatus)
    | ArtifactDetail(sha256: Digest, size: U64)
    | ExecutionDetail(actionId: ActionId, parameterHash: Digest)
    | ApprovalDetail(approvalId: ApprovalId, approvedAction: ActionId, boundHash: Digest,
                     revision: U64, approvalStatus: ApprovalStatus)

  /** Everything of an event that its hash covers. */
  datatype EventBody = EventBody(id: EventId,
                                 runId: RunId,
                                 sequence: nat,
                                 kind: EventKind,
                                 actor: ActorId,
                                 timestamp: Time,
                                 metadata: Metadata,
                                 previous: Option<Digest>)

  datatype AuditEvent = AuditEvent(body: EventBody, hash: Digest)

  /** The two digests of the contract, left abstract: over an event body, and over an action
      binding (`None` when the parameters are not canonical or too large). */
  datatype Hashes = Hashes(event: EventBody -> Digest, action: ActionBinding -> Option<Digest>)

  predicate PositionIsValid(sequence: nat, previous: Option<Digest>) {
    (sequence == 1 && previous.None?) || (sequence > 1 && previous.Some?)
  }

  /** `AuditEvent::new`. */
  function NewEvent(h: Hashes, body: EventBody): Result<AuditEvent> {
    if PositionIsValid(body.sequence, body.previous) then Ok(AuditEvent(body, h.event(body)))
    else Err(InvalidArguments)
  }

  /** `AuditEvent::verify_integrity`. */
  predicate VerifyIntegrity(h: Hashes, e: AuditEvent, sequence: nat, previous: Option<Digest>) {
    && PositionIsValid(e.body.sequence, e.body.previous)
    && e.body.sequence == sequence
    && e.body.previous == previous
    && e.hash == h.event(e.body)
  }

  function LastHash(chain: seq<AuditEvent>): Option<Digest> {
    if chain == [] then None else Some(chain[|chain| - 1].hash)
  }

  function LastTime(chain: seq<AuditEvent>): Time
    requires chain != []
  {
    chain[|chain| - 1].body.timestamp
  }

  /** An event before it has a place in a chain. */
  datatype Draft =
    Draft(id: EventId, runId: RunId, kind: EventKind, actor: ActorId, timestamp: Time, metadata: Metadata)

  /** Gives the draft the next position of the chain. */
  function Seal(h: Hashes, chain: seq<AuditEvent>, d: Draft): Result<AuditEvent> {
    if |chain| >= U64_MAX then Err(Internal)
    else NewEvent(h, EventBody(d.id, d.runId, |chain| + 1, d.kind, d.actor, d.timestamp, d.metadata, LastHash(chain)))
  }

  /** As `Seal`, refusing a draft older than the last event. */
  function Extend(h: Hashes, chain: seq<AuditEvent>, d: Draft, backwards: ErrorCode): Result<AuditEvent> {
    if chain != [] && d.timestamp < LastTime(chain) then Err(backwards) else Seal(h, chain, d)
  }

  // ---------------------------------------------------------------- integrity of chains

  /** The event at `k` verifies at its position, belongs to the run and is not older than its predecessor. */
  ghost predicate EventOk(h: Hashes, id: RunId, chain: seq<AuditEvent>, k: nat)
    requires k < |chain|
  {
    && VerifyIntegrity(h, chain[k], k + 1, LastHash(chain[..k]))
    && chain[k].body.runId == id
    && (k > 0 ==> chain[k - 1].body.timestamp <= chain[k].body.timestamp)
  }

  ghost predicate ChainOk(h: Hashes, id: RunId, chain: seq<AuditEvent>) {
    chain != [] && forall k | 0 <= k < |chain| :: EventOk(h, id, chain, k)
  }

  /** Sealing a draft at the end keeps every event of the chain intact. */
  lemma {:induction false} SealKeepsChain(h: Hashes, id: RunId, chain: seq<AuditEvent>, d: Draft)
    requires chain == [] || ChainOk(h, id, chain)
    requires d.runId == id && (chain == [] || LastTime(chain) <= d.timestamp)
    requires Seal(h, chain, d).Ok?
    ensures ChainOk(h, id, chain + [Seal(h, chain, d).value])
    ensures LastTime(chain + [Seal(h, chain, d).value]) == d.timestamp
  {
    var e := Seal(h, chain, d).value;
    var longer := chain + [e];
    forall k | 0 <= k < |longer| ensures EventOk(h, id, longer, k) {
      assert longer[..k] == chain[..k];
      if k < |chain| { assert EventOk(h, id, chain, k); }
      if k == |chain| { assert chain[..k] == chain; }
    }
  }

  lemma {:induction false} TimesNeverDecrease(h: Hashes, id: RunId, chain: seq<AuditEvent>, i: nat, j: nat)
    requires ChainOk(h, id, chain) && i <= j < |chain|
    ensures chain[i].body.timestamp <= chain[j].body.timestamp
  {
    if i < j {
      TimesNeverDecrease(h, id, chain, i, j - 1);
      assert EventOk(h, id, chain, j);
    }
  }

  /** No event of one chain collides with a different event of the other. */
  ghost predicate CollisionFree(h: Hashes, left: seq<AuditEvent>, right: seq<AuditEvent>) {
    forall i, j | 0 <= i < |left| && 0 <= j < |right| && h.event(left[i].body) == h.event(right[j].body) ::
        left[i].body == right[j].body
  }

  /** Tamper evidence: two chains that verify and end in the same hash are the same chain, event for
      event, from the first position to the last. */
  lemma {:induction false} SameHeadSameChain(h: Hashes, a: RunId, b: RunId, left: seq<AuditEvent>,
                                             right: seq<AuditEvent>)
    requires CollisionFree(h, left, right)
    requires ChainOk(h, a, left) && ChainOk(h, b, right)
    requires LastHash(left) == LastHash(right)
    ensures left == right && a == b
    decreases |left|
  {
    var m, n := |left| - 1, |right| - 1;
    assert EventOk(h, a, left, m) && EventOk(h, b, right, n);
    assert left[m].body == right[n].body;
    assert m == n;
    if m > 0 {
      ChainPrefix(h, a, left, m);
      ChainPrefix(h, b, right, m);
      SameHeadSameChain(h, a, b, left[..m], right[..m]);
    }
    assert left == left[..m] + [left[m]] && right == right[..m] + [right[m]];
  }

  lemma {:induction false} ChainPrefix(h: Hashes, id: RunId, chain: seq<AuditEvent>, n: nat)
    requires ChainOk(h, id, chain) && 0 < n <= |chain|
    ensures ChainOk(h, id, chain[..n])
  {
    forall k | 0 <= k < n ensures EventOk(h, id, chain[..n], k) {
      assert EventOk(h, id, chain, k);
      assert chain[..n][..k] == chain[..k];
    }
  }

  /** Changing any one field of any event, its own hash included, breaks the chain or its head. */
  lemma {:induction false} TamperingIsDetected(h: Hashes, id: RunId, chain: seq<AuditEvent>, k: nat, forged: AuditEvent)
    requires ChainOk(h, id, chain) && k < |chain| && forged != chain[k] && CollisionFree(h, chain[k := forged], chain)
    ensures var tampered := chain[k := forged];
            !ChainOk(h, id, tampered) || LastHash(tampered) != LastHash(chain)
  {
    var tampered := chain[k := forged];
    if ChainOk(h, id, tampered) && LastHash(tampered) == LastHash(chain) {
      assert tampered[k] == forged;
      SameHeadSameChain(h, id, id, tampered, chain);
    }
  }
}
