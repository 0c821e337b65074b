/** When each lease-bound operation, each cancellation and each recovery succeeds in a valid state, what it answers and
what it leaves. */
module LeaseContracts {
  import opened Prelude
  import opened Records
  import opened AuditChain
  import opened StoreState
  import opened StoreInvariant
  import opened Guarantees
  import opened RunMovement
  import opened Contracts

  /** The term of a lease. */
  predicate IsTerm(now: Time, ttl: int) {
    0 < ttl <= MAX_LEASE_TTL && now + ttl <= MAX_TIME
  }

  /** The lease is held, and both it and its run are at the expected revision. */
  predicate HoldsAt(s: State, lease: RunLease, expected: U64, now: Time) {
    && Holds(s, lease, now) && lease.run.id in s.runs
    && lease.run.revision == expected && s.runs[lease.run.id].revision == expected
  }

  lemma {:induction false} HolderIsValidated(h: Hashes, s: State, lease: RunLease, expected: U64, now: Time)
    requires Inv(h, s)
    ensures var r := ValidateLease(s, lease, expected, now);
            && (r.Ok? <==> HoldsAt(s, lease, expected, now) && lease.run.id in s.audits
                           && LastTime(ChainOf(s, lease.run.id)) <= now)
            && (r.Ok? ==> lease.run.id in s.runs && r.value == s.runs[lease.run.id])
  {
    if lease.run.id in s.runs { RunAndChain(h, s, lease.run.id); }
    hide Inv, ChainOk, ReceiptsOk;
  }

  // ---------------------------------------------------------------- claims and heartbeats

  /** A claim takes the run whose turn it is and leases it as it then is, from now on, for the term asked for. */
  lemma {:induction false} ClaimIsExact(h: Hashes, s: State, owner: ActorId, now: Time, ttl: int, token: LeaseToken,
                                        event: EventId)
    requires Inv(h, s)
    ensures var r := ClaimNextRun(h, s, owner, now, ttl, token, event);
            && (r.Ok? <==> IsTerm(now, ttl) && forall id | IsNextInQueue(s, id) :: Takes(s, id, now, 1))
            && (r.Ok? && r.value.1.None? ==> r.value.0 == s && forall id :: !IsClaimable(s, id))
            && (r.Ok? && r.value.1.Some? ==>
                  var (s', lease) := (r.value.0, r.value.1.value);
                  var id := lease.run.id;
                  && IsNextInQueue(s, id) && id in s.runs && s.runs[id].revision < U64_MAX
                  && lease == RunLease(Dated(s.runs[id], Planning, now, None), token, owner, now, now + ttl, false)
                  && s' == s.(runs := s.runs[id := lease.run], leases := s.leases[id := lease], audits := s'.audits)
                  && Adds(s, s', id, [Said(RuntimeSelected, owner, now, NoDetail)]))
  {
    hide Inv, ChainOk, ReceiptsOk, ApplyTransition, Adds, Dated;
    QueueIsNeverMissed(s);
    if NextInQueue(s).Some? {
      var id := NextInQueue(s).value;
      NextIsUnique(s, id);
      RunAndChain(h, s, id);
      TransitionIsExact(h, s, id, Planning, None, now, owner, RuntimeSelected, event);
      var r := ClaimNextRun(h, s, owner, now, ttl, token, event);
      if r.Ok? {
        DatedKeepsId(s.runs[id], Planning, now, None);
        var moved := ApplyTransition(h, s, s.runs[id], Planning, None, now, owner, RuntimeSelected, event).value.0;
        AddsByChains(s, moved, r.value.0, id, [Said(RuntimeSelected, owner, now, NoDetail)]);
      }
    }
  }

  lemma {:induction false} DatedKeepsId(run: Run, status: RunStatus, now: Time, reason: Option<string>)
    requires run.revision < U64_MAX
    ensures Dated(run, status, now, reason).id == run.id
  {
  }

  lemma {:induction false} NextIsUnique(s: State, id: RunId)
    requires NextInQueue(s) == Some(id)
    ensures IsNextInQueue(s, id) && forall other | IsNextInQueue(s, other) :: other == id
  {
  }

  /** A heartbeat gives the lease the term asked for, from now on, with the run's present record and the present
      intent, and changes nothing else; the answer is the lease as stored. */
  lemma {:induction false} HeartbeatIsExact(h: Hashes, s: State, lease: RunLease, now: Time, ttl: int)
    requires Inv(h, s)
    ensures var r := HeartbeatLease(s, lease, now, ttl);
            var id := lease.run.id;
            && (r.Ok? <==> && IsTerm(now, ttl) && HoldsAt(s, lease, lease.run.revision, now)
                           && s.leases[id].run.revision == lease.run.revision && s.runs[id].updatedAt <= now)
            && (r.Ok? ==> && r.value.1 == RunLease(s.runs[id], lease.token, lease.owner, s.leases[id].acquiredAt,
                                                   now + ttl, id in s.cancels)
                          && r.value.0 == s.(leases := s.leases[id := r.value.1]))
  {
    hide Inv;
    if lease.run.id in s.leases { LeaseAndRun(h, s, lease.run.id); }
  }

  // ---------------------------------------------------------------- the holder's writes

  lemma {:induction false} LeasedMoveIsExact(h: Hashes, s: State, lease: RunLease, expected: U64, next: RunStatus,
                                             now: Time, event: EventId)
    requires Inv(h, s)
    ensures var r := TransitionLeasedRun(h, s, lease, expected, next, now, event);
            var id := lease.run.id;
            && (r.Ok? <==> && HoldsAt(s, lease, expected, now) && !next.IsTerminal()
                           && s.runs[id].status.CanTransitionTo(next) && Takes(s, id, now, 1))
            && (r.Ok? ==> var s' := r.value.0;
                          && id in s.runs && s.runs[id].revision < U64_MAX && id in s.leases
                          && r.value.1 == s.leases[id].(run := Dated(s.runs[id], next, now, None))
                          && s' == s.(runs := s.runs[id := r.value.1.run], leases := s.leases[id := r.value.1],
                                      audits := s'.audits)
                          && Adds(s, s', id, [Said(TransitionEvent(next), lease.owner, now, NoDetail)]))
  {
    hide Inv, ChainOk, ReceiptsOk, ApplyTransition, ValidateLease, Adds, Dated;
    var id := lease.run.id;
    HolderIsValidated(h, s, lease, expected, now);
    if id in s.leases {
      LeaseAndRun(h, s, id);
      RunAndChain(h, s, id);
      TransitionIsExact(h, s, id, next, None, now, lease.owner, TransitionEvent(next), event);
      var r := TransitionLeasedRun(h, s, lease, expected, next, now, event);
      if r.Ok? {
        var moved := ApplyTransition(h, s, s.runs[id], next, None, now, lease.owner, TransitionEvent(next), event);
        AddsByChains(s, moved.value.0, r.value.0, id, [Said(TransitionEvent(next), lease.owner, now, NoDetail)]);
      }
    }
  }

  /** The run was moved and announced, and its lease and intent are gone. */
  ghost predicate EndsRun(s: State, s': State, id: RunId, status: RunStatus, now: Time, reason: Option<string>,
                          said: Said)
  {
    && id in s.runs && s.runs[id].revision < U64_MAX
    && s' == s.(runs := s.runs[id := Dated(s.runs[id], status, now, reason)], audits := s'.audits,
                leases := s.leases - {id}, cancels := s.cancels - {id})
    && Adds(s, s', id, [said])
  }

  lemma {:induction false} ReleaseEnds(s: State, moved: State, id: RunId, status: RunStatus, now: Time,
                                       reason: Option<string>, said: Said)
    requires MovesRun(s, moved, id, status, now, reason, said)
    ensures EndsRun(s, Release(moved, id), id, status, now, reason, said)
  {
    hide Adds, Dated;
    AddsByChains(s, moved, Release(moved, id), id, [said]);
  }

  lemma {:induction false} CompletionIsExact(h: Hashes, s: State, lease: RunLease, expected: U64, next: RunStatus,
                                             reason: Option<string>, now: Time, event: EventId)
    requires Inv(h, s)
    ensures var r := CompleteLeasedRun(h, s, lease, expected, next, reason, now, event);
            var id := lease.run.id;
            && (r.Ok? <==> && HoldsAt(s, lease, expected, now) && (next.Succeeded? || next.Failed? || next.TimedOut?)
                           && s.runs[id].status.CanTransitionTo(next) && !(next.Succeeded? && id in s.cancels)
                           && Takes(s, id, now, 1))
            && (r.Ok? ==> && EndsRun(s, r.value.0, id, next, now, reason,
                                     Said(TransitionEvent(next), lease.owner, now, NoDetail))
                          && id in r.value.0.runs && r.value.0.runs[id] == r.value.1)
  {
    hide Inv, ChainOk, ReceiptsOk, ApplyTransition, ValidateLease, Adds, Dated;
    var id := lease.run.id;
    HolderIsValidated(h, s, lease, expected, now);
    if id in s.leases {
      LeaseAndRun(h, s, id);
      RunAndChain(h, s, id);
      TransitionIsExact(h, s, id, next, reason, now, lease.owner, TransitionEvent(next), event);
      var moved := ApplyTransition(h, s, s.runs[id], next, reason, now, lease.owner, TransitionEvent(next), event);
      if moved.Ok? {
        ReleaseEnds(s, moved.value.0, id, next, now, reason, Said(TransitionEvent(next), lease.owner, now, NoDetail));
      }
    }
  }

  lemma {:induction false} LeasedAuditIsExact(h: Hashes, s: State, lease: RunLease, expected: U64, kind: EventKind,
                                              now: Time, event: EventId)
    requires Inv(h, s)
    ensures var r := AppendLeasedAudit(h, s, lease, expected, kind, now, event);
            var id := lease.run.id;
            && (r.Ok? <==> IsWorkerEvent(kind) && HoldsAt(s, lease, expected, now) && Takes(s, id, now, 1))
            && (r.Ok? ==> && r.value.0 == s.(audits := r.value.0.audits)
                          && Adds(s, r.value.0, id, [Said(kind, lease.owner, now, NoDetail)]))
  {
    hide Inv, ChainOk, ReceiptsOk, ValidateLease, Adds, Seal;
    var id := lease.run.id;
    HolderIsValidated(h, s, lease, expected, now);
    if id in s.leases {
      LeaseAndRun(h, s, id);
      RunAndChain(h, s, id);
      var d := Draft(event, id, kind, lease.owner, now, NoDetail);
      ExtendIsExact(h, s.audits[id], d, Internal);
      var e := Seal(h, s.audits[id], d);
      if e.Ok? { RecordAdds(s, id, e.value); }
    }
  }

  lemma {:induction false} LeasedBatchIsExact(h: Hashes, s: State, lease: RunLease, expected: U64, batch: seq<Artifact>,
                                              now: Time, ids: EventIds)
    requires Inv(h, s)
    ensures var r := RecordLeasedArtifacts(h, s, lease, expected, batch, now, ids);
            var id := lease.run.id;
            && (r.Ok? <==> HoldsAt(s, lease, expected, now) && BatchOk(s, id, batch) && TakesBatch(s, id, now, |batch|))
            && (r.Ok? ==> r == AddArtifacts(h, s, id, batch, Envelope(lease.owner, now), ids))
  {
    hide Inv, ChainOk, ReceiptsOk, ValidateLease, AddArtifacts, BatchOk;
    var id := lease.run.id;
    HolderIsValidated(h, s, lease, expected, now);
    BatchIsExact(h, s, id, batch, Envelope(lease.owner, now), ids);
    if id in s.leases {
      LeaseAndRun(h, s, id);
      RunAndChain(h, s, id);
    }
  }

  // ---------------------------------------------------------------- cancellation

  lemma {:induction false} AnswerIsExact(h: Hashes, s: State, lease: RunLease, now: Time)
    requires Inv(h, s)
    ensures var r := LeaseCancelRequested(s, lease, now);
            && (r.Ok? <==> Holds(s, lease, now) && s.leases[lease.run.id].run.revision == lease.run.revision)
            && (r.Ok? ==> (r.value <==> lease.run.id in s.cancels))
  {
  }

  /** A run that waits is cancelled at once, a leased one gets an intent, dated now, which its lease shows; a terminal
      one answers its status; an intent that is there already stands. */
  lemma {:induction false} CancelIsExact(h: Hashes, s: State, id: RunId, actor: ActorId, now: Time, event: EventId)
    requires Inv(h, s)
    ensures var r := RequestCancel(h, s, id, actor, now, event);
            if id !in s.runs then r.Err?
            else if s.runs[id].status.IsTerminal() then r == Ok((s, AlreadyTerminal(s.runs[id].status)))
            else if id in s.cancels then r == Ok((s, CancelRequested))
            else if id in s.leases then
              && (r.Ok? <==> Takes(s, id, now, 1))
              && (r.Ok? ==> var (s', answer) := r.value;
                            && answer == CancelRequested
                            && s' == s.(cancels := s.cancels[id := now], audits := s'.audits,
                                        leases := s.leases[id := s.leases[id].(cancelRequested := true)])
                            && Adds(s, s', id, [Said(CancelRequestRecorded, actor, now, NoDetail)]))
            else
              && (r.Ok? <==> && (s.runs[id].status.Queued? || s.runs[id].status.AwaitingApproval?)
                             && Takes(s, id, now, 1))
              && (r.Ok? ==> && r.value.1 == CancelledNow
                            && MovesRun(s, r.value.0, id, RunStatus.Cancelled, now, None,
                                        Said(CancelConfirmed, actor, now, NoDetail)))
  {
    hide Inv, ChainOk, ReceiptsOk, ApplyTransition, AppendEvent, Adds, Dated;
    if id in s.runs {
      RunAndChain(h, s, id);
      if id in s.leases || id in s.cancels { LeaseAndRun(h, s, id); }
      TransitionIsExact(h, s, id, RunStatus.Cancelled, None, now, actor, CancelConfirmed, event);
      EventIsExact(h, s, id, actor, now, CancelRequestRecorded, event);
      var logged := AppendEvent(h, s, id, actor, now, CancelRequestRecorded, event);
      var r := RequestCancel(h, s, id, actor, now, event);
      if id in s.leases && id !in s.cancels && r.Ok? {
        AddsByChains(s, logged.value, r.value.0, id, [Said(CancelRequestRecorded, actor, now, NoDetail)]);
      }
    }
  }

  /** A confirmation needs the lease at its stored revision and its run's, the intent, and evidence for that lease. */
  lemma {:induction false} ConfirmIsExact(h: Hashes, s: State, lease: RunLease, now: Time,
                                          evidence: CancellationEvidence, event: EventId)
    requires Inv(h, s)
    ensures var r := ConfirmCancel(h, s, lease, now, evidence, event);
            var id := lease.run.id;
            && (r.Ok? <==> && evidence.runId == id && evidence.sandboxId != []
                           && evidence.token == lease.token && evidence.owner == lease.owner
                           && HoldsAt(s, lease, lease.run.revision, now)
                           && s.leases[id].run.revision == lease.run.revision
                           && id in s.cancels && Takes(s, id, now, 1))
            && (r.Ok? ==> && EndsRun(s, r.value.0, id, RunStatus.Cancelled, now, None,
                                     Said(CancelConfirmed, lease.owner, now, NoDetail))
                          && id in r.value.0.runs && r.value.0.runs[id] == r.value.1)
  {
    hide Inv, ChainOk, ReceiptsOk, ApplyTransition, Adds, Dated;
    var id := lease.run.id;
    if id in s.leases {
      LeaseAndRun(h, s, id);
      RunAndChain(h, s, id);
      TransitionIsExact(h, s, id, RunStatus.Cancelled, None, now, lease.owner, CancelConfirmed, event);
      var moved :=
        ApplyTransition(h, s, s.runs[id], RunStatus.Cancelled, None, now, lease.owner, CancelConfirmed, event);
      if moved.Ok? {
        ReleaseEnds(s, moved.value.0, id, RunStatus.Cancelled, now, None,
                    Said(CancelConfirmed, lease.owner, now, NoDetail));
      }
    }
  }

  // ---------------------------------------------------------------- recovery

  lemma {:induction false} RecoverOneIsExact(h: Hashes, s: State, id: RunId, actor: ActorId, now: Time, event: EventId)
    requires Inv(h, s) && id in s.leases
    ensures var r := RecoverOne(h, s, id, actor, now, event);
            && (r.Ok? <==> Takes(s, id, now, 1))
            && (r.Ok? ==> EndsRun(s, r.value, id, RunStatus.Failed, now, None, Said(RunFailed, actor, now, NoDetail)))
  {
    hide Inv, ChainOk, ReceiptsOk, ApplyTransition, Adds, Dated;
    LeaseAndRun(h, s, id);
    RunAndChain(h, s, id);
    TransitionIsExact(h, s, id, RunStatus.Failed, None, now, actor, RunFailed, event);
    var moved := ApplyTransition(h, s, s.runs[id], RunStatus.Failed, None, now, actor, RunFailed, event);
    if moved.Ok? {
      ReleaseEnds(s, moved.value.0, id, RunStatus.Failed, now, None, Said(RunFailed, actor, now, NoDetail));
    }
  }
}
