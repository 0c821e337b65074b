/** What becomes of runs whose prompt could not be published or delivered, over all interleavings. */
module PromptRefusals {
  import opened Prelude
  import opened Records
  import opened AuditChain
  import opened StoreState
  import opened StoreInvariant
  import opened History
  import opened Guarantees
  import opened RunMovement
  import opened Contracts
  import opened PromptHandOff

  // ---------------------------------------------------------------- refused registrations

  /** A refused run is one the handler created and never published, and its cancel comes next. */
  ghost predicate RefusalsOk(w: World) {
    && w.unpublished <= w.created && w.published.Keys <= w.created && w.unpublished !! w.published.Keys
    && (w.section.Created? ==> w.section.run.id in w.created && w.section.run.id !in w.unpublished)
    && (w.section.MustCancel? ==> w.section.id in w.unpublished)
  }

  lemma {:induction false} CreationKeepsRefusals(h: Hashes, b: Broker, w: World, step: Step)
    requires RefusalsOk(w) && SectionOk(b, w) && Enabled(b, w, step) && step.HandlerCreates?
    ensures RefusalsOk(Aside(h, b, w, step))
  {
    hide Next, ClaimNextRun, Register, Take, Purged;
  }

  lemma {:induction false} StepKeepsRefusals(h: Hashes, b: Broker, w: World, step: Step)
    requires RefusalsOk(w) && SectionOk(b, w) && Enabled(b, w, step)
    ensures RefusalsOk(After(h, b, w, step))
  {
    if step.HandlerCreates? { CreationKeepsRefusals(h, b, w, step); }
    hide Next, CreateRun, ClaimNextRun, Register, Take, Purged;
  }

  lemma {:induction false} RefusalsStayOk(h: Hashes, b: Broker, t: Interleaving, i: nat)
    requires t.IsRun(h, b) && i < |t.worlds|
    ensures RefusalsOk(t.worlds[i]) && WorldOk(h, b, t.worlds[i])
  {
    hide Inv, After, WorldOk;
    EveryInterleavingIsOk(h, b, t, i);
    if i > 0 {
      hide RefusalsOk;
      RefusalsStayOk(h, b, t, i - 1);
      assert t.StepAt(h, b, i - 1);
      SectionOfWorld(h, b, t.worlds[i - 1]);
      StepKeepsRefusals(h, b, t.worlds[i - 1], t.steps[i - 1]);
    }
  }

  lemma {:induction false} SectionOfWorld(h: Hashes, b: Broker, w: World)
    requires WorldOk(h, b, w)
    ensures Inv(h, w.store) && SectionOk(b, w) && PromptsOk(b, w)
  {
  }

  /** Step `j` is the handler's cancel request for the run, and the run waits in the queue. */
  ghost predicate CancelsQueued(t: Interleaving, j: nat, id: RunId)
    requires j < |t.steps| && j < |t.worlds|
  {
    && t.steps[j].HandlerCancels? && t.worlds[j].section == MustCancel(id)
    && id in t.worlds[j].store.runs && t.worlds[j].store.runs[id].status.Queued?
  }

  /** The handler's cancel request, whatever others did since the run was created: it cancels the run exactly when a
      cancel works in that state, and otherwise leaves every run as it is. */
  lemma {:induction false} HandlerCancelIsExact(h: Hashes, b: Broker, t: Interleaving, j: nat)
    requires t.IsRun(h, b) && j < |t.steps| && t.steps[j].HandlerCancels?
    ensures t.worlds[j].section.MustCancel?
    ensures var id := t.worlds[j].section.id;
            var s, s' := t.worlds[j].store, t.worlds[j + 1].store;
            && id in s.runs && id in s'.runs
            && (if CancelWorks(s, id, t.steps[j].now)
                then s'.runs[id].status.Cancelled? && s'.runs == s.runs[id := s'.runs[id]] else s'.runs == s.runs)
  {
    hide Inv, WorldOk, CancelWorks, CreateRun, TransitionRun, AppendAudit, ReconcileExecution, RecordArtifacts,
      ClaimNextRun, HeartbeatLease, TransitionLeasedRun, CompleteLeasedRun, AppendLeasedAudit, RecordLeasedArtifacts,
      LeaseCancelRequested, ConfirmCancel, RequestCancel, RecoverExpiredLeases, CreateApproval, DecideApproval,
      ExpireApproval, ConsumeApproval, Register, Take, Purged;
    assert t.StepAt(h, b, j);
    RefusalsStayOk(h, b, t, j);
    SectionOfWorld(h, b, t.worlds[j]);
    var step := t.steps[j];
    CancelsOrLeaves(h, t.worlds[j].store, t.worlds[j].section.id, step.actor, step.now, step.event);
  }

  /** A queued run is not leased, so only its chain can refuse the cancel: by a later event, or by being full. */
  lemma {:induction false} QueuedStaysQueued(h: Hashes, b: Broker, t: Interleaving, j: nat, id: RunId)
    requires t.IsRun(h, b) && j < |t.steps| && CancelsQueued(t, j, id)
    ensures id in t.worlds[j + 1].store.runs
    ensures t.worlds[j + 1].store.runs[id].status.Queued? <==> !Takes(t.worlds[j].store, id, t.steps[j].now, 1)
  {
    hide Inv, WorldOk, Interleaving.StepAt, Takes;
    HandlerCancelIsExact(h, b, t, j);
    RefusalsStayOk(h, b, t, j);
    SectionOfWorld(h, b, t.worlds[j]);
    if id in t.worlds[j].store.leases { LeaseAndRun(h, t.worlds[j].store, id); }
  }

  /** A step that is not the cancel of the run leaves it waiting for that cancel, or nobody waits for it. */
  lemma {:induction false} SectionBefore(h: Hashes, b: Broker, w: World, step: Step, id: RunId)
    requires Enabled(b, w, step) && id in After(h, b, w, step).unpublished && RefusalsOk(w)
    requires After(h, b, w, step).section != MustCancel(id)
    ensures id in w.unpublished && (w.section == MustCancel(id) ==> step.HandlerCancels?)
  {
    hide Next, CreateRun, ClaimNextRun, Register, Take, Purged;
  }

  /** A run that was refused its prompt and is still queued, with no cancel request of the handler to come, has had
      that request: the run was queued, and its chain did not take the event. */
  lemma {:induction false} LeftQueued(h: Hashes, b: Broker, t: Interleaving, i: nat, id: RunId) returns (j: nat)
    requires t.IsRun(h, b) && i < |t.worlds| && id in t.worlds[i].unpublished && t.worlds[i].section != MustCancel(id)
    requires id in t.worlds[i].store.runs && t.worlds[i].store.runs[id].status.Queued?
    ensures j < i && CancelsQueued(t, j, id) && !Takes(t.worlds[j].store, id, t.steps[j].now, 1)
  {
    hide Inv, After, WorldOk, Takes, RefusalsOk;
    if i > 0 {
      j := i - 1;
      assert t.StepAt(h, b, j);
      RefusalsStayOk(h, b, t, j);
      SectionBefore(h, b, t.worlds[j], t.steps[j], id);
      SectionOfWorld(h, b, t.worlds[j]);
      UnpublishedIsStored(b, t.worlds[j], id);
      StoreStays(h, b, t.worlds[j], t.steps[j]);
      if t.worlds[j].section == MustCancel(id) {
        QueuedStaysQueued(h, b, t, j, id);
      } else {
        j := LeftQueued(h, b, t, j, id);
      }
    }
  }

  lemma {:induction false} UnpublishedIsStored(b: Broker, w: World, id: RunId)
    requires RefusalsOk(w) && SectionOk(b, w) && id in w.unpublished
    ensures id in w.store.runs
  {
  }

  // ---------------------------------------------------------------- claims of refused runs

  /** Step `k` claimed the run under the lease; nobody but others has acted since. */
  ghost predicate ClaimedAt(h: Hashes, t: Interleaving, k: nat, lease: RunLease)
    requires k < |t.steps| && k < |t.worlds|
  {
    && t.steps[k].WorkerClaims? && t.worlds[k].section.ClaimEntered?
    && var step := t.steps[k];
       var claim := ClaimNextRun(h, t.worlds[k].store, step.owner, step.now, step.ttl, step.token, step.event);
       Value(claim) == Ok(Some(lease))
  }

  lemma {:induction false} LeaseBefore(h: Hashes, b: Broker, w: World, step: Step)
    requires Enabled(b, w, step) && After(h, b, w, step).section.ClaimedLease?
    ensures var w' := After(h, b, w, step);
            && w'.created == w.created && w'.unpublished == w.unpublished && w'.published == w.published
            && (|| (step.OtherOp? && w'.section == w.section)
                || (step.WorkerClaims? && w.section.ClaimEntered?
                    && Value(ClaimNextRun(h, w.store, step.owner, step.now, step.ttl, step.token, step.event))
                       == Ok(Some(w'.section.lease))))
  {
    hide Next, CreateRun, ClaimNextRun, Register, Take, Purged;
  }

  lemma {:induction false} ClaimComesFirst(h: Hashes, b: Broker, t: Interleaving, i: nat) returns (k: nat)
    requires t.IsRun(h, b) && i < |t.worlds| && t.worlds[i].section.ClaimedLease?
    ensures k < i && ClaimedAt(h, t, k, t.worlds[i].section.lease)
    ensures t.worlds[k].created == t.worlds[i].created && t.worlds[k].unpublished == t.worlds[i].unpublished
    ensures t.worlds[k].published == t.worlds[i].published
  {
    hide After, ClaimNextRun;
    StepOfRun(h, b, t, i);
    LeaseBefore(h, b, t.worlds[i - 1], t.steps[i - 1]);
    k := i - 1;
    if t.steps[k].OtherOp? {
      k := ClaimComesFirst(h, b, t, k);
    }
  }

  lemma {:induction false} StepOfRun(h: Hashes, b: Broker, t: Interleaving, i: nat)
    requires t.IsRun(h, b) && i < |t.worlds| && !t.worlds[i].section.Open?
    ensures i > 0 && t.StepAt(h, b, i - 1)
  {
    hide Interleaving.StepAt;
  }

  lemma {:induction false} ClaimedWasQueued(h: Hashes, s: State, op: Op, lease: RunLease)
    requires Inv(h, s) && op.Claim?
    requires Value(ClaimNextRun(h, s, op.owner, op.now, op.ttl, op.token, op.event)) == Ok(Some(lease))
    ensures lease.run.id in s.runs && s.runs[lease.run.id].status.Queued?
    ensures lease.run.id in Next(h, s, op).leases && Next(h, s, op).leases[lease.run.id] == lease
    ensures lease.run.id in Next(h, s, op).runs && !Next(h, s, op).runs[lease.run.id].status.Queued?
  {
    hide Inv, Next, ClaimNextRun;
    assert GrantsLease(h, s, op, lease.run.id);
    ClaimTakesNextInQueue(h, s, op, lease.run.id);
    NextIsClaimable(s, lease.run.id);
    LeaseIsStored(h, s, op, lease);
  }

  /** No worker ever claims a handler's run between its creation and the publication of its prompt: when such a run
      is claimed, its prompt was published, or it was refused and the handler's cancel request after it came to
      nothing, because the run's chain did not take the event. */
  lemma {:induction false} GateClosesTheGap(h: Hashes, b: Broker, t: Interleaving, i: nat) returns (j: nat)
    requires t.IsRun(h, b) && i < |t.worlds| && t.worlds[i].section.ClaimedLease?
    requires t.worlds[i].section.lease.run.id in t.worlds[i].created
    ensures var id := t.worlds[i].section.lease.run.id;
            || id in t.worlds[i].published
            || (&& id in t.worlds[i].unpublished && j < i
                && CancelsQueued(t, j, id) && !Takes(t.worlds[j].store, id, t.steps[j].now, 1))
  {
    hide Inv, Next, ClaimNextRun, WorldOk, Interleaving.StepAt, Takes;
    var lease := t.worlds[i].section.lease;
    var id := lease.run.id;
    var k := ClaimComesFirst(h, b, t, i);
    RefusalsStayOk(h, b, t, k);
    SectionOfWorld(h, b, t.worlds[k]);
    var step := t.steps[k];
    ClaimedWasQueued(h, t.worlds[k].store, Claim(step.owner, step.now, step.ttl, step.token, step.event), lease);
    j := k;
    if id in t.worlds[k].unpublished { j := LeftQueued(h, b, t, k, id); }
  }

  /** A run that was refused its prompt never gets one. */
  lemma {:induction false} RefusedIsNeverDelivered(h: Hashes, b: Broker, t: Interleaving, i: nat)
    requires t.IsRun(h, b) && i < |t.steps| && Delivers(t, i)
    ensures t.worlds[i].section.lease.run.id in t.worlds[i].published
    ensures t.worlds[i].section.lease.run.id !in t.worlds[i].unpublished
  {
    hide Inv, WorldOk, Interleaving.StepAt;
    RefusalsStayOk(h, b, t, i);
    SectionOfWorld(h, b, t.worlds[i]);
  }

  // ---------------------------------------------------------------- leases of runs without a prompt

  /** The run has left the queue, and if it is leased, then by this grant. */
  ghost predicate GrantKnown(s: State, lease: RunLease) {
    && lease.run.id in s.runs && !s.runs[lease.run.id].status.Queued?
    && (lease.run.id in s.leases ==> SameGrant(lease, s.leases[lease.run.id]))
  }

  lemma {:induction false} GrantStaysKnown(h: Hashes, s: State, op: Op, lease: RunLease)
    requires Inv(h, s) && GrantKnown(s, lease)
    ensures GrantKnown(Next(h, s, op), lease)
  {
    hide Inv, Next, RunsInv, ApprovalsInv, ClaimsInv;
    EveryOperationKeepsTheInvariant(h, s, op);
    assert RunEvolves(s.runs[lease.run.id], Next(h, s, op).runs[lease.run.id]);
  }

  /** The lease that the worker in the gate is busy with. */
  function BusyWith(section: Section): Option<RunLease> {
    match section
    case ClaimedLease(lease, _) => Some(lease)
    case MustFail(lease) => Some(lease)
    case _ => None
  }

  lemma {:induction false} BusyBefore(h: Hashes, b: Broker, w: World, step: Step)
    requires Enabled(b, w, step) && BusyWith(After(h, b, w, step).section).Some?
    ensures var w' := After(h, b, w, step);
            || (step.OtherOp? && BusyWith(w'.section) == BusyWith(w.section) && w'.store == Next(h, w.store, step.op))
            || (step.WorkerTakes? && BusyWith(w'.section) == BusyWith(w.section) && w'.store == w.store)
            || (&& step.WorkerClaims?
                && var op := Claim(step.owner, step.now, step.ttl, step.token, step.event);
                   && Value(ClaimNextRun(h, w.store, op.owner, op.now, op.ttl, op.token, op.event))
                      == Ok(BusyWith(w'.section))
                   && w'.store == Next(h, w.store, op))
  {
    hide Next, CreateRun, ClaimNextRun, Register, Take, Purged;
  }

  lemma {:induction false} BusyGrantIsKnown(h: Hashes, b: Broker, t: Interleaving, i: nat)
    requires t.IsRun(h, b) && i < |t.worlds| && BusyWith(t.worlds[i].section).Some?
    ensures GrantKnown(t.worlds[i].store, BusyWith(t.worlds[i].section).value)
  {
    hide Inv, Next, After, ClaimNextRun, WorldOk;
    StepOfRun(h, b, t, i);
    var w, step := t.worlds[i - 1], t.steps[i - 1];
    BusyBefore(h, b, w, step);
    RefusalsStayOk(h, b, t, i - 1);
    SectionOfWorld(h, b, w);
    var lease := BusyWith(t.worlds[i].section).value;
    if step.WorkerClaims? {
      var op := Claim(step.owner, step.now, step.ttl, step.token, step.event);
      ClaimedWasQueued(h, w.store, op, lease);
    } else {
      BusyGrantIsKnown(h, b, t, i - 1);
      if step.OtherOp? { GrantStaysKnown(h, w.store, step.op, lease); }
    }
  }

  /** The run can still be failed under the lease it was claimed with. */
  predicate StillFails(s: State, lease: RunLease, now: Time) {
    var id := lease.run.id;
    && id in s.leases && id in s.runs && s.runs[id].revision == lease.run.revision
    && lease.acquiredAt <= now < s.leases[id].expiresAt && Takes(s, id, now, 1)
  }

  /** The worker's last step with a run that has no prompt, whatever others did since it was claimed: the run is
      failed and released exactly when it is still leased at the revision of the claim, the clock is within the lease
      and the chain takes the event; otherwise nothing changes. So the lease stays behind exactly when it was still
      there and one of these is not so. */
  lemma {:induction false} WorkerFailIsExact(h: Hashes, b: Broker, t: Interleaving, j: nat)
    requires t.IsRun(h, b) && j < |t.steps| && t.steps[j].WorkerFails?
    ensures t.worlds[j].section.MustFail?
    ensures var lease := t.worlds[j].section.failing;
            var s, s' := t.worlds[j].store, t.worlds[j + 1].store;
            && (if StillFails(s, lease, t.steps[j].now)
                then lease.run.id in s'.runs && s'.runs[lease.run.id].status.Failed? && lease.run.id !in s'.leases
                else s' == s)
            && (lease.run.id in s'.leases <==> lease.run.id in s.leases && !StillFails(s, lease, t.steps[j].now))
  {
    hide Inv, WorldOk, Takes, CreateRun, TransitionRun, AppendAudit, ReconcileExecution, RecordArtifacts,
      ClaimNextRun, HeartbeatLease, TransitionLeasedRun, CompleteLeasedRun, AppendLeasedAudit, RecordLeasedArtifacts,
      LeaseCancelRequested, ConfirmCancel, RequestCancel, RecoverExpiredLeases, CreateApproval, DecideApproval,
      ExpireApproval, ConsumeApproval, Register, Take, Purged;
    assert t.StepAt(h, b, j);
    RefusalsStayOk(h, b, t, j);
    SectionOfWorld(h, b, t.worlds[j]);
    BusyGrantIsKnown(h, b, t, j);
    var lease, step := t.worlds[j].section.failing, t.steps[j];
    FailsAndReleases(h, t.worlds[j].store, lease, Some(MISSING_PROMPT), step.now, step.event);
  }
}
