/** What the store promises over whole histories: claiming, fencing, cancellation and the audit trail. */
module Guarantees {
  import opened Prelude
  import opened Records
  import opened AuditChain
  import opened StoreState
  import opened StoreInvariant
  import opened StorePreservation
  import opened History

  // ---------------------------------------------------------------- the audit trail

  /** In every state of every history each chain verifies event by event, times never go back, and a
      run was never changed after its last event. */
  lemma {:induction false} EveryChainVerifies(h: Hashes, t: Trace, i: nat, id: RunId, k: nat)
    requires t.IsHistory(h) && i < |t.states| && id in t.states[i].audits && k < |t.states[i].audits[id]|
    ensures var chain := t.states[i].audits[id];
            && VerifyIntegrity(h, chain[k], k + 1, LastHash(chain[..k])) && chain[k].body.runId == id
            && chain[k].body.timestamp <= LastTime(chain)
            && id in t.states[i].runs && t.states[i].runs[id].updatedAt <= LastTime(chain)
  {
    hide Inv, ReceiptsOk;
    EveryHistoryIsValid(h, t, i);
    RunAndChain(h, t.states[i], id);
    var chain := t.states[i].audits[id];
    assert EventOk(h, id, chain, k);
    TimesNeverDecrease(h, id, chain, k, |chain| - 1);
  }

  /** No operation rewrites history: what was once recorded stays, at the same position, for good;
      revisions and update times only grow, and a terminal run never changes again. */
  lemma {:induction false} RecordedIsForever(h: Hashes, t: Trace, i: nat, j: nat, id: RunId)
    requires t.IsHistory(h) && i <= j < |t.states| && id in t.states[i].runs
    ensures id in t.states[i].audits && id in t.states[j].audits && t.states[i].audits[id] <= t.states[j].audits[id]
    ensures id in t.states[j].runs && RunEvolves(t.states[i].runs[id], t.states[j].runs[id])
  {
    EveryHistoryIsValid(h, t, i);
    LaterFollows(h, t, i, j);
    assert RunOk(id, t.states[i].runs[id], t.states[i].audits[id]);
  }

  // ---------------------------------------------------------------- claiming

  /** The operation grants a lease of the run. */
  ghost predicate GrantsLease(h: Hashes, s: State, op: Op, id: RunId) {
    && op.Claim?
    && var r := ClaimNextRun(h, s, op.owner, op.now, op.ttl, op.token, op.event);
       r.Ok? && r.value.1.Some? && r.value.1.value.run.id == id
  }

  /** A claim takes the least queued run by creation time and id, and leaves it planned and leased. */
  lemma {:induction false} ClaimTakesNextInQueue(h: Hashes, s: State, op: Op, id: RunId)
    requires Inv(h, s) && GrantsLease(h, s, op, id)
    ensures IsNextInQueue(s, id)
    ensures var s' := Next(h, s, op);
            && id in s'.runs && s'.runs[id].status.Planning?
            && id in s'.leases && s'.leases[id].token == op.token && s'.leases[id].owner == op.owner
            && s'.leases[id].run == s'.runs[id] && s'.leases[id].expiresAt == op.now + op.ttl
  {
    hide Inv, ChainOk, ReceiptsOk, Extend;
    RunAndChain(h, s, NextInQueue(s).value);
  }

  /** Among finitely many candidates one comes first. */
  lemma {:induction false} SomeRunIsFirst(s: State, ids: set<RunId>) returns (first: RunId)
    requires ids != {} && ids <= s.runs.Keys
    ensures first in ids && forall other | other in ids :: ClaimedBefore(s, first, other)
  {
    var any :| any in ids;
    if ids == {any} {
      first := any;
    } else {
      assert ids - {any} != {};
      var rest := SomeRunIsFirst(s, ids - {any});
      first := if ClaimedBefore(s, any, rest) then any else rest;
      forall other | other in ids ensures ClaimedBefore(s, first, other) {
        assert other == any || other in ids - {any};
      }
    }
  }

  /** A claim finds the queue empty exactly when no run is claimable. */
  lemma {:induction false} QueueIsNeverMissed(s: State)
    ensures NextInQueue(s).Some? <==> exists id :: IsClaimable(s, id)
  {
    if id :| IsClaimable(s, id) {
      var ids := set x | x in s.runs && IsClaimable(s, x);
      assert id in ids;
      var first := SomeRunIsFirst(s, ids);
      forall other | IsClaimable(s, other) ensures ClaimedBefore(s, first, other) {
        assert other in ids;
      }
      assert IsNextInQueue(s, first);
    }
  }

  lemma {:induction false} QueuedBeforeClaim(h: Hashes, t: Trace, i: nat, id: RunId)
    requires t.IsHistory(h) && i < |t.ops| && GrantsLease(h, t.states[i], t.ops[i], id)
    ensures id in t.states[i].runs && t.states[i].runs[id].status.Queued?
  {
    EveryHistoryIsValid(h, t, i);
    ClaimTakesNextInQueue(h, t.states[i], t.ops[i], id);
  }

  lemma {:induction false} PlannedAfterClaim(h: Hashes, t: Trace, i: nat, id: RunId)
    requires t.IsHistory(h) && i < |t.ops| && GrantsLease(h, t.states[i], t.ops[i], id)
    ensures id in t.states[i + 1].runs && t.states[i + 1].runs[id].status.Planning?
  {
    EveryHistoryIsValid(h, t, i);
    ClaimTakesNextInQueue(h, t.states[i], t.ops[i], id);
    assert t.StepAt(h, i);
  }

  lemma {:induction false} NotClaimedAgain(h: Hashes, t: Trace, i: nat, j: nat, id: RunId)
    requires t.IsHistory(h) && i < j < |t.ops|
    requires GrantsLease(h, t.states[i], t.ops[i], id)
    ensures !GrantsLease(h, t.states[j], t.ops[j], id)
  {
    PlannedAfterClaim(h, t, i, id);
    RecordedIsForever(h, t, i + 1, j, id);
    if GrantsLease(h, t.states[j], t.ops[j], id) { QueuedBeforeClaim(h, t, j, id); }
  }

  /** At most once: no run is claimed by two different steps of any history. */
  lemma {:induction false} ClaimedAtMostOnce(h: Hashes, t: Trace, i: nat, j: nat, id: RunId)
    requires t.IsHistory(h) && i < |t.ops| && j < |t.ops|
    requires GrantsLease(h, t.states[i], t.ops[i], id) && GrantsLease(h, t.states[j], t.ops[j], id)
    ensures i == j
  {
    if i < j { NotClaimedAgain(h, t, i, j, id); }
    if j < i { NotClaimedAgain(h, t, j, i, id); }
  }

  /** At most one lease ever exists for a run: token, owner and start are the same whenever it is leased,
      and a leased run is neither queued nor terminal. */
  lemma {:induction false} OneGrantPerRun(h: Hashes, t: Trace, i: nat, j: nat, id: RunId)
    requires t.IsHistory(h) && i <= j < |t.states| && id in t.states[i].leases && id in t.states[j].leases
    ensures SameGrant(t.states[i].leases[id], t.states[j].leases[id])
    ensures id in t.states[j].runs && !t.states[j].runs[id].status.Queued? && !t.states[j].runs[id].status.IsTerminal()
  {
    EveryHistoryIsValid(h, t, i);
    EveryHistoryIsValid(h, t, j);
    LaterFollows(h, t, i, j);
    assert LeaseOk(id, t.states[i].leases[id], t.states[i].runs[id], id in t.states[i].cancels);
    assert LeaseOk(id, t.states[j].leases[id], t.states[j].runs[id], id in t.states[j].cancels);
  }

  // ---------------------------------------------------------------- fencing

  /** The lease an operation presents, if it needs one. */
  function Presented(op: Op): Option<RunLease> {
    match op
    case Heartbeat(lease, _, _) => Some(lease)
    case MoveLeased(lease, _, _, _, _) => Some(lease)
    case CompleteLeased(lease, _, _, _, _, _) => Some(lease)
    case AuditLeased(lease, _, _, _, _) => Some(lease)
    case StoreLeasedArtifacts(lease, _, _, _, _) => Some(lease)
    case AskCancelled(lease, _) => Some(lease)
    case Confirm(lease, _, _, _, _) => Some(lease)
    case _ => None
  }

  /** The instant at which the operation is made. */
  function ClockOf(op: Op): Time {
    match op
    case NewRun(_, audit, _) => audit.timestamp
    case MoveRun(_, _, _, _, audit, _) => audit.timestamp
    case Audit(_, _, audit, _) => audit.timestamp
    case Reconcile(_, audit, _) => audit.timestamp
    case StoreArtifacts(_, _, audit, _) => audit.timestamp
    case Claim(_, now, _, _, _) => now
    case Heartbeat(_, now, _) => now
    case MoveLeased(_, _, _, now, _) => now
    case CompleteLeased(_, _, _, _, now, _) => now
    case AuditLeased(_, _, _, now, _) => now
    case StoreLeasedArtifacts(_, _, _, now, _) => now
    case AskCancelled(_, now) => now
    case Confirm(_, now, _, _, _) => now
    case Cancel(_, _, now, _) => now
    case Recover(_, now, _) => now
    case RequestApproval(_, _, now, _) => now
    case Decide(_, _, _, _, _, now, _) => now
    case Expire(_, _, _, now, _) => now
    case Consume(_, _, _, _, now, _) => now
  }

  /** A lease-bound operation succeeds only for the holder of the stored lease, within its lifetime. */
  lemma {:induction false} OnlyTheHolderSucceeds(h: Hashes, s: State, op: Op)
    requires Presented(op).Some? && Succeeds(h, s, op)
    ensures var lease := Presented(op).value;
            && lease.run.id in s.leases
            && s.leases[lease.run.id].token == lease.token && s.leases[lease.run.id].owner == lease.owner
            && s.leases[lease.run.id].acquiredAt <= ClockOf(op) < s.leases[lease.run.id].expiresAt
  {
  }

  lemma {:induction false} RefusedLeavesState(h: Hashes, s: State, op: Op)
    requires Presented(op).Some? && !Succeeds(h, s, op)
    ensures Next(h, s, op) == s
  {
  }

  /** Fencing: once a run that left the queue has no lease, no lease-bound operation on it ever
      succeeds or changes anything again, whatever lease value is presented. */
  lemma {:induction false} ReleasedRunIsFenced(h: Hashes, t: Trace, i: nat, j: nat, id: RunId)
    requires t.IsHistory(h) && i <= j < |t.ops|
    requires id in t.states[i].runs && !t.states[i].runs[id].status.Queued? && id !in t.states[i].leases
    requires Presented(t.ops[j]).Some? && Presented(t.ops[j]).value.run.id == id
    ensures !Succeeds(h, t.states[j], t.ops[j]) && t.states[j + 1] == t.states[j]
  {
    LaterFollows(h, t, i, j);
    if Succeeds(h, t.states[j], t.ops[j]) { OnlyTheHolderSucceeds(h, t.states[j], t.ops[j]); }
    RefusedLeavesState(h, t.states[j], t.ops[j]);
    assert t.StepAt(h, j);
  }

  /** While a run is leased, every write that does not present a lease is refused. */
  lemma {:induction false} UnboundWritesAreRefused(h: Hashes, s: State, op: Op, id: RunId)
    requires id in s.leases
    requires (op.MoveRun? && op.id == id) || (op.Audit? && op.id == id) || (op.StoreArtifacts? && op.id == id)
             || (op.Reconcile? && op.receipt.runId == id)
    ensures !Succeeds(h, s, op) && Next(h, s, op) == s
  {
  }

  // ---------------------------------------------------------------- cancellation

  /** The request was accepted as an intent for the worker. */
  ghost predicate RecordsIntent(h: Hashes, s: State, op: Op, id: RunId) {
    && op.Cancel? && op.id == id
    && var r := RequestCancel(h, s, id, op.actor, op.now, op.event);
       r.Ok? && r.value.1.CancelRequested?
  }

  lemma {:induction false} IntentIsRecorded(h: Hashes, s: State, op: Op, id: RunId)
    requires RecordsIntent(h, s, op, id)
    ensures id in Next(h, s, op).cancels
  {
  }

  /** Decisive: after a cancel request was answered "requested", no later sequence of operations makes
      the run succeed; it stays under its intent until it has stopped. */
  lemma {:induction false} CancellationIsDecisive(h: Hashes, t: Trace, i: nat, j: nat, id: RunId)
    requires t.IsHistory(h) && i < j < |t.states| && RecordsIntent(h, t.states[i], t.ops[i], id)
    ensures id in t.states[j].runs && !t.states[j].runs[id].status.Succeeded?
    ensures (id in t.states[j].cancels && id in t.states[j].leases && t.states[j].leases[id].cancelRequested)
            || Stopped(t.states[j].runs[id].status)
  {
    hide Inv, Next, RecordsIntent;
    assert t.StepAt(h, i);
    IntentIsRecorded(h, t.states[i], t.ops[i], id);
    LaterFollows(h, t, i + 1, j);
    EveryHistoryIsValid(h, t, j);
    if id in t.states[j].cancels { LeaseAndRun(h, t.states[j], id); }
  }

  // ---------------------------------------------------------------- recovery

  lemma {:induction false} RecoveredOn(s: State, t: State, u: State, id: RunId, done: set<RunId>)
    requires Recovered(s, t, {id}) && Recovered(t, u, done) && id !in done
    ensures Recovered(s, u, {id} + done)
  {
    assert t.leases - done == s.leases - ({id} + done);
    assert t.cancels - done == s.cancels - ({id} + done);
  }

  lemma {:induction false} RecoveredNothing(s: State)
    ensures Recovered(s, s, {})
  {
    assert s.leases - {} == s.leases && s.cancels - {} == s.cancels;
  }

  function Elements(ids: seq<RunId>): set<RunId> {
    set id | id in ids
  }

  lemma {:induction false} RecoverNext(h: Hashes, s: State, ids: seq<RunId>, i: nat, actor: ActorId, now: Time,
                                       event: EventId)
    requires Inv(h, s) && i < |ids| && LeasedInOrder(s.leases, ids, i)
             && RecoverOne(h, s, ids[i], actor, now, event).Ok?
    ensures var s' := RecoverOne(h, s, ids[i], actor, now, event).value;
            Inv(h, s') && LeasedInOrder(s'.leases, ids, i + 1) && Recovered(s, s', {ids[i]})
  {
    RecoverOneEffect(h, s, ids[i], actor, now, event);
    NextInOrder(s.leases, ids, i);
  }

  lemma {:induction false} OneMoreElement(leases: Leases, ids: seq<RunId>, i: nat, n: nat)
    requires LeasedInOrder(leases, ids, i) && i < n <= |ids|
    ensures Elements(ids[i..n]) == {ids[i]} + Elements(ids[i + 1..n]) && ids[i] !in Elements(ids[i + 1..n])
  {
    assert ids[i..n] == [ids[i]] + ids[i + 1..n];
  }

  /** The recovery loop recovers a prefix of the remaining runs, in id order, and all of them when it
      succeeds; it stops at the first run it cannot recover. */
  lemma {:induction false} RecoverFromEffect(h: Hashes, s: State, ids: seq<RunId>, i: nat, actor: ActorId, now: Time,
                                             events: EventIds)
    returns (n: nat)
    requires Inv(h, s) && LeasedInOrder(s.leases, ids, i)
    ensures i <= n <= |ids|
    ensures var (s', r) := RecoverFrom(h, s, ids, i, actor, now, events);
            Recovered(s, s', Elements(ids[i..n])) && (r.Ok? <==> n == |ids|)
    decreases |ids| - i
  {
    n := i;
    if i == |ids| || RecoverOne(h, s, ids[i], actor, now, events(i)).Err? {
      RecoveredNothing(s);
      assert Elements(ids[i..i]) == {};
    } else {
      var s' := RecoverOne(h, s, ids[i], actor, now, events(i)).value;
      RecoverNext(h, s, ids, i, actor, now, events(i));
      n := RecoverFromEffect(h, s', ids, i + 1, actor, now, events);
      OneMoreElement(s.leases, ids, i, n);
      RecoveredOn(s, s', RecoverFrom(h, s', ids, i + 1, actor, now, events).0, ids[i], Elements(ids[i + 1..n]));
    }
  }

  lemma {:induction false} ExpiredAreListed(s: State, now: Time, id: RunId)
    ensures id in ExpiredLeases(s, now) <==> IsExpired(s, now, id)
  {
  }

  /** Recovery fails and releases a prefix, in id order, of the expired runs and touches nothing else;
      when it succeeds it is all of them, they are what it returns, and no expired lease is left. */
  lemma {:induction false} RecoveryIsExact(h: Hashes, s: State, actor: ActorId, now: Time,
                                           events: EventIds) returns (n: nat)
    requires Inv(h, s)
    ensures var (s', r) := RecoverExpiredLeases(h, s, actor, now, events);
            var expired := ExpiredLeases(s, now);
            && n <= |expired| && Recovered(s, s', Elements(expired[..n]))
            && (r.Ok? <==> n == |expired|) && (r.Ok? ==> r.value == expired)
  {
    ExpiredInOrder(s, now);
    n := RecoverFromEffect(h, s, ExpiredLeases(s, now), 0, actor, now, events);
  }

  /** After a successful recovery every lease left is alive, and every run it returned is failed. */
  lemma {:induction false} RecoveryLeavesNoExpiredLease(h: Hashes, s: State, actor: ActorId, now: Time,
                                                        events: EventIds, id: RunId)
    requires Inv(h, s) && RecoverExpiredLeases(h, s, actor, now, events).1.Ok?
    ensures var (s', r) := RecoverExpiredLeases(h, s, actor, now, events);
            && (id in s'.leases ==> now < s'.leases[id].expiresAt)
            && (id in r.value <==> IsExpired(s, now, id))
            && (id in r.value ==> id in s'.runs && s'.runs[id].status == RunStatus.Failed && id !in s'.leases)
            && (id in s.runs && id !in r.value ==> id in s'.runs && s'.runs[id] == s.runs[id])
  {
    var n := RecoveryIsExact(h, s, actor, now, events);
    var expired := ExpiredLeases(s, now);
    assert expired[..n] == expired;
    ExpiredAreListed(s, now, id);
    assert LeasesInv(s.leases, s.cancels, s.runs);
  }
}
