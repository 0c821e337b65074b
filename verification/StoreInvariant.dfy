/** The joint invariant of the store's eight maps and the relation between an earlier and a later state. */
module StoreInvariant {
  import opened Prelude
  import opened Records
  import opened AuditChain
  import opened StoreState

  // ---------------------------------------------------------------- the invariant, record by record

  /** A run record and its audit chain agree. */
  ghost predicate RunOk(id: RunId, run: Run, chain: seq<AuditEvent>) {
    && run.id == id
    && chain != [] && run.revision + 1 <= |chain|
    && run.createdAt <= run.updatedAt <= LastTime(chain)
    && (run.status.Queued? <==> run.revision == 0)
    && (run.status.IsTerminal() <==> run.completedAt.Some?)
    && (run.completedAt.Some? ==> run.completedAt.value == run.updatedAt)
    && (run.terminalReason.Some? <==> run.status.IsTerminal() && !run.status.Succeeded?)
    && (run.status.Running? || run.status.Succeeded? ==> run.startedAt.Some?)
    && (run.startedAt.Some? ==> run.createdAt <= run.startedAt.value <= run.updatedAt)
  }

  /** A lease belongs to an active run, its snapshot does not run ahead of the run, and its cached
      cancel flag agrees with the intent map. */
  ghost predicate LeaseOk(id: RunId, lease: RunLease, run: Run, cancelled: bool) {
    && lease.run.id == id
    && 1 <= lease.run.revision <= run.revision
    && (lease.run.revision == run.revision ==> lease.run == run)
    && !run.status.Queued? && !run.status.IsTerminal()
    && lease.acquiredAt <= run.updatedAt && lease.acquiredAt < lease.expiresAt
    && lease.cancelRequested == cancelled
  }

  /** An approval record is valid, has the revision of its status and was opened at a revision the
      run has reached; the run has left that revision once the approval is consumed. */
  ghost predicate ApprovalOk(id: ApprovalId, a: ApprovalRequest, window: U64, run: Run) {
    && a.id == id
    && a.IsValid() && a.revision == a.RevisionOfStatus()
    && 1 <= window <= run.revision
    && (window == run.revision ==> run.status.AwaitingApproval?)
    && (a.status.Consumed? ==> window < run.revision)
  }

  /** Two approvals are of different actions, and two consumed approvals of one run are of different windows. */
  ghost predicate Apart(a: ApprovalRequest, windowA: U64, b: ApprovalRequest, windowB: U64) {
    && a.actionId != b.actionId
    && (a.runId == b.runId && a.status.Consumed? && b.status.Consumed? ==> windowA != windowB)
  }

  /** The consumed approval and the action claim are the two halves of one consumption. */
  predicate Backs(a: ApprovalRequest, c: ActionClaim) {
    && a.status.Consumed?
    && a.actionId == c.actionId && a.runId == c.runId && a.parameterHash == c.parameterHash
    && a.consumedAt == Some(c.claimedAt)
  }

  /** Execution events carry a claimed binding of their run or nothing. */
  ghost predicate ReceiptOk(id: RunId, e: AuditEvent, claims: map<ActionId, ActionClaim>) {
    && (e.body.kind.ActionExecuted? ==> e.body.metadata.ExecutionDetail? || e.body.metadata.NoDetail?)
    && (e.body.metadata.ExecutionDetail? ==>
          && e.body.kind.ActionExecuted?
          && e.body.metadata.actionId in claims
          && claims[e.body.metadata.actionId].runId == id
          && claims[e.body.metadata.actionId].parameterHash == e.body.metadata.parameterHash)
  }

  ghost predicate ReceiptAt(id: RunId, chain: seq<AuditEvent>, k: nat, claims: map<ActionId, ActionClaim>)
    requires k < |chain|
  {
    ReceiptOk(id, chain[k], claims)
  }

  /** The event at `k` does not repeat the execution recorded at `j`. */
  ghost predicate NoRepeat(chain: seq<AuditEvent>, j: nat, k: nat)
    requires j < |chain| && k < |chain|
  {
    chain[j].body.metadata.ExecutionDetail? ==> !NamesAction(chain[k], chain[j].body.metadata.actionId)
  }

  /** Every execution event of the chain is in order, and no action is recorded twice. */
  ghost predicate ReceiptsOk(id: RunId, chain: seq<AuditEvent>, claims: map<ActionId, ActionClaim>) {
    && (forall k | 0 <= k < |chain| :: ReceiptAt(id, chain, k, claims))
    && (forall j, k | 0 <= j < k < |chain| :: NoRepeat(chain, j, k))
  }

  /** The artifact entry of an event, if it is one. */
  ghost function ArtifactEntry(e: AuditEvent): seq<(Digest, U64)> {
    match e.body.metadata
    case ArtifactDetail(sha256, size) => [(sha256, size)]
    case _ => []
  }

  /** The artifact entries of a chain, in order. */
  ghost function ArtifactTrail(chain: seq<AuditEvent>): seq<(Digest, U64)> {
    if chain == [] then [] else ArtifactTrail(chain[..|chain| - 1]) + ArtifactEntry(chain[|chain| - 1])
  }

  ghost function Summaries(artifacts: seq<Artifact>): seq<(Digest, U64)> {
    seq(|artifacts|, i requires 0 <= i < |artifacts| => (artifacts[i].sha256, artifacts[i].size))
  }

  /** The stored artifacts are of the run, have distinct paths and are exactly what the chain recorded. */
  ghost predicate ArtifactsOk(id: RunId, artifacts: seq<Artifact>, chain: seq<AuditEvent>) {
    && (forall i | 0 <= i < |artifacts| :: artifacts[i].runId == id)
    && DistinctPaths(artifacts)
    && ArtifactTrail(chain) == Summaries(artifacts)
  }

  // ---------------------------------------------------------------- the invariant, map by map

  type Runs = map<RunId, Run>
  type Audits = map<RunId, seq<AuditEvent>>
  type Artifacts = map<RunId, seq<Artifact>>
  type Approvals = map<ApprovalId, ApprovalRequest>
  type Windows = map<ApprovalId, U64>
  type Claims = map<ActionId, ActionClaim>
  type Leases = map<RunId, RunLease>
  type Cancels = map<RunId, Time>

  ghost predicate ChainsInv(h: Hashes, audits: Audits) {
    forall id | id in audits :: ChainOk(h, id, audits[id])
  }

  ghost predicate RunsInv(runs: Runs, audits: Audits) {
    && audits.Keys == runs.Keys
    && forall id | id in runs :: RunOk(id, runs[id], audits[id])
  }

  ghost predicate LeasesInv(leases: Leases, cancels: Cancels, runs: Runs) {
    && (forall id | id in leases :: id in runs && LeaseOk(id, leases[id], runs[id], id in cancels))
    && cancels.Keys <= leases.Keys
  }

  ghost predicate ApprovalsInv(approvals: Approvals, windows: Windows, runs: Runs) {
    && windows.Keys == approvals.Keys
    && (forall a | a in approvals ::
          approvals[a].runId in runs && ApprovalOk(a, approvals[a], windows[a], runs[approvals[a].runId]))
    && (forall a, b {:trigger Apart(approvals[a], windows[a], approvals[b], windows[b])} |
          a in approvals && b in approvals && a != b :: Apart(approvals[a], windows[a], approvals[b], windows[b]))
  }

  ghost predicate IsBacked(approvals: Approvals, c: ActionClaim) {
    exists a :: a in approvals && Backs(approvals[a], c)
  }

  ghost predicate ClaimsInv(claims: Claims, approvals: Approvals) {
    && (forall x | x in claims :: claims[x].actionId == x && IsBacked(approvals, claims[x]))
    && (forall a | a in approvals && approvals[a].status.Consumed? ::
          approvals[a].actionId in claims && Backs(approvals[a], claims[approvals[a].actionId]))
  }

  ghost predicate ReceiptsInv(audits: Audits, claims: Claims) {
    forall id | id in audits :: ReceiptsOk(id, audits[id], claims)
  }

  ghost predicate ArtifactsInv(artifacts: Artifacts, audits: Audits) {
    && artifacts.Keys <= audits.Keys
    && forall id | id in audits :: ArtifactsOk(id, Stored(artifacts, id), audits[id])
  }

  ghost predicate Inv(h: Hashes, s: State) {
    && ChainsInv(h, s.audits)
    && RunsInv(s.runs, s.audits)
    && LeasesInv(s.leases, s.cancels, s.runs)
    && ApprovalsInv(s.approvals, s.windows, s.runs)
    && ClaimsInv(s.claims, s.approvals)
    && ReceiptsInv(s.audits, s.claims)
    && ArtifactsInv(s.artifacts, s.audits)
  }

  // ---------------------------------------------------------------- from one state to a later one

  /** A later record of the same run: the revision counts its changes, and a terminal run is final. */
  ghost predicate RunEvolves(r: Run, r': Run) {
    && r'.id == r.id && r'.runtime == r.runtime && r'.workspace == r.workspace && r'.actor == r.actor
    && r'.promptSha256 == r.promptSha256 && r'.createdAt == r.createdAt
    && r.revision <= r'.revision && r.updatedAt <= r'.updatedAt
    && (r'.revision == r.revision || r.status.IsTerminal() || r'.status.Queued? ==> r' == r)
    && (r.startedAt.Some? ==> r'.startedAt == r.startedAt)
  }

  /** A later record of the same approval. */
  ghost predicate ApprovalEvolves(a: ApprovalRequest, a': ApprovalRequest) {
    && a' == a.(status := a'.status, revision := a'.revision, decision := a'.decision, consumedAt := a'.consumedAt)
    && (|| a.status.Pending? || a' == a
        || (a.status.Approved? && a'.decision == a.decision && (a'.status.Expired? || a'.status.Consumed?)))
  }

  /** Terminal, and not by success. */
  predicate Stopped(status: RunStatus) {
    status.IsTerminal() && !status.Succeeded?
  }

  /** The status stays or moves to denied or expired. */
  predicate OnlyCloses(from: ApprovalStatus, to: ApprovalStatus) {
    to == from || to.Denied? || to.Expired?
  }

  /** The run has made a transition since the approval was created. */
  predicate WindowPassed(a: ApprovalRequest, window: U64, runs: Runs) {
    a.runId in runs && window < runs[a.runId].revision
  }

  /** Runs are kept, and their records only move forward. */
  ghost predicate RunsEvolve(runs: Runs, runs': Runs) {
    forall id | id in runs :: id in runs' && RunEvolves(runs[id], runs'[id])
  }

  /** Every list is kept and only grows at its end. */
  ghost predicate Grows<T>(logs: map<RunId, seq<T>>, logs': map<RunId, seq<T>>) {
    forall id | id in logs :: id in logs' && logs[id] <= logs'[id]
  }

  /** The same grant of a run, possibly renewed. */
  ghost predicate SameGrant(l: RunLease, l': RunLease) {
    l'.token == l.token && l'.owner == l.owner && l'.acquiredAt == l.acquiredAt
  }

  /** A run that has left the queue is never leased anew: a lease it has now is the lease it had. */
  ghost predicate LeasesEvolve(runs: Runs, leases: Leases, leases': Leases) {
    forall id | id in runs && !runs[id].status.Queued? && id in leases' ::
        id in leases && SameGrant(leases[id], leases'[id])
  }

  /** A recorded cancel intent stands until the run has stopped. */
  ghost predicate CancelsEvolve(cancels: Cancels, cancels': Cancels, runs': Runs) {
    forall id | id in cancels :: id in runs' && (id in cancels' || Stopped(runs'[id].status))
  }

  ghost predicate ApprovalsEvolve(approvals: Approvals, windows: Windows, runs: Runs, approvals': Approvals,
                                  windows': Windows) {
    && windows.Keys == approvals.Keys && windows'.Keys == approvals'.Keys
    && forall a | a in approvals ::
         && a in approvals' && ApprovalEvolves(approvals[a], approvals'[a])
         && windows'[a] == windows[a]
         && (WindowPassed(approvals[a], windows[a], runs) ==> OnlyCloses(approvals[a].status, approvals'[a].status))
  }

  ghost predicate ClaimsEvolve(claims: Claims, claims': Claims) {
    forall x | x in claims :: x in claims' && claims'[x] == claims[x]
  }

  /** `s'` can be a later state than `s`. */
  ghost predicate Evolves(s: State, s': State) {
    && RunsEvolve(s.runs, s'.runs)
    && Grows(s.audits, s'.audits)
    && Grows(s.artifacts, s'.artifacts)
    && LeasesEvolve(s.runs, s.leases, s'.leases)
    && CancelsEvolve(s.cancels, s'.cancels, s'.runs)
    && ApprovalsEvolve(s.approvals, s.windows, s.runs, s'.approvals, s'.windows)
    && ClaimsEvolve(s.claims, s'.claims)
  }

  /** What a valid state says about one run and its chain. */
  lemma {:induction false} RunAndChain(h: Hashes, s: State, id: RunId)
    requires Inv(h, s) && (id in s.runs || id in s.audits)
    ensures id in s.runs && id in s.audits
    ensures RunOk(id, s.runs[id], s.audits[id]) && ChainOk(h, id, s.audits[id])
            && ReceiptsOk(id, s.audits[id], s.claims)
  {
  }

  /** The parts of the invariant, without their content. */
  lemma {:induction false} ValidParts(h: Hashes, s: State)
    requires Inv(h, s)
    ensures RunsInv(s.runs, s.audits) && LeasesInv(s.leases, s.cancels, s.runs)
            && ApprovalsInv(s.approvals, s.windows, s.runs)
    ensures ChainsInv(h, s.audits) && ReceiptsInv(s.audits, s.claims) && ArtifactsInv(s.artifacts, s.audits)
  {
    hide RunsInv, LeasesInv, ApprovalsInv, ChainsInv, ReceiptsInv, ArtifactsInv;
  }

  lemma {:induction false} LeaseAndRun(h: Hashes, s: State, id: RunId)
    requires Inv(h, s) && (id in s.leases || id in s.cancels)
    ensures id in s.leases && id in s.runs && LeaseOk(id, s.leases[id], s.runs[id], id in s.cancels)
  {
  }

  lemma {:induction false} EmptyIsValid(h: Hashes)
    ensures Inv(h, EMPTY)
  {
  }

  lemma {:induction false} EvolvesIsReflexive(s: State)
    requires s.windows.Keys == s.approvals.Keys && s.cancels.Keys <= s.runs.Keys
    ensures Evolves(s, s)
  {
  }

  lemma {:induction false} GrowsOn<T>(a: map<RunId, seq<T>>, b: map<RunId, seq<T>>, c: map<RunId, seq<T>>)
    requires Grows(a, b) && Grows(b, c)
    ensures Grows(a, c)
  {
    forall id | id in a ensures id in c && a[id] <= c[id] {
      assert a[id] <= b[id] <= c[id];
    }
  }

  lemma {:induction false} CancelsEvolveOn(s: State, t: State, u: State)
    requires RunsEvolve(t.runs, u.runs)
    requires CancelsEvolve(s.cancels, t.cancels, t.runs) && CancelsEvolve(t.cancels, u.cancels, u.runs)
    ensures CancelsEvolve(s.cancels, u.cancels, u.runs)
  {
    forall id | id in s.cancels ensures id in u.runs && (id in u.cancels || Stopped(u.runs[id].status)) {
      assert id in t.runs && RunEvolves(t.runs[id], u.runs[id]);
    }
  }

  lemma {:induction false} ApprovalsEvolveOn(s: State, t: State, u: State)
    requires RunsEvolve(s.runs, t.runs)
    requires ApprovalsEvolve(s.approvals, s.windows, s.runs, t.approvals, t.windows)
    requires ApprovalsEvolve(t.approvals, t.windows, t.runs, u.approvals, u.windows)
    ensures ApprovalsEvolve(s.approvals, s.windows, s.runs, u.approvals, u.windows)
  {
    forall a | a in s.approvals
      ensures a in u.approvals && ApprovalEvolves(s.approvals[a], u.approvals[a]) && u.windows[a] == s.windows[a]
      ensures WindowPassed(s.approvals[a], s.windows[a], s.runs) ==>
                OnlyCloses(s.approvals[a].status, u.approvals[a].status)
    {
      assert ApprovalEvolves(s.approvals[a], t.approvals[a]) && ApprovalEvolves(t.approvals[a], u.approvals[a]);
      if WindowPassed(s.approvals[a], s.windows[a], s.runs) {
        assert WindowPassed(t.approvals[a], t.windows[a], t.runs);
      }
    }
  }

  lemma {:induction false} EvolvesIsTransitive(s: State, t: State, u: State)
    requires Evolves(s, t) && Evolves(t, u)
    ensures Evolves(s, u)
  {
    GrowsOn(s.audits, t.audits, u.audits);
    GrowsOn(s.artifacts, t.artifacts, u.artifacts);
    CancelsEvolveOn(s, t, u);
    ApprovalsEvolveOn(s, t, u);
    assert RunsEvolve(s.runs, u.runs) && LeasesEvolve(s.runs, s.leases, u.leases);
  }

  /** `s'` is a valid state that can follow `s`. */
  ghost predicate Follows(h: Hashes, s: State, s': State) {
    Inv(h, s') && Evolves(s, s')
  }

  lemma {:induction false} FollowsItself(h: Hashes, s: State)
    requires Inv(h, s)
    ensures Follows(h, s, s)
  {
    EvolvesIsReflexive(s);
  }

  lemma {:induction false} FollowsOn(h: Hashes, s: State, t: State, u: State)
    requires Follows(h, s, t) && Follows(h, t, u)
    ensures Follows(h, s, u)
  {
    EvolvesIsTransitive(s, t, u);
  }

  /** A transitive relation between neighbours holds between all earlier and later elements. */
  lemma {:induction false} Chains<S(!new)>(states: seq<S>, r: (S, S) -> bool, i: nat, j: nat)
    requires i < j < |states|
    requires forall a, b, c | r(a, b) && r(b, c) :: r(a, c)
    requires forall k | 0 <= k < |states| - 1 :: r(states[k], states[k + 1])
    ensures r(states[i], states[j])
  {
    if i + 1 < j { Chains(states, r, i, j - 1); }
  }

  /** If every state follows the one before it, every state follows all earlier ones. */
  lemma {:induction false} FollowsThroughout(h: Hashes, states: seq<State>, i: nat, j: nat)
    requires i < j < |states|
    requires forall k | 0 <= k < |states| - 1 :: Follows(h, states[k], states[k + 1])
    ensures Follows(h, states[i], states[j])
  {
    var r := (a, b) => Follows(h, a, b);
    forall a, b, c | r(a, b) && r(b, c) ensures r(a, c) {
      FollowsOn(h, a, b, c);
    }
    Chains(states, r, i, j);
  }
}
