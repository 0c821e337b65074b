/** What a worker that reports an end has done and decided, and what the store answers to a holder that nobody
hinders. */
module WorkerSteps {
  import opened Prelude
  import opened Records
  import opened AuditChain
  import opened StoreState
  import opened StoreInvariant
  import opened History
  import opened Contracts
  import opened LeaseContracts
  import opened StoreActors
  import opened RuntimeDecoding

  // ---------------------------------------------------------------- the worker's own calls

  /** A call of the worker on the store, by what it is for. */
  datatype Act =
    | Asked
    | MovedTo(status: RunStatus)
    | Beaten
    | Audited(kind: EventKind)
    | Recorded(batch: seq<Artifact>)
    | CompletedAs(status: RunStatus)
    | ConfirmedCancel
    | Unexpected

  function ActOf(op: Op): Act {
    match op
    case AskCancelled(_, _) => Asked
    case MoveLeased(_, _, next, _, _) => MovedTo(next)
    case Heartbeat(_, _, _) => Beaten
    case AuditLeased(_, _, kind, _, _) => Audited(kind)
    case StoreLeasedArtifacts(_, _, batch, _, _) => Recorded(batch)
    case CompleteLeased(_, _, next, _, _, _) => CompletedAs(next)
    case Confirm(_, _, _, _, _) => ConfirmedCancel
    case _ => Unexpected
  }

  /** The worker's own calls among the moves, in order. */
  ghost function Acts(moves: seq<Move>): seq<Act> {
    if moves == [] then []
    else
      var n := |moves| - 1;
      Acts(moves[..n]) + if moves[n].Mine? then [ActOf(moves[n].op)] else []
  }

  lemma {:induction false} OneMoreAct(moves: seq<Move>, op: Op)
    ensures Acts(moves + [Mine(op)]) == Acts(moves) + [ActOf(op)]
  {
    var longer := moves + [Mine(op)];
    assert longer[..|longer| - 1] == moves;
  }

  /** From the one log to the other the worker made just these calls. */
  ghost predicate Did(before: seq<Move>, after: seq<Move>, acts: seq<Act>) {
    Acts(after) == Acts(before) + acts
  }

  lemma {:induction false} DidNothing(moves: seq<Move>)
    ensures Did(moves, moves, [])
  {
    assert Acts(moves) + [] == Acts(moves);
  }

  lemma {:induction false} DidThen(a: seq<Move>, b: seq<Move>, c: seq<Move>, first: seq<Act>, second: seq<Act>)
    requires Did(a, b, first) && Did(b, c, second)
    ensures Did(a, c, first + second)
  {
    assert Acts(a) + first + second == Acts(a) + (first + second);
  }

  lemma {:induction false} DidOne(a: seq<Move>, b: seq<Move>, op: Op)
    requires Did(a, b, [])
    ensures Did(a, b + [Mine(op)], [ActOf(op)])
  {
    assert Acts(a) + [] == Acts(a);
    OneMoreAct(b, op);
  }

  lemma {:induction false} OthersActNot(moves: seq<Move>, ops: seq<Op>)
    ensures Did(moves, moves + OfOthers(ops), [])
  {
    if ops == [] {
      assert moves + OfOthers(ops) == moves;
      DidNothing(moves);
    } else {
      var n := |ops| - 1;
      OthersActNot(moves, ops[..n]);
      var longer := moves + OfOthers(ops);
      assert longer[..|longer| - 1] == moves + OfOthers(ops[..n]);
      assert longer[|longer| - 1] == Theirs(ops[n]);
    }
  }

  // ---------------------------------------------------------------- the verdict

  /** The provider asked for no failure event. */
  ghost predicate NothingFailed(stdout: seq<Line>, stderr: seq<Option<string>>) {
    forall i | 0 <= i < |AllRequests(stdout, stderr)| :: !AllRequests(stdout, stderr)[i].Asked().ProviderFailed?
  }

  /** The end that a result of the run leads to, with or without an intent to cancel. */
  ghost function Ruling(result: SandboxResult, intended: bool, stdout: seq<Line>,
                        stderr: seq<Option<string>>): RunStatus
  {
    if intended then if result.termination.Cancelled? then RunStatus.Cancelled else RunStatus.Failed
    else match result.termination
         case TimedOut => RunStatus.TimedOut
         case Exited =>
           if result.exitCode == Some(0) && NothingFailed(stdout, stderr) then Succeeded else RunStatus.Failed
         case _ => RunStatus.Failed
  }

  /** One audit per event of a stream. */
  function StreamActs(payloads: seq<Payload>): seq<Act> {
    seq(|payloads|, i requires 0 <= i < |payloads| =>
          Audited(if payloads[i].IsTerminal() then RuntimeCompleted else RuntimeOutput))
  }

  /** The calls that end a run whose process exited: every event of the stream is audited, the artifacts of a success
      are recorded, the sandbox is reported as destroyed, and the run is completed. */
  ghost function ExitActs(result: SandboxResult, stdout: seq<Line>, stderr: seq<Option<string>>,
                          artifacts: seq<Artifact>): seq<Act>
  {
    var ruling := Ruling(result, false, stdout, stderr);
    StreamActs(Accepting(AllRequests(stdout, stderr), result))
    + (if ruling.Succeeded? then [Recorded(artifacts)] else []) + [Audited(SandboxDestroyed), CompletedAs(ruling)]
  }

  /** The calls that follow the question whether the run is to be cancelled. */
  ghost function ClosingActs(result: SandboxResult, intended: bool, stdout: seq<Line>, stderr: seq<Option<string>>,
                             artifacts: seq<Artifact>): seq<Act>
  {
    if intended then if result.termination.Cancelled? then [ConfirmedCancel] else [CompletedAs(RunStatus.Failed)]
    else match result.termination
         case Exited => ExitActs(result, stdout, stderr, artifacts)
         case Cancelled => [CompletedAs(RunStatus.Failed)]
         case _ => [Audited(SandboxDestroyed), CompletedAs(Ruling(result, false, stdout, stderr))]
  }

  // ---------------------------------------------------------------- a holder that nobody hinders

  /** The lease is held and level with its run, nobody asked to cancel it, and the chain takes so many more events. */
  ghost predicate Current(s: State, lease: RunLease, now: Time, room: nat) {
    var id := lease.run.id;
    && HoldsAt(s, lease, lease.run.revision, now) && s.leases[id].run.revision == lease.run.revision
    && s.runs[id].status == lease.run.status && s.runs[id].updatedAt <= now && id !in s.cancels
    && Takes(s, id, now, room)
  }

  lemma {:induction false} CurrentLater(s: State, lease: RunLease, now: Time, room: nat, now': Time, room': nat)
    requires Current(s, lease, now, room) && now <= now' < s.leases[lease.run.id].expiresAt && room' <= room
    ensures Current(s, lease, now', room')
  {
  }

  /** What the chain takes after it has taken some. */
  lemma {:induction false} TakesLess(s: State, s': State, id: RunId, now: Time, said: seq<Said>, room: nat)
    requires Takes(s, id, now, |said| + room) && Adds(s, s', id, said)
    requires forall i | 0 <= i < |said| :: said[i].time == now
    ensures Takes(s', id, now, room)
  {
    var n, chain := |s.audits[id]|, s'.audits[id];
    assert |SaidIn(chain[n..])| == |said|;
    if said == [] {
      assert chain == s.audits[id];
    } else {
      assert SaidIn(chain[n..])[|said| - 1] == SaidBy(chain[|chain| - 1]);
    }
  }

  lemma {:induction false} AuditGoesOn(h: Hashes, s: State, lease: RunLease, kind: EventKind, now: Time, event: EventId,
                                       room: nat, batch: seq<Artifact>)
    requires Inv(h, s) && Current(s, lease, now, room + 1) && IsWorkerEvent(kind) && BatchOk(s, lease.run.id, batch)
    ensures var r := AppendLeasedAudit(h, s, lease, lease.run.revision, kind, now, event);
            r.Ok? && Current(r.value.0, lease, now, room) && BatchOk(r.value.0, lease.run.id, batch)
  {
    hide Inv, Adds, Takes, AppendLeasedAudit;
    LeasedAuditIsExact(h, s, lease, lease.run.revision, kind, now, event);
    TakesAny(s, lease.run.id, now, 1, room + 1);
    var r := AppendLeasedAudit(h, s, lease, lease.run.revision, kind, now, event);
    TakesLess(s, r.value.0, lease.run.id, now, [Said(kind, lease.owner, now, NoDetail)], room);
  }

  lemma {:induction false} TakesAny(s: State, id: RunId, now: Time, n: nat, m: nat)
    requires Takes(s, id, now, m) && n <= m
    ensures Takes(s, id, now, n)
  {
  }

  lemma {:induction false} QuestionIsAnswered(h: Hashes, s: State, lease: RunLease, now: Time, room: nat)
    requires Inv(h, s) && Current(s, lease, now, room)
    ensures LeaseCancelRequested(s, lease, now) == Ok(false)
  {
    hide Inv;
    AnswerIsExact(h, s, lease, now);
  }

  lemma {:induction false} BeatGoesOn(h: Hashes, s: State, lease: RunLease, now: Time, ttl: int, room: nat,
                                      batch: seq<Artifact>)
    requires Inv(h, s) && Current(s, lease, now, room) && IsTerm(now, ttl) && BatchOk(s, lease.run.id, batch)
    ensures var r := HeartbeatLease(s, lease, now, ttl);
            && r.Ok? && Current(r.value.0, r.value.1, now, room) && BatchOk(r.value.0, lease.run.id, batch)
            && r.value.1.run.id == lease.run.id && r.value.1.run.status == lease.run.status
            && !r.value.1.cancelRequested && r.value.0.leases[lease.run.id].expiresAt == now + ttl
  {
    hide Inv, HeartbeatLease;
    LeaseAndRun(h, s, lease.run.id);
    HeartbeatIsExact(h, s, lease, now, ttl);
    RunAndChain(h, s, lease.run.id);
  }

  lemma {:induction false} MoveGoesOn(h: Hashes, s: State, lease: RunLease, next: RunStatus, now: Time, event: EventId,
                                      room: nat, batch: seq<Artifact>)
    requires Inv(h, s) && Current(s, lease, now, room + 1) && BatchOk(s, lease.run.id, batch)
    requires lease.run.status.CanTransitionTo(next) && !next.IsTerminal()
    ensures var r := TransitionLeasedRun(h, s, lease, lease.run.revision, next, now, event);
            && r.Ok? && Current(r.value.0, r.value.1, now, room) && BatchOk(r.value.0, lease.run.id, batch)
            && r.value.1.run.id == lease.run.id && r.value.1.run.status == next && !r.value.1.cancelRequested
            && r.value.0.leases[lease.run.id].expiresAt == s.leases[lease.run.id].expiresAt
  {
    hide Inv, Adds, Takes, TransitionLeasedRun;
    RunAndChain(h, s, lease.run.id);
    LeasedMoveIsExact(h, s, lease, lease.run.revision, next, now, event);
    TakesAny(s, lease.run.id, now, 1, room + 1);
    NotAsked(h, s, lease.run.id);
    var r := TransitionLeasedRun(h, s, lease, lease.run.revision, next, now, event);
    TakesLess(s, r.value.0, lease.run.id, now, [Said(TransitionEvent(next), lease.owner, now, NoDetail)], room);
  }

  lemma {:induction false} NotAsked(h: Hashes, s: State, id: RunId)
    requires Inv(h, s) && id in s.leases && id !in s.cancels
    ensures !s.leases[id].cancelRequested
  {
    LeaseAndRun(h, s, id);
  }

  lemma {:induction false} RecordingGoesOn(h: Hashes, s: State, lease: RunLease, batch: seq<Artifact>, now: Time,
                                           ids: EventIds, room: nat)
    requires Inv(h, s) && Current(s, lease, now, room + |batch| + 1) && BatchOk(s, lease.run.id, batch)
    ensures var r := RecordLeasedArtifacts(h, s, lease, lease.run.revision, batch, now, ids);
            r.Ok? && Current(r.value.0, lease, now, room) && BatchOk(r.value.0, lease.run.id, [])
  {
    hide Inv, Adds, Takes, RecordLeasedArtifacts, AddArtifacts, SaidOfBatch;
    var id := lease.run.id;
    TakesAny(s, id, now, |batch| + 1, room + |batch| + 1);
    LeasedBatchIsExact(h, s, lease, lease.run.revision, batch, now, ids);
    BatchIsExact(h, s, id, batch, Envelope(lease.owner, now), ids);
    var said := SaidOfBatch(batch, lease.owner, now);
    BatchIsTimed(batch, lease.owner, now);
    TakesAny(s, id, now, |said| + room, room + |batch| + 1);
    TakesLess(s, RecordLeasedArtifacts(h, s, lease, lease.run.revision, batch, now, ids).value.0, id, now, said, room);
  }

  lemma {:induction false} BatchIsTimed(batch: seq<Artifact>, actor: ActorId, now: Time)
    ensures |SaidOfBatch(batch, actor, now)| == |batch|
    ensures forall i | 0 <= i < |batch| :: SaidOfBatch(batch, actor, now)[i].time == now
  {
  }

  /** The ends that a worker can complete a run with. */
  predicate IsWorkersEnd(status: RunStatus) {
    status.Succeeded? || status.Failed? || status.TimedOut?
  }

  lemma {:induction false} CompletionWorks(h: Hashes, s: State, lease: RunLease, next: RunStatus,
                                           reason: Option<string>, now: Time, event: EventId, room: nat)
    requires Inv(h, s) && Current(s, lease, now, room + 1) && lease.run.status.Running? && IsWorkersEnd(next)
    ensures CompleteLeasedRun(h, s, lease, lease.run.revision, next, reason, now, event).Ok?
  {
    hide Inv, Takes, CompleteLeasedRun, EndsRun;
    CompletionIsExact(h, s, lease, lease.run.revision, next, reason, now, event);
    TakesAny(s, lease.run.id, now, 1, room + 1);
  }

  // ---------------------------------------------------------------- one call after the other

  /** From the `t`-th reading on, the next `n` readings of the clock run forward, before the lease's expiry, and all of
      them lie within one term. */
  ghost predicate WithinTerm(clock: nat -> Time, ttl: int, t: nat, n: nat, expiresAt: Time) {
    && (forall i, j | t <= i <= j < t + n :: clock(i) <= clock(j))
    && (forall i, j | t <= i < t + n && t <= j < t + n :: clock(j) < clock(i) + ttl)
    && (forall i | t <= i < t + n :: clock(i) < expiresAt && IsTerm(clock(i), ttl))
  }

  /** The holder can make `n` more calls, and record the artifacts. */
  ghost predicate CanGoOn(clock: nat -> Time, ttl: int, t: nat, n: nat, s: State, lease: RunLease,
                          batch: seq<Artifact>)
  {
    && lease.run.id in s.leases && BatchOk(s, lease.run.id, batch)
    && WithinTerm(clock, ttl, t, n, s.leases[lease.run.id].expiresAt)
    && (n > 0 ==> Current(s, lease, clock(t), n))
  }

  lemma {:induction false} NextReading(clock: nat -> Time, ttl: int, t: nat, n: nat, s: State, lease: RunLease,
                                       batch: seq<Artifact>, room: nat, was: Time)
    requires WithinTerm(clock, ttl, t, n, was) && room < n
    requires Current(s, lease, clock(t), room) && BatchOk(s, lease.run.id, batch)
    requires s.leases[lease.run.id].expiresAt == was || s.leases[lease.run.id].expiresAt == clock(t) + ttl
    ensures CanGoOn(clock, ttl, t + 1, room, s, lease, batch)
  {
    hide BatchOk;
    if room > 0 { CurrentLater(s, lease, clock(t), room, clock(t + 1), room); }
  }

  lemma {:induction false} CanAudit(h: Hashes, clock: nat -> Time, ttl: int, t: nat, n: nat, s: State, lease: RunLease,
                                    batch: seq<Artifact>, kind: EventKind, event: EventId)
    requires Inv(h, s)
    ensures var r := AppendLeasedAudit(h, s, lease, lease.run.revision, kind, clock(t), event);
            CanGoOn(clock, ttl, t, n, s, lease, batch) && n > 0 && IsWorkerEvent(kind) ==>
              r.Ok? && CanGoOn(clock, ttl, t + 1, n - 1, r.value.0, lease, batch)
  {
    hide Inv, AppendLeasedAudit, BatchOk, Takes;
    if CanGoOn(clock, ttl, t, n, s, lease, batch) && n > 0 && IsWorkerEvent(kind) {
      AuditGoesOn(h, s, lease, kind, clock(t), event, n - 1, batch);
      AuditLeavesLeases(h, s, lease, kind, clock(t), event);
      NextReading(clock, ttl, t, n, AppendLeasedAudit(h, s, lease, lease.run.revision, kind, clock(t), event).value.0,
                  lease, batch, n - 1, s.leases[lease.run.id].expiresAt);
    }
  }

  lemma {:induction false} AuditLeavesLeases(h: Hashes, s: State, lease: RunLease, kind: EventKind, now: Time,
                                             event: EventId)
    requires AppendLeasedAudit(h, s, lease, lease.run.revision, kind, now, event).Ok?
    ensures AppendLeasedAudit(h, s, lease, lease.run.revision, kind, now, event).value.0.leases == s.leases
  {
    hide Seal, ValidateLease;
  }

  lemma {:induction false} CanAsk(h: Hashes, clock: nat -> Time, ttl: int, t: nat, n: nat, s: State, lease: RunLease,
                                  batch: seq<Artifact>)
    requires Inv(h, s)
    ensures CanGoOn(clock, ttl, t, n, s, lease, batch) && n > 0 ==>
              LeaseCancelRequested(s, lease, clock(t)) == Ok(false)
                && CanGoOn(clock, ttl, t + 1, n - 1, s, lease, batch)
  {
    hide Inv, BatchOk, Takes, LeaseCancelRequested;
    if CanGoOn(clock, ttl, t, n, s, lease, batch) && n > 0 {
      QuestionIsAnswered(h, s, lease, clock(t), n);
      TakesAny(s, lease.run.id, clock(t), n - 1, n);
      NextReading(clock, ttl, t, n, s, lease, batch, n - 1, s.leases[lease.run.id].expiresAt);
    }
  }

  lemma {:induction false} CanBeat(h: Hashes, clock: nat -> Time, ttl: int, t: nat, n: nat, s: State, lease: RunLease,
                                   batch: seq<Artifact>)
    requires Inv(h, s)
    ensures var r := HeartbeatLease(s, lease, clock(t), ttl);
            CanGoOn(clock, ttl, t, n, s, lease, batch) && n > 0 ==>
              && r.Ok? && CanGoOn(clock, ttl, t + 1, n - 1, r.value.0, r.value.1, batch)
              && r.value.1.run.id == lease.run.id && r.value.1.run.status == lease.run.status
              && !r.value.1.cancelRequested
  {
    hide Inv, BatchOk, Takes, HeartbeatLease;
    if CanGoOn(clock, ttl, t, n, s, lease, batch) && n > 0 {
      BeatGoesOn(h, s, lease, clock(t), ttl, n, batch);
      var (s', l) := HeartbeatLease(s, lease, clock(t), ttl).value;
      TakesAny(s', lease.run.id, clock(t), n - 1, n);
      NextReading(clock, ttl, t, n, s', l, batch, n - 1, s.leases[lease.run.id].expiresAt);
    }
  }

  lemma {:induction false} CanMove(h: Hashes, clock: nat -> Time, ttl: int, t: nat, n: nat, s: State, lease: RunLease,
                                   batch: seq<Artifact>, next: RunStatus, event: EventId)
    requires Inv(h, s)
    ensures var r := TransitionLeasedRun(h, s, lease, lease.run.revision, next, clock(t), event);
            CanGoOn(clock, ttl, t, n, s, lease, batch) && n > 0 && lease.run.status.CanTransitionTo(next)
            && !next.IsTerminal()
            ==> r.Ok? && CanGoOn(clock, ttl, t + 1, n - 1, r.value.0, r.value.1, batch) && !r.value.1.cancelRequested
  {
    hide Inv, BatchOk, Takes, TransitionLeasedRun;
    if CanGoOn(clock, ttl, t, n, s, lease, batch) && n > 0 && lease.run.status.CanTransitionTo(next)
       && !next.IsTerminal() {
      MoveGoesOn(h, s, lease, next, clock(t), event, n - 1, batch);
      var (s', l) := TransitionLeasedRun(h, s, lease, lease.run.revision, next, clock(t), event).value;
      NextReading(clock, ttl, t, n, s', l, batch, n - 1, s.leases[lease.run.id].expiresAt);
    }
  }

  lemma {:induction false} CanRecord(h: Hashes, clock: nat -> Time, ttl: int, t: nat, n: nat, s: State, lease: RunLease,
                                     batch: seq<Artifact>, ids: EventIds)
    requires Inv(h, s)
    ensures var r := RecordLeasedArtifacts(h, s, lease, lease.run.revision, batch, clock(t), ids);
            CanGoOn(clock, ttl, t, n, s, lease, batch) && n > |batch| ==>
              r.Ok? && CanGoOn(clock, ttl, t + 1, n - 1 - |batch|, r.value.0, lease, [])
  {
    hide Inv, BatchOk, Takes, RecordLeasedArtifacts;
    if CanGoOn(clock, ttl, t, n, s, lease, batch) && n > |batch| {
      RecordingGoesOn(h, s, lease, batch, clock(t), ids, n - 1 - |batch|);
      RecordingLeavesLeases(h, s, lease, batch, clock(t), ids);
      var s' := RecordLeasedArtifacts(h, s, lease, lease.run.revision, batch, clock(t), ids).value.0;
      NextReading(clock, ttl, t, n, s', lease, [], n - 1 - |batch|, s.leases[lease.run.id].expiresAt);
    }
  }

  lemma {:induction false} RecordingLeavesLeases(h: Hashes, s: State, lease: RunLease, batch: seq<Artifact>, now: Time,
                                                 ids: EventIds)
    requires RecordLeasedArtifacts(h, s, lease, lease.run.revision, batch, now, ids).Ok?
    ensures RecordLeasedArtifacts(h, s, lease, lease.run.revision, batch, now, ids).value.0.leases == s.leases
  {
    hide ArtifactEvents, BatchOk, ValidateLease;
  }

  lemma {:induction false} CanComplete(h: Hashes, clock: nat -> Time, ttl: int, t: nat, n: nat, s: State,
                                       lease: RunLease, batch: seq<Artifact>, next: RunStatus, reason: Option<string>,
                                       event: EventId)
    requires Inv(h, s)
    ensures CanGoOn(clock, ttl, t, n, s, lease, batch) && n > 0 && lease.run.status.Running? && IsWorkersEnd(next) ==>
              CompleteLeasedRun(h, s, lease, lease.run.revision, next, reason, clock(t), event).Ok?
  {
    hide Inv, BatchOk, Takes, CompleteLeasedRun;
    if CanGoOn(clock, ttl, t, n, s, lease, batch) && n > 0 && lease.run.status.Running? && IsWorkersEnd(next) {
      CompletionWorks(h, s, lease, next, reason, clock(t), event, n - 1);
    }
  }
}
