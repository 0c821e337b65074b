/** A worker that executes one claimed run, while any other actors use the store between its calls. */
module Worker {
  import opened Prelude
  import opened Records
  import opened AuditChain
  import opened StoreState
  import opened StoreInvariant
  import opened History
  import opened ExecutionStore
  import opened StoreActors
  import opened RuntimeDecoding
  import opened WorkerSteps

  datatype WorkerOutcome = Paused(run: Run) | Ended(run: Run)

  datatype StartDisposition = StartRun | StartAwaitingApproval

  /** How the sandbox thread answers in the end. */
  datatype Answer = Received(result: Result<SandboxResult>) | Disconnected

  /** What lies outside the worker: the checks of the assignment and its environment, the sandbox, the
      provider's reading of its output and the artifact scan. */
  datatype Surroundings =
    Surroundings(task: Result<()>,
                 environment: Result<()>,
                 disposition: StartDisposition,
                 health: Result<()>,
                 prepared: Result<()>,
                 timeouts: nat,
                 cancelAnswer: Result<()>,
                 answer: Answer,
                 fits: Payload -> bool,
                 stdout: seq<Line>,
                 stderr: seq<Option<string>>,
                 scanned: Result<seq<Artifact>>)

  // ---------------------------------------------------------------- what the store's answers mean

  lemma {:induction false} CompletionEnds(h: Hashes, s: State, lease: RunLease, next: RunStatus,
                                          reason: Option<string>, now: Time, event: EventId)
    requires Inv(h, s) && CompleteLeasedRun(h, s, lease, lease.run.revision, next, reason, now, event).Ok?
    ensures var (s', r) := CompleteLeasedRun(h, s, lease, lease.run.revision, next, reason, now, event).value;
            && r.status == next && next.IsTerminal() && r.id == lease.run.id
            && r.id in s'.runs && s'.runs[r.id] == r && r.id !in s'.leases
  {
    hide Inv, ReceiptsOk, ChainOk;
    RunAndChain(h, s, lease.run.id);
  }

  lemma {:induction false} ConfirmationEnds(h: Hashes, s: State, lease: RunLease, now: Time,
                                            evidence: CancellationEvidence, event: EventId)
    requires Inv(h, s) && ConfirmCancel(h, s, lease, now, evidence, event).Ok?
    ensures var (s', r) := ConfirmCancel(h, s, lease, now, evidence, event).value;
            r.status == RunStatus.Cancelled && r.id == lease.run.id && r.id in s'.runs && s'.runs[r.id] == r
              && r.id !in s'.leases
  {
    hide Inv, ReceiptsOk, ChainOk;
    RunAndChain(h, s, lease.run.id);
  }

  /** The batch is among the run's stored artifacts, after whatever was stored before it. */
  ghost predicate HasArtifacts(s: State, id: RunId, batch: seq<Artifact>) {
    exists before :: before + batch <= Stored(s.artifacts, id)
  }

  lemma {:induction false} RecordingStores(h: Hashes, s: State, lease: RunLease, batch: seq<Artifact>, now: Time,
                                           ids: EventIds)
    requires RecordLeasedArtifacts(h, s, lease, lease.run.revision, batch, now, ids).Ok?
    ensures HasArtifacts(RecordLeasedArtifacts(h, s, lease, lease.run.revision, batch, now, ids).value.0, lease.run.id,
                         batch)
  {
    var s' := RecordLeasedArtifacts(h, s, lease, lease.run.revision, batch, now, ids).value.0;
    assert Stored(s.artifacts, lease.run.id) + batch <= Stored(s'.artifacts, lease.run.id);
  }

  lemma {:induction false} ArtifactsStay(h: Hashes, s: State, s': State, id: RunId, batch: seq<Artifact>)
    requires Follows(h, s, s') && HasArtifacts(s, id, batch)
    ensures HasArtifacts(s', id, batch)
  {
    hide Inv;
    var before :| before + batch <= Stored(s.artifacts, id);
    assert Stored(s.artifacts, id) <= Stored(s'.artifacts, id);
    assert before + batch <= Stored(s'.artifacts, id);
  }

  // ---------------------------------------------------------------- the whole course

  /** The result of the run, if the sandbox gave one. */
  ghost predicate HasResult(w: Surroundings, id: RunId) {
    w.answer.Received? && w.answer.result.Ok? && w.answer.result.value.runId == id
  }

  ghost function Scanned(w: Surroundings): seq<Artifact> {
    if w.scanned.Ok? then w.scanned.value else []
  }

  /** The status a run ends in from the result on, by whether the worker was then told to cancel. */
  ghost function FinishVerdict(id: RunId, told: seq<bool>, w: Surroundings): RunStatus {
    if !HasResult(w, id) then RunStatus.Failed
    else Ruling(w.answer.result.value, |told| > 0 && told[0], w.stdout, w.stderr)
  }

  /** And from the running state on. */
  ghost function RunningVerdict(id: RunId, told: seq<bool>, w: Surroundings): RunStatus {
    if |told| == 0 || told[0] then RunStatus.Failed else FinishVerdict(id, told[1..], w)
  }

  /** The status that a run is reported to have ended in, by what the worker was told when it asked whether to cancel,
      before the start, before the sandbox and after it, and by what the sandbox gave. */
  ghost function Verdict(lease: RunLease, told: seq<bool>, w: Surroundings): RunStatus {
    if !lease.run.status.Planning? || |told| == 0 || told[0] then RunStatus.Failed
    else RunningVerdict(lease.run.id, told[1..], w)
  }

  function Beatens(n: nat): seq<Act> {
    seq(n, _ => Beaten)
  }

  lemma {:induction false} OneMoreBeat(n: nat)
    ensures Beatens(0) == [] && Beatens(n + 1) == Beatens(n) + [Beaten]
  {
  }

  /** The worker's calls from the result on. */
  ghost function FinishActs(id: RunId, told: seq<bool>, w: Surroundings): seq<Act> {
    if !HasResult(w, id) then [CompletedAs(RunStatus.Failed)]
    else [Audited(SandboxCreated), Audited(RuntimeStarted), Asked]
         + ClosingActs(w.answer.result.value, |told| > 0 && told[0], w.stdout, w.stderr, Scanned(w))
  }

  /** The worker's calls from the running state on. */
  ghost function RunningActs(id: RunId, told: seq<bool>, w: Surroundings): seq<Act> {
    [Asked] + if |told| == 0 || told[0] then [CompletedAs(RunStatus.Failed)]
              else Beatens(w.timeouts) + FinishActs(id, told[1..], w)
  }

  /** All the calls of a worker that reports an end. */
  ghost function Course(lease: RunLease, told: seq<bool>, w: Surroundings): seq<Act> {
    if !lease.run.status.Planning? then [CompletedAs(RunStatus.Failed)]
    else [Asked] + if |told| == 0 || told[0] then [CompletedAs(RunStatus.Failed)]
                   else [MovedTo(Running)] + RunningActs(lease.run.id, told[1..], w)
  }

  lemma {:induction false} CourseStops(lease: RunLease, w: Surroundings)
    ensures !lease.run.status.Planning? ==>
              Course(lease, [], w) == [CompletedAs(RunStatus.Failed)] && Verdict(lease, [], w) == RunStatus.Failed
    ensures lease.run.status.Planning? ==>
              Course(lease, [true], w) == [Asked] + [CompletedAs(RunStatus.Failed)]
                && Verdict(lease, [true], w) == RunStatus.Failed
  {
  }

  lemma {:induction false} CourseGoesOn(lease: RunLease, told: seq<bool>, w: Surroundings)
    requires lease.run.status.Planning?
    ensures Course(lease, [false] + told, w) == [Asked] + ([MovedTo(Running)] + RunningActs(lease.run.id, told, w))
    ensures Verdict(lease, [false] + told, w) == RunningVerdict(lease.run.id, told, w)
  {
    assert ([false] + told)[1..] == told;
  }

  /** The sandbox gave a valid result of the run; that of an exited process is acceptable, and a success was scanned. */
  ghost predicate IsUsable(w: Surroundings, id: RunId) {
    && HasResult(w, id)
    && var result := w.answer.result.value;
       && result.IsValid()
       && (result.termination.Exited? ==>
             && Acceptable(result, w.fits, w.stdout, w.stderr)
             && (Ruling(result, false, w.stdout, w.stderr).Succeeded? ==> w.scanned.Ok?))
  }

  /** As many calls, and as much room, as a success takes from the exit on, and altogether. */
  ghost function ExitCalls(w: Surroundings): nat {
    |AllRequests(w.stdout, w.stderr)| + |Scanned(w)| + 4
  }

  ghost function AllCalls(w: Surroundings): nat {
    w.timeouts + ExitCalls(w) + 6
  }

  // ---------------------------------------------------------------- the worker

  class SingleRunWorker {
    const store: InMemoryExecutionStore
    const ttl: int
    const clock: nat -> Time
    const ids: nat -> EventId
    const batches: nat -> EventIds
    var script: seq<seq<Op>>
    var ticks: nat
    var cancelsSent: nat
    ghost var beats: seq<bool>
    ghost var told: seq<bool>
    ghost var log: seq<Move>
    ghost var ends: seq<Run>

    constructor (store: InMemoryExecutionStore, ttl: int, clock: nat -> Time, ids: nat -> EventId,
                 batches: nat -> EventIds, script: seq<seq<Op>>)
      ensures this.store == store && this.script == script && this.ttl == ttl && this.clock == clock && ticks == 0
      ensures log == [] && ends == [] && beats == [] && told == [] && cancelsSent == 0
    {
      this.store, this.ttl, this.clock, this.ids, this.batches, this.script := store, ttl, clock, ids, batches, script;
      ticks, cancelsSent, beats, told, log, ends := 0, 0, [], [], [], [];
    }

    /** The store, everything done to it since the worker began, and the runs the worker itself has ended. */
    ghost function Ledger(): Books
      reads this, store
    {
      Books(store.View(), log, ends)
    }

    /** The run ended: it is stored in its terminal state and its lease is gone. */
    ghost predicate HasEnded(run: Run)
      reads store
    {
      run.status.IsTerminal() && run.id in store.runs && store.runs[run.id] == run && run.id !in store.leases
    }

    /** What the worker has written when it returns: the run it reports as ended, and nothing but a
        failure when it reports an error. */
    ghost predicate Accounts(r: Result<WorkerOutcome>, before: seq<Run>)
      reads this, store
    {
      match r
      case Ok(Ended(run)) => ends == before + [run] && HasEnded(run)
      case Ok(Paused(run)) => ends == before && run.status.AwaitingApproval?
      case Err(_) =>
        ends == before || (|ends| == |before| + 1 && before <= ends && ends[|before|].status == RunStatus.Failed)
    }

    /** Nobody else acts, and the holder can make `n` more calls and record the artifacts. */
    ghost predicate Unhindered(lease: RunLease, n: nat, batch: seq<Artifact>)
      reads this`script, this`ticks, store
    {
      script == [] && CanGoOn(clock, ttl, ticks, n, store.View(), lease, batch)
    }

    // -------------------------------------------------------------- calls on the shared store

    /** Others act on the store before each of the worker's calls; then the clock is read. */
    method Turn() returns (now: Time, event: EventId, batch: EventIds)
      requires store.Valid()
      modifies this`script, this`ticks, this`log, store
      ensures store.Valid() && Played(store.h, old(Ledger()), Ledger()) && ends == old(ends)
      ensures Did(old(log), log, [])
      ensures now == clock(old(ticks)) && event == ids(old(ticks)) && batch == batches(old(ticks))
      ensures ticks == old(ticks) + 1
      ensures old(script) == [] ==> script == [] && store.View() == old(store.View())
    {
      hide Inv;
      PlayedItself(store.h, Ledger());
      DidNothing(log);
      if script != [] {
        hide Play, Ends, OfOthers, Did;
        PerformAll(store, script[0]);
        OthersActNot(log, script[0]);
        log := log + OfOthers(script[0]);
        assert log[|old(log)|..] == OfOthers(script[0]);
        assert ends + [] == ends;
        script := script[1..];
      }
      now, event, batch := clock(ticks), ids(ticks), batches(ticks);
      ticks := ticks + 1;
    }

    method Audit(lease: RunLease, kind: EventKind, ghost n: nat, ghost batch: seq<Artifact>) returns (r: Result<()>)
      requires store.Valid()
      modifies this`script, this`ticks, this`log, store
      ensures store.Valid() && Played(store.h, old(Ledger()), Ledger()) && ends == old(ends)
      ensures Did(old(log), log, [Audited(kind)])
      ensures n > 0 && IsWorkerEvent(kind) && old(Unhindered(lease, n, batch)) ==>
                r.Ok? && Unhindered(lease, n - 1, batch)
    {
      hide Inv, Evolves, Played, Did, CanGoOn, StoreState.CreateRun, StoreState.TransitionRun, StoreState.AppendAudit,
        StoreState.ReconcileExecution, StoreState.RecordArtifacts, StoreState.ClaimNextRun, StoreState.HeartbeatLease,
        StoreState.TransitionLeasedRun, StoreState.CompleteLeasedRun, StoreState.AppendLeasedAudit,
        StoreState.RecordLeasedArtifacts, StoreState.LeaseCancelRequested, StoreState.ConfirmCancel,
        StoreState.RequestCancel, StoreState.RecoverExpiredLeases, StoreState.CreateApproval,
        StoreState.DecideApproval, StoreState.ExpireApproval, StoreState.ConsumeApproval;
      var now, event, _ := Turn();
      ghost var before := Ledger();
      CanAudit(store.h, clock, ttl, ticks - 1, n, store.View(), lease, batch, kind, event);
      var answer := store.AppendLeasedAudit(lease, lease.run.revision, kind, now, event);
      ghost var op := AuditLeased(lease, lease.run.revision, kind, now, event);
      DidOne(old(log), log, op);
      log := log + [Mine(op)];
      PlayedMine(store.h, old(Ledger()), before, op, Ledger());
      if answer.Err? { return Err(answer.code); }
      return Ok(());
    }

    method CancelRequested(lease: RunLease, ghost n: nat, ghost batch: seq<Artifact>) returns (r: Result<bool>)
      requires store.Valid()
      modifies this`script, this`ticks, this`log, this`told, store
      ensures store.Valid() && Played(store.h, old(Ledger()), Ledger()) && ends == old(ends)
      ensures r.Ok? ==> r.value == (lease.run.id in store.cancels)
      ensures told == old(told) + (if r.Ok? then [r.value] else []) && Did(old(log), log, [Asked])
      ensures n > 0 && old(Unhindered(lease, n, batch)) ==> r == Ok(false) && Unhindered(lease, n - 1, batch)
    {
      hide Inv, Evolves, Played, Did, CanGoOn, StoreState.CreateRun, StoreState.TransitionRun, StoreState.AppendAudit,
        StoreState.ReconcileExecution, StoreState.RecordArtifacts, StoreState.ClaimNextRun, StoreState.HeartbeatLease,
        StoreState.TransitionLeasedRun, StoreState.CompleteLeasedRun, StoreState.AppendLeasedAudit,
        StoreState.RecordLeasedArtifacts, StoreState.ConfirmCancel, StoreState.RequestCancel,
        StoreState.RecoverExpiredLeases, StoreState.CreateApproval, StoreState.DecideApproval,
        StoreState.ExpireApproval, StoreState.ConsumeApproval;
      var now, _, _ := Turn();
      ghost var before := Ledger();
      DidOne(old(log), log, AskCancelled(lease, now));
      log := log + [Mine(AskCancelled(lease, now))];
      PlayedMine(store.h, old(Ledger()), before, AskCancelled(lease, now), Ledger());
      CanAsk(store.h, clock, ttl, ticks - 1, n, store.View(), lease, batch);
      r := LeaseCancelRequested(store.View(), lease, now);
      told := told + if r.Ok? then [r.value] else [];
    }

    method Complete(lease: RunLease, next: RunStatus, reason: Option<string>, ghost n: nat, ghost batch: seq<Artifact>)
      returns (r: Result<WorkerOutcome>)
      requires store.Valid()
      modifies this`script, this`ticks, this`log, this`ends, store
      ensures store.Valid() && Played(store.h, old(Ledger()), Ledger())
      ensures r.Ok? ==> r.value.Ended? && r.value.run.status == next && r.value.run.id == lease.run.id
      ensures r.Ok? ==> ends == old(ends) + [r.value.run] && HasEnded(r.value.run)
      ensures r.Err? ==> ends == old(ends)
      ensures Did(old(log), log, [CompletedAs(next)])
      ensures n > 0 && IsWorkersEnd(next) && lease.run.status.Running? && old(Unhindered(lease, n, batch)) ==> r.Ok?
    {
      hide Inv, Evolves, Played, Did, CanGoOn, StoreState.CreateRun, StoreState.TransitionRun, StoreState.AppendAudit,
        StoreState.ReconcileExecution, StoreState.RecordArtifacts, StoreState.ClaimNextRun, StoreState.HeartbeatLease,
        StoreState.TransitionLeasedRun, StoreState.CompleteLeasedRun, StoreState.AppendLeasedAudit,
        StoreState.RecordLeasedArtifacts, StoreState.LeaseCancelRequested, StoreState.ConfirmCancel,
        StoreState.RequestCancel, StoreState.RecoverExpiredLeases, StoreState.CreateApproval,
        StoreState.DecideApproval, StoreState.ExpireApproval, StoreState.ConsumeApproval;
      var now, event, _ := Turn();
      ghost var before := Ledger();
      CanComplete(store.h, clock, ttl, ticks - 1, n, store.View(), lease, batch, next, reason, event);
      var answer := store.CompleteLeasedRun(lease, lease.run.revision, next, reason, now, event);
      ghost var op := CompleteLeased(lease, lease.run.revision, next, reason, now, event);
      DidOne(old(log), log, op);
      log := log + [Mine(op)];
      ends := ends + if answer.Ok? then [answer.value] else [];
      PlayedMine(store.h, old(Ledger()), before, op, Ledger());
      if answer.Err? { return Err(answer.code); }
      CompletionEnds(store.h, before.state, lease, next, reason, now, event);
      return Ok(Ended(answer.value));
    }

    method FailClosed(lease: RunLease, reason: string, ghost n: nat, ghost batch: seq<Artifact>)
      returns (r: Result<WorkerOutcome>)
      requires store.Valid()
      modifies this`script, this`ticks, this`log, this`ends, store
      ensures store.Valid() && Played(store.h, old(Ledger()), Ledger())
      ensures Accounts(r, old(ends)) && (r.Ok? ==> r.value.Ended? && r.value.run.status == RunStatus.Failed)
      ensures r.Err? ==> ends == old(ends)
      ensures r.Ok? ==> r.value.run.id == lease.run.id
      ensures Did(old(log), log, [CompletedAs(RunStatus.Failed)])
      ensures n > 0 && lease.run.status.Running? && old(Unhindered(lease, n, batch)) ==> r.Ok?
    {
      hide Inv, Played, Did, CanGoOn;
      r := Complete(lease, RunStatus.Failed, Some(reason), n, batch);
    }

    method FailAfterError(lease: RunLease, code: ErrorCode) returns (r: Result<WorkerOutcome>)
      requires store.Valid()
      modifies this`script, this`ticks, this`log, this`ends, store
      ensures store.Valid() && Played(store.h, old(Ledger()), Ledger())
      ensures r.Err? && Accounts(r, old(ends))
    {
      hide Inv, Played, Did;
      var failed := FailClosed(lease, "worker execution failed closed", 0, []);
      return if failed.Ok? then Err(code) else Err(failed.code);
    }

    // -------------------------------------------------------------- supervision

    /** One heartbeat on the shared store: after whatever others did, the answer is that of the store's heartbeat for
        the lease, and its success is noted. */
    method Beat(lease: RunLease, ghost n: nat, ghost batch: seq<Artifact>) returns (r: Result<RunLease>)
      requires store.Valid()
      modifies this`script, this`ticks, this`log, this`beats, store
      ensures store.Valid() && Played(store.h, old(Ledger()), Ledger()) && ends == old(ends)
      ensures beats == old(beats) + [r.Ok?] && (r.Ok? ==> r.value.run.id == lease.run.id)
      ensures |old(log)| < |log| && log[|log| - 1].Mine?
      ensures var op := log[|log| - 1].op;
              && op.Heartbeat? && op.lease == lease && op.ttl == ttl
              && r == Value(HeartbeatLease(Play(store.h, old(store.View()), log[|old(log)|..|log| - 1]), lease, op.now,
                                           ttl))
      ensures Did(old(log), log, [Beaten])
      ensures n > 0 && old(Unhindered(lease, n, batch)) ==>
                r.Ok? && Unhindered(r.value, n - 1, batch) && r.value.run.status == lease.run.status
                  && !r.value.cancelRequested
    {
      hide Inv, Evolves, Play, Ends, Did, CanGoOn, StoreState.CreateRun, StoreState.TransitionRun,
        StoreState.AppendAudit, StoreState.ReconcileExecution, StoreState.RecordArtifacts, StoreState.ClaimNextRun,
        StoreState.HeartbeatLease, StoreState.TransitionLeasedRun, StoreState.CompleteLeasedRun,
        StoreState.AppendLeasedAudit, StoreState.RecordLeasedArtifacts, StoreState.LeaseCancelRequested,
        StoreState.ConfirmCancel, StoreState.RequestCancel, StoreState.RecoverExpiredLeases, StoreState.CreateApproval,
        StoreState.DecideApproval, StoreState.ExpireApproval, StoreState.ConsumeApproval;
      var now, _, _ := Turn();
      ghost var before := Ledger();
      CanBeat(store.h, clock, ttl, ticks - 1, n, store.View(), lease, batch);
      r := store.HeartbeatLease(lease, now, ttl);
      DidOne(old(log), log, Heartbeat(lease, now, ttl));
      log := log + [Mine(Heartbeat(lease, now, ttl))];
      PlayedMine(store.h, old(Ledger()), before, Heartbeat(lease, now, ttl), Ledger());
      RenewalIsOfTheRun(store.h, before.state, lease, now, ttl);
      assert log[|old(log)|..|log| - 1] == before.log[|old(log)|..];
      beats := beats + [r.Ok?];
    }

    /** One request to the sandbox to cancel. */
    method AskSandboxToCancel(w: Surroundings) returns (r: Result<()>)
      modifies this`cancelsSent
      ensures cancelsSent == old(cancelsSent) + 1 && r == w.cancelAnswer
    {
      cancelsSent := cancelsSent + 1;
      return w.cancelAnswer;
    }

    /** One round of the supervision: a heartbeat, unless an earlier one failed, and a request to cancel, unless one was
        sent, when it fails or shows an intent. */
    method Round(lease: RunLease, primary: Option<ErrorCode>, sent: bool, w: Surroundings, ghost n: nat)
      returns (current: RunLease, primary': Option<ErrorCode>, sent': bool)
      requires store.Valid()
      modifies this`script, this`ticks, this`log, this`beats, this`cancelsSent, store
      ensures store.Valid() && Played(store.h, old(Ledger()), Ledger()) && current.run.id == lease.run.id
      ensures cancelsSent == old(cancelsSent) + (if sent' && !sent then 1 else 0)
      ensures sent || primary'.Some? || current.cancelRequested ==> sent'
      ensures primary.Some? ==> beats == old(beats) && primary' == primary && Did(old(log), log, [])
      ensures primary.None? ==> && |beats| == |old(beats)| + 1 && old(beats) <= beats
                                && (primary'.None? ==> beats[|old(beats)|])
                                && Did(old(log), log, [Beaten])
      ensures n > 0 && primary.None? && !sent && old(Unhindered(lease, n, Scanned(w))) ==>
                primary'.None? && !sent' && Unhindered(current, n - 1, Scanned(w))
                  && current.run.status == lease.run.status && !current.cancelRequested
    {
      hide Inv, Evolves, Played, Play, Did, CanGoOn, Scanned, StoreState.HeartbeatLease;
      current, primary', sent' := lease, primary, sent;
      PlayedItself(store.h, Ledger());
      DidNothing(log);
      if primary.None? {
        var renewed := Beat(lease, n, Scanned(w));
        match renewed {
          case Ok(l) => current := l;
          case Err(code) => primary' := Some(code);
        }
      }
      if !sent && (primary'.Some? || current.cancelRequested) {
        var asked := AskSandboxToCancel(w);
        if asked.Err? && primary'.None? { primary' := Some(asked.code); }
        sent' := true;
      }
    }

    /** `execute_with_cancellation`: heartbeats until the sandbox answers. It asks the sandbox to cancel at
        most once, beats no more after a heartbeat has failed, and yields a result only if none has. */
    method Supervise(lease: RunLease, w: Surroundings, ghost n: nat) returns (r: Result<(RunLease, SandboxResult)>)
      requires store.Valid()
      modifies this`script, this`ticks, this`log, this`beats, this`cancelsSent, store
      ensures store.Valid() && Played(store.h, old(Ledger()), Ledger())
      ensures cancelsSent <= old(cancelsSent) + 1
      ensures |old(beats)| <= |beats| && forall k | |old(beats)| <= k < |beats| - 1 :: beats[k]
      ensures |old(beats)| < |beats| && !beats[|beats| - 1] ==> r.Err? && cancelsSent == old(cancelsSent) + 1
      ensures r.Ok? ==>
                |beats| == |old(beats)| + w.timeouts && w.answer == Received(Ok(r.value.1))
                  && r.value.0.run.id == lease.run.id
      ensures r.Ok? && r.value.0.cancelRequested && !lease.cancelRequested ==> cancelsSent == old(cancelsSent) + 1
      ensures Did(old(log), log, Beatens(|beats| - |old(beats)|))
      ensures n >= w.timeouts && old(Unhindered(lease, n, Scanned(w))) && !lease.cancelRequested
              && w.answer.Received? && w.answer.result.Ok? ==>
                r.Ok? && Unhindered(r.value.0, n - w.timeouts, Scanned(w)) && r.value.0.run.status == lease.run.status
    {
      hide Beatens, Unhindered, Inv, Evolves, Played, Play, Did, CanGoOn, Scanned, StoreState.HeartbeatLease;
      ghost var free := n >= w.timeouts && Unhindered(lease, n, Scanned(w)) && !lease.cancelRequested;
      var cancelSent := false;
      var current := lease;
      var primary: Option<ErrorCode> := None;
      PlayedItself(store.h, Ledger());
      OneMoreBeat(0);
      DidNothing(log);
      for k := 0 to w.timeouts
        invariant store.Valid() && Played(store.h, old(Ledger()), Ledger())
        invariant current.run.id == lease.run.id
        invariant cancelsSent == old(cancelsSent) + if cancelSent then 1 else 0
        invariant |old(beats)| <= |beats| && forall j | |old(beats)| <= j < |beats| - 1 :: beats[j]
        invariant primary.None? ==> |beats| == |old(beats)| + k && (k > 0 ==> beats[|beats| - 1])
        invariant primary.Some? ==> cancelSent
        invariant current.cancelRequested && !lease.cancelRequested ==> cancelSent
        invariant Did(old(log), log, Beatens(|beats| - |old(beats)|))
        invariant free ==> primary.None? && !cancelSent && !current.cancelRequested
                           && Unhindered(current, n - k, Scanned(w)) && current.run.status == lease.run.status
      {
        ghost var start, m := Ledger(), |beats| - |old(beats)|;
        ghost var more := if primary.None? then [Beaten] else [];
        OneMoreBeat(m);
        current, primary, cancelSent := Round(current, primary, cancelSent, w, if free then n - k else 0);
        PlayedOn(store.h, old(Ledger()), start, Ledger());
        DidThen(old(log), start.log, log, Beatens(m), more);
        assert Beatens(m) + [] == Beatens(m);
      }
      match w.answer {
        case Received(answer) =>
          if primary.Some? { return Err(primary.value); }
          if answer.Err? { return Err(answer.code); }
          return Ok((current, answer.value));
        case Disconnected => return Err(ExecutionFailed);
      }
    }

    // -------------------------------------------------------------- finishing

    /** What a reported success rests on: a valid, cleaned up and complete result of the run with exit code 0, every
        line of whose output was decoded into a stream without a failure, and its artifacts stored. */
    ghost predicate Earned(run: Run, w: Surroundings)
      reads store
    {
      && w.answer.Received? && w.answer.result.Ok?
      && var result := w.answer.result.value;
         && result.runId == run.id && result.termination.Exited? && result.exitCode == Some(0)
         && Acceptable(result, w.fits, w.stdout, w.stderr) && NothingFailed(w.stdout, w.stderr)
         && w.scanned.Ok? && HasArtifacts(store.View(), run.id, w.scanned.value)
    }

    /** What any reported end rests on. */
    ghost predicate Justified(r: Result<WorkerOutcome>, w: Surroundings)
      reads store
    {
      r.Ok? && r.value.Ended? ==>
        && (r.value.run.status.Succeeded? ==> Earned(r.value.run, w))
        && (r.value.run.status == RunStatus.Cancelled ==>
              && w.answer.Received? && w.answer.result.Ok?
              && w.answer.result.value.termination.Cancelled? && w.answer.result.value.cleanup.CleanupSucceeded?)
        && (r.value.run.status == RunStatus.TimedOut ==>
              w.answer.Received? && w.answer.result.Ok? && w.answer.result.value.termination.TimedOut?)
    }

    method RecordArtifacts(lease: RunLease, batch: seq<Artifact>, ghost n: nat) returns (r: Result<()>)
      requires store.Valid()
      modifies this`script, this`ticks, this`log, store
      ensures store.Valid() && Played(store.h, old(Ledger()), Ledger()) && ends == old(ends)
      ensures r.Ok? ==> HasArtifacts(store.View(), lease.run.id, batch)
      ensures Did(old(log), log, [Recorded(batch)])
      ensures n > |batch| && old(Unhindered(lease, n, batch)) ==> r.Ok? && Unhindered(lease, n - 1 - |batch|, [])
    {
      hide Inv, Evolves, Played, HasArtifacts, Did, CanGoOn, StoreState.CreateRun, StoreState.TransitionRun,
        StoreState.AppendAudit, StoreState.ReconcileExecution, StoreState.RecordArtifacts, StoreState.ClaimNextRun,
        StoreState.HeartbeatLease, StoreState.TransitionLeasedRun, StoreState.CompleteLeasedRun,
        StoreState.AppendLeasedAudit, StoreState.RecordLeasedArtifacts, StoreState.LeaseCancelRequested,
        StoreState.ConfirmCancel, StoreState.RequestCancel, StoreState.RecoverExpiredLeases, StoreState.CreateApproval,
        StoreState.DecideApproval, StoreState.ExpireApproval, StoreState.ConsumeApproval;
      var now, _, events := Turn();
      ghost var before := Ledger();
      CanRecord(store.h, clock, ttl, ticks - 1, n, store.View(), lease, batch, events);
      r := store.RecordLeasedArtifacts(lease, lease.run.revision, batch, now, events);
      ghost var op := StoreLeasedArtifacts(lease, lease.run.revision, batch, now, events);
      DidOne(old(log), log, op);
      log := log + [Mine(op)];
      PlayedMine(store.h, old(Ledger()), before, op, Ledger());
      if r.Ok? { RecordingStores(store.h, before.state, lease, batch, now, events); }
    }

    method AuditAll(lease: RunLease, events: seq<RuntimeEvent>, ghost n: nat, ghost batch: seq<Artifact>)
      returns (r: Result<()>)
      requires store.Valid()
      modifies this`script, this`ticks, this`log, store
      ensures store.Valid() && Played(store.h, old(Ledger()), Ledger()) && ends == old(ends)
      ensures r.Ok? ==> Did(old(log), log, StreamActs(Payloads(events)))
      ensures n >= |events| && old(Unhindered(lease, n, batch)) ==> r.Ok? && Unhindered(lease, n - |events|, batch)
    {
      hide Unhindered, Inv, Evolves, Played, Did, CanGoOn;
      PlayedItself(store.h, Ledger());
      DidNothing(log);
      ghost var acts := StreamActs(Payloads(events));
      ghost var free := n >= |events| && Unhindered(lease, n, batch);
      for i := 0 to |events|
        invariant store.Valid() && Played(store.h, old(Ledger()), Ledger()) && ends == old(ends)
        invariant Did(old(log), log, acts[..i])
        invariant free ==> Unhindered(lease, n - i, batch)
      {
        ghost var before := Ledger();
        r := Audit(lease, if events[i].payload.IsTerminal() then RuntimeCompleted else RuntimeOutput,
                   if free then n - i else 0, batch);
        PlayedOn(store.h, old(Ledger()), before, Ledger());
        DidThen(old(log), before.log, log, acts[..i], [acts[i]]);
        assert acts[..i] + [acts[i]] == acts[..i + 1];
        if r.Err? { return; }
      }
      assert acts[..|events|] == acts;
      return Ok(());
    }

    method CompleteAfterAudit(lease: RunLease, next: RunStatus, reason: Option<string>, ghost stored: seq<Artifact>,
                              ghost n: nat, ghost batch: seq<Artifact>)
      returns (r: Result<WorkerOutcome>)
      requires store.Valid() && next.IsTerminal()
      modifies this`script, this`ticks, this`log, this`ends, store
      ensures store.Valid() && Played(store.h, old(Ledger()), Ledger())
      ensures Accounts(r, old(ends))
      ensures r.Ok? ==> r.value.Ended? && r.value.run.status == next && r.value.run.id == lease.run.id
      ensures old(HasArtifacts(store.View(), lease.run.id, stored)) ==> HasArtifacts(store.View(), lease.run.id, stored)
      ensures r.Ok? ==> Did(old(log), log, [Audited(SandboxDestroyed), CompletedAs(next)])
      ensures n > 1 && IsWorkersEnd(next) && lease.run.status.Running? && old(Unhindered(lease, n, batch)) ==> r.Ok?
    {
      hide Unhindered, Inv, Evolves, Played, HasArtifacts, Did, CanGoOn;
      var audited := Audit(lease, SandboxDestroyed, n, batch);
      ghost var before := Ledger();
      if audited.Err? {
        r := Err(audited.code);
      } else {
        r := Complete(lease, next, reason, if n > 0 then n - 1 else 0, batch);
        PlayedOn(store.h, old(Ledger()), before, Ledger());
        DidThen(old(log), before.log, log, [Audited(SandboxDestroyed)], [CompletedAs(next)]);
        assert [Audited(SandboxDestroyed)] + [CompletedAs(next)] == [Audited(SandboxDestroyed), CompletedAs(next)];
      }
      if old(HasArtifacts(store.View(), lease.run.id, stored)) {
        PlayedFollows(store.h, old(Ledger()), Ledger());
        ArtifactsStay(store.h, old(store.View()), store.View(), lease.run.id, stored);
      }
    }

    /** An end it reports is a success exactly when the process exited with 0 and the provider reported no failure; then
        the artifacts were scanned and recorded. */
    method FinishExited(lease: RunLease, result: SandboxResult, w: Surroundings,
                        ghost n: nat) returns (r: Result<WorkerOutcome>)
      requires store.Valid() && w.answer == Received(Ok(result)) && result.runId == lease.run.id
               && result.termination.Exited?
      modifies this`script, this`ticks, this`log, this`ends, store
      ensures store.Valid() && Played(store.h, old(Ledger()), Ledger())
      ensures Accounts(r, old(ends)) && Justified(r, w)
      ensures r.Ok? ==>
                && r.value.Ended? && r.value.run.id == lease.run.id && Acceptable(result, w.fits, w.stdout, w.stderr)
                && (r.value.run.status.Succeeded? <==> result.exitCode == Some(0) && NothingFailed(w.stdout, w.stderr))
                && (r.value.run.status.Failed? <==> !r.value.run.status.Succeeded?)
                && (r.value.run.status.Succeeded? ==> w.scanned.Ok?)
                && Did(old(log), log, ExitActs(result, w.stdout, w.stderr, Scanned(w)))
      ensures n >= ExitCalls(w) && IsUsable(w, lease.run.id) && lease.run.status.Running?
              && old(Unhindered(lease, n, Scanned(w)))
              ==> r.Ok?
    {
      hide Unhindered, Inv, Evolves, Played, HasArtifacts, Acceptable, NothingFailed, Accepting, AllRequests, Did,
        CanGoOn;
      var decoded := DecodeSandboxResult(result, w.fits, w.stdout, w.stderr);
      if decoded.Refused? { r := FailAfterError(lease, ExecutionFailed); return; }
      ghost var events := decoded.value;
      StreamIsShort(events, result, w.stdout, w.stderr);
      CompletedMeans(events, result, w.stdout, w.stderr);
      var audited := AuditAll(lease, decoded.value, n, Scanned(w));
      if audited.Err? { return Err(audited.code); }
      ghost var s1 := Ledger();
      ghost var left := if n >= |events| then n - |events| else 0;
      ghost var acts := StreamActs(Payloads(events));
      if !(decoded.value != [] && decoded.value[|decoded.value| - 1].payload == Completed(0)) {
        r := CompleteAfterAudit(lease, RunStatus.Failed, Some("sandbox did not complete successfully"), [], left,
                                Scanned(w));
        PlayedOn(store.h, old(Ledger()), s1, Ledger());
        if r.Ok? {
          DidThen(old(log), s1.log, log, acts, [Audited(SandboxDestroyed), CompletedAs(RunStatus.Failed)]);
          assert acts + [] == acts;
        }
        return;
      }
      r := FinishCompleted(lease, w, left);
      PlayedOn(store.h, old(Ledger()), s1, Ledger());
      if r.Ok? {
        DidThen(old(log), s1.log, log, acts,
                [Recorded(Scanned(w)), Audited(SandboxDestroyed), CompletedAs(Succeeded)]);
        assert acts + [Recorded(Scanned(w)), Audited(SandboxDestroyed), CompletedAs(Succeeded)]
            == acts + [Recorded(Scanned(w))] + [Audited(SandboxDestroyed), CompletedAs(Succeeded)];
      }
    }

    /** A completed process: its artifacts are scanned and recorded before the run succeeds. */
    method FinishCompleted(lease: RunLease, w: Surroundings, ghost n: nat) returns (r: Result<WorkerOutcome>)
      requires store.Valid()
      modifies this`script, this`ticks, this`log, this`ends, store
      ensures store.Valid() && Played(store.h, old(Ledger()), Ledger())
      ensures Accounts(r, old(ends))
      ensures r.Ok? ==> && r.value.Ended? && r.value.run.id == lease.run.id && r.value.run.status.Succeeded?
                        && w.scanned.Ok? && HasArtifacts(store.View(), lease.run.id, w.scanned.value)
                        && Did(old(log), log, [Recorded(Scanned(w)), Audited(SandboxDestroyed), CompletedAs(Succeeded)])
      ensures n >= |Scanned(w)| + 3 && w.scanned.Ok? && lease.run.status.Running?
              && old(Unhindered(lease, n, Scanned(w)))
              ==> r.Ok?
    {
      hide Inv, Evolves, Played, HasArtifacts, HasEnded, Did, CanGoOn, Unhindered;
      if w.scanned.Err? { r := FailAfterError(lease, w.scanned.code); return; }
      ghost var free := n >= |Scanned(w)| + 3 && Unhindered(lease, n, Scanned(w));
      var recorded := RecordArtifacts(lease, w.scanned.value, n);
      ghost var s1 := Ledger();
      assert free ==> recorded.Ok? && Unhindered(lease, n - 1 - |w.scanned.value|, []);
      if recorded.Err? {
        r := FailAfterError(lease, recorded.code);
      } else {
        r := CompleteAfterAudit(lease, Succeeded, None, w.scanned.value, if free then n - 1 - |w.scanned.value| else 0,
                                []);
        if r.Ok? {
          DidThen(old(log), s1.log, log, [Recorded(w.scanned.value)],
                  [Audited(SandboxDestroyed), CompletedAs(Succeeded)]);
          assert [Recorded(w.scanned.value)] + [Audited(SandboxDestroyed), CompletedAs(Succeeded)]
              == [Recorded(w.scanned.value), Audited(SandboxDestroyed), CompletedAs(Succeeded)];
        }
      }
      PlayedOn(store.h, old(Ledger()), s1, Ledger());
    }

    method Finish(lease: RunLease, result: SandboxResult, w: Surroundings,
                  ghost n: nat) returns (r: Result<WorkerOutcome>)
      requires store.Valid() && w.answer == Received(Ok(result))
      modifies this`script, this`ticks, this`log, this`ends, this`told, store
      ensures store.Valid() && Played(store.h, old(Ledger()), Ledger())
      ensures Accounts(r, old(ends)) && Justified(r, w) && old(told) <= told
      ensures r.Ok? ==> r.value.Ended? && r.value.run.id == lease.run.id
      ensures r.Ok? ==> var heard := told[|old(told)|..];
                        && |heard| == (if result.runId == lease.run.id then 1 else 0)
                        && r.value.run.status == FinishVerdict(lease.run.id, heard, w)
                        && Did(old(log), log, FinishActs(lease.run.id, heard, w))
      ensures n >= ExitCalls(w) + 3 && IsUsable(w, lease.run.id) && lease.run.status.Running?
              && old(Unhindered(lease, n, Scanned(w)))
              ==> r.Ok? && r.value.run.status == Ruling(w.answer.result.value, false, w.stdout, w.stderr)
    {
      hide Earned, HasEnded, Unhindered, Inv, Evolves, Played, HasArtifacts, Acceptable, Ruling, ClosingActs, Did,
        CanGoOn, Scanned, ExitCalls;
      if !result.IsValid() {
        UsableIsValid(w, lease.run.id);
        r := FailAfterError(lease, InvalidArguments);
        return;
      }
      if result.runId != lease.run.id {
        r := FailClosed(lease, "sandbox returned a result for another run", 0, []);
        return;
      }
      var started := AuditStart(lease, n, Scanned(w));
      if started.Err? { return Err(started.code); }
      ghost var s1 := Ledger();
      var intent := CancelRequested(lease, if n > 1 then n - 2 else 0, Scanned(w));
      PlayedOn(store.h, old(Ledger()), s1, Ledger());
      if intent.Err? { return Err(intent.code); }
      ghost var s2 := Ledger();
      ghost var acts := [Audited(SandboxCreated), Audited(RuntimeStarted), Asked];
      assert [Audited(SandboxCreated), Audited(RuntimeStarted)] + [Asked] == acts;
      DidThen(old(log), s1.log, log, [Audited(SandboxCreated), Audited(RuntimeStarted)], [Asked]);
      r := FinishAfterIntent(lease, result, intent.value, w, if n > 2 then n - 3 else 0);
      PlayedOn(store.h, old(Ledger()), s2, Ledger());
      assert told[|old(told)|..] == [intent.value];
      if r.Ok? {
        DidThen(old(log), s2.log, log, acts, ClosingActs(result, intent.value, w.stdout, w.stderr, Scanned(w)));
      }
    }

    method AuditStart(lease: RunLease, ghost n: nat, ghost batch: seq<Artifact>) returns (r: Result<()>)
      requires store.Valid()
      modifies this`script, this`ticks, this`log, store
      ensures store.Valid() && Played(store.h, old(Ledger()), Ledger()) && ends == old(ends)
      ensures r.Ok? ==> Did(old(log), log, [Audited(SandboxCreated), Audited(RuntimeStarted)])
      ensures n > 1 && old(Unhindered(lease, n, batch)) ==> r.Ok? && Unhindered(lease, n - 2, batch)
    {
      hide Inv, Evolves, Played, Did, CanGoOn, Unhindered;
      r := Audit(lease, SandboxCreated, n, batch);
      if r.Err? { return; }
      ghost var s1 := Ledger();
      r := Audit(lease, RuntimeStarted, if n > 0 then n - 1 else 0, batch);
      PlayedOn(store.h, old(Ledger()), s1, Ledger());
      DidThen(old(log), s1.log, log, [Audited(SandboxCreated)], [Audited(RuntimeStarted)]);
      assert [Audited(SandboxCreated)] + [Audited(RuntimeStarted)]
          == [Audited(SandboxCreated), Audited(RuntimeStarted)];
    }

    /** With an intent an end it reports is cancelled exactly for a cancelled sandbox, and failed otherwise; without
        one it is timed out exactly for a timed-out sandbox, succeeded exactly for an earned success, and never
        cancelled. */
    method FinishAfterIntent(lease: RunLease, result: SandboxResult, cancelRequested: bool, w: Surroundings,
                             ghost n: nat)
      returns (r: Result<WorkerOutcome>)
      requires store.Valid() && w.answer == Received(Ok(result)) && result.runId == lease.run.id
      modifies this`script, this`ticks, this`log, this`ends, store
      ensures store.Valid() && Played(store.h, old(Ledger()), Ledger())
      ensures Accounts(r, old(ends)) && Justified(r, w)
      ensures r.Ok? ==>
                && r.value.Ended? && r.value.run.id == lease.run.id
                && r.value.run.status == Ruling(result, cancelRequested, w.stdout, w.stderr)
                && Did(old(log), log, ClosingActs(result, cancelRequested, w.stdout, w.stderr, Scanned(w)))
      ensures n >= ExitCalls(w) && !cancelRequested && IsUsable(w, lease.run.id) && lease.run.status.Running?
              && old(Unhindered(lease, n, Scanned(w)))
              ==> r.Ok?
    {
      hide Earned, HasEnded, Unhindered, Inv, Evolves, Played, HasArtifacts, SandboxResult.IsValid, Acceptable,
        NothingFailed, ExitActs, Did, CanGoOn, Scanned;
      if cancelRequested {
        if result.termination.Cancelled? {
          var evidence := VerifyCancellation(lease, result);
          if evidence.Err? { r := FailAfterError(lease, evidence.code); return; }
          r := ConfirmCancel(lease, result);
          return;
        }
        r := FailClosed(lease, "cancellation requested without proven sandbox disposal", 0, []);
        return;
      }
      match result.termination {
        case Cancelled =>
          r := FailClosed(lease, "sandbox cancelled without durable cancellation intent", n, Scanned(w));
        case TimedOut =>
          r := CompleteAfterAudit(lease, RunStatus.TimedOut, Some("sandbox did not complete successfully"), [], n,
                                  Scanned(w));
        case OutOfMemory =>
          r := CompleteAfterAudit(lease, RunStatus.Failed, Some("sandbox did not complete successfully"), [], n,
                                  Scanned(w));
        case Failed =>
          r := CompleteAfterAudit(lease, RunStatus.Failed, Some("sandbox did not complete successfully"), [], n,
                                  Scanned(w));
        case Exited => r := FinishExited(lease, result, w, n);
      }
    }

    method ConfirmCancel(lease: RunLease, result: SandboxResult) returns (r: Result<WorkerOutcome>)
      requires store.Valid() && VerifyCancellation(lease, result).Ok?
      modifies this`script, this`ticks, this`log, this`ends, store
      ensures store.Valid() && Played(store.h, old(Ledger()), Ledger())
      ensures Accounts(r, old(ends)) && (r.Ok? ==> r.value.Ended? && r.value.run.status == RunStatus.Cancelled)
      ensures r.Ok? ==> r.value.run.id == lease.run.id
      ensures Did(old(log), log, [ConfirmedCancel])
    {
      hide Inv, Evolves, Played, Did, VerifyCancellation, StoreState.CreateRun, StoreState.TransitionRun,
        StoreState.AppendAudit, StoreState.ReconcileExecution, StoreState.RecordArtifacts, StoreState.ClaimNextRun,
        StoreState.HeartbeatLease, StoreState.TransitionLeasedRun, StoreState.CompleteLeasedRun,
        StoreState.AppendLeasedAudit, StoreState.RecordLeasedArtifacts, StoreState.LeaseCancelRequested,
        StoreState.ConfirmCancel, StoreState.RequestCancel, StoreState.RecoverExpiredLeases, StoreState.CreateApproval,
        StoreState.DecideApproval, StoreState.ExpireApproval, StoreState.ConsumeApproval;
      var now, event, _ := Turn();
      ghost var before := Ledger();
      var evidence := VerifyCancellation(lease, result).value;
      var answer := store.ConfirmCancel(lease, now, evidence, event);
      ghost var op := Confirm(lease, now, lease, result, event);
      DidOne(old(log), log, op);
      log := log + [Mine(op)];
      ends := ends + if answer.Ok? then [answer.value] else [];
      PlayedMine(store.h, old(Ledger()), before, op, Ledger());
      if answer.Err? { return Err(answer.code); }
      ConfirmationEnds(store.h, before.state, lease, now, evidence, event);
      return Ok(Ended(answer.value));
    }

    // -------------------------------------------------------------- the whole run

    method MoveTo(lease: RunLease, next: RunStatus, ghost n: nat,
                  ghost batch: seq<Artifact>) returns (r: Result<RunLease>)
      requires store.Valid()
      modifies this`script, this`ticks, this`log, store
      ensures store.Valid() && Played(store.h, old(Ledger()), Ledger()) && ends == old(ends)
      ensures r.Ok? ==> r.value.run.id == lease.run.id && r.value.run.status == next
      ensures Did(old(log), log, [MovedTo(next)])
      ensures n > 0 && lease.run.status.Planning? && next.Running? && old(Unhindered(lease, n, batch)) ==>
                r.Ok? && Unhindered(r.value, n - 1, batch) && !r.value.cancelRequested
    {
      hide Inv, Evolves, Played, Did, CanGoOn, StoreState.CreateRun, StoreState.TransitionRun, StoreState.AppendAudit,
        StoreState.ReconcileExecution, StoreState.RecordArtifacts, StoreState.ClaimNextRun, StoreState.HeartbeatLease,
        StoreState.TransitionLeasedRun, StoreState.CompleteLeasedRun, StoreState.AppendLeasedAudit,
        StoreState.RecordLeasedArtifacts, StoreState.LeaseCancelRequested, StoreState.ConfirmCancel,
        StoreState.RequestCancel, StoreState.RecoverExpiredLeases, StoreState.CreateApproval,
        StoreState.DecideApproval, StoreState.ExpireApproval, StoreState.ConsumeApproval;
      var now, event, _ := Turn();
      ghost var before := Ledger();
      CanMove(store.h, clock, ttl, ticks - 1, n, store.View(), lease, batch, next, event);
      r := store.TransitionLeasedRun(lease, lease.run.revision, next, now, event);
      ghost var op := MoveLeased(lease, lease.run.revision, next, now, event);
      DidOne(old(log), log, op);
      log := log + [Mine(op)];
      PlayedMine(store.h, old(Ledger()), before, op, Ledger());
      if r.Ok? { TransitionIsOfTheRun(store.h, before.state, lease, next, now, event); }
    }

    /** The surroundings are in order, the run is planned, and nobody hinders the worker. */
    ghost predicate IsFree(lease: RunLease, w: Surroundings)
      reads this, store
    {
      && w.task.Ok? && w.environment.Ok? && w.disposition.StartRun? && w.health.Ok? && w.prepared.Ok?
      && IsUsable(w, lease.run.id) && lease.run.status.Planning? && Unhindered(lease, AllCalls(w), Scanned(w))
    }

    /** `execute`, for any surroundings and any operations of others between its store calls: an end it
        reports is stored and the lease is gone; it is the end that the sandbox's result and the intents it was told of
        demand, reached by exactly the calls that go with it; a success was earned; an error leaves no success. And
        where nobody hinders it, a usable result does end the run as it demands. */
    method Execute(lease: RunLease, w: Surroundings) returns (r: Result<WorkerOutcome>)
      requires store.Valid()
      modifies this, store
      ensures store.Valid() && Played(store.h, old(Ledger()), Ledger())
      ensures Follows(store.h, old(store.View()), store.View())
      ensures Accounts(r, old(ends)) && Justified(r, w)
      ensures cancelsSent <= old(cancelsSent) + 1 && old(told) <= told
      ensures r.Ok? && r.value.Ended? ==>
                && r.value.run.id == lease.run.id
                && var heard := told[|old(told)|..];
                   && r.value.run.status == Verdict(lease, heard, w)
                   && Did(old(log), log, Course(lease, heard, w))
      ensures r.Ok? && r.value.Paused? ==>
                && w.disposition.StartAwaitingApproval? && r.value.run.id == lease.run.id
                && told == old(told) + [false]
                && Did(old(log), log, [Asked, MovedTo(RunStatus.AwaitingApproval)])
      ensures old(IsFree(lease, w)) ==>
                && r.Ok? && r.value.Ended?
                && r.value.run.status == Ruling(w.answer.result.value, false, w.stdout, w.stderr)
    {
      hide Inv, Follows, Played, Did, HasEnded, Earned, Verdict, Course, Ruling, Unhindered, IsUsable;
      if w.task.Err? {
        r := FailAfterError(lease, w.task.code);
      } else if w.environment.Err? {
        r := FailAfterError(lease, w.environment.code);
      } else if !lease.run.status.Planning? {
        CourseStops(lease, w);
        r := FailClosed(lease, "claimed run is not in planning", 0, []);
        assert told[|old(told)|..] == [];
      } else {
        r := ExecuteAssigned(lease, w);
      }
      PlayedFollows(store.h, old(Ledger()), Ledger());
    }

    method ExecuteAssigned(lease: RunLease, w: Surroundings) returns (r: Result<WorkerOutcome>)
      requires store.Valid() && lease.run.status.Planning?
      modifies this, store
      ensures store.Valid() && Played(store.h, old(Ledger()), Ledger())
      ensures Accounts(r, old(ends)) && Justified(r, w)
      ensures cancelsSent <= old(cancelsSent) + 1 && old(told) <= told
      ensures r.Ok? && r.value.Ended? ==>
                && r.value.run.id == lease.run.id
                && var heard := told[|old(told)|..];
                   && r.value.run.status == Verdict(lease, heard, w)
                   && Did(old(log), log, Course(lease, heard, w))
      ensures r.Ok? && r.value.Paused? ==>
                && w.disposition.StartAwaitingApproval? && r.value.run.id == lease.run.id
                && told == old(told) + [false]
                && Did(old(log), log, [Asked, MovedTo(RunStatus.AwaitingApproval)])
      ensures w.disposition.StartRun? && w.health.Ok? && w.prepared.Ok? && IsUsable(w, lease.run.id)
              && old(Unhindered(lease, AllCalls(w), Scanned(w)))
              ==> && r.Ok? && r.value.Ended?
                  && r.value.run.status == Ruling(w.answer.result.value, false, w.stdout, w.stderr)
    {
      hide Inv, Evolves, Played, HasArtifacts, Earned, HasEnded, Did, CanGoOn, Unhindered, Verdict, Course, Ruling,
        RunningVerdict, RunningActs, IsUsable, Scanned, AllCalls, ExitCalls;
      CourseStops(lease, w);
      ghost var n := AllCalls(w);
      CallsAreEnough(w);
      var early := CancelRequested(lease, n, Scanned(w));
      if early.Err? { return Err(early.code); }
      ghost var s1 := Ledger();
      if early.value {
        r := FailClosed(lease, "cancellation requested before sandbox execution", 0, []);
        PlayedOn(store.h, old(Ledger()), s1, Ledger());
        DidThen(old(log), s1.log, log, [Asked], [CompletedAs(RunStatus.Failed)]);
        assert told[|old(told)|..] == [true];
        return;
      }
      r := ExecutePlanned(lease, w, n - 1);
      PlayedOn(store.h, old(Ledger()), s1, Ledger());
      ghost var heard := told[|old(told)| + 1..];
      assert told[|old(told)|..] == [false] + heard;
      CourseGoesOn(lease, heard, w);
      if r.Ok? && r.value.Ended? {
        DidThen(old(log), s1.log, log, [Asked], [MovedTo(Running)] + RunningActs(lease.run.id, heard, w));
      } else if r.Ok? {
        DidThen(old(log), s1.log, log, [Asked], [MovedTo(RunStatus.AwaitingApproval)]);
        assert [Asked] + [MovedTo(RunStatus.AwaitingApproval)] == [Asked, MovedTo(RunStatus.AwaitingApproval)];
      }
    }

    /** The run leaves planning, to wait for approval or to run. */
    method ExecutePlanned(lease: RunLease, w: Surroundings, ghost n: nat) returns (r: Result<WorkerOutcome>)
      requires store.Valid()
      modifies this, store
      ensures store.Valid() && Played(store.h, old(Ledger()), Ledger())
      ensures Accounts(r, old(ends)) && Justified(r, w)
      ensures cancelsSent <= old(cancelsSent) + 1 && old(told) <= told
      ensures r.Ok? ==> r.value.run.id == lease.run.id
      ensures r.Ok? && r.value.Ended? ==>
                var heard := told[|old(told)|..];
                && r.value.run.status == RunningVerdict(lease.run.id, heard, w)
                && Did(old(log), log, [MovedTo(Running)] + RunningActs(lease.run.id, heard, w))
      ensures r.Ok? && r.value.Paused? ==>
                && w.disposition.StartAwaitingApproval? && told == old(told)
                && Did(old(log), log, [MovedTo(RunStatus.AwaitingApproval)])
      ensures n >= w.timeouts + ExitCalls(w) + 5 && lease.run.status.Planning? && w.disposition.StartRun?
              && w.health.Ok? && w.prepared.Ok? && IsUsable(w, lease.run.id) && old(Unhindered(lease, n, Scanned(w)))
              ==> && r.Ok? && r.value.Ended?
                  && r.value.run.status == Ruling(w.answer.result.value, false, w.stdout, w.stderr)
    {
      hide Inv, Evolves, Played, HasArtifacts, Earned, HasEnded, Did, CanGoOn, Unhindered, RunningVerdict, RunningActs,
        IsUsable, Scanned, ExitCalls;
      ghost var free := n > 0 && lease.run.status.Planning? && Unhindered(lease, n, Scanned(w));
      if w.disposition.StartAwaitingApproval? {
        var awaiting := MoveTo(lease, RunStatus.AwaitingApproval, 0, []);
        return if awaiting.Ok? then Ok(Paused(awaiting.value.run)) else Err(awaiting.code);
      }
      var moved := MoveTo(lease, Running, n, Scanned(w));
      if moved.Err? { return Err(moved.code); }
      assert free ==> Unhindered(moved.value, n - 1, Scanned(w)) && !moved.value.cancelRequested;
      ghost var s1 := Ledger();
      r := ExecuteRunning(moved.value, w, if free then n - 1 else 0);
      PlayedOn(store.h, old(Ledger()), s1, Ledger());
      if r.Ok? {
        DidThen(old(log), s1.log, log, [MovedTo(Running)], RunningActs(lease.run.id, told[|old(told)|..], w));
      }
    }

    method ExecuteRunning(running: RunLease, w: Surroundings, ghost n: nat) returns (r: Result<WorkerOutcome>)
      requires store.Valid()
      modifies this, store
      ensures store.Valid() && Played(store.h, old(Ledger()), Ledger())
      ensures Accounts(r, old(ends)) && Justified(r, w)
      ensures cancelsSent <= old(cancelsSent) + 1 && old(told) <= told
      ensures r.Ok? ==> r.value.Ended? && r.value.run.id == running.run.id
      ensures r.Ok? ==> var heard := told[|old(told)|..];
                        && r.value.run.status == RunningVerdict(running.run.id, heard, w)
                        && Did(old(log), log, RunningActs(running.run.id, heard, w))
      ensures n >= w.timeouts + ExitCalls(w) + 4 && running.run.status.Running? && !running.cancelRequested
              && w.health.Ok? && w.prepared.Ok? && IsUsable(w, running.run.id)
              && old(Unhindered(running, n, Scanned(w)))
              ==> r.Ok? && r.value.run.status == Ruling(w.answer.result.value, false, w.stdout, w.stderr)
    {
      hide Inv, Evolves, Played, HasArtifacts, Earned, HasEnded, Did, CanGoOn, Unhindered, Ruling, IsUsable, HasResult,
        FinishActs, Scanned, ExitCalls;
      var intent := CancelRequested(running, n, Scanned(w));
      if intent.Err? { return Err(intent.code); }
      ghost var s1 := Ledger();
      if intent.value {
        r := FailClosed(running, "cancellation requested before sandbox execution", 0, []);
      } else if w.health.Err? {
        r := FailAfterError(running, w.health.code);
      } else if w.prepared.Err? {
        r := FailAfterError(running, w.prepared.code);
      } else {
        r := ExecuteInSandbox(running, w, if n > 0 then n - 1 else 0);
      }
      PlayedOn(store.h, old(Ledger()), s1, Ledger());
      ghost var heard := told[|old(told)| + 1..];
      assert told[|old(told)|..] == [intent.value] + heard;
      if r.Ok? {
        DidThen(old(log), s1.log, log, [Asked],
                if intent.value then [CompletedAs(RunStatus.Failed)]
                else Beatens(w.timeouts) + FinishActs(running.run.id, heard, w));
      }
    }

    /** The supervised execution and what follows its result. */
    method ExecuteInSandbox(running: RunLease, w: Surroundings, ghost n: nat) returns (r: Result<WorkerOutcome>)
      requires store.Valid()
      modifies this, store
      ensures store.Valid() && Played(store.h, old(Ledger()), Ledger())
      ensures Accounts(r, old(ends)) && Justified(r, w)
      ensures cancelsSent <= old(cancelsSent) + 1 && old(told) <= told
      ensures r.Ok? ==> r.value.Ended? && r.value.run.id == running.run.id
      ensures r.Ok? ==> var heard := told[|old(told)|..];
                        && r.value.run.status == FinishVerdict(running.run.id, heard, w)
                        && Did(old(log), log, Beatens(w.timeouts) + FinishActs(running.run.id, heard, w))
      ensures n >= w.timeouts + ExitCalls(w) + 3 && running.run.status.Running? && !running.cancelRequested
              && IsUsable(w, running.run.id) && old(Unhindered(running, n, Scanned(w)))
              ==> r.Ok? && r.value.run.status == Ruling(w.answer.result.value, false, w.stdout, w.stderr)
    {
      hide Inv, Evolves, Played, HasArtifacts, Earned, HasEnded, Did, CanGoOn, Unhindered, Ruling, Acceptable,
        FinishActs, FinishVerdict, Scanned, ExitCalls, Beatens;
      ghost var free := n >= w.timeouts + ExitCalls(w) + 3 && !running.cancelRequested && IsUsable(w, running.run.id)
                        && Unhindered(running, n, Scanned(w));
      var supervised := Supervise(running, w, n);
      ghost var s1 := Ledger();
      assert free ==> supervised.Ok? && Unhindered(supervised.value.0, n - w.timeouts, Scanned(w));
      if supervised.Err? {
        r := FailAfterError(running, supervised.code);
      } else {
        r := Finish(supervised.value.0, supervised.value.1, w, if free then n - w.timeouts else 0);
      }
      PlayedOn(store.h, old(Ledger()), s1, Ledger());
      if r.Ok? {
        DidThen(old(log), s1.log, log, Beatens(w.timeouts), FinishActs(running.run.id, told[|old(told)|..], w));
      }
    }
  }

  lemma {:induction false} CallsAreEnough(w: Surroundings)
    ensures AllCalls(w) >= w.timeouts + ExitCalls(w) + 6
  {
  }

  lemma {:induction false} UsableIsValid(w: Surroundings, id: RunId)
    ensures IsUsable(w, id) ==> w.answer.result.value.IsValid()
  {
  }

  lemma {:induction false} RenewalIsOfTheRun(h: Hashes, s: State, lease: RunLease, now: Time, ttl: int)
    requires Inv(h, s)
    ensures var r := HeartbeatLease(s, lease, now, ttl); r.Ok? ==> r.value.1.run.id == lease.run.id
  {
    hide Inv;
    if lease.run.id in s.leases { LeaseAndRun(h, s, lease.run.id); }
  }

  lemma {:induction false} TransitionIsOfTheRun(h: Hashes, s: State, lease: RunLease, next: RunStatus, now: Time,
                                                event: EventId)
    requires Inv(h, s) && TransitionLeasedRun(h, s, lease, lease.run.revision, next, now, event).Ok?
    ensures var l := TransitionLeasedRun(h, s, lease, lease.run.revision, next, now, event).value.1;
            l.run.id == lease.run.id && l.run.status == next
  {
    hide Inv, ChainOk, ReceiptsOk;
    RunAndChain(h, s, lease.run.id);
  }

  /** The accepted stream has one event more than was asked for, at most. */
  lemma {:induction false} StreamIsShort(events: seq<RuntimeEvent>, result: SandboxResult, stdout: seq<Line>,
                                         stderr: seq<Option<string>>)
    requires Payloads(events) == Accepting(AllRequests(stdout, stderr), result)
    ensures |events| <= |AllRequests(stdout, stderr)| + 1
  {
    assert |events| == |Payloads(events)|;
  }

  /** The accepted stream of an exited process ends in a completion exactly when its exit code is 0 and the provider
      asked for no failure. */
  lemma {:induction false} CompletedMeans(events: seq<RuntimeEvent>, result: SandboxResult, stdout: seq<Line>,
                                          stderr: seq<Option<string>>)
    requires result.exitCode.Some? && EndsWith(events, result.exitCode.value)
    requires result.termination.Exited? && Payloads(events) == Accepting(AllRequests(stdout, stderr), result)
    ensures events != []
    ensures events[|events| - 1].payload == Completed(0) <==>
            result.exitCode == Some(0) && NothingFailed(stdout, stderr)
  {
    var asked := AllRequests(stdout, stderr);
    assert |events| == |Payloads(events)| && |asked| <= |events|;
    forall i | 0 <= i < |asked| ensures asked[i].Asked() == events[i].payload {
      assert asked[i].Asked() == AskedIn(asked)[i] == Payloads(events)[i] == events[i].payload;
    }
    if result.exitCode.value == 0 && NothingFailed(stdout, stderr) {
      forall i | 0 <= i < |events| ensures !events[i].payload.ProviderFailed? {
        if i == |asked| { assert events[i].payload == Payloads(events)[i] == Completed(0); }
      }
    }
  }
}
