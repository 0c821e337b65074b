/** The one-time hand-off of a run's prompt from the request that creates the run to the worker that claims it. */
module PromptHandOff {
  import opened Prelude
  import opened Records
  import opened AuditChain
  import opened StoreState
  import opened StoreInvariant
  import opened History
  import opened Guarantees
  import opened RunMovement
  import opened Contracts
  import opened LeaseContracts
  import opened ExecutionStore
  import opened StoreActors

  type Bytes = seq<bv8>

  datatype PromptError = CapacityExceeded | DigestMismatch | Unavailable | DuplicateRun

  datatype Delivery<+T> = Done(value: T) | Refused(why: PromptError)

  datatype StoredPrompt = StoredPrompt(digest: Digest, expiresAt: Time, bytes: Bytes)

  type Entries = map<RunId, StoredPrompt>

  /** The bounds of the broker and the digest of its prompts. */
  datatype Broker = Broker(capacity: nat, maxBytes: nat, ttl: nat, sha256: Bytes -> Digest)

  function Purged(entries: Entries, now: Time): Entries {
    map id | id in entries && entries[id].expiresAt > now :: entries[id]
  }

  function ExpiredRuns(entries: Entries, now: Time): set<RunId> {
    set id | id in entries && entries[id].expiresAt <= now
  }

  /** `register_prompt`. */
  function Register(b: Broker, entries: Entries, id: RunId, expected: Digest, bytes: Bytes, now: Time): (Entries,
                    Delivery<Time>) {
    if b.capacity == 0 || |bytes| > b.maxBytes then (entries, Refused(CapacityExceeded))
    else if b.sha256(bytes) != expected then (entries, Refused(DigestMismatch))
    else if now + b.ttl > MAX_TIME then (entries, Refused(Unavailable))
    else
      var live := Purged(entries, now);
      if id in live then (live, Refused(DuplicateRun))
      else if |live| >= b.capacity then (live, Refused(CapacityExceeded))
      else (live[id := StoredPrompt(expected, now + b.ttl, bytes)], Done(now + b.ttl))
  }

  /** `take_prompt`. */
  function Take(entries: Entries, id: RunId, expected: Digest, now: Time): (Entries, Delivery<Bytes>) {
    var live := Purged(entries, now);
    if id !in live then (live, Refused(Unavailable))
    else if live[id].digest != expected then (live, Refused(DigestMismatch))
    else (live - {id}, Done(live[id].bytes))
  }

  class InMemoryPromptDelivery {
    const broker: Broker
    var entries: Entries

    /** Within its capacity, and holding only bytes that hash to their digest. */
    ghost predicate Valid()
      reads this
    {
      |entries| <= broker.capacity && forall id | id in entries ::
          broker.sha256(entries[id].bytes) == entries[id].digest
    }

    constructor (broker: Broker)
      ensures Valid() && this.broker == broker && entries == map[]
    {
      this.broker, entries := broker, map[];
    }

    method RegisterPrompt(id: RunId, expected: Digest, bytes: Bytes, now: Time) returns (r: Delivery<Time>)
      requires Valid()
      modifies this
      ensures Valid() && (entries, r) == Register(broker, old(entries), id, expected, bytes, now)
    {
      PurgedFits(entries, now);
      if broker.capacity == 0 || |bytes| > broker.maxBytes { return Refused(CapacityExceeded); }
      if broker.sha256(bytes) != expected { return Refused(DigestMismatch); }
      if now + broker.ttl > MAX_TIME { return Refused(Unavailable); }
      entries := Purged(entries, now);
      if id in entries { return Refused(DuplicateRun); }
      if |entries| >= broker.capacity { return Refused(CapacityExceeded); }
      entries := entries[id := StoredPrompt(expected, now + broker.ttl, bytes)];
      return Done(now + broker.ttl);
    }

    /** `purge_expired`: an entry stays, unchanged, exactly when it has not expired; the answer counts the others. */
    method PurgeExpired(now: Time) returns (count: nat)
      requires Valid()
      modifies this
      ensures Valid()
      ensures forall id :: id in entries <==> id in old(entries) && old(entries)[id].expiresAt > now
      ensures forall id | id in entries :: entries[id] == old(entries)[id]
      ensures count == |old(entries)| - |entries|
      ensures count == |ExpiredRuns(old(entries), now)|
    {
      PurgedFits(entries, now);
      PurgedCount(entries, now);
      var before := |entries|;
      entries := Purged(entries, now);
      return before - |entries|;
    }

    method TakePrompt(id: RunId, expected: Digest, now: Time) returns (r: Delivery<Bytes>)
      requires Valid()
      modifies this
      ensures Valid() && (entries, r) == Take(old(entries), id, expected, now)
      ensures r.Done? ==> broker.sha256(r.value) == expected && id !in entries
    {
      PurgedFits(entries, now);
      entries := Purged(entries, now);
      if id !in entries { return Refused(Unavailable); }
      if entries[id].digest != expected { return Refused(DigestMismatch); }
      var bytes := entries[id].bytes;
      CardinalityOfPart((entries - {id}).Keys, entries.Keys);
      assert |entries - {id}| == |(entries - {id}).Keys| && |entries| == |entries.Keys|;
      entries := entries - {id};
      return Done(bytes);
    }
  }

  lemma {:induction false} PurgedCount(entries: Entries, now: Time)
    ensures |Purged(entries, now)| + |ExpiredRuns(entries, now)| == |entries|
  {
    var live, expired := Purged(entries, now).Keys, ExpiredRuns(entries, now);
    assert live * expired == {};
    assert live + expired == entries.Keys;
    assert |live + expired| == |live| + |expired|;
    assert |live| == |Purged(entries, now)| && |entries.Keys| == |entries|;
  }

  // ---------------------------------------------------------------- when a run can still be stopped

  /** A cancel request ends the run at once: it waits, nobody holds it, and its chain takes the event. */
  predicate CancelWorks(s: State, id: RunId, now: Time) {
    && id in s.runs && (s.runs[id].status.Queued? || s.runs[id].status.AwaitingApproval?) && id !in s.leases
    && Takes(s, id, now, 1)
  }

  /** The lease can be used to fail its run: it is held, at the run's revision, and the chain takes the event. */
  predicate FailWorks(s: State, lease: RunLease, now: Time) {
    && Holds(s, lease, now) && lease.run.id in s.runs && s.runs[lease.run.id].revision == lease.run.revision
    && Takes(s, lease.run.id, now, 1)
  }

  /** What a cancel request makes of the runs, in any valid state: it cancels the run or changes none. */
  lemma {:induction false} CancelsOrLeaves(h: Hashes, s: State, id: RunId, actor: ActorId, now: Time, event: EventId)
    requires Inv(h, s) && id in s.runs
    ensures var s' := Commit(s, RequestCancel(h, s, id, actor, now, event));
            && id in s'.runs
            && (if CancelWorks(s, id, now) then s'.runs[id].status.Cancelled? && s'.runs == s.runs[id := s'.runs[id]]
                else s'.runs == s.runs)
  {
    hide Inv, Adds, Takes, RequestCancel;
    CancelIsExact(h, s, id, actor, now, event);
    if id in s.cancels { LeaseAndRun(h, s, id); }
  }

  /** Failing a run with any lease, in any valid state, works exactly then, and releases the run. */
  lemma {:induction false} FailsAndReleases(h: Hashes, s: State, lease: RunLease, reason: Option<string>, now: Time,
                                            event: EventId)
    requires Inv(h, s)
    ensures var r := CompleteLeasedRun(h, s, lease, lease.run.revision, RunStatus.Failed, reason, now, event);
            && (r.Ok? <==> FailWorks(s, lease, now))
            && (r.Ok? ==> var (s', run) := r.value;
                          && lease.run.id in s'.runs && s'.runs[lease.run.id] == run && run.status.Failed?
                          && s'.leases == s.leases - {lease.run.id})
  {
    hide Inv, Adds, Takes, CompleteLeasedRun;
    CompletionIsExact(h, s, lease, lease.run.revision, RunStatus.Failed, reason, now, event);
    if lease.run.id in s.leases { LeaseAndRun(h, s, lease.run.id); }
  }

  // ---------------------------------------------------------------- the two gated calls

  /** What `claim_with_prompt` answers and leaves of the store, for what was claimed and taken and whatever others
      did before it could fail a run without a prompt. */
  ghost predicate ClaimSettled(h: Hashes, claim: Result<(State, Option<RunLease>)>, taken: RunLease -> Delivery<Bytes>,
                               meanwhile: seq<Op>, later: Time, before: State, after: State,
                               r: Result<Option<(RunLease, Bytes)>>)
  {
    match claim
    case Err(_) => r.Err? && after == before
    case Ok((_, None)) => r == Ok(None) && after == before
    case Ok((claimed, Some(lease))) =>
      if taken(lease).Done? then r == Ok(Some((lease, taken(lease).value))) && after == claimed
      else
        var s := Play(h, claimed, OfOthers(meanwhile));
        if FailWorks(s, lease, later) then
          && r == Ok(None) && after.leases == s.leases - {lease.run.id}
          && lease.run.id in after.runs && after.runs[lease.run.id].status.Failed?
        else r.Err? && after == s
  }

  /** `claim_with_prompt` inside the gate, which keeps other claims out but nothing else: others may do anything to
      the store before a run without a prompt is failed. A lease it returns comes with the prompt of its run; when it
      returns nothing the run is failed and released; an error leaves the store as the others left it, and if a run
      was claimed, it could not be failed in that state. */
  method ClaimWithPrompt(store: InMemoryExecutionStore, delivery: InMemoryPromptDelivery, owner: ActorId, now: Time,
                         ttl: int, token: LeaseToken, event: EventId, meanwhile: seq<Op>, later: Time,
                         failEvent: EventId)
    returns (r: Result<Option<(RunLease, Bytes)>>)
    requires store.Valid() && delivery.Valid()
    modifies store, delivery
    ensures store.Valid() && delivery.Valid()
    ensures r.Ok? && r.value.Some? ==>
              var (lease, bytes) := r.value.value;
              && delivery.broker.sha256(bytes) == lease.run.promptSha256 && lease.run.id !in delivery.entries
              && lease.run.id in store.leases && store.leases[lease.run.id] == lease
              && NextInQueue(old(store.View())) == Some(lease.run.id)
    ensures ClaimSettled(store.h, ClaimNextRun(store.h, old(store.View()), owner, now, ttl, token, event),
                         (l: RunLease) => Take(old(delivery.entries), l.run.id, l.run.promptSha256, now).1,
                         meanwhile, later, old(store.View()), store.View(), r)
  {
    hide Inv, Evolves, NextInQueue, Play, Ends, OfOthers, FailWorks, StoreState.ClaimNextRun,
      StoreState.CompleteLeasedRun;
    ghost var before := store.View();
    var claimed :- store.ClaimNextRun(owner, now, ttl, token, event);
    if claimed.None? {
      NothingIsClaimed(store.h, before, owner, now, ttl, token, event);
      var _ := delivery.PurgeExpired(now);
      return Ok(None);
    }
    var lease := claimed.value;
    ClaimedLeaseIsStored(store.h, before, owner, now, ttl, token, event, lease);
    var taken := delivery.TakePrompt(lease.run.id, lease.run.promptSha256, now);
    match taken {
      case Done(bytes) => return Ok(Some((lease, bytes)));
      case Refused(_) =>
        PerformAll(store, meanwhile);
        FailsAndReleases(store.h, store.View(), lease, Some(MISSING_PROMPT), later, failEvent);
        var _ :- store.CompleteLeasedRun(lease, lease.run.revision, RunStatus.Failed, Some(MISSING_PROMPT), later,
                                         failEvent);
        return Ok(None);
    }
  }

  const MISSING_PROMPT := "sensitive run input is unavailable"

  lemma {:induction false} NothingIsClaimed(h: Hashes, s: State, owner: ActorId, now: Time, ttl: int,
                                            token: LeaseToken, event: EventId)
    requires Value(ClaimNextRun(h, s, owner, now, ttl, token, event)) == Ok(None)
    ensures Commit(s, ClaimNextRun(h, s, owner, now, ttl, token, event)) == s
  {
  }

  lemma {:induction false} ClaimedLeaseIsStored(h: Hashes, s: State, owner: ActorId, now: Time, ttl: int,
                                                token: LeaseToken, event: EventId, lease: RunLease)
    requires Inv(h, s) && Value(ClaimNextRun(h, s, owner, now, ttl, token, event)) == Ok(Some(lease))
    ensures NextInQueue(s) == Some(lease.run.id) && lease.run.id !in s.leases
    ensures ClaimNextRun(h, s, owner, now, ttl, token, event).value.0.leases == s.leases[lease.run.id := lease]
  {
    hide Inv, ChainOk, ReceiptsOk;
    RunAndChain(h, s, NextInQueue(s).value);
  }

  lemma {:induction false} CreatedRunIsStored(h: Hashes, s: State, run: Run, audit: Envelope, event: EventId)
    requires CreateRun(h, s, run, audit, event).Ok?
    ensures CreateRun(h, s, run, audit, event).value.1 == run
    ensures CreateRun(h, s, run, audit, event).value.0.runs == s.runs[run.id := run]
  {
  }

  lemma {:induction false} RunStays(h: Hashes, s: State, moves: seq<Move>, id: RunId)
    requires Inv(h, s) && id in s.runs
    ensures Inv(h, Play(h, s, moves)) && id in Play(h, s, moves).runs
  {
    PlayFollows(h, s, moves);
    hide Inv, Play;
  }

  /** The gated part of the `create_run` handler. The gate keeps claims out but nothing else: others may do anything
      to the store before a failed registration is answered by a cancel request. A run the handler reports is stored
      with its prompt in the broker. On error no bytes are kept, and the store is as it was, or the run was created:
      then it is cancelled exactly when a cancel works in the state that the others left, and if not, no run changes. */
  method CreateRunWithPrompt(store: InMemoryExecutionStore, delivery: InMemoryPromptDelivery, run: Run, bytes: Bytes,
                             audit: Envelope, event: EventId, now: Time, meanwhile: seq<Op>, actor: ActorId,
                             later: Time, cancelEvent: EventId)
    returns (r: Result<Run>)
    requires store.Valid() && delivery.Valid() && run.promptSha256 == delivery.broker.sha256(bytes)
    modifies store, delivery
    ensures store.Valid() && delivery.Valid()
    ensures r.Ok? ==> r.value == run && store.runs == old(store.runs)[run.id := run]
    ensures r.Ok? ==> run.id in delivery.entries && delivery.entries[run.id].bytes == bytes
                      && delivery.entries[run.id].digest == run.promptSha256
    ensures r.Err? ==> delivery.entries.Keys <= old(delivery.entries).Keys
    ensures var create := CreateRun(store.h, old(store.View()), run, audit, event);
            && (create.Err? ==> r.Err? && store.View() == old(store.View()))
            && (create.Ok? && r.Err? ==>
                  var s := Play(store.h, create.value.0, OfOthers(meanwhile));
                  && run.id in s.runs && run.id in store.runs
                  && (if CancelWorks(s, run.id, later)
                      then store.runs[run.id].status.Cancelled? && store.runs == s.runs[run.id := store.runs[run.id]]
                      else store.runs == s.runs))
  {
    hide Inv, Evolves, Play, Ends, OfOthers, CancelWorks, StoreState.CreateRun, StoreState.RequestCancel, Run.IsNew;
    ghost var before := store.View();
    var created :- store.CreateRun(run, audit, event);
    CreatedRunIsStored(store.h, before, run, audit, event);
    var registered := delivery.RegisterPrompt(created.id, created.promptSha256, bytes, now);
    if registered.Refused? {
      RunStays(store.h, store.View(), OfOthers(meanwhile), run.id);
      PerformAll(store, meanwhile);
      CancelsOrLeaves(store.h, store.View(), run.id, actor, later, cancelEvent);
      var _ := store.RequestCancel(created.id, actor, later, cancelEvent);
      return Err(Internal);
    }
    return Ok(created);
  }

  // ---------------------------------------------------------------- the gated sections

  /** Who is inside the creation gate, and how far. */
  datatype Section =
    | Open
    | CreateEntered
    | Created(run: Run, bytes: Bytes)
    | MustCancel(id: RunId)
    | ClaimEntered
    | NothingClaimed(now: Time)
    | ClaimedLease(lease: RunLease, now: Time)
    | MustFail(failing: RunLease)

  /** The store, the broker's entries and the gate; then what has happened so far: the runs created by the
      handler, the ones it published and until when, the ones it could not publish, the prompts that were
      delivered, and the latest time the broker has seen. */
  datatype World = World(store: State,
                         prompts: Entries,
                         section: Section,
                         created: set<RunId>,
                         published: map<RunId, Time>,
                         unpublished: set<RunId>,
                         delivered: set<RunId>,
                         latest: Option<Time>)
  {
    predicate Reached(t: Time) {
      latest.Some? && t <= latest.value
    }

    function Seen(now: Time): Option<Time> {
      if latest.None? || latest.value < now then Some(now) else latest
    }
  }

  /** One atomic step: an operation of anyone outside the gate, or a step of the handler or of a worker
      inside it. Every worker claims inside the gate. */
  datatype Step =
    | OtherOp(op: Op)
    | HandlerEnters
    | HandlerCreates(run: Run, bytes: Bytes, audit: Envelope, event: EventId)
    | HandlerRegisters(now: Time)
    | HandlerCancels(actor: ActorId, now: Time, event: EventId)
    | WorkerEnters
    | WorkerClaims(owner: ActorId, now: Time, ttl: int, token: LeaseToken, event: EventId)
    | WorkerPurges
    | WorkerTakes
    | WorkerFails(now: Time, event: EventId)

  ghost predicate Enabled(b: Broker, w: World, step: Step) {
    match step
    case OtherOp(op) => !op.Claim?
    case HandlerEnters => w.section.Open?
    case HandlerCreates(run, bytes, _, _) => w.section.CreateEntered? && run.promptSha256 == b.sha256(bytes)
    case HandlerRegisters(_) => w.section.Created?
    case HandlerCancels(_, _, _) => w.section.MustCancel?
    case WorkerEnters => w.section.Open?
    case WorkerClaims(_, _, _, _, _) => w.section.ClaimEntered?
    case WorkerPurges => w.section.NothingClaimed?
    case WorkerTakes => w.section.ClaimedLease?
    case WorkerFails(_, _) => w.section.MustFail?
  }

  /** The operation that the step makes on the store, if any. */
  ghost function StoreOp(w: World, step: Step): Option<Op>
    requires step.HandlerCancels? ==> w.section.MustCancel?
    requires step.WorkerFails? ==> w.section.MustFail?
  {
    match step
    case OtherOp(op) => Some(op)
    case HandlerCreates(run, _, audit, event) => Some(NewRun(run, audit, event))
    case HandlerCancels(actor, now, event) => Some(Cancel(w.section.id, actor, now, event))
    case WorkerClaims(owner, now, ttl, token, event) => Some(Claim(owner, now, ttl, token, event))
    case WorkerFails(now, event) =>
      var lease := w.section.failing;
      Some(CompleteLeased(lease, lease.run.revision, RunStatus.Failed, Some(MISSING_PROMPT), now, event))
    case _ => None
  }

  /** What the step does beside the store. */
  ghost function Aside(h: Hashes, b: Broker, w: World, step: Step): World
    requires Enabled(b, w, step)
  {
    match step
    case OtherOp(_) => w
    case HandlerEnters => w.(section := CreateEntered)
    case HandlerCreates(run, bytes, audit, event) =>
      if CreateRun(h, w.store, run, audit, event).Ok?
        then w.(section := Created(run, bytes), created := w.created + {run.id})
      else w.(section := Open)
    case HandlerRegisters(now) =>
      var id := w.section.run.id;
      var (prompts, r) := Register(b, w.prompts, id, w.section.run.promptSha256, w.section.bytes, now);
      if r.Done? then w.(prompts := prompts, section := Open, published := w.published[id := r.value],
                         latest := w.Seen(now))
      else w.(prompts := prompts, section := MustCancel(id), unpublished := w.unpublished + {id}, latest := w.Seen(now))
    case HandlerCancels(_, _, _) => w.(section := Open)
    case WorkerEnters => w.(section := ClaimEntered)
    case WorkerClaims(owner, now, ttl, token, event) =>
      (match ClaimNextRun(h, w.store, owner, now, ttl, token, event)
       case Err(_) => w.(section := Open)
       case Ok((_, None)) => w.(section := NothingClaimed(now))
       case Ok((_, Some(lease))) => w.(section := ClaimedLease(lease, now)))
    case WorkerPurges =>
      w.(section := Open, prompts := Purged(w.prompts, w.section.now), latest := w.Seen(w.section.now))
    case WorkerTakes =>
      var lease := w.section.lease;
      var (prompts, r) := Take(w.prompts, lease.run.id, lease.run.promptSha256, w.section.now);
      if r.Done? then w.(prompts := prompts, section := Open, delivered := w.delivered + {lease.run.id},
                         latest := w.Seen(w.section.now))
      else w.(prompts := prompts, section := MustFail(lease), latest := w.Seen(w.section.now))
    case WorkerFails(_, _) => w.(section := Open)
  }

  ghost function After(h: Hashes, b: Broker, w: World, step: Step): World
    requires Enabled(b, w, step)
  {
    var op := StoreOp(w, step);
    Aside(h, b, w, step).(store := if op.Some? then Next(h, w.store, op.value) else w.store)
  }

  // ---------------------------------------------------------------- the invariant

  /** The published prompt of the run is still there, and is the right one. */
  ghost predicate Present(w: World, id: RunId) {
    && id in w.published && id in w.prompts && id in w.store.runs
    && w.prompts[id].expiresAt == w.published[id] && w.prompts[id].digest == w.store.runs[id].promptSha256
  }

  ghost predicate PromptsOk(b: Broker, w: World) {
    && |w.prompts| <= b.capacity
    && (forall id | id in w.prompts :: b.sha256(w.prompts[id].bytes) == w.prompts[id].digest)
    && w.prompts.Keys <= w.published.Keys
  }

  ghost predicate PublishedOk(w: World) {
    && (forall id | id in w.published ::
          id in w.store.runs && (id in w.delivered || w.Reached(w.published[id]) || Present(w, id)))
    && (forall id | id in w.delivered :: id in w.store.runs && !w.store.runs[id].status.Queued?)
  }

  ghost predicate SectionOk(b: Broker, w: World) {
    && (w.section.Created? ==>
          && w.section.run.id in w.store.runs && w.section.run.id !in w.published
          && w.section.run.promptSha256 == w.store.runs[w.section.run.id].promptSha256 == b.sha256(w.section.bytes))
    && (w.section.ClaimedLease? ==>
          && var id := w.section.lease.run.id;
             && id in w.store.runs && !w.store.runs[id].status.Queued? && id !in w.delivered
             && w.section.lease.run.promptSha256 == w.store.runs[id].promptSha256)
    && (forall id | id in w.created :: id in w.store.runs &&
          (id in w.published || id in w.unpublished || (w.section.Created? && w.section.run.id == id)))
  }

  ghost predicate WorldOk(h: Hashes, b: Broker, w: World) {
    Inv(h, w.store) && PromptsOk(b, w) && PublishedOk(w) && SectionOk(b, w)
  }

  // ---------------------------------------------------------------- every step keeps it

  lemma {:induction false} PurgedFits(entries: Entries, now: Time)
    ensures |Purged(entries, now)| <= |entries|
  {
    CardinalityOfPart(Purged(entries, now).Keys, entries.Keys);
    assert |Purged(entries, now)| == |Purged(entries, now).Keys| && |entries| == |entries.Keys|;
  }

  lemma {:induction false} CardinalityOfPart(part: set<RunId>, whole: set<RunId>)
    requires part <= whole
    ensures |part| <= |whole|
  {
    if part != {} {
      var x :| x in part;
      CardinalityOfPart(part - {x}, whole - {x});
    }
  }

  lemma {:induction false} PurgeKeepsPresent(w: World, w': World, now: Time)
    requires PublishedOk(w) && w'.store == w.store && w'.published == w.published && w'.delivered == w.delivered
    requires w'.prompts == Purged(w.prompts, now) && w'.latest == w.Seen(now)
    ensures PublishedOk(w')
  {
    forall id | id in w'.published ensures id in w'.delivered || w'.Reached(w'.published[id]) || Present(w', id) {
      if Present(w, id) && id !in w'.prompts { assert w'.Reached(w.published[id]); }
    }
  }

  lemma {:induction false} PurgeKeeps(b: Broker, w: World, now: Time)
    requires PromptsOk(b, w) && PublishedOk(w)
    ensures var purged := w.(prompts := Purged(w.prompts, now), latest := w.Seen(now));
            PromptsOk(b, purged) && PublishedOk(purged)
  {
    PurgedFits(w.prompts, now);
    PurgeKeepsPresent(w, w.(prompts := Purged(w.prompts, now), latest := w.Seen(now)), now);
  }

  /** Later runs of the store are the same runs, moved on. */
  ghost predicate RunsKept(s: State, s': State) {
    forall id | id in s.runs ::
      id in s'.runs && s'.runs[id].promptSha256 == s.runs[id].promptSha256
        && (s'.runs[id].status.Queued? ==> s.runs[id].status.Queued?)
  }

  lemma {:induction false} StepKeepsRuns(h: Hashes, w: World, op: Op)
    requires Inv(h, w.store)
    ensures Inv(h, Next(h, w.store, op)) && RunsKept(w.store, Next(h, w.store, op))
  {
    EveryOperationKeepsTheInvariant(h, w.store, op);
    hide Next, Inv;
    var s' := Next(h, w.store, op);
    forall id | id in w.store.runs
      ensures id in s'.runs && s'.runs[id].promptSha256 == w.store.runs[id].promptSha256
      ensures s'.runs[id].status.Queued? ==> w.store.runs[id].status.Queued?
    {
      assert RunEvolves(w.store.runs[id], s'.runs[id]);
    }
  }

  /** Moving the store alone keeps everything beside it. */
  lemma {:induction false} MovingStoreKeeps(b: Broker, w: World, s': State)
    requires RunsKept(w.store, s') && PromptsOk(b, w) && PublishedOk(w) && SectionOk(b, w)
    ensures PromptsOk(b, w.(store := s')) && PublishedOk(w.(store := s')) && SectionOk(b, w.(store := s'))
  {
    var w' := w.(store := s');
    forall id | id in w'.published
      ensures id in s'.runs && (id in w'.delivered || w'.Reached(w'.published[id]) || Present(w', id))
    {
      if Present(w, id) { assert Present(w', id); }
    }
  }

  /** Publication does not depend on who is inside the gate. */
  lemma {:induction false} BesideOk(b: Broker, w: World, w': World)
    requires PromptsOk(b, w) && PublishedOk(w)
    requires w' == w.(section := w'.section, created := w'.created, unpublished := w'.unpublished)
    ensures PromptsOk(b, w') && PublishedOk(w')
  {
    forall id | id in w'.published
      ensures id in w'.store.runs && (id in w'.delivered || w'.Reached(w'.published[id]) || Present(w', id))
    {
      if Present(w, id) { assert Present(w', id); }
    }
  }

  /** Publishing one more prompt. */
  lemma {:induction false} PublishIsOk(b: Broker, w: World, w': World, id: RunId, prompt: StoredPrompt)
    requires PromptsOk(b, w) && PublishedOk(w) && id in w.store.runs && id !in w.published && |w.prompts| < b.capacity
    requires b.sha256(prompt.bytes) == prompt.digest == w.store.runs[id].promptSha256
    requires w' == w.(prompts := w.prompts[id := prompt], published := w.published[id := prompt.expiresAt])
    ensures PromptsOk(b, w') && PublishedOk(w')
  {
    assert |w'.prompts| == |w.prompts| + 1;
    forall x | x in w'.published
      ensures x in w'.store.runs && (x in w'.delivered || w'.Reached(w'.published[x]) || Present(w', x))
    {
      if x == id || Present(w, x) { assert Present(w', x); }
    }
  }

  lemma {:induction false} SeenKeepsPublished(b: Broker, w: World, now: Time)
    requires PromptsOk(b, w) && PublishedOk(w)
    ensures PromptsOk(b, w.(latest := w.Seen(now))) && PublishedOk(w.(latest := w.Seen(now)))
  {
    var w' := w.(latest := w.Seen(now));
    forall x | x in w'.published
      ensures x in w'.store.runs && (x in w'.delivered || w'.Reached(w'.published[x]) || Present(w', x))
    {
      if Present(w, x) { assert Present(w', x); }
    }
  }

  lemma {:induction false} RegisteredIsOk(h: Hashes, b: Broker, w: World, now: Time)
    requires PromptsOk(b, w) && PublishedOk(w) && SectionOk(b, w) && w.section.Created?
    requires Register(b, w.prompts, w.section.run.id, w.section.run.promptSha256, w.section.bytes, now).1.Done?
    ensures var w' := Aside(h, b, w, HandlerRegisters(now)); PromptsOk(b, w') && PublishedOk(w') && SectionOk(b, w')
  {
    hide PublishedOk, PromptsOk, Purged, CreateRun, ClaimNextRun, Take;
    var id := w.section.run.id;
    var purged := w.(prompts := Purged(w.prompts, now), latest := w.Seen(now));
    PurgeKeeps(b, w, now);
    var prompt := StoredPrompt(w.section.run.promptSha256, now + b.ttl, w.section.bytes);
    var published := purged.(prompts := purged.prompts[id := prompt], published := w.published[id := prompt.expiresAt]);
    PublishIsOk(b, purged, published, id, prompt);
    BesideOk(b, published, Aside(h, b, w, HandlerRegisters(now)));
  }

  lemma {:induction false} RefusedIsOk(h: Hashes, b: Broker, w: World, now: Time)
    requires PromptsOk(b, w) && PublishedOk(w) && SectionOk(b, w) && w.section.Created?
    requires Register(b, w.prompts, w.section.run.id, w.section.run.promptSha256, w.section.bytes, now).1.Refused?
    ensures var w' := Aside(h, b, w, HandlerRegisters(now)); PromptsOk(b, w') && PublishedOk(w') && SectionOk(b, w')
  {
    hide PublishedOk, PromptsOk, Purged, CreateRun, ClaimNextRun, Take;
    var w' := Aside(h, b, w, HandlerRegisters(now));
    PurgeKeeps(b, w, now);
    SeenKeepsPublished(b, w, now);
    var seen := w.(latest := w.Seen(now));
    BesideOk(b, if w'.prompts == w.prompts then seen else seen.(prompts := Purged(w.prompts, now)), w');
  }

  lemma {:induction false} RegisterIsOk(h: Hashes, b: Broker, w: World, now: Time)
    requires PromptsOk(b, w) && PublishedOk(w) && SectionOk(b, w) && w.section.Created?
    ensures var w' := Aside(h, b, w, HandlerRegisters(now)); PromptsOk(b, w') && PublishedOk(w') && SectionOk(b, w')
  {
    hide PublishedOk, PromptsOk, SectionOk, Aside, Register;
    if Register(b, w.prompts, w.section.run.id, w.section.run.promptSha256, w.section.bytes, now).1.Done? {
      RegisteredIsOk(h, b, w, now);
    } else {
      RefusedIsOk(h, b, w, now);
    }
  }

  /** Delivering one prompt. */
  lemma {:induction false} DeliverIsOk(b: Broker, w: World, w': World, id: RunId)
    requires PromptsOk(b, w) && PublishedOk(w) && id in w.store.runs && !w.store.runs[id].status.Queued?
    requires w' == w.(prompts := w.prompts - {id}, delivered := w.delivered + {id})
    ensures PromptsOk(b, w') && PublishedOk(w')
  {
    CardinalityOfPart(w'.prompts.Keys, w.prompts.Keys);
    assert |w'.prompts| == |w'.prompts.Keys| && |w.prompts| == |w.prompts.Keys|;
    forall x | x in w'.published
      ensures x in w'.store.runs && (x in w'.delivered || w'.Reached(w'.published[x]) || Present(w', x))
    {
      if x !in w'.delivered && Present(w, x) { assert Present(w', x); }
    }
  }

  lemma {:induction false} TakeIsOk(h: Hashes, b: Broker, w: World)
    requires PromptsOk(b, w) && PublishedOk(w) && SectionOk(b, w) && w.section.ClaimedLease?
    ensures var w' := Aside(h, b, w, WorkerTakes); PromptsOk(b, w') && PublishedOk(w') && SectionOk(b, w')
  {
    hide PublishedOk, PromptsOk, Purged, CreateRun, ClaimNextRun;
    var w' := Aside(h, b, w, WorkerTakes);
    var id, now := w.section.lease.run.id, w.section.now;
    var purged := w.(prompts := Purged(w.prompts, now), latest := w.Seen(now));
    PurgeKeeps(b, w, now);
    if Take(w.prompts, id, w.section.lease.run.promptSha256, now).1.Done? {
      var delivered := purged.(prompts := purged.prompts - {id}, delivered := w.delivered + {id});
      DeliverIsOk(b, purged, delivered, id);
      BesideOk(b, delivered, w');
    } else {
      BesideOk(b, purged, w');
    }
  }

  lemma {:induction false} PurgeIsOk(h: Hashes, b: Broker, w: World)
    requires PromptsOk(b, w) && PublishedOk(w) && SectionOk(b, w) && w.section.NothingClaimed?
    ensures var w' := Aside(h, b, w, WorkerPurges); PromptsOk(b, w') && PublishedOk(w') && SectionOk(b, w')
  {
    hide PublishedOk, PromptsOk, Purged, CreateRun, ClaimNextRun;
    var w' := Aside(h, b, w, WorkerPurges);
    var now := w.section.now;
    PurgeKeeps(b, w, now);
    BesideOk(b, w.(prompts := Purged(w.prompts, now), latest := w.Seen(now)), w');
  }

  lemma {:induction false} CreationIsFresh(h: Hashes, s: State, run: Run, audit: Envelope, event: EventId)
    requires CreateRun(h, s, run, audit, event).Ok?
    ensures run.id !in s.runs
    ensures run.id in Next(h, s, NewRun(run, audit, event)).runs
            && Next(h, s, NewRun(run, audit, event)).runs[run.id] == run
  {
  }

  lemma {:induction false} CreateIsOk(h: Hashes, b: Broker, w: World, step: Step)
    requires WorldOk(h, b, w) && step.HandlerCreates? && Enabled(b, w, step)
    ensures var w' := After(h, b, w, step); PromptsOk(b, w') && PublishedOk(w') && SectionOk(b, w')
  {
    hide Inv, Next, PromptsOk, CreateRun, Present;
    var op := NewRun(step.run, step.audit, step.event);
    StepKeepsRuns(h, w, op);
    var moved := w.(store := Next(h, w.store, op));
    MovingStoreKeeps(b, w, moved.store);
    BesideOk(b, moved, After(h, b, w, step));
    if CreateRun(h, w.store, step.run, step.audit, step.event).Ok? {
      CreationIsFresh(h, w.store, step.run, step.audit, step.event);
    }
  }

  /** A claimed run was queued, so its prompt has not been delivered before. */
  lemma {:induction false} ClaimedIsUndelivered(h: Hashes, w: World, op: Op, id: RunId)
    requires Inv(h, w.store) && PublishedOk(w) && GrantsLease(h, w.store, op, id)
    ensures id !in w.delivered && id in Next(h, w.store, op).runs && !Next(h, w.store, op).runs[id].status.Queued?
    ensures id in Next(h, w.store, op).leases && Next(h, w.store, op).leases[id].run == Next(h, w.store, op).runs[id]
  {
    hide Inv, Next, GrantsLease;
    ClaimTakesNextInQueue(h, w.store, op, id);
  }

  lemma {:induction false} ClaimIsOk(h: Hashes, b: Broker, w: World, step: Step)
    requires WorldOk(h, b, w) && step.WorkerClaims? && Enabled(b, w, step)
    ensures var w' := After(h, b, w, step); PromptsOk(b, w') && PublishedOk(w') && SectionOk(b, w')
  {
    hide Inv, PromptsOk, PublishedOk;
    var op := Claim(step.owner, step.now, step.ttl, step.token, step.event);
    StepKeepsRuns(h, w, op);
    var moved := w.(store := Next(h, w.store, op));
    MovingStoreKeeps(b, w, moved.store);
    BesideOk(b, moved, After(h, b, w, step));
    var r := ClaimNextRun(h, w.store, step.owner, step.now, step.ttl, step.token, step.event);
    if r.Ok? && r.value.1.Some? {
      ClaimedIsUndelivered(h, w, op, r.value.1.value.run.id);
      LeaseIsStored(h, w.store, op, r.value.1.value);
    }
  }

  /** The lease a claim returns is the one it stores. */
  lemma {:induction false} LeaseIsStored(h: Hashes, s: State, op: Op, lease: RunLease)
    requires op.Claim? && Value(ClaimNextRun(h, s, op.owner, op.now, op.ttl, op.token, op.event)) == Ok(Some(lease))
    requires Inv(h, s)
    ensures lease.run.id in Next(h, s, op).leases && Next(h, s, op).leases[lease.run.id] == lease
  {
    hide Inv, ChainOk, ReceiptsOk;
    RunAndChain(h, s, NextInQueue(s).value);
  }

  lemma {:induction false} OtherStepIsOk(h: Hashes, b: Broker, w: World, step: Step)
    requires WorldOk(h, b, w) && Enabled(b, w, step) && (step.OtherOp? || step.HandlerCancels? || step.WorkerFails?)
    ensures var w' := After(h, b, w, step); PromptsOk(b, w') && PublishedOk(w') && SectionOk(b, w')
  {
    hide Inv, Next, PromptsOk, PublishedOk;
    var op := StoreOp(w, step).value;
    StepKeepsRuns(h, w, op);
    var aside := Aside(h, b, w, step);
    if !step.OtherOp? { SameBeside(b, w, aside); }
    MovingStoreKeeps(b, aside, Next(h, w.store, op));
  }

  lemma {:induction false} SameBeside(b: Broker, w: World, w': World)
    requires PromptsOk(b, w) && PublishedOk(w) && SectionOk(b, w) && !w'.section.Created? && !w'.section.ClaimedLease?
    requires w' == w.(section := w'.section) && !w.section.Created?
    ensures PromptsOk(b, w') && PublishedOk(w') && SectionOk(b, w')
  {
    forall id | id in w'.published
      ensures id in w'.store.runs && (id in w'.delivered || w'.Reached(w'.published[id]) || Present(w', id))
    {
      if Present(w, id) { assert Present(w', id); }
    }
  }

  lemma {:induction false} EnterIsOk(h: Hashes, b: Broker, w: World, step: Step)
    requires PromptsOk(b, w) && PublishedOk(w) && SectionOk(b, w) && Enabled(b, w, step)
             && (step.HandlerEnters? || step.WorkerEnters?)
    ensures var w' := After(h, b, w, step); PromptsOk(b, w') && PublishedOk(w') && SectionOk(b, w')
  {
    hide PublishedOk, PromptsOk, Next;
    SameBeside(b, w, Aside(h, b, w, step));
  }

  lemma {:induction false} AsideIsAfter(h: Hashes, b: Broker, w: World, step: Step)
    requires Enabled(b, w, step) && StoreOp(w, step).None?
    ensures After(h, b, w, step) == Aside(h, b, w, step) && After(h, b, w, step).store == w.store
  {
    hide Next;
  }

  lemma {:induction false} StoreStays(h: Hashes, b: Broker, w: World, step: Step)
    requires Inv(h, w.store) && Enabled(b, w, step)
    ensures Inv(h, After(h, b, w, step).store) && RunsKept(w.store, After(h, b, w, step).store)
  {
    hide Inv, Next;
    if StoreOp(w, step).Some? { StepKeepsRuns(h, w, StoreOp(w, step).value); }
  }

  lemma {:induction false} EveryStepIsOk(h: Hashes, b: Broker, w: World, step: Step)
    requires WorldOk(h, b, w) && Enabled(b, w, step)
    ensures WorldOk(h, b, After(h, b, w, step))
  {
    hide Inv, Next, PromptsOk, PublishedOk, SectionOk, After, Aside;
    StoreStays(h, b, w, step);
    match step
    case OtherOp(_) => OtherStepIsOk(h, b, w, step);
    case HandlerEnters => EnterIsOk(h, b, w, step);
    case HandlerCreates(_, _, _, _) => CreateIsOk(h, b, w, step);
    case HandlerRegisters(now) => RegisterIsOk(h, b, w, now); AsideIsAfter(h, b, w, step);
    case HandlerCancels(_, _, _) => OtherStepIsOk(h, b, w, step);
    case WorkerEnters => EnterIsOk(h, b, w, step);
    case WorkerClaims(_, _, _, _, _) => ClaimIsOk(h, b, w, step);
    case WorkerPurges => PurgeIsOk(h, b, w); AsideIsAfter(h, b, w, step);
    case WorkerTakes => TakeIsOk(h, b, w); AsideIsAfter(h, b, w, step);
    case WorkerFails(_, _) => OtherStepIsOk(h, b, w, step);
  }

  // ---------------------------------------------------------------- all interleavings

  datatype Interleaving = Interleaving(worlds: seq<World>, steps: seq<Step>)
  {
    ghost predicate StepAt(h: Hashes, b: Broker, i: nat)
      requires i + 1 < |worlds| && i < |steps|
    {
      Enabled(b, worlds[i], steps[i]) && worlds[i + 1] == After(h, b, worlds[i], steps[i])
    }

    ghost predicate IsRun(h: Hashes, b: Broker) {
      && |worlds| == |steps| + 1 && worlds[0] == World(EMPTY, map[], Open, {}, map[], {}, {}, None)
      && forall i | 0 <= i < |steps| :: StepAt(h, b, i)
    }
  }

  lemma {:induction false} EveryInterleavingIsOk(h: Hashes, b: Broker, t: Interleaving, i: nat)
    requires t.IsRun(h, b) && i < |t.worlds|
    ensures WorldOk(h, b, t.worlds[i])
  {
    hide Inv, After;
    if i == 0 {
      EmptyIsValid(h);
    } else {
      hide WorldOk;
      EveryInterleavingIsOk(h, b, t, i - 1);
      assert t.StepAt(h, b, i - 1);
      EveryStepIsOk(h, b, t.worlds[i - 1], t.steps[i - 1]);
    }
  }

  /** The broker never holds more prompts than its capacity, and never the wrong bytes. */
  lemma {:induction false} BrokerStaysBounded(h: Hashes, b: Broker, t: Interleaving, i: nat, id: RunId)
    requires t.IsRun(h, b) && i < |t.worlds|
    ensures |t.worlds[i].prompts| <= b.capacity
    ensures id in t.worlds[i].prompts ==> b.sha256(t.worlds[i].prompts[id].bytes) == t.worlds[i].prompts[id].digest
  {
    hide Inv, Interleaving.StepAt;
    EveryInterleavingIsOk(h, b, t, i);
  }

  /** Step `i` delivers a prompt with a lease: the only way `claim_with_prompt` returns one. */
  ghost predicate Delivers(t: Interleaving, i: nat)
    requires i < |t.steps| && i < |t.worlds|
  {
    && t.steps[i].WorkerTakes? && t.worlds[i].section.ClaimedLease?
    && var lease := t.worlds[i].section.lease;
       Take(t.worlds[i].prompts, lease.run.id, lease.run.promptSha256, t.worlds[i].section.now).1.Done?
  }

  /** A delivered prompt is unexpired and hashes to the digest of the leased run. */
  lemma {:induction false} DeliveredPromptMatches(h: Hashes, b: Broker, t: Interleaving, i: nat)
    requires t.IsRun(h, b) && i < |t.steps| && Delivers(t, i)
    ensures var w := t.worlds[i];
            var lease := w.section.lease;
            && b.sha256(Take(w.prompts, lease.run.id, lease.run.promptSha256,
                             w.section.now).1.value) == lease.run.promptSha256
            && lease.run.id in w.prompts && w.section.now < w.prompts[lease.run.id].expiresAt
            && lease.run.id in w.store.runs && lease.run.promptSha256 == w.store.runs[lease.run.id].promptSha256
  {
    hide Inv, Interleaving.StepAt;
    EveryInterleavingIsOk(h, b, t, i);
  }

  lemma {:induction false} DeliveredStays(h: Hashes, b: Broker, t: Interleaving, i: nat, j: nat, id: RunId)
    requires t.IsRun(h, b) && i <= j < |t.worlds| && id in t.worlds[i].delivered
    ensures id in t.worlds[j].delivered
  {
    if i < j {
      DeliveredStays(h, b, t, i, j - 1, id);
      hide Next, ClaimNextRun, CreateRun, Register, Take;
      assert t.StepAt(h, b, j - 1);
    }
  }

  lemma {:induction false} DeliveryIsRecorded(h: Hashes, b: Broker, t: Interleaving, i: nat)
    requires t.IsRun(h, b) && i < |t.steps| && Delivers(t, i)
    ensures t.worlds[i].section.lease.run.id in t.worlds[i + 1].delivered
            && t.worlds[i].section.lease.run.id !in t.worlds[i].delivered
  {
    hide Inv, Next, ClaimNextRun, CreateRun, Register, Take;
    assert t.StepAt(h, b, i);
    EveryInterleavingIsOk(h, b, t, i);
  }

  /** A run's prompt is delivered at most once. */
  lemma {:induction false} DeliveredAtMostOnce(h: Hashes, b: Broker, t: Interleaving, i: nat, j: nat)
    requires t.IsRun(h, b) && i < |t.steps| && j < |t.steps| && Delivers(t, i) && Delivers(t, j)
    requires t.worlds[i].section.lease.run.id == t.worlds[j].section.lease.run.id
    ensures i == j
  {
    hide Interleaving.StepAt;
    DeliveryIsRecorded(h, b, t, i);
    DeliveryIsRecorded(h, b, t, j);
    var id := t.worlds[i].section.lease.run.id;
    if i < j { DeliveredStays(h, b, t, i + 1, j, id); }
    if j < i { DeliveredStays(h, b, t, j + 1, i, id); }
  }

  /** A claimed run whose prompt was published gets it, unless its time had come at this or an earlier
      step of the broker. */
  lemma {:induction false} PublishedPromptIsDelivered(h: Hashes, b: Broker, t: Interleaving, i: nat)
    requires t.IsRun(h, b) && i < |t.steps| && t.steps[i].WorkerTakes? && t.worlds[i].section.ClaimedLease?
    requires var id := t.worlds[i].section.lease.run.id;
             && id in t.worlds[i].published && t.worlds[i].section.now < t.worlds[i].published[id]
             && !t.worlds[i].Reached(t.worlds[i].published[id])
    ensures Delivers(t, i)
  {
    hide Inv, Interleaving.StepAt;
    EveryInterleavingIsOk(h, b, t, i);
    assert Present(t.worlds[i], t.worlds[i].section.lease.run.id);
  }
}
