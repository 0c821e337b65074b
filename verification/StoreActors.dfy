/** Other actors of the store: any sequence of operations, performed on the store object. */
module StoreActors {
  import opened Records
  import opened AuditChain
  import opened StoreState
  import opened StoreInvariant
  import opened History
  import opened ExecutionStore

  /** Performs one operation of another actor. */
  method Perform(store: InMemoryExecutionStore, op: Op)
    requires store.Valid()
    modifies store
    ensures store.Valid() && store.View() == Next(store.h, old(store.View()), op)
    ensures Evolves(old(store.View()), store.View())
  {
    hide Inv, Evolves, StoreState.CreateRun, StoreState.TransitionRun, StoreState.AppendAudit,
      StoreState.ReconcileExecution, StoreState.RecordArtifacts, StoreState.ClaimNextRun, StoreState.HeartbeatLease,
      StoreState.TransitionLeasedRun, StoreState.CompleteLeasedRun, StoreState.AppendLeasedAudit,
      StoreState.RecordLeasedArtifacts, StoreState.ConfirmCancel, StoreState.RequestCancel,
      StoreState.RecoverExpiredLeases, StoreState.CreateApproval, StoreState.DecideApproval, StoreState.ExpireApproval,
      StoreState.ConsumeApproval, VerifyCancellation, Follows;
    ghost var before := store.View();
    EveryOperationKeepsTheInvariant(store.h, before, op);
    FollowsIsValid(store.h, before, Next(store.h, before, op));
    match op
    case NewRun(run, audit, event) => var _ := store.CreateRun(run, audit, event);
    case MoveRun(id, expected, next, reason, audit, event) =>
      var _ := store.TransitionRun(id, expected, next, reason, audit, event);
    case Audit(id, kind, audit, event) => var _ := store.AppendAudit(id, kind, audit, event);
    case Reconcile(receipt, audit, event) => var _ := store.ReconcileExecution(receipt, audit, event);
    case StoreArtifacts(id, batch, audit, events) => var _ := store.RecordArtifacts(id, batch, audit, events);
    case Claim(owner, now, ttl, token, event) => var _ := store.ClaimNextRun(owner, now, ttl, token, event);
    case Heartbeat(lease, now, ttl) => var _ := store.HeartbeatLease(lease, now, ttl);
    case MoveLeased(lease, expected, next, now, event) =>
      var _ := store.TransitionLeasedRun(lease, expected, next, now, event);
    case CompleteLeased(lease, expected, next, reason, now, event) =>
      var _ := store.CompleteLeasedRun(lease, expected, next, reason, now, event);
    case AuditLeased(lease, expected, kind, now, event) =>
      var _ := store.AppendLeasedAudit(lease, expected, kind, now, event);
    case StoreLeasedArtifacts(lease, expected, batch, now, events) =>
      var _ := store.RecordLeasedArtifacts(lease, expected, batch, now, events);
    case AskCancelled(_, _) =>
    case Confirm(lease, now, observed, result, event) =>
      var evidence := VerifyCancellation(observed, result);
      if evidence.Ok? { var _ := store.ConfirmCancel(lease, now, evidence.value, event); }
    case Cancel(id, actor, now, event) => var _ := store.RequestCancel(id, actor, now, event);
    case Recover(actor, now, events) => var _ := store.RecoverExpiredLeases(actor, now, events);
    case RequestApproval(request, actor, now, event) => var _ := store.CreateApproval(request, actor, now, event);
    case Decide(approval, expected, decision, actor, reason, now, event) =>
      var _ := store.DecideApproval(approval, expected, decision, actor, reason, now, event);
    case Expire(approval, expected, actor, now, event) =>
      var _ := store.ExpireApproval(approval, expected, actor, now, event);
    case Consume(approval, expected, action, actor, now, events) =>
      var _ := store.ConsumeApproval(approval, expected, action, actor, now, events);
  }

  lemma {:induction false} FollowsIsValid(h: Hashes, s: State, s': State)
    requires Follows(h, s, s')
    ensures Inv(h, s') && Evolves(s, s')
  {
  }

  // ---------------------------------------------------------------- replaying what was done

  /** An operation of the component in question, or of anyone else. */
  datatype Move = Mine(op: Op) | Theirs(op: Op)

  /** The state that the moves lead to. */
  ghost function Play(h: Hashes, s: State, moves: seq<Move>): State {
    if moves == [] then s
    else
      var n := |moves| - 1;
      Next(h, Play(h, s, moves[..n]), moves[n].op)
  }

  /** The run that a move of the component itself ends, if it does. */
  ghost function EndedBy(h: Hashes, s: State, move: Move): seq<Run> {
    if move.Theirs? || !Succeeds(h, s, move.op) then []
    else match move.op
         case CompleteLeased(lease, expected, next, reason, now, event) =>
           [CompleteLeasedRun(h, s, lease, expected, next, reason, now, event).value.1]
         case Confirm(lease, now, observed, result, event) =>
           [ConfirmCancel(h, s, lease, now, VerifyCancellation(observed, result).value, event).value.1]
         case _ => []
  }

  /** All the runs that the component itself ends along the moves. */
  ghost function Ends(h: Hashes, s: State, moves: seq<Move>): seq<Run> {
    if moves == [] then []
    else
      var n := |moves| - 1;
      Ends(h, s, moves[..n]) + EndedBy(h, Play(h, s, moves[..n]), moves[n])
  }

  /** The state of the store, what has been done to it and what the component itself has ended. */
  datatype Books = Books(state: State, log: seq<Move>, ends: seq<Run>)

  /** The later books are the earlier ones carried on: the log is longer, its new moves lead from the one state to
      the other, and the runs ended meanwhile are the ones those moves end. */
  ghost predicate Played(h: Hashes, a: Books, b: Books) {
    && a.log <= b.log
    && var moves := b.log[|a.log|..]; b.state == Play(h, a.state, moves) && b.ends == a.ends + Ends(h, a.state, moves)
  }

  lemma {:induction false} PlayedItself(h: Hashes, a: Books)
    ensures Played(h, a, a)
  {
    assert a.log[|a.log|..] == [];
    assert a.ends + [] == a.ends;
  }

  lemma {:induction false} PlayConcat(h: Hashes, s: State, a: seq<Move>, b: seq<Move>)
    ensures Play(h, s, a + b) == Play(h, Play(h, s, a), b)
    ensures Ends(h, s, a + b) == Ends(h, s, a) + Ends(h, Play(h, s, a), b)
  {
    hide Next, EndedBy;
    if b == [] {
      assert a + b == a;
    } else {
      var n := |b| - 1;
      PlayConcat(h, s, a, b[..n]);
      assert (a + b)[..|a + b| - 1] == a + b[..n];
    }
  }

  lemma {:induction false} PlayedOn(h: Hashes, a: Books, b: Books, c: Books)
    requires Played(h, a, b) && Played(h, b, c)
    ensures Played(h, a, c)
  {
    hide Play, Ends;
    var first, second := b.log[|a.log|..], c.log[|b.log|..];
    PlayConcat(h, a.state, first, second);
    assert c.log[|a.log|..] == first + second;
  }

  /** One more operation of the component itself. */
  lemma {:induction false} PlayedMine(h: Hashes, a: Books, b: Books, op: Op, c: Books)
    requires Played(h, a, b) && c.state == Next(h, b.state, op) && c.log == b.log + [Mine(op)]
    requires c.ends == b.ends + EndedBy(h, b.state, Mine(op))
    ensures Played(h, a, c)
  {
    hide Next, EndedBy;
    var moves := c.log[|b.log|..];
    assert moves == [Mine(op)] && moves[..0] == [];
    assert Play(h, b.state, []) == b.state && Ends(h, b.state, []) == [];
    assert Ends(h, b.state, moves) == EndedBy(h, b.state, Mine(op));
    assert Played(h, b, c);
    PlayedOn(h, a, b, c);
  }

  lemma {:induction false} PlayFollows(h: Hashes, s: State, moves: seq<Move>)
    requires Inv(h, s)
    ensures Follows(h, s, Play(h, s, moves))
  {
    hide Inv, Evolves, Follows, Next;
    if moves == [] {
      FollowsItself(h, s);
    } else {
      var n := |moves| - 1;
      PlayFollows(h, s, moves[..n]);
      var before := Play(h, s, moves[..n]);
      FollowsIsValid(h, s, before);
      EveryOperationKeepsTheInvariant(h, before, moves[n].op);
      FollowsOn(h, s, before, Next(h, before, moves[n].op));
    }
  }

  lemma {:induction false} PlayedFollows(h: Hashes, a: Books, b: Books)
    requires Inv(h, a.state) && Played(h, a, b)
    ensures Follows(h, a.state, b.state)
  {
    hide Inv, Follows, Play, Ends;
    PlayFollows(h, a.state, b.log[|a.log|..]);
  }

  ghost function OfOthers(ops: seq<Op>): seq<Move> {
    seq(|ops|, i requires 0 <= i < |ops| => Theirs(ops[i]))
  }

  /** Performs any operations of other actors, in order. */
  method PerformAll(store: InMemoryExecutionStore, ops: seq<Op>)
    requires store.Valid()
    modifies store
    ensures store.Valid() && store.View() == Play(store.h, old(store.View()), OfOthers(ops))
    ensures Ends(store.h, old(store.View()), OfOthers(ops)) == []
  {
    hide Inv, Evolves, Next;
    for i := 0 to |ops|
      invariant store.Valid() && store.View() == Play(store.h, old(store.View()), OfOthers(ops[..i]))
      invariant Ends(store.h, old(store.View()), OfOthers(ops[..i])) == []
    {
      assert OfOthers(ops[..i + 1])[..i] == OfOthers(ops[..i]) && OfOthers(ops[..i + 1])[i] == Theirs(ops[i]);
      Perform(store, ops[i]);
    }
    assert ops[..|ops|] == ops;
  }
}
